/**
 * The handlers that only read the session: the dashboard (`index`), the
 * seven permission-gated workflow views, `settings`, and the page
 * `select_category` renders.
 */
module Views {
  import opened Wrappers
  import opened Tables
  import opened Http
  import opened Gates

  /** The permission string each workflow view checks. */
  function RequiredPermission(v: View): (p: string)
    ensures p in USER_ROLES["legal"].permissions
  {
    match v
    case AgreementReplication => "agreement_replication"
    case CreateAgreement => "create_agreement"
    case ContractQa => "contract_qa"
    case TermSheet => "term_sheet"
    case FinancialAnalysis => "financial_analysis"
    case KnowledgeBase => "knowledge_base"
    case Upload => "upload"
  }

  /** Whether the session's user has a role whose permission list holds the view's permission. */
  predicate Granted(s: SessionState, v: View): (b: bool)
    ensures b ==> s.userId.Some? && CurrentUser(s).Some?
    ensures b ==> RequiredPermission(v) in USER_ROLES[CurrentUser(s).value.role].permissions
  {
    CurrentUserRole(s).Some? && RequiredPermission(v) in CurrentUserRole(s).value.1.permissions
  }

  /** The category record of the session's stored category id, if the id names one. */
  function SessionCategory(s: SessionState): (r: Option<Category>)
    ensures r.Some? ==> r.value in PRODUCT_CATEGORIES && s.productCategory == Some(r.value.id)
    ensures r.None? <==> s.productCategory.None? || CategoryById(s.productCategory.value).None?
    ensures r.Some? <==> IsCategoryId(s.productCategory)
  {
    if s.productCategory.Some? then CategoryById(s.productCategory.value) else None
  }

  /** `index`: login gate, then its own category check (without a flash), then the dashboard. */
  function Index(s: SessionState): (r: Response)
    ensures s.userId.None? ==> r == Redirect(ToLogin, None)
    ensures s.userId.Some? && s.productCategory.None? ==> r == Redirect(ToSelectCategory, None)
    ensures r.Render? <==> s.userId.Some? && s.productCategory.Some? && CurrentUserRole(s).Some?
    ensures r.Render? ==> r == Render(DashboardPage,
      Some(Context(CurrentUserRole(s).value.0, CurrentUserRole(s).value.1, SessionCategory(s), [])), None)
    ensures s.userId.Some? && s.productCategory.Some? && CurrentUserRole(s).None? ==> r == ServerError
  {
    match LoginRequired(s)
    case Some(stop) => stop
    case None =>
      if s.productCategory.None? then Redirect(ToSelectCategory, None)
      else match CurrentUserRole(s)
        case None => ServerError
        case Some((user, role)) => Render(DashboardPage, Some(Context(user, role, SessionCategory(s), [])), None)
  }

  /**
   * A workflow view: both decorators, then the permission check (redirect to
   * the dashboard with an error when it fails), then the page; only the
   * agreement-replication page gets the state list.
   */
  function WorkflowView(s: SessionState, v: View): (r: Response)
    ensures s.userId.None? ==> r == Redirect(ToLogin, None)
    ensures s.userId.Some? && s.productCategory.None? ==> r == Redirect(ToSelectCategory, Some(SELECT_CATEGORY_FIRST))
    ensures r.Render? <==> Guard(s).None? && Granted(s, v)
    ensures r.Render? ==> r == Render(WorkflowPage(v),
      Some(Context(CurrentUserRole(s).value.0, CurrentUserRole(s).value.1, SessionCategory(s),
                   if v == AgreementReplication then US_STATES else [])), None)
    ensures Guard(s).None? && CurrentUserRole(s).Some? && !Granted(s, v) ==> r == Redirect(ToIndex, Some(ACCESS_DENIED))
    ensures Guard(s).None? && CurrentUserRole(s).None? ==> r == ServerError
  {
    match Guard(s)
    case Some(stop) => stop
    case None =>
      match CurrentUserRole(s)
      case None => ServerError
      case Some((user, role)) =>
        if RequiredPermission(v) !in role.permissions then Redirect(ToIndex, Some(ACCESS_DENIED))
        else Render(WorkflowPage(v),
          Some(Context(user, role, SessionCategory(s), if v == AgreementReplication then US_STATES else [])), None)
  }

  /** `settings`: login gate only; the category is shown when one is stored. */
  function Settings(s: SessionState): (r: Response)
    ensures s.userId.None? ==> r == Redirect(ToLogin, None)
    ensures r.Render? <==> s.userId.Some? && CurrentUserRole(s).Some?
    ensures r.Render? ==> r == Render(SettingsPage,
      Some(Context(CurrentUserRole(s).value.0, CurrentUserRole(s).value.1, SessionCategory(s), [])), None)
    ensures s.userId.Some? && CurrentUserRole(s).None? ==> r == ServerError
  {
    match LoginRequired(s)
    case Some(stop) => stop
    case None =>
      match CurrentUserRole(s)
      case None => ServerError
      case Some((user, role)) => Render(SettingsPage, Some(Context(user, role, SessionCategory(s), [])), None)
  }

  /** The category-selection page `select_category` renders on a GET or after a rejected POST. */
  function CategoryForm(s: SessionState, notice: Option<Notice>): (r: Response)
    ensures r.Render? <==> CurrentUserRole(s).Some?
    ensures r.Render? ==> r == Render(CategoryPage,
      Some(Context(CurrentUserRole(s).value.0, CurrentUserRole(s).value.1, None, [])), notice)
    ensures !r.Render? ==> r == ServerError
  {
    match CurrentUserRole(s)
    case None => ServerError
    case Some((user, role)) => Render(CategoryPage, Some(Context(user, role, None, [])), notice)
  }

  /** Legal holds every workflow permission; business only contract Q&A, knowledge base and upload; finance adds financial analysis. */
  lemma PermissionTable(v: View)
    ensures RequiredPermission(v) in USER_ROLES["legal"].permissions
    ensures RequiredPermission(v) in USER_ROLES["finance"].permissions <==> v in {FinancialAnalysis, ContractQa, KnowledgeBase, Upload}
    ensures RequiredPermission(v) in USER_ROLES["business"].permissions <==> v in {ContractQa, KnowledgeBase, Upload}
  {
  }

  /** The business user is sent back to the dashboard from the four views its role lacks. */
  lemma BusinessUserDenied(s: SessionState, v: View)
    requires s.userId == Some("3") && s.productCategory.Some?
    requires v in {AgreementReplication, CreateAgreement, TermSheet, FinancialAnalysis}
    ensures WorkflowView(s, v) == Redirect(ToIndex, Some(ACCESS_DENIED))
  {
    assert CurrentUser(s) == Some(MOCK_USERS[2]);
    PermissionTable(v);
    assert !Granted(s, v);
  }

  /** The legal user is shown every workflow view. */
  lemma LegalUserGranted(s: SessionState, v: View)
    requires s.userId == Some("1") && s.productCategory.Some?
    ensures WorkflowView(s, v).Render?
  {
    assert CurrentUser(s) == Some(MOCK_USERS[0]);
    PermissionTable(v);
  }

  /** In a valid session no view raises: every answer is a page or a redirect. */
  lemma ValidSessionNeverFails(s: SessionState, v: View)
    requires ValidState(s)
    ensures Index(s).Render? || Index(s).Redirect?
    ensures WorkflowView(s, v).Render? || WorkflowView(s, v).Redirect?
    ensures Settings(s).Render? || Settings(s).Redirect?
    ensures s.userId.Some? ==> CategoryForm(s, None).Render?
  {
    if s.userId.Some? {
      ValidSessionHasRole(s);
    }
  }

  /** After the session is cleared, every guarded view sends the browser to login, never to category selection. */
  lemma ClearedSessionGoesToLogin(v: View)
    ensures Index(EMPTY_SESSION) == Redirect(ToLogin, None)
    ensures WorkflowView(EMPTY_SESSION, v) == Redirect(ToLogin, None)
    ensures Settings(EMPTY_SESSION) == Redirect(ToLogin, None)
  {
  }
}
