/**
 * The browser session as a value, and the two decorators that guard views:
 * `login_required` (outer) and `require_product_category` (inner), plus
 * `get_current_user` and the role lookup every view does after them.
 */
module Gates {
  import opened Wrappers
  import opened Tables
  import opened Http
  import opened Chat

  /** The keys of the Flask session the application uses. */
  datatype SessionState = SessionState(
    userId: Option<string>,
    productCategory: Option<string>,
    currentSession: Option<ChatSession>)

  const EMPTY_SESSION := SessionState(None, None, None)

  /**
   * What the handlers keep true of a session: the user id is a mock user's,
   * the category is one of the five, and the chat log is well formed.
   */
  predicate ValidState(s: SessionState)
  {
    && (s.userId.Some? ==> UserById(s.userId.value).Some?)
    && (s.productCategory.Some? ==> IsCategoryId(s.productCategory))
    && (s.currentSession.Some? ==> ChatWellFormed(s.currentSession.value))
  }

  /** `login_required`: stop with a redirect to the login page when no user id is stored. */
  function LoginRequired(s: SessionState): (stop: Option<Response>)
    ensures stop.Some? <==> s.userId.None?
    ensures stop.Some? ==> stop.value == Redirect(ToLogin, None)
  {
    if s.userId.None? then Some(Redirect(ToLogin, None)) else None
  }

  /** `require_product_category`: stop with a warning and a redirect when no category is stored. */
  function RequireProductCategory(s: SessionState): (stop: Option<Response>)
    ensures stop.Some? <==> s.productCategory.None?
    ensures stop.Some? ==> stop.value == Redirect(ToSelectCategory, Some(SELECT_CATEGORY_FIRST))
  {
    if s.productCategory.None? then Some(Redirect(ToSelectCategory, Some(SELECT_CATEGORY_FIRST))) else None
  }

  /** Both decorators, login first: a logged-out session goes to login whatever its category. */
  function Guard(s: SessionState): (stop: Option<Response>)
    ensures stop.None? <==> s.userId.Some? && s.productCategory.Some?
    ensures s.userId.None? ==> stop == Some(Redirect(ToLogin, None))
    ensures s.userId.Some? && s.productCategory.None? ==> stop == Some(Redirect(ToSelectCategory, Some(SELECT_CATEGORY_FIRST)))
  {
    match LoginRequired(s)
    case Some(r) => Some(r)
    case None => RequireProductCategory(s)
  }

  /** `get_current_user`. */
  function CurrentUser(s: SessionState): (r: Option<User>)
    ensures r.Some? ==> r.value in MOCK_USERS && s.userId == Some(r.value.id)
    ensures r.None? <==> s.userId.None? || UserById(s.userId.value).None?
  {
    if s.userId.Some? then UserById(s.userId.value) else None
  }

  /**
   * The current user with `USER_ROLES[current_user['role']]`; None where
   * that expression would raise (no user found, or a role not in the table).
   */
  function CurrentUserRole(s: SessionState): (r: Option<(User, Role)>)
    ensures r.Some? ==> CurrentUser(s) == Some(r.value.0) && r.value.0.role in USER_ROLES && r.value.1 == USER_ROLES[r.value.0.role]
    ensures r.None? <==> CurrentUser(s).None? || CurrentUser(s).value.role !in USER_ROLES
  {
    match CurrentUser(s)
    case None => None
    case Some(u) =>
      match RoleOf(u)
      case None => None
      case Some(role) => Some((u, role))
  }

  /** In a valid session a logged-in user always has a user record and a role. */
  lemma ValidSessionHasRole(s: SessionState)
    requires ValidState(s) && s.userId.Some?
    ensures CurrentUserRole(s).Some?
  {
    MockUsersWellFormed();
  }
}
