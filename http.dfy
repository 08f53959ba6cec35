/**
 * What a request handler answers, with Flask taken out: a rendered page, a
 * redirect, a JSON error with its status, a JSON success body, or an
 * unhandled exception (which Flask turns into a 500 page).  A flashed
 * message is attached to the response it accompanies.
 */
module Http {
  import opened Wrappers
  import opened Tables

  /** The seven permission-gated workflow views. */
  datatype View =
    | AgreementReplication
    | CreateAgreement
    | ContractQa
    | TermSheet
    | FinancialAnalysis
    | KnowledgeBase
    | Upload

  datatype Page = LoginPage | CategoryPage | DashboardPage | WorkflowPage(view: View) | SettingsPage

  /** Redirect targets: `login`, `select_category`, `index`. */
  datatype Route = ToLogin | ToSelectCategory | ToIndex

  /** A flashed message and its category ("success", "error", ...). */
  datatype Notice = Notice(text: string, level: string)

  /** What a page is rendered with: the user, the role record, the category and the state list. */
  datatype Context = Context(user: User, role: Role, category: Option<Category>, states: seq<string>)

  /** One entry of `replication_results`. */
  datatype ReplicationRecord = ReplicationRecord(
    state: string,
    stateName: string,
    status: string,
    agreementId: string,
    modifications: seq<string>,
    downloadUrl: string)

  datatype Body =
    | SessionStarted(sessionId: string, message: string)
    | ChatReply(aiMessage: string, citations: seq<string>)
    | Replicated(message: string, results: seq<ReplicationRecord>, originalFilename: string, productCategory: string)

  datatype Response =
    | Render(page: Page, context: Option<Context>, notice: Option<Notice>)
    | Redirect(to: Route, notice: Option<Notice>)
    | JsonError(status: nat, error: string)
    | JsonOk(body: Body)
    | ServerError

  const SELECT_CATEGORY_FIRST := Notice("Please select a product category to continue.", "warning")
  const ACCESS_DENIED := Notice("Access denied. Insufficient permissions.", "error")
  const INVALID_EMAIL := Notice("Invalid email address. Please try again.", "error")
  const LOGGED_OUT := Notice("You have been logged out successfully.", "info")
  const CATEGORY_SELECTED := Notice("Product category selected successfully!", "success")
  const INVALID_CATEGORY := Notice("Invalid product category selected.", "error")

  /** The flash a successful login shows: a success notice greeting the user by name. */
  function Welcome(u: User): (n: Notice)
    ensures n.level == "success"
    ensures |n.text| == 15 + |u.name| && n.text[..14] == "Welcome back, "
    ensures n.text[14..14 + |u.name|] == u.name && n.text[|n.text| - 1] == '!'
  {
    Notice("Welcome back, " + u.name + "!", "success")
  }
}
