# Request-decision layer of the legal-tech demo application

The application is a Flask demo for a beverage distributor. It has three mock users with
three roles (legal, finance, business), five product categories, and seven workflow views,
each gated by one permission string. It also offers a mock chat API with canned replies and
a mock agreement-replication endpoint that turns a list of target states into canned
per-state result records. All data lives in constant tables and in the per-browser session.

This project models that layer without Flask. Each handler's outcome is a tagged
`Http.Response`: a rendered page, a redirect (with the flashed notice as its reason), a JSON
error with its status, a JSON success body, or `ServerError` where the Python code would
raise (Flask answers 500).

- `Tables` holds the constant tables and the `next(...)` lookups on them.
- `Gates` holds the session as a value (`SessionState`: optional user id, optional category
  id, optional chat record) and the two decorators. `login_required` runs before
  `require_product_category` (`Guard`). `ValidState` is the invariant the handlers keep: the
  stored user id names a mock user, the category is one of the five, and the chat log
  alternates user and ai messages with every reply taken from its pool.
- `Views` holds the read-only handlers: `index`, the seven workflow views, `settings` and
  the category form.
- `Sessions.BrowserSession` is a class whose fields the state-changing handlers overwrite in
  place: `login`, `logout`, `select_category`, `start_session` and `send_message`. Each
  method preserves `Valid()` and states the new state and the response.
- `Replication` holds the ordered validation chain of `agreement_replication_api`. It is
  proved equal to "the first failing check" of an explicit ordered list. The module also has
  the results loop, proved to yield one record per selected state with a display name, in
  input order, with repeats kept.

Nondeterminism is made explicit:

- `uuid4()` becomes a parameter: the chat session id, and `draw(k)` for the id of the k-th
  result record. Nothing is claimed about distinctness.
- `random.choice` becomes a nondeterministic choice from the pool. The reply is only known to
  belong to the pool.
- `datetime.now()` becomes `Timestamp` parameters.

## Behaviour worth noting

- A POST with an unknown email leaves `user_id` as it was, as `Login`'s contract says. So the
  session is left unauthenticated only if it already was.
- The replication message counts `len(selected_states)`, not the records returned.

## Model

| member | source | states |
|---|---|---|
| `Tables.FirstIndex` | app.py:67 | the index of the first element satisfying the predicate, with none before it; None exactly when no element satisfies it |
| `Tables.Ids` | app.py:122 | the category ids in table order, one per category |
| `Tables.UserByEmail` | app.py:98 | a found user is in the table and has that email; nothing is found exactly when no user has it |
| `Tables.UserById` | app.py:67 | a found user is in the table and has that id; nothing is found exactly when no user has it |
| `Tables.CategoryById` | app.py:87 | a found category is in the table and has that id; nothing is found exactly when no category has it |
| `Tables.RoleOf` | app.py:91 | a role is found exactly when the role name is a key of the role table, and it is that entry |
| `Tables.IsCategoryId` | app.py:122 | a submitted id passes the membership test exactly when one was submitted and some category of the table carries it |
| `Tables.CategoryIdsAreTheFive` | app.py:13-19 | an id is accepted exactly when it is wine, spirit, rtd, na or beer, and exactly when it names a category |
| `Tables.MockUsersWellFormed` | app.py:41-45 | mock users have distinct ids and distinct emails, and every role is in the role table |
| `Tables.LoginIdResolves` | app.py:98-101 | the id login stores leads `get_current_user` back to the same user |
| `Tables.RolePermissionsNest` | app.py:22-38 | business permissions are within finance's, and finance's within legal's |
| `Chat.StoredWorkflow` | app.py:264 | the stored workflow is present exactly when the request carried a string for it; missing and null both store None |
| `Chat.ResponsePool` | app.py:295-320 | the pool has three replies; it is the workflow's own pool when the workflow is a key, and the default pool exactly otherwise |
| `Chat.Citations` | app.py:334 | citations are non-empty exactly when the workflow is contract_qa, and are then the fixed three |
| `Chat.ExchangeKeepsWellFormed` | app.py:287-328 | appending a user message and then a reply from the pool keeps the log alternating and every reply in the pool |
| `Chat.NullWorkflowFallsThrough` | app.py:320-334 | a null workflow draws from the default pool and gets no citations |
| `Chat.NullWorkflowAcknowledged` | app.py:275 | a null workflow is acknowledged as "Started None session for product" when no category is stored |
| `Chat.WorkflowLabel` | app.py:275 | a missing workflow key prints as "workflow", a null one as "None", a string as itself |
| `Chat.StartedMessage` | app.py:275 | the acknowledgement is "Started ", then the workflow as `WorkflowLabel` prints it, then " session for ", then the stored category or "product" when none is stored |
| `Http.Welcome` | app.py:102 | the login flash is a success notice reading "Welcome back, " then the user's name then "!" |
| `Gates.LoginRequired` | app.py:57-63 | stops exactly when no user id is stored, with a plain redirect to login |
| `Gates.RequireProductCategory` | app.py:70-77 | stops exactly when no category is stored, with the warning and a redirect to category selection |
| `Gates.Guard` | app.py:135-137 | passes exactly when both a user id and a category are stored; a logged-out session goes to login whatever its category |
| `Gates.CurrentUser` | app.py:65-68 | the user found has the stored id; nothing is found exactly when no id is stored or no user has it |
| `Gates.CurrentUserRole` | app.py:139-140 | the user and the role record `USER_ROLES[user.role]`; None exactly where that expression would raise |
| `Gates.ValidSessionHasRole` | app.py:65-68 | in a valid logged-in session the current user and its role exist |
| `Views.SessionCategory` | app.py:87 | a category is found exactly when a category id is stored and names a table entry; the one found is that entry |
| `Views.RequiredPermission` | app.py:140-231 | the permission a workflow view checks; every one of them is held by the legal role |
| `Views.Granted` | app.py:140 | a granted view has a logged-in user whose role's permission list holds the view's permission |
| `Views.Index` | app.py:80-92 | login first, then a redirect without a flash when no category is stored; the dashboard exactly when the user and role exist; otherwise a server error |
| `Views.WorkflowView` | app.py:135-239 | login gate, then category gate, then the page exactly when the role grants the view's permission (the state list only on agreement replication); access denied otherwise |
| `Views.Settings` | app.py:241-252 | login gate only; the page exactly when the user and role exist, with the category when one is stored |
| `Views.CategoryForm` | app.py:129-132 | the category page with user and role exactly when they exist, otherwise a server error |
| `Views.PermissionTable` | app.py:22-38 | legal holds all seven view permissions; finance exactly financial analysis, contract Q&A, knowledge base and upload; business exactly the last three |
| `Views.BusinessUserDenied` | app.py:33-37 | the business user is redirected with access denied from agreement replication, create agreement, term sheet and financial analysis |
| `Views.LegalUserGranted` | app.py:23-27 | the legal user is shown every workflow view |
| `Views.ValidSessionNeverFails` | app.py:83-91 | in a valid session the dashboard, every workflow view, settings and the category form never raise |
| `Views.ClearedSessionGoesToLogin` | app.py:80-85 | a cleared session sends the dashboard, every workflow view and settings to login, not to category selection |
| `Sessions.BrowserSession.Login` | app.py:94-107 | a POST with a known email stores exactly that user's id and redirects with a welcome; any other request leaves the id unchanged; nothing else changes; validity is kept |
| `Sessions.BrowserSession.Logout` | app.py:109-113 | the whole session is cleared, and the response redirects to login |
| `Sessions.BrowserSession.SelectCategory` | app.py:115-132 | behind the login gate, only a POST of one of the five ids changes the category; any other request leaves it and renders the form (with an error after a POST) |
| `Sessions.BrowserSession.StartSession` | app.py:255-276 | the chat record is replaced by a fresh one with no messages, owned by the stored user id or "1"; the acknowledgement names the workflow and category |
| `Sessions.BrowserSession.SendMessage` | app.py:278-335 | with no chat record: 400 and nothing appended; otherwise exactly two messages appended (user text, then a reply from the pool), earlier messages and other fields unchanged, and the reply returned with its citations |
| `Sessions.LogoutThenIndex` | app.py:109-113 | after logout, the next dashboard request redirects to login |
| `Replication.ValidationError` | app.py:342-364 | no error exactly when permission, file, file name, at least one state, an origin, and an origin outside the targets all hold; status 403 exactly for the permission failure |
| `Replication.Checks` | app.py:342-364 | the six checks in source order; only the first reports 403, the other five report 400 |
| `Replication.FirstFailure` | app.py:342-364 | no error exactly when every check passes; otherwise the error of a failing check with all checks before it passing |
| `Replication.ValidationIsFirstFailure` | app.py:342-364 | the if-chain reports exactly the first failing check of the ordered list |
| `Replication.OriginAmongTargetsRejected` | app.py:362-364 | an origin among the targets is always rejected, and with the origin-is-target error once the earlier checks pass |
| `Replication.MappedStates` | app.py:381-382 | the kept states all have display names and are no more than the selected ones |
| `Replication.RecordFor` | app.py:383-394 | the record carries the state, its display name, status completed, the generated id, three modifications that each mention the name, and a download URL ending in the state code |
| `Replication.ResultsFor` | app.py:380-394 | at most one record per selected state; each is completed, for a state with a display name, and the k-th carries the k-th generated id |
| `Replication.ResultsForMapped` | app.py:380-394 | the k-th record built is the record for the k-th named state with the k-th generated id |
| `Replication.BuildResults` | app.py:380-394 | the loop returns one record per selected state with a display name, in input order, the k-th with the k-th generated id |
| `Replication.MappedStatesConcat` | app.py:381-382 | filtering distributes over concatenation, so records keep the input order |
| `Replication.MappedStatesCount` | app.py:381-382 | a state with a display name yields as many records as it was selected; any other yields none |
| `Replication.MappedStatesKeepsNamed` | app.py:373-382 | a selection made only of named states is kept whole |
| `Replication.NatToString` | app.py:398 | the printed count is a non-empty string of decimal digits, one digit exactly below ten, with no leading zero |
| `Replication.NatToStringRoundTrip` | app.py:398 | the printed count reads back as the count |
| `Replication.ReplicatedMessage` | app.py:398 | the success message is the fixed text around the printed selected-state count: digits without a leading zero that read back as the count |
| `Replication.CategoryLabel` | app.py:371 | when the stored id is a category id, the name of the category with that id; otherwise "Unknown" |
| `Replication.AgreementReplicationApi` | app.py:337-402 | decorators redirect first; then a server error without a user; then the first failing check as a JSON error; success exactly when all checks pass, reporting the selected-state count, the records of `BuildResults`, the file name and the category name |
| `Replication.TwoStatesExample` | app.py:373-378 | New York and California selected yield both states, named "New York" and "California" |
| `Replication.TwoStatesAccepted` | app.py:342-364 | a legal user's request for NY and CA from TX with a named file passes every check |
| `Replication.UnnamedStateDropped` | app.py:396-398 | NY and OH yield only the NY record while the message says 2 states |
| `Replication.TwoStatesFromTexas` | app.py:340-402 | a legal user with the wine category replicating from TX into NY and CA gets JSON success with two records, New York then California, counting 2 states, for category "Wine" |

## Left out

- Flask plumbing is left out: templates, `url_for`, `jsonify`, and request parsing. A missing or
  non-object JSON body, a `null` or non-string `message`, and a non-string `workflow` are not
  modelled. An absent `message` is modelled as "".
- The flash queue kept in the session is left out. A flashed message is attached to the
  response that accompanies it.
- The list of all categories passed to the dashboard and category templates is left out. It
  is the constant table.
- `uuid4()`, `random.choice` and `datetime.now()` are parameters or nondeterministic choices.
  Generated ids are not claimed to be distinct, because the code does not guarantee it.
- `time.sleep(2)` in the replication endpoint is left out. It only simulates latency.
- `download_replicated_agreement` is left out. It is text templating around a timestamp.
- The `PORT` environment variable and `app.run` are left out. They are process start-up.
- `static/js/main.js` is left out. It is browser UI wiring, timers and floating-point
  formatting.
- Session transport (signed cookies), expiry and concurrent requests are left out.
- In `send_message` the stored message list is mutated in place and then written back. The
  model assigns the new record, so aliasing of that list is not modelled.
