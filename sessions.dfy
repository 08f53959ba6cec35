/**
 * The browser session as an object whose fields the handlers overwrite in
 * place: `login`, `select_category` and `logout` change the identity and the
 * category, `start_session` and `send_message` the chat record.  Each method
 * keeps `Valid()` and states the whole new state and the response.
 */
module Sessions {
  import opened Wrappers
  import opened Tables
  import opened Http
  import opened Chat
  import opened Gates
  import opened Views

  class BrowserSession {
    var userId: Option<string>
    var productCategory: Option<string>
    var currentSession: Option<ChatSession>

    /** A fresh browser session holds no keys. */
    constructor ()
      ensures State() == EMPTY_SESSION && Valid()
    {
      userId, productCategory, currentSession := None, None, None;
    }

    function State(): SessionState
      reads this
    {
      SessionState(userId, productCategory, currentSession)
    }

    predicate Valid()
      reads this
    {
      ValidState(State())
    }

    /**
     * `login`: a POST whose email matches a mock user stores that user's id
     * and redirects to category selection; any other request leaves the
     * session alone and shows the form (with an error after a failed POST).
     */
    method Login(isPost: bool, email: Option<string>) returns (r: Response)
      modifies this`userId
      ensures old(Valid()) ==> Valid()
      ensures isPost && UserByEmail(email).Some? ==>
        userId == Some(UserByEmail(email).value.id) && r == Redirect(ToSelectCategory, Some(Welcome(UserByEmail(email).value)))
      ensures isPost && UserByEmail(email).None? ==>
        userId == old(userId) && r == Render(LoginPage, None, Some(INVALID_EMAIL))
      ensures !isPost ==> userId == old(userId) && r == Render(LoginPage, None, None)
    {
      r := Render(LoginPage, None, None);
      if isPost {
        var user := UserByEmail(email);
        if user.Some? {
          LoginIdResolves(email);
          userId := Some(user.value.id);
          r := Redirect(ToSelectCategory, Some(Welcome(user.value)));
        } else {
          r := Render(LoginPage, None, Some(INVALID_EMAIL));
        }
      }
    }

    /** `logout`: the whole session is cleared. */
    method Logout() returns (r: Response)
      modifies this
      ensures State() == EMPTY_SESSION && Valid()
      ensures r == Redirect(ToLogin, Some(LOGGED_OUT))
    {
      userId, productCategory, currentSession := None, None, None;
      r := Redirect(ToLogin, Some(LOGGED_OUT));
    }

    /**
     * `select_category`: behind the login gate, a POST of one of the five
     * ids stores it and redirects to the dashboard; anything else leaves the
     * category as it was and renders the form.
     */
    method SelectCategory(isPost: bool, categoryId: Option<string>) returns (r: Response)
      modifies this`productCategory
      ensures old(Valid()) ==> Valid()
      ensures userId.None? ==> productCategory == old(productCategory) && r == Redirect(ToLogin, None)
      ensures userId.Some? && isPost && IsCategoryId(categoryId) ==>
        productCategory == categoryId && r == Redirect(ToIndex, Some(CATEGORY_SELECTED))
      ensures userId.Some? && !(isPost && IsCategoryId(categoryId)) ==>
        productCategory == old(productCategory) && r == CategoryForm(State(), if isPost then Some(INVALID_CATEGORY) else None)
    {
      if userId.None? {
        return Redirect(ToLogin, None);
      }
      var notice: Option<Notice> := None;
      if isPost {
        if IsCategoryId(categoryId) {
          productCategory := categoryId;
          return Redirect(ToIndex, Some(CATEGORY_SELECTED));
        }
        notice := Some(INVALID_CATEGORY);
      }
      r := CategoryForm(State(), notice);
    }

    /**
     * `start_session`: not behind the login gate; replaces the chat record
     * with a fresh one with no messages, owned by the stored user id or "1".
     */
    method StartSession(workflow: JsonField, sessionId: string, now: Timestamp) returns (r: Response)
      modifies this`currentSession
      ensures old(Valid()) ==> Valid()
      ensures currentSession == Some(ChatSession(sessionId, userId.GetOr("1"), StoredWorkflow(workflow),
                                                 productCategory, [], now, "active"))
      ensures r == JsonOk(SessionStarted(sessionId, StartedMessage(workflow, productCategory)))
    {
      currentSession := Some(ChatSession(sessionId, userId.GetOr("1"), StoredWorkflow(workflow),
                                         productCategory, [], now, "active"));
      r := JsonOk(SessionStarted(sessionId, StartedMessage(workflow, productCategory)));
    }

    /**
     * `send_message`: fails with 400 when no chat record exists; otherwise
     * appends the user's message and a reply drawn from the workflow's pool,
     * keeps every earlier message, and returns the reply with its citations.
     */
    method SendMessage(message: Option<string>, sentAt: Timestamp, repliedAt: Timestamp) returns (r: Response)
      modifies this`currentSession
      ensures old(Valid()) ==> Valid()
      ensures old(currentSession).None? ==> currentSession == None && r == JsonError(400, "No active session")
      ensures old(currentSession).Some? ==>
        && currentSession.Some?
        && var before := old(currentSession).value;
        && var after := currentSession.value;
        && |after.messages| == |before.messages| + 2
        && after == before.(messages := after.messages)
        && after.messages[..|before.messages|] == before.messages
        && after.messages[|before.messages|] == Message(USER_ROLE, message.GetOr(""), sentAt)
        && after.messages[|before.messages| + 1].role == AI_ROLE
        && after.messages[|before.messages| + 1].content in ResponsePool(before.workflow)
        && after.messages[|before.messages| + 1].timestamp == repliedAt
        && r == JsonOk(ChatReply(after.messages[|before.messages| + 1].content, Citations(before.workflow)))
    {
      if currentSession.None? {
        return JsonError(400, "No active session");
      }
      var chat := currentSession.value;
      var sent := Message(USER_ROLE, message.GetOr(""), sentAt);
      var pool := ResponsePool(chat.workflow);
      assert pool[0] in pool;
      var reply :| reply in pool;
      if old(Valid()) {
        ExchangeKeepsWellFormed(chat, message.GetOr(""), reply, sentAt, repliedAt);
      }
      currentSession := Some(chat.(messages := chat.messages + [sent, Message(AI_ROLE, reply, repliedAt)]));
      r := JsonOk(ChatReply(reply, Citations(chat.workflow)));
    }
  }

  /** Logging out and then requesting the dashboard lands on the login page, not on category selection. */
  method LogoutThenIndex(b: BrowserSession) returns (r: Response)
    modifies b
    ensures r == Redirect(ToLogin, None)
  {
    var _ := b.Logout();
    r := Index(b.State());
  }
}
