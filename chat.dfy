/**
 * The mock chat: the chat-session record kept in the browser session, the
 * canned reply pools, and the citations returned with a reply.
 */
module Chat {
  import opened Wrappers

  /** An ISO timestamp; the clock is a parameter of the handlers that read it. */
  type Timestamp = string

  /** A key of a JSON request body: missing, present with `null`, or present with a string. */
  datatype JsonField = Absent | Null | Present(text: string)

  datatype Message = Message(role: string, content: string, timestamp: Timestamp)

  datatype ChatSession = ChatSession(
    id: string,
    userId: string,
    workflow: Option<string>,
    productCategory: Option<string>,
    messages: seq<Message>,
    createdAt: Timestamp,
    status: string)

  const CONTRACT_QA_RESPONSES: seq<string> := [
    "Based on the executed agreement for Supplier X, the termination clause requires 90 days written notice. This is located in Section 12.3 of the document.",
    "The payment terms specify net 30 days from invoice date, with a 2% discount for payments within 10 days.",
    "According to the agreement, the exclusivity period extends for 5 years from the effective date, covering the specified territories."
  ]

  const AGREEMENT_REPLICATION_RESPONSES: seq<string> := [
    "I've analyzed the negotiated terms and identified key differences for New York state requirements. The notice period needs to be extended to 60 days.",
    "California requires specific franchise law disclosures that aren't in the base template. I've added the necessary clauses.",
    "The territory definition for Florida needs to exclude certain counties due to local distribution laws."
  ]

  const FINANCIAL_ANALYSIS_RESPONSES: seq<string> := [
    "I've extracted the financial obligations from the agreement. Total annual commitment is $2.4M across quarterly payments.",
    "The marketing fund requirement is 3% of net sales, payable quarterly, with a minimum annual commitment of $50K.",
    "Payment terms analysis shows 70% of obligations are due within 30 days, 25% within 60 days, and 5% within 90 days."
  ]

  const AI_RESPONSES: map<string, seq<string>> := map[
    "contract_qa" := CONTRACT_QA_RESPONSES,
    "agreement_replication" := AGREEMENT_REPLICATION_RESPONSES,
    "financial_analysis" := FINANCIAL_ANALYSIS_RESPONSES
  ]

  const DEFAULT_RESPONSES: seq<string> := [
    "I've processed your request and analyzed the relevant documents.",
    "Based on the agreement analysis, here are the key findings:",
    "The system has identified the following relevant information:"
  ]

  const CONTRACT_QA_CITATIONS: seq<string> := ["Section 4.2", "Page 15", "Clause 8.1"]

  const USER_ROLE := "user"
  const AI_ROLE := "ai"

  /** The workflow `start_session` stores: `data.get('workflow')`, so a missing key and `null` both store None. */
  function StoredWorkflow(w: JsonField): (r: Option<string>)
    ensures r.Some? <==> w.Present?
    ensures r.Some? ==> r.value == w.text
  {
    match w
    case Present(s) => Some(s)
    case _ => None
  }

  /** How `data.get('workflow', 'workflow')` prints inside the acknowledgement. */
  function WorkflowLabel(w: JsonField): (text: string)
    ensures w.Absent? ==> text == "workflow"
    ensures w.Null? ==> text == "None"
    ensures w.Present? ==> text == w.text
  {
    match w
    case Absent => "workflow"
    case Null => "None"
    case Present(s) => s
  }

  /** The acknowledgement `start_session` returns. */
  function StartedMessage(w: JsonField, category: Option<string>): (m: string)
    ensures |m| >= 8 && m[..8] == "Started "
    ensures category.Some? ==> |m| >= |category.value| && m[|m| - |category.value|..] == category.value
    ensures category.None? ==> |m| >= 7 && m[|m| - 7..] == "product"
    ensures |m| == 8 + |WorkflowLabel(w)| + 13 + |category.GetOr("product")|
    ensures m[8..8 + |WorkflowLabel(w)|] == WorkflowLabel(w)
    ensures m[8 + |WorkflowLabel(w)|..8 + |WorkflowLabel(w)| + 13] == " session for "
  {
    "Started " + WorkflowLabel(w) + " session for " + category.GetOr("product")
  }

  /** The pool a reply is drawn from: the workflow's own, or the default one when the workflow is not a key. */
  function ResponsePool(workflow: Option<string>): (pool: seq<string>)
    ensures |pool| == 3
    ensures pool == DEFAULT_RESPONSES <==> !(workflow.Some? && workflow.value in AI_RESPONSES)
    ensures workflow.Some? && workflow.value in AI_RESPONSES ==> pool == AI_RESPONSES[workflow.value]
  {
    if workflow.Some? && workflow.value in AI_RESPONSES then AI_RESPONSES[workflow.value] else DEFAULT_RESPONSES
  }

  /** The citations returned with a reply. */
  function Citations(workflow: Option<string>): (c: seq<string>)
    ensures c != [] <==> workflow == Some("contract_qa")
    ensures c != [] ==> c == CONTRACT_QA_CITATIONS
  {
    if workflow == Some("contract_qa") then CONTRACT_QA_CITATIONS else []
  }

  /**
   * The shape every chat log has: user and ai messages alternate, starting
   * with the user, and every ai message comes from the session's pool.
   */
  predicate ChatWellFormed(c: ChatSession)
  {
    && |c.messages| % 2 == 0
    && (forall i :: 0 <= i < |c.messages| ==> c.messages[i].role == if i % 2 == 0 then USER_ROLE else AI_ROLE)
    && (forall i :: 0 <= i < |c.messages| && i % 2 == 1 ==> c.messages[i].content in ResponsePool(c.workflow))
  }

  /** One exchange (a user message, then a reply from the pool) keeps a chat log well formed. */
  lemma ExchangeKeepsWellFormed(c: ChatSession, text: string, reply: string, sentAt: Timestamp, repliedAt: Timestamp)
    requires ChatWellFormed(c)
    requires reply in ResponsePool(c.workflow)
    ensures ChatWellFormed(c.(messages := c.messages + [Message(USER_ROLE, text, sentAt), Message(AI_ROLE, reply, repliedAt)]))
  {
    var n := |c.messages|;
    var m := c.messages + [Message(USER_ROLE, text, sentAt), Message(AI_ROLE, reply, repliedAt)];
    forall i | 0 <= i < |m|
      ensures m[i].role == if i % 2 == 0 then USER_ROLE else AI_ROLE
      ensures i % 2 == 1 ==> m[i].content in ResponsePool(c.workflow)
    {
      if i < n {
        assert m[i] == c.messages[i];
      } else if i == n {
        assert i % 2 == 0;
      } else {
        assert i == n + 1 && i % 2 == 1;
      }
    }
  }

  /** A workflow sent as `null` draws from the default pool and gets no citations. */
  lemma NullWorkflowFallsThrough()
    ensures ResponsePool(StoredWorkflow(Null)) == DEFAULT_RESPONSES
    ensures Citations(StoredWorkflow(Null)) == []
  {
  }

  /** The acknowledgement prints a `null` workflow as Python prints None. */
  lemma NullWorkflowAcknowledged()
    ensures StartedMessage(Null, None) == "Started None session for product"
  {
  }
}
