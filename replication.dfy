/**
 * The agreement-replication endpoint: the ordered chain of input checks, the
 * loop that turns the selected states into result records, and the
 * response that reports them.
 */
module Replication {
  import opened Wrappers
  import opened Tables
  import opened Http
  import opened Gates
  import opened Views

  /** An uploaded file; its content is never read, only its name. */
  datatype UploadedFile = UploadedFile(filename: string)

  /** The multipart form: the `agreement_file` part, the repeated `states` field and `original_state`. */
  datatype ReplicationRequest = ReplicationRequest(
    file: Option<UploadedFile>,
    states: seq<string>,
    originalState: Option<string>)

  datatype ApiError = ApiError(status: nat, message: string)

  const PERMISSION_DENIED := ApiError(403, "Access denied. Insufficient permissions.")
  const NO_FILE_UPLOADED := ApiError(400, "No file uploaded")
  const NO_FILE_SELECTED := ApiError(400, "No file selected")
  const NO_STATES_SELECTED := ApiError(400, "No states selected")
  const NO_ORIGINAL_STATE := ApiError(400, "No original state specified")
  const ORIGINAL_IS_TARGET := ApiError(400, "Original state cannot be selected as a target state")

  /** The only states with display names; every other code is dropped from the results. */
  const STATE_NAMES: map<string, string> := map[
    "CA" := "California",
    "NY" := "New York",
    "TX" := "Texas",
    "FL" := "Florida"
  ]

  const DOWNLOAD_PREFIX := "/api/download-replicated-agreement/"

  /** The checks the endpoint runs after its decorators, as an if-chain: the first that fails is reported. */
  function ValidationError(role: Role, req: ReplicationRequest): (e: Option<ApiError>)
    ensures e.None? <==>
      && "agreement_replication" in role.permissions
      && req.file.Some? && req.file.value.filename != ""
      && |req.states| > 0
      && req.originalState.Some? && req.originalState.value != ""
      && req.originalState.value !in req.states
    ensures e.Some? ==> (e.value.status == 403 <==> "agreement_replication" !in role.permissions)
  {
    if "agreement_replication" !in role.permissions then Some(PERMISSION_DENIED)
    else if req.file.None? then Some(NO_FILE_UPLOADED)
    else if req.file.value.filename == "" then Some(NO_FILE_SELECTED)
    else if |req.states| == 0 then Some(NO_STATES_SELECTED)
    else if req.originalState.None? || req.originalState.value == "" then Some(NO_ORIGINAL_STATE)
    else if req.originalState.value in req.states then Some(ORIGINAL_IS_TARGET)
    else None
  }

  /**
   * The same checks written as data: each pairs "this check passes" with the
   * error it reports, in the order the endpoint runs them.  A check further
   * down is only reached once those above it pass, so it may assume them.
   */
  function Checks(role: Role, req: ReplicationRequest): (checks: seq<(bool, ApiError)>)
    ensures |checks| == 6
    ensures forall i :: 0 <= i < |checks| ==> (checks[i].1.status == 403 <==> i == 0)
    ensures forall i :: 0 <= i < |checks| ==> (checks[i].1.status == 400 <==> i != 0)
  {
    [ ("agreement_replication" in role.permissions, PERMISSION_DENIED),
      (req.file.Some?, NO_FILE_UPLOADED),
      (req.file.None? || req.file.value.filename != "", NO_FILE_SELECTED),
      (|req.states| > 0, NO_STATES_SELECTED),
      (req.originalState.Some? && req.originalState.value != "", NO_ORIGINAL_STATE),
      (req.originalState.None? || req.originalState.value !in req.states, ORIGINAL_IS_TARGET) ]
  }

  /** The error of the first check that fails, if any. */
  function FirstFailure(checks: seq<(bool, ApiError)>): (e: Option<ApiError>)
    ensures e.None? <==> forall i :: 0 <= i < |checks| ==> checks[i].0
    ensures e.Some? ==> exists i :: 0 <= i < |checks| && !checks[i].0 && e.value == checks[i].1
                                    && forall j :: 0 <= j < i ==> checks[j].0
  {
    match FirstIndex(checks, (c: (bool, ApiError)) => !c.0)
    case Some(i) => Some(checks[i].1)
    case None => None
  }

  /** The if-chain reports exactly the first failing check of the ordered list. */
  lemma ValidationIsFirstFailure(role: Role, req: ReplicationRequest)
    ensures ValidationError(role, req) == FirstFailure(Checks(role, req))
  {
    var checks := Checks(role, req);
    var e := FirstFailure(checks);
    if e.Some? {
      var i :| 0 <= i < |checks| && !checks[i].0 && e.value == checks[i].1 && forall j :: 0 <= j < i ==> checks[j].0;
      if i == 0 { assert !checks[0].0; }
      else if i == 1 { assert checks[0].0 && !checks[1].0; }
      else if i == 2 { assert checks[0].0 && checks[1].0 && !checks[2].0; }
      else if i == 3 { assert checks[0].0 && checks[1].0 && checks[2].0 && !checks[3].0; }
      else if i == 4 { assert checks[0].0 && checks[1].0 && checks[2].0 && checks[3].0 && !checks[4].0; }
      else { assert checks[0].0 && checks[1].0 && checks[2].0 && checks[3].0 && checks[4].0 && !checks[5].0; }
    } else {
      assert checks[0].0 && checks[1].0 && checks[2].0 && checks[3].0 && checks[4].0 && checks[5].0;
    }
  }

  /** An origin among the targets is always rejected, whatever the file. */
  lemma OriginAmongTargetsRejected(role: Role, req: ReplicationRequest)
    requires req.originalState.Some? && req.originalState.value in req.states
    ensures ValidationError(role, req).Some?
    ensures && "agreement_replication" in role.permissions
            && req.file.Some? && req.file.value.filename != ""
            && req.originalState.value != "" ==>
      ValidationError(role, req) == Some(ORIGINAL_IS_TARGET)
  {
  }

  /** The selected states that have a display name, in input order, repeats kept. */
  function MappedStates(states: seq<string>): (r: seq<string>)
    ensures |r| <= |states|
    ensures forall x :: x in r ==> x in STATE_NAMES
  {
    if |states| == 0 then []
    else MappedStates(states[..|states| - 1])
         + (if states[|states| - 1] in STATE_NAMES then [states[|states| - 1]] else [])
  }

  /** One more input state adds at most its own record at the end. */
  lemma MappedStatesSnoc(states: seq<string>, i: nat)
    requires i < |states|
    ensures MappedStates(states[..i + 1])
            == MappedStates(states[..i]) + (if states[i] in STATE_NAMES then [states[i]] else [])
  {
    assert states[..i + 1][..i] == states[..i];
  }

  /** Whether `word` occurs in `text`. */
  predicate Mentions(text: string, word: string)
    decreases |text|
  {
    |word| <= |text| && (text[..|word|] == word || Mentions(text[1..], word))
  }

  /** An occurrence at any offset is an occurrence. */
  lemma {:induction false} MentionsAt(text: string, word: string, i: nat)
    requires i + |word| <= |text| && text[i..i + |word|] == word
    ensures Mentions(text, word)
    decreases i
  {
    if i > 0 {
      assert text[1..][i - 1..i - 1 + |word|] == text[i..i + |word|];
      MentionsAt(text[1..], word, i - 1);
    }
  }

  /** Whether `text` ends with `suffix`. */
  predicate EndsWith(text: string, suffix: string)
  {
    |suffix| <= |text| && text[|text| - |suffix|..] == suffix
  }

  /** The record built for one mapped state, with the id the generator gave it. */
  function RecordFor(state: string, agreementId: string): (rec: ReplicationRecord)
    requires state in STATE_NAMES
    ensures rec.state == state && rec.stateName == STATE_NAMES[state]
    ensures rec.status == "completed" && rec.agreementId == agreementId
    ensures |rec.modifications| == 3
    ensures forall m :: m in rec.modifications ==> Mentions(m, STATE_NAMES[state])
    ensures EndsWith(rec.downloadUrl, state)
  {
    var name := STATE_NAMES[state];
    var mods := [
      "Added " + name + " specific termination notice requirements",
      "Incorporated " + name + " franchise law disclosures",
      "Updated territory definitions for " + name + " compliance"
    ];
    assert mods[0][6..6 + |name|] == name;
    MentionsAt(mods[0], name, 6);
    assert mods[1][13..13 + |name|] == name;
    MentionsAt(mods[1], name, 13);
    assert mods[2][34..34 + |name|] == name;
    MentionsAt(mods[2], name, 34);
    var url := DOWNLOAD_PREFIX + state;
    assert url[|url| - |state|..] == state;
    ReplicationRecord(state, name, "completed", agreementId, mods, url)
  }

  /** The records the loop has built after the given prefix of the selection. */
  function ResultsFor(states: seq<string>, draw: nat -> string): (results: seq<ReplicationRecord>)
    ensures |results| <= |states|
    ensures forall k :: 0 <= k < |results| ==>
      results[k].state in STATE_NAMES && results[k].stateName == STATE_NAMES[results[k].state]
      && results[k].status == "completed" && results[k].agreementId == draw(k)
  {
    if |states| == 0 then []
    else
      var built := ResultsFor(states[..|states| - 1], draw);
      var state := states[|states| - 1];
      built + (if state in STATE_NAMES then [RecordFor(state, draw(|built|))] else [])
  }

  /** The k-th record is built for the k-th named state, with the k-th generated id. */
  lemma {:induction false} ResultsForMapped(states: seq<string>, draw: nat -> string)
    ensures |ResultsFor(states, draw)| == |MappedStates(states)|
    ensures forall k :: 0 <= k < |ResultsFor(states, draw)| ==>
      ResultsFor(states, draw)[k] == RecordFor(MappedStates(states)[k], draw(k))
  {
    if |states| > 0 {
      var init := states[..|states| - 1];
      ResultsForMapped(init, draw);
    }
  }

  /**
   * The results loop.  `draw(k)` stands for the value `uuid4()` returns the
   * k-th time it is called in this request (nothing is assumed about it).
   */
  method BuildResults(states: seq<string>, draw: nat -> string) returns (results: seq<ReplicationRecord>)
    ensures |results| == |MappedStates(states)|
    ensures forall k :: 0 <= k < |results| ==> results[k] == RecordFor(MappedStates(states)[k], draw(k))
  {
    results := [];
    for i := 0 to |states|
      invariant results == ResultsFor(states[..i], draw)
    {
      assert states[..i + 1][..i] == states[..i];
      var state := states[i];
      if state in STATE_NAMES {
        results := results + [RecordFor(state, draw(|results|))];
      }
    }
    assert states[..|states|] == states;
    ResultsForMapped(states, draw);
  }

  /** Python's `str(n)` for a natural number. */
  function NatToString(n: nat): (s: string)
    ensures |s| > 0 && forall i :: 0 <= i < |s| ==> '0' <= s[i] <= '9'
    ensures n >= 10 ==> s[0] != '0'
    ensures n < 10 <==> |s| == 1
  {
    if n < 10 then [Digit(n)] else NatToString(n / 10) + [Digit(n % 10)]
  }

  function Digit(d: nat): (c: char)
    requires d < 10
    ensures '0' <= c <= '9' && (c as int) - ('0' as int) == d
  {
    (('0' as int) + d) as char
  }

  /** The number a string of decimal digits denotes. */
  function DigitsValue(s: string): nat
    requires forall i :: 0 <= i < |s| ==> '0' <= s[i] <= '9'
  {
    if |s| == 0 then 0 else DigitsValue(s[..|s| - 1]) * 10 + ((s[|s| - 1] as int) - ('0' as int))
  }

  /** The printed count reads back as the count. */
  lemma {:induction false} NatToStringRoundTrip(n: nat)
    ensures DigitsValue(NatToString(n)) == n
  {
    if n >= 10 {
      NatToStringRoundTrip(n / 10);
      var s := NatToString(n);
      assert s[..|s| - 1] == NatToString(n / 10);
    }
  }

  /** The success message counts the selected states, not the records. */
  function ReplicatedMessage(selected: nat): (m: string)
    ensures |m| > 47 && m[..38] == "Successfully replicated agreement for " && m[|m| - 9..] == " state(s)"
    ensures forall i :: 38 <= i < |m| - 9 ==> '0' <= m[i] <= '9'
    ensures DigitsValue(m[38..|m| - 9]) == selected
    ensures m[38..|m| - 9] == NatToString(selected)
  {
    var digits := NatToString(selected);
    NatToStringRoundTrip(selected);
    var m := "Successfully replicated agreement for " + digits + " state(s)";
    assert m[38..|m| - 9] == digits;
    m
  }

  /** The `product_category` field: the category's name, or "Unknown" when the stored id names none. */
  function CategoryLabel(s: SessionState): (name: string)
    ensures IsCategoryId(s.productCategory) ==> name == CategoryById(s.productCategory.value).value.name
    ensures !IsCategoryId(s.productCategory) ==> name == "Unknown"
  {
    match SessionCategory(s)
    case Some(c) => c.name
    case None => "Unknown"
  }

  /**
   * `agreement_replication_api`: the two decorators (which redirect, not
   * answer JSON), the user lookup, the checks in order, and on success one
   * record per selected state that has a display name.
   */
  method AgreementReplicationApi(s: SessionState, req: ReplicationRequest, draw: nat -> string) returns (r: Response)
    ensures Guard(s).Some? ==> r == Guard(s).value
    ensures Guard(s).None? && CurrentUserRole(s).None? ==> r == ServerError
    ensures Guard(s).None? && CurrentUserRole(s).Some? && ValidationError(CurrentUserRole(s).value.1, req).Some? ==>
      r == JsonError(ValidationError(CurrentUserRole(s).value.1, req).value.status,
                     ValidationError(CurrentUserRole(s).value.1, req).value.message)
    ensures r.JsonOk? <==> Guard(s).None? && CurrentUserRole(s).Some? && ValidationError(CurrentUserRole(s).value.1, req).None?
    ensures r.JsonOk? ==>
      && r.body.Replicated?
      && r.body.message == ReplicatedMessage(|req.states|)
      && |r.body.results| == |MappedStates(req.states)|
      && (forall k :: 0 <= k < |r.body.results| ==> r.body.results[k] == RecordFor(MappedStates(req.states)[k], draw(k)))
      && r.body.originalFilename == req.file.value.filename
      && r.body.productCategory == CategoryLabel(s)
  {
    var stop := Guard(s);
    if stop.Some? {
      return stop.value;
    }
    var current := CurrentUserRole(s);
    if current.None? {
      return ServerError;
    }
    var (_, role) := current.value;
    var error := ValidationError(role, req);
    if error.Some? {
      return JsonError(error.value.status, error.value.message);
    }
    var results := BuildResults(req.states, draw);
    r := JsonOk(Replicated(ReplicatedMessage(|req.states|), results, req.file.value.filename, CategoryLabel(s)));
  }

  /** Filtering distributes over concatenation: records keep the input order. */
  lemma {:induction false} MappedStatesConcat(a: seq<string>, b: seq<string>)
    ensures MappedStates(a + b) == MappedStates(a) + MappedStates(b)
    decreases |b|
  {
    if |b| == 0 {
      assert a + b == a;
    } else {
      var b', last := b[..|b| - 1], b[|b| - 1];
      var tail := if last in STATE_NAMES then [last] else [];
      assert (a + b)[..|a + b| - 1] == a + b';
      assert (a + b)[|a + b| - 1] == last;
      assert MappedStates(a + b) == MappedStates(a + b') + tail;
      assert MappedStates(b) == MappedStates(b') + tail;
      MappedStatesConcat(a, b');
    }
  }

  /** Each state with a display name yields as many records as it was selected; the others none. */
  lemma {:induction false} MappedStatesCount(states: seq<string>, x: string)
    ensures multiset(MappedStates(states))[x] == if x in STATE_NAMES then multiset(states)[x] else 0
  {
    if |states| > 0 {
      var init := states[..|states| - 1];
      MappedStatesCount(init, x);
      assert states == init + [states[|states| - 1]];
    }
  }

  /** A selection made only of named states is kept whole. */
  lemma {:induction false} MappedStatesKeepsNamed(states: seq<string>)
    requires forall x :: x in states ==> x in STATE_NAMES
    ensures MappedStates(states) == states
  {
    if |states| > 0 {
      var n := |states| - 1;
      assert forall x :: x in states[..n] ==> x in states;
      MappedStatesKeepsNamed(states[..n]);
      MappedStatesSnoc(states, n);
      assert states[..n + 1] == states;
    }
  }

  /** New York and California give two records with their full names. */
  lemma TwoStatesExample()
    ensures MappedStates(["NY", "CA"]) == ["NY", "CA"]
    ensures STATE_NAMES["NY"] == "New York" && STATE_NAMES["CA"] == "California"
  {
    var states := ["NY", "CA"];
    assert "NY" in STATE_NAMES && "CA" in STATE_NAMES;
    assert states[..2] == states && states[..0] == [];
    MappedStatesSnoc(states, 0);
    MappedStatesSnoc(states, 1);
  }

  /** A legal user's request for New York and California from Texas with a named file passes every check. */
  lemma TwoStatesAccepted()
    ensures ValidationError(USER_ROLES["legal"],
      ReplicationRequest(Some(UploadedFile("agreement.pdf")), ["NY", "CA"], Some("TX"))).None?
  {
    assert "agreement_replication" in USER_ROLES["legal"].permissions;
    assert "TX" != "NY" && "TX" != "CA";
  }

  /** Ohio has no display name: one record comes back while the message still counts two states. */
  lemma UnnamedStateDropped()
    ensures MappedStates(["NY", "OH"]) == ["NY"]
    ensures ReplicatedMessage(2) == "Successfully replicated agreement for 2 state(s)"
  {
    var states := ["NY", "OH"];
    assert "OH" !in STATE_NAMES && "NY" in STATE_NAMES;
    assert states[..2] == states && states[..0] == [];
    MappedStatesSnoc(states, 0);
    MappedStatesSnoc(states, 1);
    assert Digit(2) == '2';
    assert NatToString(2) == "2";
  }
  /** A legal user replicating an agreement from Texas into New York and California gets both records back. */
  method TwoStatesFromTexas(draw: nat -> string) returns (r: Response)
    ensures r.JsonOk? && r.body.Replicated?
    ensures |r.body.results| == 2
    ensures r.body.results[0].stateName == "New York" && r.body.results[1].stateName == "California"
    ensures r.body.message == "Successfully replicated agreement for 2 state(s)"
    ensures r.body.productCategory == "Wine"
  {
    var s := SessionState(Some("1"), Some("wine"), None);
    var req := ReplicationRequest(Some(UploadedFile("agreement.pdf")), ["NY", "CA"], Some("TX"));
    assert CurrentUserRole(s) == Some((MOCK_USERS[0], USER_ROLES["legal"]));
    TwoStatesAccepted();
    TwoStatesExample();
    UnnamedStateDropped();
    CategoryIdsAreTheFive("wine");
    r := AgreementReplicationApi(s, req, draw);
  }
}
