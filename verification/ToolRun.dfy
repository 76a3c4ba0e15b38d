/** One agent run's tool loop as a state machine over its transactions, with crashes and restarts. */
module ToolRun {
  import opened Text
  import opened ToolState
  import opened Wrappers

  /** A tool call as the LLM adapter hands it over. */
  datatype Request = Request(providerId: string, tool: ToolName, arguments: Arguments, json: ArgumentsJson)

  predicate RequestOk(r: Request) {
    && 1 <= |r.providerId| <= 255 && !Blank(r.providerId)
    && !r.tool.Unregistered?
    && 2 <= |r.json.text| <= 12000
    && r.json.decoded == ObjectOf(r.arguments)
  }

  /** What the adapter's response parser guarantees of a batch. */
  predicate WellFormed(requests: seq<Request>) {
    && requests != []
    && (forall i | 0 <= i < |requests| :: RequestOk(requests[i]))
    && (forall i, j | 0 <= i < j < |requests| :: requests[i].providerId != requests[j].providerId)
  }

  /** The validator of the write tools: why the arguments are refused, if they are. */
  type Validator = (ToolName, Arguments) -> Option<string>

  datatype Malformed = Malformed(id: Id, tool: ToolName, reason: string)

  datatype RunState = Running | WaitingConfirmation | DeliveryPending | Ended

  /** The rows of one run.  `proposals` are the calls a pending action was created for. */
  datatype Db = Db(
    rows: seq<CallRow>, results: map<Id, ResultRow>, state: RunState,
    messages: seq<string>, finalMessage: Option<nat>, proposals: set<Id>, nextId: Id)

  // ---- Transactions -------------------------------------------------------------------------

  function NewRow(request: Request, id: Id, sequence: int, assistant: int): CallRow {
    CallRow(id, request.tool, request.arguments, Some(request.providerId), Some("function"),
            Some(request.json), Some(assistant), sequence)
  }

  function NewRows(requests: seq<Request>, id: Id, sequence: int, assistant: int): (rows: seq<CallRow>)
    ensures |rows| == |requests|
    ensures forall i | 0 <= i < |rows| :: rows[i] == NewRow(requests[i], id + i, sequence + i, assistant)
  {
    if requests == [] then []
    else
      var last := |requests| - 1;
      NewRows(requests[..last], id, sequence, assistant)
      + [NewRow(requests[last], id + last, sequence + last, assistant)]
  }

  /** persist_tool_calls: the whole batch, before anything of it runs. */
  function PersistTx(db: Db, c: Context, requests: seq<Request>): Db {
    db.(rows := db.rows + NewRows(requests, db.nextId, c.nextSequence, c.nextAssistant),
        nextId := db.nextId + |requests|)
  }

  function PendingCalls(rows: seq<CallRow>): (pending: seq<Pending>)
    ensures |pending| == |rows|
    ensures forall i | 0 <= i < |rows| :: pending[i] == Pending(rows[i].id, rows[i].tool, rows[i].arguments)
  {
    if rows == [] then []
    else
      var last := rows[|rows| - 1];
      PendingCalls(rows[..|rows| - 1]) + [Pending(last.id, last.tool, last.arguments)]
  }

  /** How _run_turns extends its context with a persisted batch. */
  function AfterPersist(c: Context, rows: seq<CallRow>): Context
    requires AllComplete(rows)
  {
    Context(c.calls + Views(rows), c.results, PendingCalls(rows), c.nextSequence + |rows|, c.nextAssistant + 1)
  }

  /** execute_tool's second half: one result row, whose unique key admits no second. */
  function ResultTx(db: Db, id: Id, row: ResultRow): Db {
    if id in db.results then db else db.(results := db.results[id := row])
  }

  function AfterResult(c: Context, result: Result): Context
    requires c.pending != []
  {
    c.(results := c.results + [result], pending := c.pending[1..])
  }

  /** The transaction that suspends the run on a proposal; status writes also keep their prompt. */
  function SuspendTx(db: Db, p: Pending, row: ResultRow, prompt: string): Db {
    var linked := ResultTx(db, p.id, row).(proposals := db.proposals + {p.id}, state := WaitingConfirmation);
    if db.finalMessage.Some? || !p.tool.UpdateApplicationStatus? then linked
    else linked.(messages := db.messages + [prompt], finalMessage := Some(|db.messages|))
  }

  /** resume_confirmed_action and finalize_rejected_action on the proposal's result row.  Only the
      first looks at the run's state before it sets the run going. */
  function ResolveTx(db: Db, id: Id, data: Data, refs: Refs, confirmed: bool): Db {
    var resolved := db.(results := db.results[id := ResultRow(data, refs, None)]);
    if confirmed && db.state != WaitingConfirmation then resolved
    else resolved.(finalMessage := None, state := Running)
  }

  function RecoveryData(p: Pending, malformed: Malformed): Data {
    if p.id == malformed.id then Clarification(malformed.tool, malformed.reason) else Cancelled(p.tool)
  }

  function RecoveryResults(results: map<Id, ResultRow>, pending: seq<Pending>, malformed: Malformed)
    : map<Id, ResultRow>
  {
    if pending == [] then results
    else
      var before, last := RecoveryResults(results, pending[..|pending| - 1], malformed), pending[|pending| - 1];
      if last.id in results then before
      else before[last.id := ResultRow(RecoveryData(last, malformed), map[], None)]
  }

  function ClarificationFor(malformed: Malformed): string {
    malformed.reason
  }

  /** persist_write_recovery */
  function RecoveryTx(db: Db, pending: seq<Pending>, malformed: Malformed): Db {
    var handled := db.(results := RecoveryResults(db.results, pending, malformed), state := DeliveryPending);
    if db.finalMessage.Some? then handled
    else handled.(messages := db.messages + [ClarificationFor(malformed)], finalMessage := Some(|db.messages|))
  }

  function RecoveryAnswer(db: Db, malformed: Malformed): string {
    if db.finalMessage.Some? && db.finalMessage.value < |db.messages|
    then db.messages[db.finalMessage.value] else ClarificationFor(malformed)
  }

  // ---- Write preflight ----------------------------------------------------------------------

  function Refusal(p: Pending, validator: Validator): Option<string> {
    if IsWrite(p.tool) then validator(p.tool, p.arguments) else None
  }

  /** preflight_confirmation_writes: the first malformed write of the batch, if any. */
  function Preflight(pending: seq<Pending>, validator: Validator): Option<Malformed> {
    if pending == [] then None
    else
      match Refusal(pending[0], validator)
      case Some(reason) => Some(Malformed(pending[0].id, pending[0].tool, reason))
      case None => Preflight(pending[1..], validator)
  }

  predicate FirstRefused(pending: seq<Pending>, validator: Validator, i: int, malformed: Malformed) {
    && 0 <= i < |pending| && Refusal(pending[i], validator) == Some(malformed.reason)
    && malformed.id == pending[i].id && malformed.tool == pending[i].tool
    && forall j | 0 <= j < i :: Refusal(pending[j], validator) == None
  }

  /** Preflight passes exactly when every pending write is valid, and otherwise names the first bad one. */
  lemma {:induction false} PreflightNamesFirst(pending: seq<Pending>, validator: Validator)
    ensures Preflight(pending, validator) == None <==>
      forall i | 0 <= i < |pending| :: Refusal(pending[i], validator) == None
    ensures var found := Preflight(pending, validator);
      found.Some? ==> exists i :: FirstRefused(pending, validator, i, found.value)
  {
    if pending != [] {
      var found := Preflight(pending, validator);
      if Refusal(pending[0], validator).Some? {
        assert FirstRefused(pending, validator, 0, found.value);
      } else {
        var rest := pending[1..];
        PreflightNamesFirst(rest, validator);
        assert forall i | 0 < i < |pending| :: pending[i] == rest[i - 1];
        if found.Some? {
          var i :| FirstRefused(rest, validator, i, found.value);
          assert FirstRefused(pending, validator, i + 1, found.value);
        }
      }
    }
  }

  // ---- Results come in call order -----------------------------------------------------------

  /** Exactly the first k calls have a result. */
  ghost predicate DonePrefix(rows: seq<CallRow>, results: map<Id, ResultRow>, k: int) {
    0 <= k <= |rows| && forall i | 0 <= i < |rows| :: rows[i].id in results <==> i < k
  }

  lemma {:induction false} ResultsAt(rows: seq<CallRow>, results: map<Id, ResultRow>, k: int)
    requires DonePrefix(rows, results, k)
    ensures var r := ResultsOf(rows, results);
      |r| == k && forall i | 0 <= i < k ::
        r[i] == Result(rows[i].id, results[rows[i].id].data, results[rows[i].id].refs)
  {
    if rows != [] {
      ResultsAt(rows[..|rows| - 1], results, if k == |rows| then k - 1 else k);
    }
  }

  lemma {:induction false} PendingAt(rows: seq<CallRow>, results: map<Id, ResultRow>, k: int)
    requires DonePrefix(rows, results, k)
    ensures var p := PendingOf(rows, results);
      |p| == |rows| - k && forall i | k <= i < |rows| ::
        p[i - k] == Pending(rows[i].id, rows[i].tool, rows[i].arguments)
  {
    if rows != [] {
      PendingAt(rows[..|rows| - 1], results, if k == |rows| then k - 1 else k);
    }
  }

  /** PendingOf lists the rest of the calls. */
  lemma PendingIsSuffix(rows: seq<CallRow>, results: map<Id, ResultRow>, k: int)
    requires DonePrefix(rows, results, k)
    ensures PendingOf(rows, results) == PendingCalls(rows[k..])
  {
    PendingAt(rows, results, k);
    var p := PendingOf(rows, results);
    assert forall i | 0 <= i < |p| :: p[i] == p[i + k - k];
  }

  /** FirstError finds nothing exactly when no result failed. */
  lemma {:induction false} NoErrorMeans(rows: seq<CallRow>, results: map<Id, ResultRow>)
    ensures FirstError(rows, results) == None <==>
      forall i | 0 <= i < |rows| && rows[i].id in results :: results[rows[i].id].error == None
  {
    if rows != [] {
      NoErrorMeans(rows[..|rows| - 1], results);
    }
  }

  lemma {:induction false} LastErrorIsFirst(rows: seq<CallRow>, results: map<Id, ResultRow>, k: int)
    requires 0 <= k < |rows| && DonePrefix(rows, results, k + 1)
    requires forall i | 0 <= i < k :: results[rows[i].id].error == None
    ensures FirstError(rows, results) == results[rows[k].id].error
  {
    var before := rows[..|rows| - 1];
    if k == |rows| - 1 {
      NoErrorMeans(before, results);
    } else {
      LastErrorIsFirst(before, results, k);
    }
  }

  // ---- Restart equivalence, transaction by transaction --------------------------------------

  ghost predicate Below(results: map<Id, ResultRow>, limit: Id) {
    forall id | id in results :: id < limit
  }

  ghost predicate IdsOk(db: Db) {
    && (forall i | 0 <= i < |db.rows| :: db.rows[i].id < db.nextId)
    && DistinctIds(db.rows)
    && Below(db.results, db.nextId)
  }

  /** A restart would rebuild exactly this context (RestartLoads). */
  ghost predicate Restarts(db: Db, c: Context) {
    Consistent(db.rows) && Describes(db.rows, db.results, c) && DonePrefix(db.rows, db.results, |c.results|)
  }

  ghost predicate Describes(rows: seq<CallRow>, results: map<Id, ResultRow>, c: Context)
    requires AllComplete(rows)
  {
    && FirstError(rows, results) == None
    && c.calls == Views(rows) && c.results == ResultsOf(rows, results) && c.pending == PendingOf(rows, results)
    && c.nextSequence == |rows| + 1 && c.nextAssistant == Greatest(Assistants(c.calls)) + 1
  }

  lemma RestartLoads(db: Db, c: Context)
    requires Restarts(db, c)
    ensures LoadToolState(db.rows, db.results) == Loaded(c)
  {
  }

  ghost predicate NewProviderIds(requests: seq<Request>, calls: seq<Call>) {
    forall i, j | 0 <= i < |requests| && 0 <= j < |calls| :: requests[i].providerId != calls[j].providerId
  }

  lemma ViewsConcat(a: seq<CallRow>, b: seq<CallRow>)
    requires AllComplete(a) && AllComplete(b)
    ensures AllComplete(a + b) && Views(a + b) == Views(a) + Views(b)
  {
  }

  lemma AssistantsConcat(a: seq<Call>, b: seq<Call>)
    ensures Assistants(a + b) == Assistants(a) + Assistants(b)
  {
  }

  /** New rows pass every per-row check of a restart. */
  lemma NewRowsComplete(requests: seq<Request>, id: Id, sequence: int, assistant: int)
    requires WellFormed(requests) && sequence > 0 && assistant > 0
    ensures var rows := NewRows(requests, id, sequence, assistant);
      AllComplete(rows) && forall i | 0 <= i < |rows| :: Executable(rows[i])
  {
  }

  /** The counters of a loaded context are positive and continue the numbering. */
  lemma Counters(calls: seq<Call>)
    requires BatchesNumbered(Assistants(calls))
    ensures StepsByOne(Assistants(calls)) && Greatest(Assistants(calls)) == Top(Assistants(calls)) >= 0
  {
    var s := Assistants(calls);
    BatchCheckMeans(s);
    GreatestIsTop(s);
  }

  lemma GreatestIsTop(s: seq<int>)
    requires StepsByOne(s)
    ensures Greatest(s) == Top(s)
  {
    GreatestIsLast(s);
    StepsAreSorted(s);
  }

  lemma NewBatchSteps(prior: seq<int>, added: seq<int>, next: int)
    requires StepsByOne(prior) && next == Top(prior) + 1
    requires added != [] && forall i | 0 <= i < |added| :: added[i] == next
    ensures StepsByOne(prior + added) && Top(prior + added) == next
  {
    StepsAreSorted(prior);
    var all := prior + added;
    forall i | 0 < i < |all| ensures all[i] == all[i - 1] || all[i] == all[i - 1] + 1 {
      if i == |prior| {
        assert all[i - 1] == prior[|prior| - 1] == Top(prior);
      }
    }
  }

  lemma NewViews(requests: seq<Request>, id: Id, sequence: int, assistant: int)
    requires WellFormed(requests) && sequence > 0 && assistant > 0
    ensures var rows := NewRows(requests, id, sequence, assistant);
      && AllComplete(rows) && |Views(rows)| == |requests|
      && (forall i | 0 <= i < |rows| :: Executable(rows[i]))
      && (forall i | 0 <= i < |rows| ::
            && Views(rows)[i].providerId == requests[i].providerId
            && Views(rows)[i].sequence == sequence + i && Views(rows)[i].assistant == assistant)
  {
    NewRowsComplete(requests, id, sequence, assistant);
  }

  lemma CallsExtend(calls: seq<Call>, news: seq<Call>, next: int)
    requires Numbered(calls) && StepsByOne(Assistants(calls)) && news != []
    requires next == Top(Assistants(calls)) + 1
    requires forall i | 0 <= i < |news| :: news[i].sequence == |calls| + 1 + i && news[i].assistant == next
    ensures Numbered(calls + news) && BatchesNumbered(Assistants(calls + news))
    ensures Greatest(Assistants(calls + news)) == next
  {
    AssistantsConcat(calls, news);
    NewBatchSteps(Assistants(calls), Assistants(news), next);
    GreatestIsTop(Assistants(calls + news));
    BatchCheckMeans(Assistants(calls + news));
  }

  /** The persisted batch is consistent exactly when its provider ids are new to the run. */
  lemma PersistConsistent(rows: seq<CallRow>, c: Context, requests: seq<Request>, id: Id)
    requires Consistent(rows) && WellFormed(requests) && c.calls == Views(rows)
    requires c.nextSequence == |rows| + 1 && c.nextAssistant == Greatest(Assistants(c.calls)) + 1
    ensures var added := NewRows(requests, id, c.nextSequence, c.nextAssistant);
      && AllComplete(added) && AllComplete(rows + added)
      && (Consistent(rows + added) <==> NewProviderIds(requests, c.calls))
      && Views(rows + added) == c.calls + Views(added)
      && Greatest(Assistants(c.calls + Views(added))) == c.nextAssistant
  {
    hide NewProviderIds, ProviderIdsDistinct, Numbered, BatchesNumbered, StepsByOne, Executable, Complete;
    Counters(c.calls);
    var added := NewRows(requests, id, c.nextSequence, c.nextAssistant);
    NewViews(requests, id, c.nextSequence, c.nextAssistant);
    ViewsConcat(rows, added);
    CallsExtend(c.calls, Views(added), c.nextAssistant);
    DistinctConcat(c.calls, Views(added), requests);
    ExecutableConcat(rows, added);
  }

  lemma ExecutableConcat(a: seq<CallRow>, b: seq<CallRow>)
    requires (forall i | 0 <= i < |a| :: Executable(a[i])) && (forall i | 0 <= i < |b| :: Executable(b[i]))
    ensures forall i | 0 <= i < |a + b| :: Executable((a + b)[i])
  {
  }

  lemma DistinctConcat(calls: seq<Call>, news: seq<Call>, requests: seq<Request>)
    requires ProviderIdsDistinct(calls) && |news| == |requests|
    requires forall i | 0 <= i < |news| :: news[i].providerId == requests[i].providerId
    requires forall i, j | 0 <= i < j < |requests| :: requests[i].providerId != requests[j].providerId
    ensures ProviderIdsDistinct(calls + news) <==> NewProviderIds(requests, calls)
  {
    var all := calls + news;
    if ProviderIdsDistinct(all) {
      forall i, j | 0 <= i < |requests| && 0 <= j < |calls| ensures requests[i].providerId != calls[j].providerId {
        assert all[j] == calls[j] && all[|calls| + i] == news[i];
      }
    }
  }

  ghost predicate Unused(rows: seq<CallRow>, results: map<Id, ResultRow>) {
    forall i | 0 <= i < |rows| :: rows[i].id !in results
  }

  lemma {:induction false} ResultsIgnoreNewRows(rows: seq<CallRow>, added: seq<CallRow>, results: map<Id, ResultRow>)
    requires Unused(added, results)
    ensures ResultsOf(rows + added, results) == ResultsOf(rows, results)
    ensures FirstError(rows + added, results) == FirstError(rows, results)
    ensures PendingOf(rows + added, results) == PendingOf(rows, results) + PendingCalls(added)
  {
    if added == [] {
      assert rows + added == rows;
    } else {
      var init := added[..|added| - 1];
      ResultsIgnoreNewRows(rows, init, results);
      assert (rows + added)[..|rows + added| - 1] == rows + init;
    }
  }

  lemma PersistKeepsIds(db: Db, c: Context, requests: seq<Request>)
    requires IdsOk(db)
    ensures IdsOk(PersistTx(db, c, requests))
  {
  }

  lemma AllDone(rows: seq<CallRow>, results: map<Id, ResultRow>, k: int)
    requires DonePrefix(rows, results, k) && PendingOf(rows, results) == []
    ensures k == |rows|
  {
    PendingAt(rows, results, k);
  }

  lemma RowsGrow(rows: seq<CallRow>, added: seq<CallRow>, results: map<Id, ResultRow>, k: int)
    requires DonePrefix(rows, results, k) && PendingOf(rows, results) == []
    requires Unused(added, results)
    ensures ResultsOf(rows + added, results) == ResultsOf(rows, results)
    ensures FirstError(rows + added, results) == FirstError(rows, results)
    ensures PendingOf(rows + added, results) == PendingCalls(added)
    ensures DonePrefix(rows + added, results, k)
  {
    ResultsIgnoreNewRows(rows, added, results);
    AllDone(rows, results, k);
  }

  lemma PersistDescribes(rows: seq<CallRow>, added: seq<CallRow>, results: map<Id, ResultRow>, c: Context)
    requires AllComplete(rows) && AllComplete(added) && AllComplete(rows + added)
    requires Views(rows + added) == c.calls + Views(added)
    requires Greatest(Assistants(c.calls + Views(added))) == c.nextAssistant
    requires Describes(rows, results, c) && c.pending == [] && DonePrefix(rows, results, |c.results|)
    requires Unused(added, results)
    ensures Describes(rows + added, results, AfterPersist(c, added))
    ensures DonePrefix(rows + added, results, |c.results|)
  {
    RowsGrow(rows, added, results, |c.results|);
  }

  lemma NewIdsUnused(results: map<Id, ResultRow>, requests: seq<Request>, id: Id, sequence: int, assistant: int)
    requires Below(results, id)
    ensures Unused(NewRows(requests, id, sequence, assistant), results)
  {
  }

  /** Persisting a batch: what a restart would load is the extended live context, provided the
      provider has not reused a call id. */
  lemma PersistRestarts(db: Db, c: Context, requests: seq<Request>)
    requires Restarts(db, c) && c.pending == [] && WellFormed(requests) && NewProviderIds(requests, c.calls)
    requires Below(db.results, db.nextId)
    ensures var added := NewRows(requests, db.nextId, c.nextSequence, c.nextAssistant);
      AllComplete(added) && Restarts(PersistTx(db, c, requests), AfterPersist(c, added))
  {
    var added := NewRows(requests, db.nextId, c.nextSequence, c.nextAssistant);
    PersistConsistent(db.rows, c, requests, db.nextId);
    NewIdsUnused(db.results, requests, db.nextId, c.nextSequence, c.nextAssistant);
    PersistDescribes(db.rows, added, db.results, c);
  }

  /** A restart after a batch raises exactly when the provider has reused a call id. */
  lemma ReusedIdsAreRefused(db: Db, c: Context, requests: seq<Request>)
    requires Restarts(db, c) && WellFormed(requests) && !NewProviderIds(requests, c.calls)
    ensures LoadToolState(PersistTx(db, c, requests).rows, db.results) == LoadError(INVALID)
  {
    PersistConsistent(db.rows, c, requests, db.nextId);
  }

  lemma PendingHead(rows: seq<CallRow>, results: map<Id, ResultRow>, k: int, pending: seq<Pending>)
    requires DonePrefix(rows, results, k) && pending == PendingOf(rows, results) && pending != []
    ensures k < |rows| && pending[0] == Pending(rows[k].id, rows[k].tool, rows[k].arguments)
    ensures pending[1..] == PendingCalls(rows[k + 1..])
  {
    PendingIsSuffix(rows, results, k);
    assert rows[k..][1..] == rows[k + 1..];
  }

  lemma OneMoreDone(rows: seq<CallRow>, results: map<Id, ResultRow>, k: int, row: ResultRow)
    requires DonePrefix(rows, results, k) && k < |rows|
    requires forall i, j | 0 <= i < j < |rows| :: rows[i].id != rows[j].id
    ensures var next := results[rows[k].id := row];
      && DonePrefix(rows, next, k + 1)
      && ResultsOf(rows, next) == ResultsOf(rows, results) + [Result(rows[k].id, row.data, row.refs)]
      && (FirstError(rows, results) == None ==> FirstError(rows, next) == row.error)
  {
    var next := results[rows[k].id := row];
    ResultsAt(rows, results, k);
    assert DonePrefix(rows, next, k + 1);
    ResultsAt(rows, next, k + 1);
    NoErrorMeans(rows, results);
    if FirstError(rows, results) == None {
      LastErrorIsFirst(rows, next, k);
    }
  }

  lemma TakeNext(rows: seq<CallRow>, results: map<Id, ResultRow>, k: int, pending: seq<Pending>, row: ResultRow)
    requires DonePrefix(rows, results, k) && pending == PendingOf(rows, results) && pending != []
    requires DistinctIds(rows)
    ensures var id := pending[0].id; var next := results[id := row];
      && id !in results && DonePrefix(rows, next, k + 1)
      && ResultsOf(rows, next) == ResultsOf(rows, results) + [Result(id, row.data, row.refs)]
      && PendingOf(rows, next) == pending[1..]
      && (FirstError(rows, results) == None ==> FirstError(rows, next) == row.error)
  {
    PendingHead(rows, results, k, pending);
    OneMoreDone(rows, results, k, row);
    PendingIsSuffix(rows, results[rows[k].id := row], k + 1);
  }

  lemma ResultDescribes(rows: seq<CallRow>, results: map<Id, ResultRow>, c: Context, row: ResultRow)
    requires AllComplete(rows) && Describes(rows, results, c) && DonePrefix(rows, results, |c.results|)
    requires c.pending != [] && DistinctIds(rows)
    ensures var id := c.pending[0].id;
      && id !in results && FirstError(rows, results[id := row]) == row.error
      && (row.error == None ==> Describes(rows, results[id := row], AfterResult(c, Result(id, row.data, row.refs))))
      && DonePrefix(rows, results[id := row], |c.results| + 1)
  {
    TakeNext(rows, results, |c.results|, c.pending, row);
  }

  ghost predicate DistinctIds(rows: seq<CallRow>) {
    forall i, j | 0 <= i < j < |rows| :: rows[i].id != rows[j].id
  }

  /** Storing the result of the next pending call extends the context a restart rebuilds. */
  lemma ResultRestarts(db: Db, c: Context, row: ResultRow)
    requires Restarts(db, c) && c.pending != [] && DistinctIds(db.rows) && row.error == None
    ensures Restarts(ResultTx(db, c.pending[0].id, row), AfterResult(c, Result(c.pending[0].id, row.data, row.refs)))
  {
    ResultDescribes(db.rows, db.results, c, row);
  }

  /** A stored failure makes every later restart raise that same error. */
  lemma FailureRestarts(db: Db, c: Context, row: ResultRow)
    requires Restarts(db, c) && c.pending != [] && DistinctIds(db.rows) && row.error.Some?
    ensures LoadToolState(db.rows, ResultTx(db, c.pending[0].id, row).results) == LoadError(row.error.value)
  {
    ResultDescribes(db.rows, db.results, c, row);
  }

  // ---- Recovery of a malformed batch --------------------------------------------------------

  ghost predicate DistinctPending(pending: seq<Pending>) {
    forall i, j | 0 <= i < j < |pending| :: pending[i].id != pending[j].id
  }

  ghost predicate NonePresent(pending: seq<Pending>, results: map<Id, ResultRow>) {
    forall i | 0 <= i < |pending| :: pending[i].id !in results
  }

  function PendingIds(pending: seq<Pending>): set<Id> {
    if pending == [] then {} else PendingIds(pending[..|pending| - 1]) + {pending[|pending| - 1].id}
  }

  /** The recovery row of every pending call. */
  ghost predicate Answered(after: map<Id, ResultRow>, pending: seq<Pending>, m: Malformed) {
    forall i | 0 <= i < |pending| ::
      pending[i].id in after && after[pending[i].id] == ResultRow(RecoveryData(pending[i], m), map[], None)
  }

  /** Every pending call gets its one result, and nothing else changes. */
  ghost predicate Handled(before: map<Id, ResultRow>, after: map<Id, ResultRow>, pending: seq<Pending>, m: Malformed) {
    && Answered(after, pending, m)
    && (forall id | id in before :: id in after && after[id] == before[id])
    && after.Keys == before.Keys + PendingIds(pending)
  }

  lemma {:induction false} RecoveryAnswers(results: map<Id, ResultRow>, pending: seq<Pending>, m: Malformed)
    requires DistinctPending(pending) && NonePresent(pending, results)
    ensures Answered(RecoveryResults(results, pending, m), pending, m)
  {
    if pending != [] {
      RecoveryAnswers(results, pending[..|pending| - 1], m);
    }
  }

  lemma {:induction false} RecoveryKeys(results: map<Id, ResultRow>, pending: seq<Pending>, m: Malformed)
    ensures var after := RecoveryResults(results, pending, m);
      && after.Keys == results.Keys + PendingIds(pending)
      && forall id | id in results :: after[id] == results[id]
  {
    if pending != [] {
      RecoveryKeys(results, pending[..|pending| - 1], m);
    }
  }

  lemma RecoveryHandles(results: map<Id, ResultRow>, pending: seq<Pending>, m: Malformed)
    requires DistinctPending(pending) && NonePresent(pending, results)
    ensures Handled(results, RecoveryResults(results, pending, m), pending, m)
  {
    RecoveryAnswers(results, pending, m);
    RecoveryKeys(results, pending, m);
  }

  lemma {:induction false} RecoveryReplay(results: map<Id, ResultRow>, pending: seq<Pending>, m: Malformed)
    requires forall i | 0 <= i < |pending| :: pending[i].id in results
    ensures RecoveryResults(results, pending, m) == results
  {
    if pending != [] {
      RecoveryReplay(results, pending[..|pending| - 1], m);
    }
  }

  lemma {:induction false} RecoveryCovers(results: map<Id, ResultRow>, pending: seq<Pending>, m: Malformed)
    ensures forall i | 0 <= i < |pending| :: pending[i].id in RecoveryResults(results, pending, m)
  {
    if pending != [] {
      RecoveryKeys(results, pending[..|pending| - 1], m);
      RecoveryCovers(results, pending[..|pending| - 1], m);
    }
  }

  /** Replaying the recovery after a crash changes nothing and answers with the stored message,
      whatever the replay would have asked. */
  lemma RecoveryIsIdempotent(db: Db, pending: seq<Pending>, m: Malformed, again: Malformed)
    requires db.finalMessage.Some? ==> db.finalMessage.value < |db.messages|
    ensures var after := RecoveryTx(db, pending, m);
      && RecoveryTx(after, pending, again) == after
      && RecoveryAnswer(after, again) == RecoveryAnswer(db, m)
      && after.proposals == db.proposals && after.rows == db.rows
      && |after.messages| == |db.messages| + (if db.finalMessage.Some? then 0 else 1)
  {
    RecoveryCovers(db.results, pending, m);
    RecoveryReplay(RecoveryTx(db, pending, m).results, pending, again);
  }

  lemma PendingDistinct(rows: seq<CallRow>, results: map<Id, ResultRow>, k: int)
    requires DistinctIds(rows) && DonePrefix(rows, results, k)
    ensures DistinctPending(PendingOf(rows, results)) && NonePresent(PendingOf(rows, results), results)
  {
    PendingIsSuffix(rows, results, k);
    assert forall i | 0 <= i < |rows| - k :: rows[k..][i] == rows[i + k];
  }

  /** The context after a recovery: every call answered. */
  function Recovered(c: Context, results: seq<Result>): Context {
    c.(results := results, pending := [])
  }

  ghost predicate AllSucceeded(rows: seq<CallRow>, results: map<Id, ResultRow>) {
    forall i | 0 <= i < |rows| :: rows[i].id in results && results[rows[i].id].error == None
  }

  lemma HandledSucceeds(rows: seq<CallRow>, before: map<Id, ResultRow>, after: map<Id, ResultRow>, k: int, m: Malformed)
    requires DonePrefix(rows, before, k) && Handled(before, after, PendingOf(rows, before), m)
    requires FirstError(rows, before) == None
    ensures AllSucceeded(rows, after)
  {
    PendingAt(rows, before, k);
    NoErrorMeans(rows, before);
    forall i | 0 <= i < |rows| ensures rows[i].id in after && after[rows[i].id].error == None {
      if i >= k {
        assert PendingOf(rows, before)[i - k].id == rows[i].id;
      } else {
        assert rows[i].id in before;
      }
    }
  }

  lemma SucceededCompletes(rows: seq<CallRow>, results: map<Id, ResultRow>)
    requires AllSucceeded(rows, results)
    ensures DonePrefix(rows, results, |rows|) && PendingOf(rows, results) == []
    ensures FirstError(rows, results) == None && |ResultsOf(rows, results)| == |rows|
  {
    NoErrorMeans(rows, results);
    PendingAt(rows, results, |rows|);
    ResultsAt(rows, results, |rows|);
  }

  /** The recovery of a batch that preflight refuses answers every pending call once: the first
      malformed write, which preflight names, with a clarification, every other call with a
      cancellation.  Nothing else changes, and no action is created. */
  lemma MalformedBatchIsHandled(db: Db, k: int, v: Validator, m: Malformed) returns (f: int)
    requires DonePrefix(db.rows, db.results, k) && DistinctIds(db.rows)
    requires Preflight(PendingOf(db.rows, db.results), v) == Some(m)
    ensures var pending := PendingOf(db.rows, db.results); var after := RecoveryTx(db, pending, m);
      && Handled(db.results, after.results, pending, m)
      && after.proposals == db.proposals && after.rows == db.rows
      && FirstRefused(pending, v, f, m)
      && forall i | 0 <= i < |pending| ::
           after.results[pending[i].id].data ==
             if i == f then Clarification(pending[i].tool, m.reason) else Cancelled(pending[i].tool)
  {
    var pending := PendingOf(db.rows, db.results);
    PendingDistinct(db.rows, db.results, k);
    RecoveryHandles(db.results, pending, m);
    PreflightNamesFirst(pending, v);
    f :| FirstRefused(pending, v, f, m);
  }

  lemma RecoveryCompletes(rows: seq<CallRow>, results: map<Id, ResultRow>, k: int, m: Malformed)
    requires DonePrefix(rows, results, k) && DistinctIds(rows) && FirstError(rows, results) == None
    ensures var after := RecoveryResults(results, PendingOf(rows, results), m);
      && FirstError(rows, after) == None && PendingOf(rows, after) == []
      && |ResultsOf(rows, after)| == |rows| && DonePrefix(rows, after, |rows|)
  {
    var pending := PendingOf(rows, results);
    PendingDistinct(rows, results, k);
    RecoveryHandles(results, pending, m);
    HandledSucceeds(rows, results, RecoveryResults(results, pending, m), k, m);
    SucceededCompletes(rows, RecoveryResults(results, pending, m));
  }

  lemma RecoveryDescribes(rows: seq<CallRow>, results: map<Id, ResultRow>, after: map<Id, ResultRow>, c: Context)
    requires AllComplete(rows) && Describes(rows, results, c)
    requires FirstError(rows, after) == None && PendingOf(rows, after) == []
    ensures Describes(rows, after, Recovered(c, ResultsOf(rows, after)))
  {
  }

  lemma RecoveryRebuilds(rows: seq<CallRow>, results: map<Id, ResultRow>, after: map<Id, ResultRow>,
                         c: Context, m: Malformed)
    requires AllComplete(rows) && Describes(rows, results, c) && DonePrefix(rows, results, |c.results|)
    requires DistinctIds(rows) && after == RecoveryResults(results, c.pending, m)
    ensures var next := Recovered(c, ResultsOf(rows, after));
      Describes(rows, after, next) && DonePrefix(rows, after, |next.results|)
  {
    RecoveryCompletes(rows, results, |c.results|, m);
    RecoveryDescribes(rows, results, after, c);
  }

  lemma Rebuilt(rows: seq<CallRow>, db: Db, c: Context)
    requires Consistent(rows) && db.rows == rows
    requires Describes(rows, db.results, c) && DonePrefix(rows, db.results, |c.results|)
    ensures Restarts(db, c)
  {
  }

  /** After a recovery a restart finds every call answered. */
  lemma RecoveryRestarts(db: Db, c: Context, after: Db, next: Context, m: Malformed)
    requires Restarts(db, c) && DistinctIds(db.rows)
    requires after.rows == db.rows && after.results == RecoveryResults(db.results, c.pending, m)
    requires next == Recovered(c, ResultsOf(db.rows, after.results))
    ensures Restarts(after, next)
  {
    RecoveryRebuilds(db.rows, db.results, after.results, c, m);
    Rebuilt(db.rows, after, next);
  }
}
