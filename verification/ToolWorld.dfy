/** All runs of one agent run's tool loop: LLM replies, tools, proposals, recoveries, confirmations,
    crashes and restarts in any order the service allows. */
module ToolWorld {
  import opened Text
  import opened Wrappers
  import opened ToolState
  import opened ToolMessages
  import opened ToolRun

  /** `live` is the in-memory context while a process works on the run. */
  datatype World = World(db: Db, live: Option<Context>)

  const NEW_RUN := Db([], map[], Running, [], None, {}, 0)

  datatype Step =
    | Restart
    | Reply(requests: seq<Request>)
    | ToolOk(data: Data, refs: Refs)
    | ToolFails(error: string)
    | CreateAction                                   // propose_add or propose_remove, not yet linked
    | Suspend(data: Data, refs: Refs, prompt: string)
    | Recover
    | Resolve(id: Id, data: Data, refs: Refs, confirmed: bool)   // the user confirms or rejects
    | Answer(text: string)
    | Fail
    | Postpone                                       // a retryable LLM failure
    | Crash

  predicate Loadable(db: Db) {
    db.state == Running || (db.state == DeliveryPending && db.finalMessage == None)
  }

  /** The next pending call of the live run may run: its whole batch passed preflight. */
  predicate MayRun(w: World, v: Validator) {
    w.live.Some? && w.live.value.pending != [] && Preflight(w.live.value.pending, v) == None
  }

  function Do(w: World, step: Step, v: Validator, max: nat): World {
    match step
    case Restart =>
      if w.live.Some? || !Loadable(w.db) then w
      else
        (match LoadToolState(w.db.rows, w.db.results)
         case Loaded(c) => w.(live := Some(c))
         case LoadError(_) => w.(db := w.db.(state := Ended)))
    case Reply(requests) =>
      if w.live.None? || w.live.value.pending != [] || !WellFormed(requests) then w
      else if |w.live.value.calls| + |requests| > max then World(w.db.(state := Ended), None)
      else
        var c := w.live.value;
        var added := NewRows(requests, w.db.nextId, c.nextSequence, c.nextAssistant);
        if AllComplete(added) then World(PersistTx(w.db, c, requests), Some(AfterPersist(c, added))) else w
    case ToolOk(data, refs) =>
      if !MayRun(w, v) || IsWrite(w.live.value.pending[0].tool) then w
      else
        var id := w.live.value.pending[0].id;
        World(ResultTx(w.db, id, ResultRow(data, refs, None)), Some(AfterResult(w.live.value, Result(id, data, refs))))
    case ToolFails(error) =>
      if !MayRun(w, v) || IsWrite(w.live.value.pending[0].tool) then w
      else World(ResultTx(w.db, w.live.value.pending[0].id, ResultRow(Output(""), map[], Some(error))), None)
    case CreateAction =>
      if !MayRun(w, v) || !IsWrite(w.live.value.pending[0].tool) then w
      else w.(db := w.db.(proposals := w.db.proposals + {w.live.value.pending[0].id}))
    case Suspend(data, refs, prompt) =>
      if !MayRun(w, v) || !IsWrite(w.live.value.pending[0].tool) then w
      else World(SuspendTx(w.db, w.live.value.pending[0], ResultRow(data, refs, None), prompt), None)
    case Recover =>
      if w.live.None? then w
      else
        (match Preflight(w.live.value.pending, v)
         case None => w
         case Some(m) => World(RecoveryTx(w.db, w.live.value.pending, m), None))
    case Resolve(id, data, refs, confirmed) =>
      if w.live.Some? || id !in w.db.proposals then w else w.(db := ResolveTx(w.db, id, data, refs, confirmed))
    case Answer(text) =>
      if w.live.None? || w.live.value.pending != [] then w
      else World(w.db.(messages := w.db.messages + [text], finalMessage := Some(|w.db.messages|),
                       state := DeliveryPending), None)
    case Fail => World(w.db.(state := Ended), None)
    case Postpone => World(w.db.(state := DeliveryPending), None)
    case Crash => w.(live := None)
  }

  function Run(w: World, steps: seq<Step>, v: Validator, max: nat): World {
    if steps == [] then w else Do(Run(w, steps[..|steps| - 1], v, max), steps[|steps| - 1], v, max)
  }

  /** The LLM never reuses a call id within the run. */
  ghost predicate IdsAreNew(w: World, step: Step) {
    step.Reply? && w.live.Some? ==> NewProviderIds(step.requests, w.live.value.calls)
  }

  ghost predicate FreshReplies(w: World, steps: seq<Step>, v: Validator, max: nat) {
    steps == [] ||
    (FreshReplies(w, steps[..|steps| - 1], v, max)
      && IdsAreNew(Run(w, steps[..|steps| - 1], v, max), steps[|steps| - 1]))
  }

  // ---- The invariant ------------------------------------------------------------------------

  ghost predicate Orderly(rows: seq<CallRow>, results: map<Id, ResultRow>) {
    exists k :: DonePrefix(rows, results, k)
  }

  ghost predicate Approved(rows: seq<CallRow>, results: map<Id, ResultRow>, v: Validator, id: Id, i: int) {
    && 0 <= i < |rows| && rows[i].id == id
    && IsWrite(rows[i].tool) && v(rows[i].tool, rows[i].arguments) == None
    && forall j | 0 <= j < i :: rows[j].id in results
  }

  ghost predicate ApprovedSomewhere(rows: seq<CallRow>, results: map<Id, ResultRow>, v: Validator, id: Id) {
    exists i :: Approved(rows, results, v, id, i)
  }

  /** Actions exist only for valid writes, and only once every earlier call has its result. */
  ghost predicate ProposalsOk(db: Db, v: Validator) {
    forall id {:trigger ApprovedSomewhere(db.rows, db.results, v, id)} | id in db.proposals ::
      ApprovedSomewhere(db.rows, db.results, v, id)
  }

  ghost predicate TablesOk(db: Db, v: Validator) {
    IdsOk(db) && Orderly(db.rows, db.results) && ProposalsOk(db, v) && NonBlankIds(db.rows)
  }

  ghost predicate Inv(w: World, v: Validator, max: nat) {
    && Consistent(w.db.rows) && |w.db.rows| <= max && TablesOk(w.db, v)
    && (w.live.Some? ==> Restarts(w.db, w.live.value))
  }

  lemma ApprovedStays(before: Db, after: Db, v: Validator)
    requires ProposalsOk(before, v) && after.proposals == before.proposals
    requires before.rows <= after.rows && before.results.Keys <= after.results.Keys
    ensures ProposalsOk(after, v)
  {
    forall id | id in after.proposals ensures ApprovedSomewhere(after.rows, after.results, v, id) {
      assert ApprovedSomewhere(before.rows, before.results, v, id);
      var i :| Approved(before.rows, before.results, v, id, i);
      assert Approved(after.rows, after.results, v, id, i);
    }
  }

  lemma OrderlyDone(rows: seq<CallRow>, results: map<Id, ResultRow>)
    requires Orderly(rows, results)
    ensures DonePrefix(rows, results, |ResultsOf(rows, results)|)
  {
    var k :| DonePrefix(rows, results, k);
    ResultsAt(rows, results, k);
  }

  lemma LoadedIsRebuilt(db: Db, c: Context)
    requires Orderly(db.rows, db.results) && LoadToolState(db.rows, db.results) == Loaded(c)
    ensures Restarts(db, c)
  {
    OrderlyDone(db.rows, db.results);
  }

  lemma RestartKeepsInv(w: World, v: Validator, max: nat)
    requires Inv(w, v, max)
    ensures Inv(Do(w, Restart, v, max), v, max)
  {
    hide LoadToolState, Consistent, IdsOk, ProposalsOk, Orderly, NonBlankIds;
    var next := Do(w, Restart, v, max);
    if next.live.Some? && w.live.None? {
      LoadedIsRebuilt(w.db, next.live.value);
    } else {
      StateKeepsInv(w.db, next.db, v);
    }
  }

  lemma ReplyKeepsInv(w: World, requests: seq<Request>, v: Validator, max: nat)
    requires Inv(w, v, max) && IdsAreNew(w, Reply(requests))
    ensures Inv(Do(w, Reply(requests), v, max), v, max)
  {
    if w.live.Some? && w.live.value.pending == [] && WellFormed(requests) {
      var c := w.live.value;
      if |c.calls| + |requests| <= max {
        PersistRestarts(w.db, c, requests);
        PersistKeepsIds(w.db, c, requests);
        NewIdsNonBlank(w.db, c, requests);
        var next := PersistTx(w.db, c, requests);
        ApprovedStays(w.db, next, v);
        RestartsAreOrderly(next, AfterPersist(c, NewRows(requests, w.db.nextId, c.nextSequence, c.nextAssistant)));
        CallsAreRows(w.db, c);
      } else {
        StateKeepsInv(w.db, w.db.(state := Ended), v);
      }
    }
  }

  lemma NewIdsNonBlank(db: Db, c: Context, requests: seq<Request>)
    requires NonBlankIds(db.rows) && WellFormed(requests)
    ensures NonBlankIds(PersistTx(db, c, requests).rows)
  {
    forall i | 0 <= i < |requests| ensures !Blank(requests[i].providerId) {
      assert RequestOk(requests[i]);
    }
  }

  lemma CallsAreRows(db: Db, c: Context)
    requires Restarts(db, c)
    ensures |c.calls| == |db.rows|
  {
  }

  lemma RestartsAreOrderly(db: Db, c: Context)
    requires Restarts(db, c)
    ensures Orderly(db.rows, db.results) && Consistent(db.rows)
  {
  }

  lemma StateKeepsInv(db: Db, next: Db, v: Validator)
    requires TablesOk(db, v)
    requires next.rows == db.rows && next.results == db.results && next.proposals == db.proposals
    requires next.nextId == db.nextId
    ensures TablesOk(next, v)
  {
    ApprovedStays(db, next, v);
  }

  /** A restart would rebuild the live context. */
  lemma LiveRestarts(db: Db, c: Context, v: Validator, max: nat)
    requires Inv(World(db, Some(c)), v, max)
    ensures Restarts(db, c) && DistinctIds(db.rows)
  {
    hide Consistent, LoadToolState;
  }

  /** The head of the pending calls is the first row without a result. */
  lemma HeadIsRow(db: Db, c: Context)
    requires Restarts(db, c) && c.pending != []
    ensures var k := |c.results|;
      && k < |db.rows| && c.pending[0] == Pending(db.rows[k].id, db.rows[k].tool, db.rows[k].arguments)
      && DonePrefix(db.rows, db.results, k)
  {
    PendingHead(db.rows, db.results, |c.results|, c.pending);
  }

  lemma ResultKeepsIds(db: Db, k: int, row: ResultRow)
    requires IdsOk(db) && 0 <= k < |db.rows|
    ensures IdsOk(ResultTx(db, db.rows[k].id, row))
  {
  }

  lemma ResultTxKeeps(w: World, row: ResultRow, v: Validator, max: nat)
    requires Inv(w, v, max) && w.live.Some? && w.live.value.pending != []
    ensures var next := ResultTx(w.db, w.live.value.pending[0].id, row);
      IdsOk(next) && ProposalsOk(next, v)
  {
    var c := w.live.value;
    HeadIsRow(w.db, c);
    ResultKeepsIds(w.db, |c.results|, row);
    ApprovedStays(w.db, ResultTx(w.db, c.pending[0].id, row), v);
  }

  lemma ToolOkKeepsInv(w: World, data: Data, refs: Refs, v: Validator, max: nat)
    requires Inv(w, v, max)
    ensures Inv(Do(w, ToolOk(data, refs), v, max), v, max)
  {
    if MayRun(w, v) && !IsWrite(w.live.value.pending[0].tool) {
      var c, row := w.live.value, ResultRow(data, refs, None);
      ResultTxKeeps(w, row, v, max);
      ResultRestarts(w.db, c, row);
      RestartsAreOrderly(ResultTx(w.db, c.pending[0].id, row), AfterResult(c, Result(c.pending[0].id, data, refs)));
    }
  }

  lemma OneMoreIsOrderly(rows: seq<CallRow>, results: map<Id, ResultRow>, k: int, row: ResultRow)
    requires DonePrefix(rows, results, k) && k < |rows| && DistinctIds(rows)
    ensures Orderly(rows, results[rows[k].id := row])
  {
    assert DonePrefix(rows, results[rows[k].id := row], k + 1);
  }

  lemma ToolFailsKeepsInv(w: World, error: string, v: Validator, max: nat)
    requires Inv(w, v, max)
    ensures Inv(Do(w, ToolFails(error), v, max), v, max)
  {
    if MayRun(w, v) && !IsWrite(w.live.value.pending[0].tool) {
      var c, row := w.live.value, ResultRow(Output(""), map[], Some(error));
      ResultTxKeeps(w, row, v, max);
      HeadIsRow(w.db, c);
      OneMoreIsOrderly(w.db.rows, w.db.results, |c.results|, row);
    }
  }

  /** Preflight approves a write at the head, and every earlier call is done. */
  lemma HeadIsApproved(db: Db, c: Context, v: Validator)
    requires Restarts(db, c) && c.pending != [] && Preflight(c.pending, v) == None && IsWrite(c.pending[0].tool)
    ensures ApprovedSomewhere(db.rows, db.results, v, c.pending[0].id)
  {
    HeadIsRow(db, c);
    assert Refusal(c.pending[0], v) == None;
    assert Approved(db.rows, db.results, v, c.pending[0].id, |c.results|);
  }

  lemma ProposingIsOk(before: Db, after: Db, v: Validator, id: Id)
    requires ProposalsOk(before, v) && ApprovedSomewhere(before.rows, before.results, v, id)
    requires after.proposals == before.proposals + {id} && after.rows == before.rows
    requires before.results.Keys <= after.results.Keys
    ensures ProposalsOk(after, v)
  {
    ApprovedStays(before.(proposals := before.proposals + {id}), after, v);
  }

  lemma CreateActionKeepsInv(w: World, v: Validator, max: nat)
    requires Inv(w, v, max)
    ensures Inv(Do(w, CreateAction, v, max), v, max)
  {
    if MayRun(w, v) && IsWrite(w.live.value.pending[0].tool) {
      var id := w.live.value.pending[0].id;
      HeadIsApproved(w.db, w.live.value, v);
      ProposingIsOk(w.db, w.db.(proposals := w.db.proposals + {id}), v, id);
      SameTables(w.db, w.db.(proposals := w.db.proposals + {id}), w.live.value);
    }
  }

  lemma SameTables(db: Db, next: Db, c: Context)
    requires Restarts(db, c) && next.rows == db.rows && next.results == db.results
    ensures Restarts(next, c)
  {
  }

  lemma SuspendKeepsInv(w: World, data: Data, refs: Refs, prompt: string, v: Validator, max: nat)
    requires Inv(w, v, max)
    ensures Inv(Do(w, Suspend(data, refs, prompt), v, max), v, max)
  {
    if MayRun(w, v) && IsWrite(w.live.value.pending[0].tool) {
      var c, row := w.live.value, ResultRow(data, refs, None);
      var head := c.pending[0];
      ResultTxKeeps(w, row, v, max);
      HeadIsApproved(w.db, c, v);
      HeadIsRow(w.db, c);
      OneMoreIsOrderly(w.db.rows, w.db.results, |c.results|, row);
      ProposingIsOk(w.db, SuspendTx(w.db, head, row, prompt), v, head.id);
    }
  }

  lemma PendingIdsAreRows(rows: seq<CallRow>, results: map<Id, ResultRow>, k: int, id: Id)
    requires DonePrefix(rows, results, k) && id in PendingIds(PendingOf(rows, results))
    ensures exists i | 0 <= i < |rows| :: rows[i].id == id
  {
    PendingAt(rows, results, k);
    PendingIdsMeans(PendingOf(rows, results), id);
  }

  lemma {:induction false} PendingIdsMeans(pending: seq<Pending>, id: Id)
    ensures id in PendingIds(pending) <==> exists i | 0 <= i < |pending| :: pending[i].id == id
  {
    if pending != [] {
      PendingIdsMeans(pending[..|pending| - 1], id);
      if id in PendingIds(pending[..|pending| - 1]) {
        var i :| 0 <= i < |pending| - 1 && pending[..|pending| - 1][i].id == id;
        assert pending[i].id == id;
      }
    }
  }

  lemma RecoveryKeepsIds(db: Db, k: int, m: Malformed)
    requires IdsOk(db) && DonePrefix(db.rows, db.results, k)
    ensures var results := RecoveryResults(db.results, PendingOf(db.rows, db.results), m);
      Below(results, db.nextId) && db.results.Keys <= results.Keys
  {
    var pending := PendingOf(db.rows, db.results);
    RecoveryKeys(db.results, pending, m);
    forall id | id in PendingIds(pending) ensures id < db.nextId {
      PendingIdsAreRows(db.rows, db.results, k, id);
    }
  }

  lemma RecoveryKeepsDb(db: Db, pending: seq<Pending>, k: int, m: Malformed, v: Validator)
    requires DonePrefix(db.rows, db.results, k) && pending == PendingOf(db.rows, db.results)
    requires FirstError(db.rows, db.results) == None && TablesOk(db, v)
    ensures TablesOk(RecoveryTx(db, pending, m), v)
  {
    RecoveryKeepsIds(db, k, m);
    RecoveryCompletes(db.rows, db.results, k, m);
    ApprovedStays(db, RecoveryTx(db, pending, m), v);
  }

  lemma RecoverKeepsInv(w: World, v: Validator, max: nat)
    requires Inv(w, v, max)
    ensures Inv(Do(w, Recover, v, max), v, max)
  {
    if w.live.Some? && Preflight(w.live.value.pending, v).Some? {
      var c := w.live.value;
      RecoveryKeepsDb(w.db, c.pending, |c.results|, Preflight(c.pending, v).value, v);
    }
  }

  lemma ResolveKeepsDb(db: Db, id: Id, data: Data, refs: Refs, confirmed: bool, v: Validator)
    requires TablesOk(db, v) && id in db.proposals
    ensures TablesOk(ResolveTx(db, id, data, refs, confirmed), v)
  {
    assert ApprovedSomewhere(db.rows, db.results, v, id);
    var i :| Approved(db.rows, db.results, v, id, i);
    ApprovedStays(db, ResolveTx(db, id, data, refs, confirmed), v);
    ResolvedIsOrderly(db.rows, db.results, i, ResultRow(data, refs, None));
  }

  lemma IdleIsOk(db: Db, next: Db, v: Validator, max: nat)
    requires Inv(World(db, None), v, max) && next.rows == db.rows && TablesOk(next, v)
    ensures Inv(World(next, None), v, max)
  {
  }

  lemma ResolveKeepsInv(w: World, id: Id, data: Data, refs: Refs, confirmed: bool, v: Validator, max: nat)
    requires Inv(w, v, max)
    ensures Inv(Do(w, Resolve(id, data, refs, confirmed), v, max), v, max)
  {
    var next := Do(w, Resolve(id, data, refs, confirmed), v, max);
    if next != w {
      assert w == World(w.db, None) && next == World(ResolveTx(w.db, id, data, refs, confirmed), None);
      ResolveKeepsDb(w.db, id, data, refs, confirmed, v);
      IdleIsOk(w.db, next.db, v, max);
    }
  }

  lemma ResolvedIsOrderly(rows: seq<CallRow>, results: map<Id, ResultRow>, i: int, row: ResultRow)
    requires DistinctIds(rows) && Orderly(rows, results) && 0 <= i < |rows|
    requires forall j | 0 <= j < i :: rows[j].id in results
    ensures Orderly(rows, results[rows[i].id := row])
  {
    var k :| DonePrefix(rows, results, k);
    assert k < |rows| ==> rows[k].id !in results;
    assert i <= k;
    assert DonePrefix(rows, results[rows[i].id := row], if i < k then k else k + 1);
  }

  lemma StepKeepsInv(w: World, step: Step, v: Validator, max: nat)
    requires Inv(w, v, max) && IdsAreNew(w, step)
    ensures Inv(Do(w, step, v, max), v, max)
  {
    match step
    case Restart => RestartKeepsInv(w, v, max);
    case Reply(requests) => ReplyKeepsInv(w, requests, v, max);
    case ToolOk(data, refs) => ToolOkKeepsInv(w, data, refs, v, max);
    case ToolFails(error) => ToolFailsKeepsInv(w, error, v, max);
    case CreateAction => CreateActionKeepsInv(w, v, max);
    case Suspend(data, refs, prompt) => SuspendKeepsInv(w, data, refs, prompt, v, max);
    case Recover => RecoverKeepsInv(w, v, max);
    case Resolve(id, data, refs, confirmed) => ResolveKeepsInv(w, id, data, refs, confirmed, v, max);
    case Crash =>
    case _ =>
      var next := Do(w, step, v, max);
      if next != w {
        StateKeepsInv(w.db, next.db, v);
      }
  }

  lemma NewRunIsOk(v: Validator, max: nat)
    ensures Inv(World(NEW_RUN, None), v, max)
  {
    assert DonePrefix(NEW_RUN.rows, NEW_RUN.results, 0);
  }

  lemma {:induction false} RunKeepsInv(steps: seq<Step>, v: Validator, max: nat)
    requires FreshReplies(World(NEW_RUN, None), steps, v, max)
    ensures Inv(Run(World(NEW_RUN, None), steps, v, max), v, max)
  {
    if steps == [] {
      NewRunIsOk(v, max);
    } else {
      var before := steps[..|steps| - 1];
      RunKeepsInv(before, v, max);
      StepKeepsInv(Run(World(NEW_RUN, None), before, v, max), steps[|steps| - 1], v, max);
    }
  }

  // ---- The results --------------------------------------------------------------------------

  /** What any run of steps reaches from a new run, while the LLM does not reuse call ids. */
  ghost predicate Reachable(w: World, v: Validator, max: nat) {
    exists steps :: FreshReplies(World(NEW_RUN, None), steps, v, max) && w == Run(World(NEW_RUN, None), steps, v, max)
  }

  lemma ReachableInv(w: World, v: Validator, max: nat)
    requires Reachable(w, v, max)
    ensures Inv(w, v, max)
  {
    hide Inv;
    var steps :| FreshReplies(World(NEW_RUN, None), steps, v, max) && w == Run(World(NEW_RUN, None), steps, v, max);
    RunKeepsInv(steps, v, max);
  }

  /** Restart equivalence: at every transaction boundary a restart rebuilds the live context exactly:
      calls, results, pending suffix and both counters. */
  lemma RestartEquivalence(w: World, v: Validator, max: nat)
    requires Reachable(w, v, max) && w.live.Some?
    ensures LoadToolState(w.db.rows, w.db.results) == Loaded(w.live.value)
  {
    ReachableInv(w, v, max);
    RestartLoads(w.db, w.live.value);
  }

  /** The messages say what the tables say: the i-th call is the i-th row's, and the i-th reply
      carries the data stored under that row's id. */
  ghost predicate TellsTables(sent: seq<Message>, rows: seq<CallRow>, results: map<Id, ResultRow>) {
    && |CallsIn(sent)| == |RepliesIn(sent)| == |rows|
    && forall i | 0 <= i < |rows| ::
         && rows[i].providerId.Some? && rows[i].json.Some? && rows[i].id in results
         && CallsIn(sent)[i] == WireCall(rows[i].providerId.value, rows[i].tool, rows[i].json.value.text)
         && RepliesIn(sent)[i] == ToolReply(rows[i].providerId.value, results[rows[i].id].data)
  }

  lemma DataIsStored(db: Db, c: Context, sent: seq<Message>)
    requires Restarts(db, c) && c.pending == []
    requires CallsIn(sent) == WireCalls(c.calls) && CarryData(RepliesIn(sent), c.calls, c.results)
    ensures TellsTables(sent, db.rows, db.results)
  {
    AllDone(db.rows, db.results, |c.results|);
    ResultsAt(db.rows, db.results, |db.rows|);
    forall i | 0 <= i < |db.rows|
      ensures c.calls[i] == View(db.rows[i]) && c.results[i].call == c.calls[i].id
      ensures RepliesIn(sent)[i] == ToolReply(c.calls[i].providerId, c.results[i].data)
    {
    }
  }

  /** Whenever the loop is about to call the LLM, the adapter accepts the context, and what it sends
      reads back as exactly the run's calls with their stored results. */
  lemma PromptIsAccepted(w: World, v: Validator, max: nat)
    requires Inv(w, v, max) && w.live.Some? && w.live.value.pending == []
    ensures var c := w.live.value; var sent := Continuation(c.calls, c.results);
      && sent.Some? && WellShaped(sent.value) && CallsIn(sent.value) == WireCalls(c.calls)
      && TellsTables(sent.value, w.db.rows, w.db.results)
  {
    var c := w.live.value;
    AdapterAccepts(w.db, c);
    TranscriptIsFaithful(c.calls, c.results);
    DataIsStored(w.db, c, Continuation(c.calls, c.results).value);
  }

  /** The structural checks always pass: a restart fails only with the error of a failed tool. */
  lemma ChecksAlwaysPass(w: World, v: Validator, max: nat)
    requires Reachable(w, v, max)
    ensures match FirstError(w.db.rows, w.db.results)
      case None => LoadToolState(w.db.rows, w.db.results).Loaded?
      case Some(error) => LoadToolState(w.db.rows, w.db.results) == LoadError(error)
  {
    ReachableInv(w, v, max);
  }

  /** The tool budget holds over any number of crashes and restarts. */
  lemma CallsStayInBudget(w: World, v: Validator, max: nat)
    requires Reachable(w, v, max)
    ensures |w.db.rows| <= max
  {
    ReachableInv(w, v, max);
  }

  /** No action is ever created for a malformed write, nor before the calls ahead of it are done. */
  lemma ActionsComeFromValidWrites(w: World, v: Validator, max: nat, id: Id)
    requires Reachable(w, v, max) && id in w.db.proposals
    ensures exists i :: Approved(w.db.rows, w.db.results, v, id, i)
  {
    ReachableInv(w, v, max);
    assert ApprovedSomewhere(w.db.rows, w.db.results, v, id);
  }
}
