/** A malformed write spoils the whole batch it belongs to.  Over all runs of the tool loop, with
    crashes, restarts and confirmations anywhere, such a batch is all or nothing: either no call of
    it has a result, or every call has the answer of the recovery. */
module ToolBatches {
  import opened Wrappers
  import opened ToolState
  import opened ToolRun
  import opened ToolWorld

  predicate Refused(row: CallRow, v: Validator) {
    IsWrite(row.tool) && v(row.tool, row.arguments).Some?
  }

  /** Calls i and j were asked for by the same assistant message. */
  predicate SameBatch(rows: seq<CallRow>, i: int, j: int) {
    0 <= i < |rows| && 0 <= j < |rows| && rows[i].assistant == rows[j].assistant
  }

  /** Call i is a malformed write in the batch of call j. */
  predicate Spoils(rows: seq<CallRow>, v: Validator, i: int, j: int) {
    SameBatch(rows, i, j) && Refused(rows[i], v)
  }

  predicate IsFirstRefused(rows: seq<CallRow>, v: Validator, j: int)
    requires 0 <= j < |rows|
  {
    Refused(rows[j], v) && forall i | 0 <= i < j :: !Spoils(rows, v, i, j)
  }

  /** The one answer a call of a spoilt batch can have. */
  function AnswerTo(rows: seq<CallRow>, v: Validator, j: int): ResultRow
    requires 0 <= j < |rows|
  {
    ResultRow(if IsFirstRefused(rows, v, j) then Clarification(rows[j].tool, v(rows[j].tool, rows[j].arguments).value)
              else Cancelled(rows[j].tool), map[], None)
  }

  ghost predicate AllOrNothing(db: Db, v: Validator, i: int, j: int)
    requires SameBatch(db.rows, i, j)
  {
    && db.rows[j].id !in db.proposals
    && (db.rows[j].id in db.results <==> db.rows[i].id in db.results)
    && (db.rows[j].id in db.results ==> db.results[db.rows[j].id] == AnswerTo(db.rows, v, j))
  }

  ghost predicate SpoiltOk(db: Db, v: Validator) {
    forall i, j | Spoils(db.rows, v, i, j) :: AllOrNothing(db, v, i, j)
  }

  /** The calls without a result belong to one batch. */
  ghost predicate OneOpen(rows: seq<CallRow>, results: map<Id, ResultRow>) {
    forall i, j | 0 <= i < |rows| && 0 <= j < |rows| && rows[i].id !in results && rows[j].id !in results ::
      rows[i].assistant == rows[j].assistant
  }

  ghost predicate BatchesOk(db: Db, v: Validator) {
    SpoiltOk(db, v) && OneOpen(db.rows, db.results)
  }

  /** The call is in no spoilt batch. */
  ghost predicate Clean(rows: seq<CallRow>, v: Validator, id: Id) {
    forall i, j | Spoils(rows, v, i, j) :: rows[j].id != id
  }

  // ---- Each step keeps batches all or nothing -----------------------------------------------

  lemma PreflightClears(db: Db, c: Context, v: Validator, i: int)
    requires Restarts(db, c) && Preflight(c.pending, v) == None && |c.results| <= i < |db.rows|
    ensures !Refused(db.rows[i], v)
  {
    PendingAt(db.rows, db.results, |c.results|);
    PreflightNamesFirst(c.pending, v);
    assert Refusal(c.pending[i - |c.results|], v) == None;
  }

  /** A call whose turn has come after a passed preflight is in no spoilt batch. */
  lemma HeadIsClean(db: Db, c: Context, v: Validator)
    requires Restarts(db, c) && DistinctIds(db.rows) && SpoiltOk(db, v)
    requires c.pending != [] && Preflight(c.pending, v) == None
    ensures Clean(db.rows, v, c.pending[0].id)
  {
    HeadIsRow(db, c);
    var k := |c.results|;
    forall i, j | Spoils(db.rows, v, i, j) ensures db.rows[j].id != c.pending[0].id {
      if db.rows[j].id == c.pending[0].id {
        assert j == k && AllOrNothing(db, v, i, j);
        PreflightClears(db, c, v, i);
      }
    }
  }

  /** A result or an action for a call outside the spoilt batches. */
  lemma CleanChange(db: Db, next: Db, v: Validator, id: Id)
    requires BatchesOk(db, v) && Clean(db.rows, v, id)
    requires next.rows == db.rows && next.proposals <= db.proposals + {id}
    requires db.results.Keys <= next.results.Keys <= db.results.Keys + {id}
    requires forall other | other in db.results && other != id :: next.results[other] == db.results[other]
    ensures BatchesOk(next, v)
  {
    forall i, j | Spoils(next.rows, v, i, j) ensures AllOrNothing(next, v, i, j) {
      assert Spoils(db.rows, v, i, j) && Spoils(db.rows, v, i, i);
      assert AllOrNothing(db, v, i, j);
    }
  }

  /** New rows are a batch of their own, without results and actions. */
  ghost predicate NewBatch(db: Db, added: seq<CallRow>) {
    && (forall i | 0 <= i < |added| :: added[i].id !in db.results && added[i].id !in db.proposals)
    && (forall i, j | 0 <= i < |added| && 0 <= j < |added| :: added[i].assistant == added[j].assistant)
    && (forall i, j | 0 <= i < |added| && 0 <= j < |db.rows| :: added[i].assistant != db.rows[j].assistant)
    && (forall i | 0 <= i < |db.rows| :: db.rows[i].id in db.results)
  }

  lemma AnswerStays(rows: seq<CallRow>, added: seq<CallRow>, v: Validator, j: int)
    requires 0 <= j < |rows|
    ensures AnswerTo(rows + added, v, j) == AnswerTo(rows, v, j)
  {
    assert forall i | 0 <= i <= j :: (rows + added)[i] == rows[i];
    assert forall i | 0 <= i < j :: Spoils(rows + added, v, i, j) == Spoils(rows, v, i, j);
  }

  lemma NewBatchKeeps(db: Db, added: seq<CallRow>, next: Db, v: Validator)
    requires BatchesOk(db, v) && NewBatch(db, added)
    requires next.rows == db.rows + added && next.results == db.results && next.proposals == db.proposals
    ensures BatchesOk(next, v)
  {
    forall i, j | Spoils(next.rows, v, i, j) ensures AllOrNothing(next, v, i, j) {
      if i < |db.rows| && j < |db.rows| {
        assert Spoils(db.rows, v, i, j) && AllOrNothing(db, v, i, j);
        AnswerStays(db.rows, added, v, j);
      } else {
        assert i >= |db.rows| && j >= |db.rows|;
      }
    }
  }

  lemma {:induction false} GreatestBounds(s: seq<int>, i: int)
    requires 0 <= i < |s|
    ensures s[i] <= Greatest(s)
  {
    if i < |s| - 1 {
      GreatestBounds(s[..|s| - 1], i);
    }
  }

  lemma ActionsAreOld(db: Db, v: Validator, id: Id)
    requires IdsOk(db) && ProposalsOk(db, v) && id in db.proposals
    ensures id < db.nextId
  {
    assert ApprovedSomewhere(db.rows, db.results, v, id);
  }

  lemma PersistedIsNew(db: Db, c: Context, requests: seq<Request>, v: Validator)
    requires Restarts(db, c) && TablesOk(db, v) && c.pending == []
    ensures NewBatch(db, NewRows(requests, db.nextId, c.nextSequence, c.nextAssistant))
  {
    var added := NewRows(requests, db.nextId, c.nextSequence, c.nextAssistant);
    AllDone(db.rows, db.results, |c.results|);
    forall i | 0 <= i < |added| ensures added[i].id !in db.results && added[i].id !in db.proposals {
      if added[i].id in db.proposals {
        ActionsAreOld(db, v, added[i].id);
      }
    }
    forall i, j | 0 <= i < |added| && 0 <= j < |db.rows| ensures added[i].assistant != db.rows[j].assistant {
      assert Complete(db.rows[j]) && c.calls[j] == View(db.rows[j]);
      GreatestBounds(Assistants(c.calls), j);
    }
  }

  lemma ReplyKeepsBatches(w: World, requests: seq<Request>, v: Validator, max: nat)
    requires Inv(w, v, max) && BatchesOk(w.db, v)
    ensures BatchesOk(Do(w, Reply(requests), v, max).db, v)
  {
    hide BatchesOk, Inv, Restarts, AllComplete, WellFormed;
    var next := Do(w, Reply(requests), v, max);
    if next.db.rows != w.db.rows {
      LiveParts(w, v, max);
      PersistKeepsBatches(w.db, w.live.value, requests, v);
    } else {
      SameKeeps(w.db, next.db, v);
    }
  }

  lemma LiveParts(w: World, v: Validator, max: nat)
    requires Inv(w, v, max) && w.live.Some?
    ensures Restarts(w.db, w.live.value) && TablesOk(w.db, v) && DistinctIds(w.db.rows)
  {
    hide Restarts, Consistent;
  }

  lemma PersistKeepsBatches(db: Db, c: Context, requests: seq<Request>, v: Validator)
    requires Restarts(db, c) && TablesOk(db, v) && c.pending == [] && BatchesOk(db, v)
    ensures BatchesOk(PersistTx(db, c, requests), v)
  {
    hide Restarts, TablesOk, BatchesOk, NewBatch;
    PersistedIsNew(db, c, requests, v);
    NewBatchKeeps(db, NewRows(requests, db.nextId, c.nextSequence, c.nextAssistant), PersistTx(db, c, requests), v);
  }

  lemma SameKeeps(db: Db, next: Db, v: Validator)
    requires BatchesOk(db, v)
    requires next.rows == db.rows && next.results == db.results && next.proposals == db.proposals
    ensures BatchesOk(next, v)
  {
    forall i, j | Spoils(next.rows, v, i, j) ensures AllOrNothing(next, v, i, j) {
      assert Spoils(db.rows, v, i, j) && AllOrNothing(db, v, i, j);
    }
  }

  /** The step that runs, suspends on, or proposes the next call. */
  predicate TakesHead(step: Step) {
    step.ToolOk? || step.ToolFails? || step.CreateAction? || step.Suspend?
  }

  lemma HeadKeepsBatches(w: World, step: Step, v: Validator, max: nat)
    requires Inv(w, v, max) && BatchesOk(w.db, v) && TakesHead(step)
    ensures BatchesOk(Do(w, step, v, max).db, v)
  {
    hide Restarts, Clean, AllOrNothing, Inv, TablesOk;
    var next := Do(w, step, v, max);
    if MayRun(w, v) {
      var c := w.live.value;
      LiveParts(w, v, max);
      HeadIsClean(w.db, c, v);
      CleanChange(w.db, next.db, v, c.pending[0].id);
    } else {
      assert next == w;
    }
  }

  lemma ResolveKeepsBatches(db: Db, id: Id, data: Data, refs: Refs, confirmed: bool, v: Validator)
    requires BatchesOk(db, v) && id in db.proposals
    ensures BatchesOk(ResolveTx(db, id, data, refs, confirmed), v)
  {
    forall i, j | Spoils(db.rows, v, i, j) ensures db.rows[j].id != id {
      assert AllOrNothing(db, v, i, j);
    }
    CleanChange(db, ResolveTx(db, id, data, refs, confirmed), v, id);
  }

  // -- the recovery

  /** The first refused call among those without a result. */
  ghost predicate FirstOpen(rows: seq<CallRow>, v: Validator, k: int, first: int) {
    0 <= k <= first < |rows| && Refused(rows[first], v) && forall e | k <= e < first :: !Refused(rows[e], v)
  }

  lemma NamedIsFirstOpen(rows: seq<CallRow>, results: map<Id, ResultRow>, k: int, v: Validator, m: Malformed)
    returns (first: int)
    requires DonePrefix(rows, results, k) && Preflight(PendingOf(rows, results), v) == Some(m)
    ensures FirstOpen(rows, v, k, first)
    ensures m.id == rows[first].id && m.tool == rows[first].tool
    ensures v(rows[first].tool, rows[first].arguments) == Some(m.reason)
  {
    var pending := PendingOf(rows, results);
    PendingAt(rows, results, k);
    PreflightNamesFirst(pending, v);
    var f :| FirstRefused(pending, v, f, m);
    first := k + f;
    assert pending[first - k] == Pending(rows[first].id, rows[first].tool, rows[first].arguments);
    forall e | k <= e < first ensures !Refused(rows[e], v) {
      assert Refusal(pending[e - k], v) == None;
    }
  }

  /** It is the first refused call of its whole batch, and no other open call is. */
  lemma FirstOpenIsFirst(db: Db, v: Validator, k: int, first: int, i: int, j: int)
    requires DonePrefix(db.rows, db.results, k) && BatchesOk(db, v) && FirstOpen(db.rows, v, k, first)
    requires Spoils(db.rows, v, i, j) && k <= j
    ensures IsFirstRefused(db.rows, v, j) <==> j == first
  {
    assert db.rows[first].id !in db.results && db.rows[j].id !in db.results;
    assert SameBatch(db.rows, first, j);
    if first < j {
      assert Spoils(db.rows, v, first, j);
    } else if j == first {
      forall e | Spoils(db.rows, v, e, j) ensures db.rows[e].id !in db.results {
        assert AllOrNothing(db, v, e, j);
      }
    }
  }

  lemma RecoveryAnswersCall(db: Db, k: int, v: Validator, m: Malformed, i: int, j: int)
    requires DonePrefix(db.rows, db.results, k) && DistinctIds(db.rows) && BatchesOk(db, v)
    requires Preflight(PendingOf(db.rows, db.results), v) == Some(m)
    requires Spoils(db.rows, v, i, j) && k <= j
    ensures RecoveryData(Pending(db.rows[j].id, db.rows[j].tool, db.rows[j].arguments), m)
         == AnswerTo(db.rows, v, j).data
  {
    hide BatchesOk, DonePrefix, IsFirstRefused, Preflight, PendingOf;
    var first := NamedIsFirstOpen(db.rows, db.results, k, v, m);
    FirstOpenIsFirst(db, v, k, first, i, j);
  }

  lemma RecoveryResultOf(db: Db, k: int, m: Malformed, j: int)
    requires DonePrefix(db.rows, db.results, k) && DistinctIds(db.rows) && 0 <= j < |db.rows|
    ensures var results := RecoveryResults(db.results, PendingOf(db.rows, db.results), m);
      && db.rows[j].id in results
      && results[db.rows[j].id] == if j < k then db.results[db.rows[j].id]
           else ResultRow(RecoveryData(Pending(db.rows[j].id, db.rows[j].tool, db.rows[j].arguments), m), map[], None)
  {
    var pending := PendingOf(db.rows, db.results);
    PendingAt(db.rows, db.results, k);
    PendingDistinct(db.rows, db.results, k);
    RecoveryHandles(db.results, pending, m);
    if j >= k {
      assert pending[j - k] == Pending(db.rows[j].id, db.rows[j].tool, db.rows[j].arguments);
    }
  }

  lemma RecoverKeepsBatches(db: Db, k: int, v: Validator, m: Malformed)
    requires DonePrefix(db.rows, db.results, k) && DistinctIds(db.rows) && BatchesOk(db, v)
    requires Preflight(PendingOf(db.rows, db.results), v) == Some(m)
    ensures BatchesOk(RecoveryTx(db, PendingOf(db.rows, db.results), m), v)
  {
    var next := RecoveryTx(db, PendingOf(db.rows, db.results), m);
    hide RecoveryResults, PendingOf, Preflight, AnswerTo, RecoveryData;
    forall j | 0 <= j < |db.rows| ensures db.rows[j].id in next.results {
      RecoveryResultOf(db, k, m, j);
    }
    forall i, j | Spoils(next.rows, v, i, j) ensures AllOrNothing(next, v, i, j) {
      assert Spoils(db.rows, v, i, j) && AllOrNothing(db, v, i, j);
      RecoveryResultOf(db, k, m, j);
      if j >= k {
        RecoveryAnswersCall(db, k, v, m, i, j);
        AnswerIsClean(db.rows, v, j);
      }
    }
  }

  lemma AnswerIsClean(rows: seq<CallRow>, v: Validator, j: int)
    requires 0 <= j < |rows|
    ensures AnswerTo(rows, v, j) == ResultRow(AnswerTo(rows, v, j).data, map[], None)
  {
  }

  lemma RecoverStepKeepsBatches(w: World, v: Validator, max: nat)
    requires Inv(w, v, max) && BatchesOk(w.db, v)
    ensures BatchesOk(Do(w, Recover, v, max).db, v)
  {
    hide BatchesOk, Inv, TablesOk, Preflight, RecoveryTx;
    if w.live.Some? && Preflight(w.live.value.pending, v).Some? {
      LiveParts(w, v, max);
      RestartsDone(w.db, w.live.value);
      RecoverKeepsBatches(w.db, |w.live.value.results|, v, Preflight(w.live.value.pending, v).value);
    }
  }

  lemma RestartsDone(db: Db, c: Context)
    requires Restarts(db, c)
    ensures DonePrefix(db.rows, db.results, |c.results|) && c.pending == PendingOf(db.rows, db.results)
  {
    hide Consistent;
  }

  lemma QuietKeepsBatches(w: World, step: Step, v: Validator, max: nat)
    requires BatchesOk(w.db, v)
    requires step.Restart? || step.Answer? || step.Fail? || step.Postpone? || step.Crash?
    ensures BatchesOk(Do(w, step, v, max).db, v)
  {
    hide BatchesOk, LoadToolState;
    SameKeeps(w.db, Do(w, step, v, max).db, v);
  }

  lemma ResolveStepKeepsBatches(w: World, step: Step, v: Validator, max: nat)
    requires BatchesOk(w.db, v) && step.Resolve?
    ensures BatchesOk(Do(w, step, v, max).db, v)
  {
    hide BatchesOk, ResolveTx;
    if Do(w, step, v, max) != w {
      ResolveKeepsBatches(w.db, step.id, step.data, step.refs, step.confirmed, v);
    }
  }

  lemma StepKeepsBatches(w: World, step: Step, v: Validator, max: nat)
    requires Inv(w, v, max) && BatchesOk(w.db, v)
    ensures BatchesOk(Do(w, step, v, max).db, v)
  {
    hide BatchesOk, Inv, Do;
    if TakesHead(step) {
      HeadKeepsBatches(w, step, v, max);
    } else {
      match step
      case Reply(requests) => ReplyKeepsBatches(w, requests, v, max);
      case Recover => RecoverStepKeepsBatches(w, v, max);
      case Resolve(_, _, _, _) => ResolveStepKeepsBatches(w, step, v, max);
      case _ => QuietKeepsBatches(w, step, v, max);
    }
  }

  lemma {:induction false} RunKeepsBatches(steps: seq<Step>, v: Validator, max: nat)
    requires FreshReplies(World(NEW_RUN, None), steps, v, max)
    ensures BatchesOk(Run(World(NEW_RUN, None), steps, v, max).db, v)
  {
    if steps != [] {
      hide Inv, BatchesOk, Do;
      var before := steps[..|steps| - 1];
      RunKeepsBatches(before, v, max);
      RunKeepsInv(before, v, max);
      StepKeepsBatches(Run(World(NEW_RUN, None), before, v, max), steps[|steps| - 1], v, max);
    }
  }

  // ---- The result ---------------------------------------------------------------------------

  lemma {:induction false} FirstOfBatch(rows: seq<CallRow>, v: Validator, i: int, n: int) returns (f: int)
    requires 0 <= i < |rows| && 0 <= n <= i && Refused(rows[i], v)
    requires forall e | 0 <= e < n :: !Spoils(rows, v, e, i)
    ensures f <= i && Spoils(rows, v, f, i) && IsFirstRefused(rows, v, f)
    decreases i - n
  {
    if Spoils(rows, v, n, i) {
      f := n;
      forall e | 0 <= e < f ensures !Spoils(rows, v, e, f) {
        assert !Spoils(rows, v, e, i);
      }
    } else {
      f := FirstOfBatch(rows, v, i, n + 1);
    }
  }

  lemma OneFirst(rows: seq<CallRow>, v: Validator, f: int, j: int)
    requires SameBatch(rows, f, j) && IsFirstRefused(rows, v, f)
    ensures IsFirstRefused(rows, v, j) <==> j == f
  {
    if IsFirstRefused(rows, v, j) && j != f {
      assert Spoils(rows, v, f, j) && Spoils(rows, v, j, f);
    }
  }

  /** What has become of a call in a batch whose first refused write is call f. */
  ghost predicate Spoilt(w: World, v: Validator, f: int, j: int)
    requires Spoils(w.db.rows, v, f, j)
  {
    var db, row := w.db, w.db.rows[j];
    && row.id !in db.proposals
    && (MayRun(w, v) ==> w.live.value.pending[0].id != row.id)
    && (row.id in db.results <==> db.rows[f].id in db.results)
    && (row.id in db.results ==>
          db.results[row.id] == ResultRow(
            if j == f then Clarification(row.tool, v(row.tool, row.arguments).value) else Cancelled(row.tool),
            map[], None))
  }

  /** A batch with a malformed write is all or nothing over every run: no action is created for a
      call of it, the turn of none of its calls to be executed ever comes, and as soon as one has a
      result all have, the first malformed write a clarification and every other call a
      cancellation. */
  lemma SpoiltBatchIsAllOrNothing(w: World, v: Validator, max: nat, i: int) returns (f: int)
    requires Reachable(w, v, max) && 0 <= i < |w.db.rows| && Refused(w.db.rows[i], v)
    ensures Spoils(w.db.rows, v, f, i) && f <= i
    ensures forall j | SameBatch(w.db.rows, f, j) :: Spoilt(w, v, f, j)
  {
    hide Inv;
    var steps :| FreshReplies(World(NEW_RUN, None), steps, v, max) && w == Run(World(NEW_RUN, None), steps, v, max);
    RunKeepsInv(steps, v, max);
    RunKeepsBatches(steps, v, max);
    f := FirstOfBatch(w.db.rows, v, i, 0);
    forall j | SameBatch(w.db.rows, f, j) ensures Spoilt(w, v, f, j) {
      assert Spoils(w.db.rows, v, f, j) && AllOrNothing(w.db, v, f, j);
      OneFirst(w.db.rows, v, f, j);
      if MayRun(w, v) {
        LiveHeadIsClean(w, v, max);
      }
    }
  }

  lemma LiveHeadIsClean(w: World, v: Validator, max: nat)
    requires Inv(w, v, max) && SpoiltOk(w.db, v) && MayRun(w, v)
    ensures Clean(w.db.rows, v, w.live.value.pending[0].id)
  {
    HeadIsClean(w.db, w.live.value, v);
  }
}
