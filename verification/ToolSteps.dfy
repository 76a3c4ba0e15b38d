/** How a run's life goes on after each end of a process: crashes and postponements are taken up
    again where they stopped, answers and failures are not. */
module ToolSteps {
  import opened Text
  import opened ToolChecks
  import opened ToolRun
  import opened ToolState
  import opened ToolWorld
  import opened Wrappers

  /** The agent worker takes a run up when it runs, or when it waits without an answer. */
  predicate TakenUp(db: Db) {
    db.state == Running || (db.state == DeliveryPending && db.finalMessage == None)
  }

  /** A process that dies between two transactions loses nothing: the restart is where it was. */
  lemma CrashLosesNothing(w: World, v: Validator, max: nat)
    requires Reachable(w, v, max) && w.live.Some? && TakenUp(w.db)
    ensures Do(w, Crash, v, max) == World(w.db, None)
    ensures Do(Do(w, Crash, v, max), Restart, v, max) == w
  {
    hide LoadToolState;
    RestartEquivalence(w, v, max);
  }

  /** After a retryable LLM failure the run waits, and is taken up again with the same context. */
  lemma PostponedComesBack(w: World, v: Validator, max: nat)
    requires Reachable(w, v, max) && w.live.Some? && w.db.finalMessage == None
    ensures var waiting := Do(w, Postpone, v, max);
      && waiting == World(w.db.(state := DeliveryPending), None)
      && Do(waiting, Restart, v, max) == World(waiting.db, w.live)
  {
    hide LoadToolState;
    RestartEquivalence(w, v, max);
  }

  /** An answer is stored as the run's message, and the run is not taken up again. */
  lemma AnsweredIsFinal(w: World, text: string, v: Validator, max: nat)
    requires w.live.Some?
    ensures var after := Do(w, Answer(text), v, max);
      if w.live.value.pending != [] then after == w
      else
        && after.live == None && after.db.state == DeliveryPending
        && after.db.rows == w.db.rows && after.db.results == w.db.results && after.db.proposals == w.db.proposals
        && after.db.messages == w.db.messages + [text] && after.db.finalMessage == Some(|w.db.messages|)
        && Do(after, Restart, v, max) == after
  {
    hide LoadToolState;
  }

  /** A run that ended is not taken up again. */
  lemma EndedStaysDown(w: World, v: Validator, max: nat)
    ensures var ended := Do(w, Step.Fail, v, max);
      && ended == World(w.db.(state := Ended), None)
      && Do(ended, Restart, v, max) == ended
  {
    hide LoadToolState;
  }

  lemma HeadFails(db: Db, c: Context, error: string)
    requires Restarts(db, c) && DistinctIds(db.rows) && c.pending != []
    ensures var next := ResultTx(db, c.pending[0].id, ResultRow(Output(""), map[], Some(error)));
      && LoadToolState(next.rows, next.results) == LoadError(error)
      && c.pending[0].id in next.results && next.results[c.pending[0].id].error == Some(error)
  {
    HeadIsRow(db, c);
    FailureRestarts(db, c, ResultRow(Output(""), map[], Some(error)));
  }

  /** A tool that fails ends the run: its error is stored, and the next process to take the run up
      ends it with that error. */
  lemma FailedToolEndsRun(w: World, error: string, v: Validator, max: nat)
    requires Reachable(w, v, max) && MayRun(w, v) && !IsWrite(w.live.value.pending[0].tool)
    ensures var failed, id := Do(w, ToolFails(error), v, max), w.live.value.pending[0].id;
      && failed.live == None && id in failed.db.results && failed.db.results[id].error == Some(error)
      && LoadToolState(failed.db.rows, failed.db.results) == LoadError(error)
      && (TakenUp(failed.db) ==> Do(failed, Restart, v, max) == World(failed.db.(state := Ended), None))
  {
    hide LoadToolState, Inv, Restarts, DistinctIds;
    ReachableInv(w, v, max);
    LiveRestarts(w.db, w.live.value, v, max);
    HeadFails(w.db, w.live.value, error);
  }

  /** A batch over the budget ends the run, and nothing of it is stored. */
  lemma OverBudgetEnds(w: World, requests: seq<Request>, v: Validator, max: nat)
    requires w.live.Some? && w.live.value.pending == [] && WellFormed(requests)
    requires max < |w.live.value.calls| + |requests|
    ensures Do(w, Reply(requests), v, max) == World(w.db.(state := Ended), None)
  {
  }

  /** A batch that fits is stored as a whole, and the run goes on with its calls pending. */
  lemma FittingBatchIsStored(w: World, requests: seq<Request>, v: Validator, max: nat)
    requires Reachable(w, v, max) && w.live.Some? && w.live.value.pending == [] && WellFormed(requests)
    requires |w.live.value.calls| + |requests| <= max
    ensures var next := Do(w, Reply(requests), v, max);
      && next.live.Some? && next.db.state == w.db.state && next.db.results == w.db.results
      && w.db.rows <= next.db.rows && |next.db.rows| == |w.db.rows| + |requests|
      && |next.live.value.pending| == |requests|
  {
    hide Inv, Restarts, LoadToolState;
    ReachableInv(w, v, max);
    LiveRestarts(w.db, w.live.value, v, max);
    BatchIsComplete(w.db, w.live.value, requests);
  }

  lemma BatchIsComplete(db: Db, c: Context, requests: seq<Request>)
    requires Restarts(db, c) && WellFormed(requests)
    ensures AllComplete(NewRows(requests, db.nextId, c.nextSequence, c.nextAssistant))
  {
    PersistConsistent(db.rows, c, requests, db.nextId);
  }

  /** An action is created for the write whose turn it is, before the run is suspended on it. */
  lemma ActionIsCreated(w: World, v: Validator, max: nat)
    requires MayRun(w, v) && IsWrite(w.live.value.pending[0].tool)
    ensures Do(w, CreateAction, v, max) ==
            World(w.db.(proposals := w.db.proposals + {w.live.value.pending[0].id}), w.live)
  {
  }

  /** A user's answer to the proposal a run waits for stores the resolution as the call's result and
      sets the run going: the next process takes it up, unless a tool has failed. */
  lemma ResolvedGoesOn(w: World, id: Id, data: Data, refs: Refs, confirmed: bool, v: Validator, max: nat)
    requires Reachable(w, v, max) && w.live == None && id in w.db.proposals && w.db.state == WaitingConfirmation
    ensures var resolved := Do(w, Resolve(id, data, refs, confirmed), v, max);
      && resolved.live == None && resolved.db.state == Running && resolved.db.finalMessage == None
      && resolved.db.rows == w.db.rows && resolved.db.messages == w.db.messages
      && resolved.db.results == w.db.results[id := ResultRow(data, refs, None)]
      && (FirstError(resolved.db.rows, resolved.db.results) == None ==>
            Do(resolved, Restart, v, max).live.Some? && Do(resolved, Restart, v, max).db == resolved.db)
  {
    hide Inv;
    ReachableInv(w, v, max);
    StepKeepsInv(w, Resolve(id, data, refs, confirmed), v, max);
    var resolved := Do(w, Resolve(id, data, refs, confirmed), v, max);
    if FirstError(resolved.db.rows, resolved.db.results) == None {
      InvLoads(resolved, v, max);
    }
  }

  lemma InvLoads(w: World, v: Validator, max: nat)
    requires Inv(w, v, max) && FirstError(w.db.rows, w.db.results) == None
    ensures LoadToolState(w.db.rows, w.db.results).Loaded?
  {
  }

  lemma StorableRow(request: Request, k: nat)
    ensures var row := NewRow(request, k, 1 + k, 1);
      RequestOk(request) <==>
        && HasColumns(row) && !row.tool.Unregistered? && row.json.value.decoded == ObjectOf(row.arguments)
        && !Blank(request.providerId)
  {
    hide Blank;
  }

  ghost predicate Storable(requests: seq<Request>) {
    var rows := NewRows(requests, 0, 1, 1);
    && requests != [] && AllColumns(rows) && IsRun(rows)
    && forall i | 0 <= i < |requests| :: !Blank(requests[i].providerId)
  }

  lemma ParsedIsStorable(requests: seq<Request>)
    requires WellFormed(requests)
    ensures Storable(requests)
  {
    hide Blank, RequestOk, HasColumns;
    var rows := NewRows(requests, 0, 1, 1);
    forall i | 0 <= i < |rows|
      ensures HasColumns(rows[i]) && !rows[i].tool.Unregistered? && !Blank(requests[i].providerId)
      ensures rows[i].json == Some(requests[i].json) && requests[i].json.decoded == ObjectOf(rows[i].arguments)
    {
      StorableRow(requests[i], i);
    }
  }

  lemma StorableIsParsed(requests: seq<Request>)
    requires Storable(requests)
    ensures WellFormed(requests)
  {
    hide Blank, RequestOk, HasColumns, BatchesStep;
    var rows := NewRows(requests, 0, 1, 1);
    forall i | 0 <= i < |requests| ensures RequestOk(requests[i]) {
      assert HasColumns(rows[i]);
      StorableRow(requests[i], i);
    }
    forall i, j | 0 <= i < j < |requests| ensures requests[i].providerId != requests[j].providerId {
      assert rows[i].providerId != rows[j].providerId;
    }
  }

  /** The adapter's parser lets through exactly the batches whose rows a restart would accept, with
      provider ids that are not blank. */
  lemma ParsedIffStorable(requests: seq<Request>)
    ensures WellFormed(requests) <==> Storable(requests)
  {
    hide WellFormed, Storable;
    if WellFormed(requests) {
      ParsedIsStorable(requests);
    }
    if Storable(requests) {
      StorableIsParsed(requests);
    }
  }
}
