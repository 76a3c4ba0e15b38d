/** The status tables as the mutable store the service works on.  Each method is one service
    function; the ones that span several transactions also return the run they performed, so every
    result about runs (StatusWrites) applies to them. */
module StatusStore {
  import opened Domain
  import opened Wrappers
  import opened StatusWrites

  datatype ResolveOutcome = Ambiguous(count: nat) | NotFound | Answered(id: Id, state: State)

  datatype ExecuteOutcome =
    | Missing
    | NotReady(state: State)
    | AlreadyCompleted(application: Option<Id>)
    | Done(done: Id, row: Id, changed: bool)
    | Raised

  /** execute_status_update as one function of the tables: claim, then write or record a failure. */
  function Attempt(db: Db, id: Id, now: Time, faulty: bool): Db {
    if !Claimable(db, id) then db
    else
      var claimed := ClaimTx(db, id, now);
      if faulty || !Executable(claimed, id) then FailTx(claimed, id, now) else ExecuteTx(claimed, id, now)
  }

  function AttemptSteps(db: Db, id: Id, now: Time, faulty: bool): seq<Step> {
    if !Claimable(db, id) then []
    else [Claim(id, now), if faulty || !Executable(ClaimTx(db, id, now), id) then Fail(id, now) else Execute(id, now)]
  }

  lemma AttemptIsRun(db: Db, id: Id, now: Time, faulty: bool)
    ensures Attempt(db, id, now, faulty) == Run(db, AttemptSteps(db, id, now, faulty))
  {
    var steps := AttemptSteps(db, id, now, faulty);
    if steps != [] {
      assert steps[..1] == [Claim(id, now)] && steps[..1][..0] == [];
      assert Run(db, steps[..1]) == ClaimTx(db, id, now);
    }
  }

  /** An attempt moves its own action to COMPLETED or FAILED and touches no other action. */
  lemma AttemptFrame(db: Db, id: Id, now: Time, faulty: bool)
    ensures var next := Attempt(db, id, now, faulty);
      && next.actions.Keys == db.actions.Keys
      && (forall other | other in db.actions && other != id :: next.actions[other] == db.actions[other])
      && (Claimable(db, id) ==>
            && next.actions[id].state == (if faulty || !WellFormed(db.actions[id].arguments) then Failed else Completed)
            && next.actions[id].attempts == db.actions[id].attempts + 1)
  {
  }

  lemma AttemptExtendsRun(db: Db, steps: seq<Step>, id: Id, now: Time, faulty: bool)
    ensures Attempt(Run(db, steps), id, now, faulty)
         == Run(db, steps + AttemptSteps(Run(db, steps), id, now, faulty))
  {
    AttemptIsRun(Run(db, steps), id, now, faulty);
    RunConcat(db, steps, AttemptSteps(Run(db, steps), id, now, faulty));
  }

  /** What recovery leaves of an action it found in state `marked`. */
  predicate Recovered(marked: Action, last: Action, now: Time, faulty: bool) {
    if !Recoverable(marked, now) then last == marked
    else
      && last.state == (if faulty || !WellFormed(marked.arguments) then Failed else Completed)
      && last.attempts == marked.attempts + 1
  }

  /** `code` is the first of the drawn codes that no action has. */
  ghost predicate FirstFree(db: Db, codes: seq<string>, code: string) {
    exists k :: 0 <= k < |codes| && codes[k] == code && CodeFree(db, code)
      && forall j | 0 <= j < k :: !CodeFree(db, codes[j])
  }

  /** What a recovery round leaves of an action, by what it found: confirmed and due failed actions
      are attempted once more, stale executions are given up for the retry delay, all else stays. */
  ghost predicate IsSettled(before: Action, after: Action, now: Time, staleAfter: Time, faulty: bool) {
    match before.state
    case Executing =>
      if before.startedAt.Some? && before.startedAt.value < now - staleAfter
      then after.state == Failed && after.nextRetryAt == Some(now + 300) && after.attempts == before.attempts
      else after == before
    case Confirmed =>
      after.state in {Failed, Completed} && after.attempts == before.attempts + 1 && (faulty ==> after.state == Failed)
    case Failed =>
      if before.attempts < 3 && (before.nextRetryAt == None || before.nextRetryAt.value <= now)
      then after.state in {Failed, Completed} && after.attempts == before.attempts + 1
           && (faulty ==> after.state == Failed)
      else after == before
    case _ => after == before
  }

  lemma ProposeKeeps(db: Db, user: string, source: string, arguments: Arguments, code: string, now: Time)
    ensures Unique(db) && Inv(db) ==>
      var next := ProposeTx(db, user, source, arguments, code, now);
      Unique(next) && Inv(next)
  {
    hide Unique, ProposeTx;
    if Unique(db) && Inv(db) {
      var step := Propose(user, source, arguments, code, now);
      StepKeepsUnique(db, step);
      StepKeepsInv(db, step);
    }
  }

  /** What answering an action does, by the answer and the clock alone. */
  ghost predicate Resolves(before: Db, after: Db, id: Id, state: State, resolution: Resolution, now: Time) {
    && id in before.actions && id in after.actions && after.actions.Keys == before.actions.Keys
    && (forall other | other in before.actions && other != id :: after.actions[other] == before.actions[other])
    && after.applications == before.applications && after.events == before.events && after.commits == before.commits
    && SameIdentity(before.actions[id], after.actions[id])
    && if before.actions[id].state != Pending then state == before.actions[id].state && after == before
       else if before.actions[id].expiresAt <= now then state == Expired && after.outbox == before.outbox
       else
         && state == (if resolution == Confirm then Confirmed else Rejected)
         && after.actions[id].confirmedAt == (if resolution == Confirm then Some(now)
                                              else before.actions[id].confirmedAt)
         && |after.outbox| == |before.outbox| + 1 && before.outbox <= after.outbox
         && var row := after.outbox[|before.outbox|];
            row.ActionResolved? && row.action == id && row.resolution == resolution
  }

  lemma AnswerResolves(db: Db, id: Id, resolution: Resolution, now: Time)
    requires id in db.actions
    ensures var next := ResolveTx(db, id, resolution, now);
      id in next.actions && Resolves(db, next, id, next.actions[id].state, resolution, now)
  {
  }

  lemma RecoverySettles(before: Action, last: Action, now: Time, staleAfter: Time, faulty: bool)
    requires Recovered(Unstuck(before, now, staleAfter), last, now, faulty)
    ensures IsSettled(before, last, now, staleAfter, faulty)
  {
  }

  class Store {
    var actions: map<Id, Action>
    var applications: map<Key, Application>
    var events: seq<JobEvent>
    var outbox: seq<OutboxRow>
    var nextId: Id
    ghost var commits: seq<Commit>

    ghost function Tables(): Db
      reads this
    {
      Db(actions, applications, events, outbox, commits, nextId)
    }

    constructor ()
      ensures Tables() == EMPTY
    {
      actions, applications, events, outbox, nextId, commits := map[], map[], [], [], 0, [];
    }

    /** `codes` are the codes of the ids the service draws, in order; with all of them taken it
        would go on drawing. */
    method ProposeStatus(user: string, source: string, arguments: Arguments, codes: seq<string>, now: Time)
      returns (r: ProposeResult)
      requires WellFormed(arguments)
      modifies this
      ensures r.Created? ==>
        && r.created == old(nextId) && r.created in actions && actions[r.created].state == Pending
        && FirstFree(old(Tables()), codes, actions[r.created].code)
        && actions[r.created].user == user && actions[r.created].source == source
        && actions[r.created].arguments == arguments && actions[r.created].expiresAt == now + 604800
        && outbox == old(outbox) + [ActionCreated(old(nextId) + 1, r.created, actions[r.created].code)]
        && Tables() == ProposeTx(old(Tables()), user, source, arguments, actions[r.created].code, now)
      ensures r.Drawing? <==>
        && (forall k | 0 <= k < |codes| :: !CodeFree(old(Tables()), codes[k]))
        && (forall id | id in old(actions) :: !SameProposal(old(actions)[id], source, arguments))
      ensures old(Unique(Tables()) && Inv(Tables())) ==> Unique(Tables()) && Inv(Tables())
      ensures !r.Created? ==> Tables() == old(Tables())
      ensures r.Existing? ==>
        && r.existing in actions && actions[r.existing].user == user
        && SameProposal(actions[r.existing], source, arguments)
    {
      hide Inv, Unique;
      if existing :| existing in actions && SameProposal(actions[existing], source, arguments) {
        return if actions[existing].user == user then Existing(existing) else Conflict;
      }
      ghost var before := Tables();
      var k := 0;
      while k < |codes| && exists id :: id in actions && actions[id].code == codes[k]
        invariant 0 <= k <= |codes|
        invariant forall j | 0 <= j < k :: !CodeFree(before, codes[j])
      {
        k := k + 1;
      }
      if k == |codes| {
        return Drawing;
      }
      var code, id := codes[k], nextId;
      actions := actions[id := Action(user, source, arguments, code, Pending, now + EXPIRY, None, None, 0, None)];
      outbox := outbox + [ActionCreated(id + 1, id, code)];
      nextId := id + 2;
      r := Created(id);
      ProposeKeeps(before, user, source, arguments, code, now);
    }

    method ResolveConfirmation(user: string, code: Option<string>, resolution: Resolution, now: Time)
      returns (r: ResolveOutcome)
      requires Unique(Tables())
      modifies this
      ensures match r
        case Ambiguous(count) =>
          && code == None && count == |Targets(old(actions), user, code, now)| != 1
          && Tables() == old(Tables())
        case NotFound =>
          && code.Some? && Targets(old(actions), user, code, now) == {}
          && Tables() == old(Tables())
        case Answered(id, state) =>
          && Targets(old(actions), user, code, now) == {id}
          && Tables() == ResolveTx(old(Tables()), id, resolution, now)
          && id in actions && actions[id].state == state
      ensures r.Answered? ==> Resolves(old(Tables()), Tables(), r.id, r.state, resolution, now)
    {
      hide Resolves, Unique;
      var targets := Targets(actions, user, code, now);
      if code == None && |targets| != 1 {
        return ResolveOutcome.Ambiguous(|targets|);
      }
      if targets == {} {
        return NotFound;
      }
      var id :| id in targets;
      if code.Some? {
        CodeHasOneTarget(Tables(), user, code.value, now, id);
      } else {
        assert |targets - {id}| == 0;
        assert targets == {id};
      }
      AnswerResolves(Tables(), id, resolution, now);
      if actions[id].state == Pending {
        var action := Resolved(actions[id], resolution, now);
        actions := actions[id := action];
        if action.state != Expired {
          outbox := outbox + [ActionResolved(nextId, id, resolution)];
          nextId := nextId + 1;
        }
      }
      r := ResolveOutcome.Answered(id, actions[id].state);
    }

    method ClaimStatusUpdate(id: Id, now: Time) returns (r: Option<ExecuteOutcome>)
      modifies this
      ensures Tables() == ClaimTx(old(Tables()), id, now)
      ensures r == None <==> old(Claimable(Tables(), id))
      ensures match r
        case None =>
          && actions[id].state == Executing && actions[id].attempts == old(actions[id].attempts) + 1
          && actions[id].startedAt == Some(now) && actions[id].nextRetryAt == None
          && old(actions[id].state) in {Confirmed, Failed}
        case Some(Missing) => id !in actions
        case Some(AlreadyCompleted(application)) =>
          && id in actions && actions[id].state == Completed
          && (if application.Some?
              then exists i :: 0 <= i < |events| && events[i].action == id && events[i].application == application.value
              else forall i | 0 <= i < |events| :: events[i].action != id)
        case Some(NotReady(state)) =>
          && id in actions && state == actions[id].state
          && !Claimable(Tables(), id) && state != Completed
        case Some(_) => false
    {
      if id !in actions {
        return Some(Missing);
      }
      var action := actions[id];
      match action.state {
        case Completed =>
          var application: Option<Id> := None;
          if i :| 0 <= i < |events| && events[i].action == id {
            application := Some(events[i].application);
          }
          r := Some(AlreadyCompleted(application));
        case Confirmed | Failed =>
          actions := actions[id := action.(
            state := Executing, startedAt := Some(now), attempts := action.attempts + 1, nextRetryAt := None)];
          r := None;
        case _ =>
          r := Some(NotReady(action.state));
      }
    }

    method ExecuteClaimed(id: Id, now: Time) returns (r: ExecuteOutcome)
      modifies this
      ensures Tables() == ExecuteTx(old(Tables()), id, now)
      ensures r.Done? <==> old(Executable(Tables(), id))
      ensures r.Done? ==>
        && r.done == id && KeyOf(actions[id]) in applications
        && applications[KeyOf(actions[id])].id == r.row
        && (r.changed <==> events != old(events))
      ensures r.Raised? <==>
        && id in old(actions) && old(actions[id].state) == Executing
        && !WellFormed(old(actions[id].arguments))
      ensures !r.Done? ==> Tables() == old(Tables())
    {
      if id !in actions {
        return Missing;
      }
      var action := actions[id];
      if action.state != Executing {
        return NotReady(action.state);
      }
      if !WellFormed(action.arguments) {
        return Raised;
      }
      var key, stage := KeyOf(action), action.arguments.stage;
      var previous := StageAt(applications, key);
      var changed := previous != Some(stage);
      if changed {
        var application := if key in applications then applications[key].id else nextId;
        var event := JobEvent(nextId + 1, application, id, previous, stage,
                              if action.confirmedAt.Some? then action.confirmedAt.value else now);
        applications := applications[key := Application(application, stage, event.id)];
        events := events + [event];
        outbox := outbox + [StatusChanged(nextId + 2, application, id, previous, stage)];
        nextId := nextId + 3;
      }
      actions := actions[id := action.(state := Completed)];
      commits := commits + [CommitOf(id, action)];
      r := Done(id, applications[key].id, changed);
    }

    method RecordFailure(id: Id, now: Time)
      modifies this
      ensures Tables() == FailTx(old(Tables()), id, now)
      ensures old(Inv(Tables())) ==> Inv(Tables())
      ensures id in old(actions) && old(actions[id].state) == Executing ==>
        && id in actions && actions[id].state == Failed && actions[id].attempts == old(actions[id].attempts)
        && (forall later :: Recoverable(actions[id], later) <==>
              actions[id].attempts < MAX_ATTEMPTS && now + RETRY_DELAY <= later)
      ensures applications == old(applications) && events == old(events) && outbox == old(outbox)
      ensures actions.Keys == old(actions).Keys
      ensures forall other | other in actions && other != id :: actions[other] == old(actions)[other]
    {
      hide Inv;
      if Inv(Tables()) {
        StepKeepsInv(Tables(), StatusWrites.Step.Fail(id, now));
      }
      if id in actions && actions[id].state == Executing {
        var action := actions[id];
        var retryAt := if action.attempts < MAX_ATTEMPTS then Some(now + RETRY_DELAY) else None;
        actions := actions[id := action.(state := Failed, nextRetryAt := retryAt)];
      }
    }

    /** Claim in one transaction, write in the next; `faulty` makes the second roll back. */
    method ExecuteStatusUpdate(id: Id, now: Time, faulty: bool) returns (r: ExecuteOutcome, ghost trace: seq<Step>)
      modifies this
      ensures Tables() == Attempt(old(Tables()), id, now, faulty) == Run(old(Tables()), trace)
      ensures r.Done? <==> old(Claimable(Tables(), id)) && !faulty && WellFormed(old(actions[id].arguments))
      ensures r.Raised? <==> old(Claimable(Tables(), id)) && (faulty || !WellFormed(old(actions[id].arguments)))
    {
      trace := AttemptSteps(Tables(), id, now, faulty);
      AttemptIsRun(Tables(), id, now, faulty);
      var claimed := ClaimStatusUpdate(id, now);
      if claimed.Some? {
        return claimed.value, trace;
      }
      r := Raised;
      if !faulty {
        r := ExecuteClaimed(id, now);
      }
      if r.Raised? {
        RecordFailure(id, now);
      }
    }

    /** Recover stale executions, then execute every action that is due, in any order. */
    method RecoverPendingActions(now: Time, staleAfter: Time, faulty: set<Id>)
      returns (ghost trace: seq<Step>, done: nat)
      modifies this
      ensures Tables() == Run(old(Tables()), trace)
      ensures actions.Keys == old(actions).Keys
      ensures forall id | id in actions ::
        Recovered(Unstuck(old(actions)[id], now, staleAfter), actions[id], now, id in faulty)
      ensures forall id | id in actions :: IsSettled(old(actions)[id], actions[id], now, staleAfter, id in faulty)
    {
      actions := map id | id in actions :: Unstuck(actions[id], now, staleAfter);
      hide Recovered, IsSettled;
      trace := [MarkStale(now, staleAfter)];
      assert trace[..0] == [];
      ghost var rest;
      rest, done := ExecuteAll(now, faulty);
      RunConcat(old(Tables()), trace, rest);
      trace := trace + rest;
      forall id | id in actions
        ensures IsSettled(old(actions)[id], actions[id], now, staleAfter, id in faulty)
      {
        RecoverySettles(old(actions)[id], actions[id], now, staleAfter, id in faulty);
      }
    }

    method ExecuteAll(now: Time, faulty: set<Id>) returns (ghost trace: seq<Step>, done: nat)
      modifies this
      ensures Tables() == Run(old(Tables()), trace)
      ensures actions.Keys == old(actions).Keys
      ensures forall id | id in actions :: Recovered(old(actions)[id], actions[id], now, id in faulty)
    {
      hide Attempt, AttemptSteps;
      var todo := set id | id in actions && Recoverable(actions[id], now);
      trace, done := [], 0;
      while todo != {}
        invariant Tables() == Run(old(Tables()), trace)
        invariant actions.Keys == old(actions).Keys && todo <= actions.Keys
        invariant forall id | id in todo :: actions[id] == old(actions)[id] && Recoverable(actions[id], now)
        invariant forall id | id in actions && id !in todo ::
          Recovered(old(actions)[id], actions[id], now, id in faulty)
        decreases |todo|
      {
        var id :| id in todo;
        AttemptFrame(Tables(), id, now, id in faulty);
        AttemptExtendsRun(old(Tables()), trace, id, now, id in faulty);
        trace := trace + AttemptSteps(Tables(), id, now, id in faulty);
        var r, _ := ExecuteStatusUpdate(id, now, id in faulty);
        if r.Done? {
          done := done + 1;
        }
        todo := todo - {id};
      }
    }

    method RetryPendingAction(id: Id, now: Time) returns (r: Option<State>)
      modifies this
      ensures Tables() == RetryTx(old(Tables()), id, now)
      ensures if id in old(actions) then id in actions && r == Some(actions[id].state) else r == None
      ensures id in old(actions) && old(actions)[id].state == Failed ==>
        && r == Some(Confirmed) && actions[id].state == Confirmed && actions[id].nextRetryAt == Some(now)
        && actions[id].attempts == old(actions)[id].attempts
      ensures id in old(actions) && old(actions)[id].state != Failed ==> Tables() == old(Tables())
    {
      if id !in actions {
        return None;
      }
      if actions[id].state == Failed {
        actions := actions[id := actions[id].(state := Confirmed, nextRetryAt := Some(now))];
      }
      r := Some(actions[id].state);
    }
  }
}
