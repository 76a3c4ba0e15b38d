/** The run and session tables as the mutable store the service works on. */
module QueueStore {
  import opened Domain
  import opened RunEffects
  import opened RunExclusion
  import opened RunQueue
  import opened Wrappers

  function StaleRuns(runs: seq<Run>, now: Time, limit: Time): nat {
    if runs == [] then 0
    else StaleRuns(runs[..|runs| - 1], now, limit) + if Stale(runs[|runs| - 1], now, limit) then 1 else 0
  }

  class AgentQueue {
    var runs: seq<Run>
    var active: map<SessionId, Id>

    ghost function Tables(): Db
      reads this
    {
      Db(runs, active)
    }

    constructor ()
      ensures Tables() == EMPTY
    {
      runs, active := [], map[];
    }

    /** _persist_event */
    method PersistEvent(session: SessionId, command: bool, event: string, message: string, now: Time)
      returns (accepted: bool)
      modifies this
      ensures Tables() == IntakeTx(old(Tables()), session, command, event, message, now)
      ensures accepted <==> !Known(old(runs), event, message)
      ensures TakenIn(old(Tables()), Tables(), session, command, event, message, now)
    {
      hide TakenIn, Known;
      IntakeTakesIn(Tables(), session, command, event, message, now);
      SeenIsKnown(runs, event, message, session);
      if Seen(runs, event, message) {
        return false;
      }
      var busy := SessionBusy(runs, session);
      var run := Run(session, command, event, message, Queued, 0, now, None, None, false, None);
      if command || !busy {
        run := run.(state := Running, startedAt := Some(now), attempts := 1);
      }
      if !busy && !command {
        active := active[session := |runs|];
      }
      runs := runs + [run];
      return true;
    }

    /** promote_next_run */
    method PromoteNextRun(session: SessionId, now: Time)
      modifies this
      ensures Tables() == Promote(old(Tables()), session, now)
      ensures if exists q: Id :: QueuedIn(old(runs), session, q)
        then
          && session in active && StartsOldest(old(runs), runs, session, active[session])
          && forall k: Id | k < |runs| && k != active[session] :: runs[k] == old(runs)[k]
        else Tables() == old(Tables())
      ensures old(DbOk(Tables()) && NoneWorking(runs, session)) ==> DbOk(Tables())
    {
      hide DbOk, NoneWorking, StartsOldest;
      PromoteStartsOldest(Tables(), session, now);
      if DbOk(Tables()) && NoneWorking(runs, session) {
        PromoteKeeps(Tables(), session, now);
      }
      var oldest := OldestQueued(runs, session);
      if oldest.Some? {
        var run := runs[oldest.value];
        runs := runs[oldest.value := run.(state := Running, startedAt := Some(now), attempts := run.attempts + 1,
                                          retryAt := None)];
        active := active[session := oldest.value];
      }
    }

    /** _prepare_run_attempt */
    method PrepareRunAttempt(r: Id, now: Time, max: nat) returns (go: bool)
      modifies this
      ensures Tables() == PrepareTx(old(Tables()), r, now, max)
      ensures go <==> Prepared(old(Tables()), r, now, max)
      ensures if r < |old(runs)| then AttemptPrepared(old(Tables()), Tables(), r, now, max, go)
              else !go && Tables() == old(Tables())
    {
      hide AttemptPrepared, HandsOver, StartsOldest, DbOk, NoneWorking;
      if r < |runs| {
        PreparePrepares(Tables(), r, now, max);
      }
      if r >= |runs| {
        return false;
      }
      var run := runs[r];
      if run.state == DeliveryPending {
        if !Due(run, now) {
          return false;
        }
        if run.attempts >= max {
          runs := runs[r := run.(state := Failed, delivery := Some(NotSent), retryAt := None)];
          if run.session in active && active[run.session] == r {
            active := active - {run.session};
            PromoteNextRun(run.session, now);
          }
          return false;
        }
        runs := runs[r := run.(attempts := run.attempts + 1, retryAt := None)];
      } else if run.state == Running && run.startedAt == None {
        runs := runs[r := run.(startedAt := Some(now), attempts := run.attempts + 1, retryAt := None)];
      }
      return true;
    }

    /** record_delivery */
    method RecordDelivery(r: Id, d: Delivery, now: Time, max: nat)
      modifies this
      ensures Tables() == RecordDeliveryTx(old(Tables()), r, d, now, max)
      ensures r < |old(runs)| && old(runs)[r].state != Queued ==>
        && DeliveryRecorded(old(Tables()), Tables(), r, d, now, max)
        && DeliveryOutcome(old(Tables()), Tables(), r, d, now, max)
      ensures r < |old(runs)| && old(DbOk(Tables()) && Working(runs[r])) ==> DbOk(Tables())
    {
      hide Promote, DbOk, HandsOver, DeliveryRecorded, DeliveryOutcome;
      if r < |runs| && runs[r].state != Queued {
        DeliveryIsRecorded(Tables(), r, d, now, max);
        RecordedOutcome(Tables(), RecordDeliveryTx(Tables(), r, d, now, max), r, d, now, max);
        if DbOk(Tables()) && Working(runs[r]) {
          RecordDeliveryKeeps(Tables(), r, d, now, max);
        }
      }
      if r >= |runs| {
        return;
      }
      var run := runs[r];
      var retryable := d.kind == Some(Retryable) && run.attempts < max;
      var delivery := if d.success then Sent else NotSent;
      if retryable {
        delivery := RetryWait;
      } else if d.kind == Some(Retryable) {
        delivery := NotSent;
      } else if d.kind == Some(Ambiguous) {
        delivery := Unclear;
      }
      if retryable {
        runs := runs[r := run.(delivery := Some(delivery), state := DeliveryPending,
                               retryAt := Some(now + RETRY_DELAY))];
        return;
      }
      var state := Completed;
      if delivery != Sent || Fatal(d.kind) {
        state := Failed;
      }
      runs := runs[r := run.(delivery := Some(delivery), state := state, retryAt := None)];
      active := active - {run.session};
      PromoteNextRun(run.session, now);
    }

    /** complete_run without an answer. */
    method CompleteRun(r: Id, now: Time)
      modifies this
      ensures Tables() == CompleteTx(old(Tables()), r, now)
      ensures old(DbOk(Tables())) && r < |old(runs)| && old(Working(runs[r])) ==>
        && DbOk(Tables()) && r < |runs| && runs[r].state == Failed
        && HandsOver(old(runs), Tables(), old(runs[r].session))
    {
      hide Promote, DbOk, HandsOver;
      if DbOk(Tables()) && r < |runs| && Working(runs[r]) {
        EndKeeps(Tables(), r, runs[r].(state := Failed, delivery := None), now);
        EndHandsOver(Tables(), r, runs[r].(state := Failed, delivery := None), now);
      }
      if r >= |runs| {
        return;
      }
      var run := runs[r];
      runs := runs[r := run.(state := Failed, delivery := None)];
      active := active - {run.session};
      PromoteNextRun(run.session, now);
    }

    /** record_command_delivery */
    method RecordCommandDelivery(r: Id, d: Delivery, now: Time, max: nat)
      modifies `runs
      ensures Tables() == RecordCommandTx(old(Tables()), r, d, now, max)
      ensures active == old(active)
      ensures if r < |old(runs)| then CommandRecorded(old(Tables()), Tables(), r, d, now, max)
              else Tables() == old(Tables())
    {
      hide CommandRecorded;
      if r < |runs| {
        CommandIsRecorded(Tables(), r, d, now, max);
      }
      if r >= |runs| {
        return;
      }
      var run := runs[r];
      var delivery := if d.success then Sent else NotSent;
      if d.kind == Some(Retryable) {
        delivery := RetryWait;
      } else if d.kind == Some(Ambiguous) {
        delivery := Unclear;
      }
      run := run.(hasAnswer := true, delivery := Some(delivery));
      if d.kind == Some(Retryable) && run.attempts < max {
        runs := runs[r := run.(state := DeliveryPending, retryAt := Some(now + RETRY_DELAY))];
        return;
      }
      run := run.(state := Completed, retryAt := None);
      if Fatal(d.kind) || (d.kind == Some(Retryable) && run.attempts >= max) {
        run := run.(state := Failed);
      }
      runs := runs[r := run];
    }

    /** persist_final_message: the first answer stays. */
    method PersistFinalMessage(r: Id) returns (stored: bool)
      modifies `runs
      ensures Tables() == AnswerTx(old(Tables()), r)
      ensures stored <==> r < |old(runs)| && !old(runs)[r].hasAnswer
      ensures runs == if stored then old(runs)[r := old(runs)[r].(hasAnswer := true, state := DeliveryPending)]
                      else old(runs)
    {
      if r >= |runs| || runs[r].hasAnswer {
        return false;
      }
      runs := runs[r := runs[r].(hasAnswer := true, state := DeliveryPending)];
      return true;
    }

    /** resume_confirmed_action on the run: only a waiting run goes on. */
    method ResumeConfirmed(r: Id)
      modifies `runs
      ensures Tables() == ResumeTx(old(Tables()), r)
      ensures old(Exclusive(runs)) ==> Exclusive(runs)
      ensures runs == if r < |old(runs)| && old(runs)[r].state == WaitingConfirmation
                      then old(runs)[r := old(runs)[r].(state := Running, hasAnswer := false)] else old(runs)
    {
      if r < |runs| && runs[r].state == WaitingConfirmation {
        runs := runs[r := runs[r].(hasAnswer := false, state := Running)];
      }
    }

    /** finalize_rejected_action on the run: it does not look at the state. */
    method FinalizeRejectedAction(r: Id)
      modifies `runs
      ensures Tables() == FinalizeTx(old(Tables()), r)
      ensures r < |old(runs)| && !old(runs)[r].command && old(Exclusive(runs)) ==>
        (Exclusive(runs) <==> old(Working(runs[r]) || NoneWorking(runs, runs[r].session)))
      ensures runs == if r < |old(runs)| then old(runs)[r := old(runs)[r].(state := Running, hasAnswer := false)]
                      else old(runs)
    {
      if r >= |runs| {
        return;
      }
      if Exclusive(runs) && !runs[r].command {
        FinalizeKeepsExclusionIff(Tables(), r);
      }
      runs := runs[r := runs[r].(hasAnswer := false, state := Running)];
    }

    /** recover_runs: only RUNNING rows are failed, and no session claim is given up. */
    method RecoverStaleRuns(now: Time, limit: Time) returns (changed: nat)
      modifies `runs
      ensures runs == RecoverRuns(old(runs), now, limit) && active == old(active)
      ensures changed == StaleRuns(old(runs), now, limit)
    {
      changed := 0;
      for i := 0 to |runs|
        invariant |runs| == |old(runs)|
        invariant forall j | 0 <= j < |runs| ::
          runs[j] == if j < i && Stale(old(runs)[j], now, limit)
                     then old(runs)[j].(state := Failed, retryAt := None) else old(runs)[j]
        invariant changed == StaleRuns(old(runs)[..i], now, limit)
      {
        assert old(runs)[..i + 1][..i] == old(runs)[..i];
        if Stale(runs[i], now, limit) {
          runs := runs[i := runs[i].(state := Failed, retryAt := None)];
          changed := changed + 1;
        }
      }
      assert old(runs)[..|runs|] == old(runs);
    }
  }
}
