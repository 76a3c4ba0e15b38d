/** The order of arrival over whole runs of the system, and the exact condition for it. */
module RunOrder {
  import opened Domain
  import opened RunQueue
  import opened Wrappers

  /** What the order of arrival rests on. */
  ghost predicate OrderOk(runs: seq<Run>) {
    CommandsOk(runs) && Fifo(runs)
  }

  /** A change that keeps its run's place in the queue. */
  ghost predicate Steady(before: Run, after: Run) {
    && SameIdentity(before, after) && (after.state == Queued <==> before.state == Queued)
    && (after.command ==> after.state != Queued && after.state != WaitingConfirmation)
  }

  lemma SetKeepsOrder(db: Db, r: Id, run: Run)
    requires OrderOk(db.runs) && r < |db.runs| && Steady(db.runs[r], run)
    ensures OrderOk(SetRun(db, r, run).runs)
  {
  }

  lemma AllSteady(runs: seq<Run>, next: seq<Run>)
    requires OrderOk(runs) && |next| == |runs| && forall k | 0 <= k < |runs| :: Steady(runs[k], next[k])
    ensures OrderOk(next)
  {
  }

  lemma PromoteKeepsOrder(db: Db, session: SessionId, now: Time)
    requires OrderOk(db.runs)
    ensures OrderOk(Promote(db, session, now).runs)
  {
    PromoteFifo(db, session, now);
  }

  lemma EndKeepsOrder(db: Db, r: Id, run: Run, session: SessionId, now: Time)
    requires OrderOk(db.runs) && r < |db.runs| && Steady(db.runs[r], run)
    ensures OrderOk(Promote(Release(SetRun(db, r, run), session), session, now).runs)
  {
    hide OrderOk, Promote;
    SetKeepsOrder(db, r, run);
    PromoteKeepsOrder(Release(SetRun(db, r, run), session), session, now);
  }

  lemma IntakeKeepsOrder(db: Db, session: SessionId, command: bool, event: string, message: string, now: Time)
    requires OrderOk(db.runs)
    ensures OrderOk(IntakeTx(db, session, command, event, message, now).runs)
  {
    hide Seen, SessionBusy;
    var next := IntakeTx(db, session, command, event, message, now);
    if !Seen(db.runs, event, message) {
      IntakeFacts(db.runs, next.runs[|db.runs|]);
    }
  }

  lemma PrepareKeepsOrder(db: Db, r: Id, now: Time, max: nat)
    requires OrderOk(db.runs)
    ensures OrderOk(PrepareTx(db, r, now, max).runs)
  {
    hide Promote;
    if r < |db.runs| {
      var run := db.runs[r];
      if run.state == DeliveryPending && Due(run, now) && run.attempts >= max {
        var ended := run.(state := Failed, delivery := Some(NotSent), retryAt := None);
        SetKeepsOrder(db, r, ended);
        EndKeepsOrder(db, r, ended, run.session, now);
      } else if PrepareTx(db, r, now, max) != db {
        SetKeepsOrder(db, r, PrepareTx(db, r, now, max).runs[r]);
      }
    }
  }

  lemma EndTxKeepsOrder(db: Db, r: Id, move: Move, max: nat)
    requires OrderOk(db.runs) && r < |db.runs| && Working(db.runs[r]) && Ends(move)
    ensures OrderOk(EndTx(db, r, move, max).runs)
  {
    hide OrderOk, Promote;
    var run := db.runs[r];
    match move
    case Suspend => SetKeepsOrder(db, r, run.(state := WaitingConfirmation));
    case ScheduleRetry(now) =>
      SetKeepsOrder(db, r, run.(state := DeliveryPending, retryAt := Some(now + RETRY_DELAY)));
    case RecordDelivery(d, now) =>
      var delivery := DeliveryStateOf(run, d, max);
      SetKeepsOrder(db, r, run.(delivery := Some(delivery), state := DeliveryPending,
                                retryAt := Some(now + RETRY_DELAY)));
      EndKeepsOrder(db, r, run.(delivery := Some(delivery), retryAt := None,
                                state := if delivery != Sent || Fatal(d.kind) then Failed else Completed),
                    run.session, now);
    case Complete(now) => EndKeepsOrder(db, r, run.(state := Failed, delivery := None), run.session, now);
  }

  lemma LoadFaultKeepsOrder(db: Db, r: Id, releases: bool)
    requires OrderOk(db.runs)
    ensures OrderOk(LoadFaultTx(db, r, releases).runs)
  {
    if Loadable(db, r) {
      SetKeepsOrder(db, r, db.runs[r].(state := Failed));
    }
  }

  lemma ResumeKeepsOrder(db: Db, r: Id)
    requires OrderOk(db.runs)
    ensures OrderOk(ResumeTx(db, r).runs)
  {
    if r < |db.runs| && db.runs[r].state == WaitingConfirmation {
      SetKeepsOrder(db, r, ResumeTx(db, r).runs[r]);
    }
  }

  lemma SweepsKeepOrder(db: Db, r: Id, d: Delivery, now: Time, limit: Time, max: nat)
    requires OrderOk(db.runs)
    ensures OrderOk(RecoverRuns(db.runs, now, limit)) && OrderOk(PromptRuns(db.runs, now, max))
    ensures OrderOk(RecordPromptTx(db, r, d, now, max).runs)
  {
    AllSteady(db.runs, RecoverRuns(db.runs, now, limit));
    AllSteady(db.runs, PromptRuns(db.runs, now, max));
    if r < |db.runs| {
      SetKeepsOrder(db, r, RecordPromptTx(db, r, d, now, max).runs[r]);
    }
  }

  lemma SettlingMoveKeepsOrder(s: System, move: Move, max: nat)
    requires OrderOk(s.db.runs) && WorkerOk(s)
    requires move.Answer? || move.RecoverWrites? || move.RecordCommand? || move.Load? || move.Crash?
    ensures OrderOk(Do(s, move, max).db.runs)
  {
    hide OrderOk, WorkerOk;
    var next := Do(s, move, max);
    if next.db != s.db {
      var r := TopSettles(s, move, max);
      SetKeepsOrder(s.db, r, next.db.runs[r]);
    }
  }

  // ---- The exact condition ------------------------------------------------------------------

  /** The run waits behind an earlier queued run of its session. */
  ghost predicate QueuedBehind(runs: seq<Run>, r: Id) {
    && r < |runs| && !runs[r].command && runs[r].state == Queued
    && exists i | 0 <= i < r :: runs[i].session == runs[r].session && runs[i].state == Queued
  }

  /** A finalize_rejected_action is not given a run that waits behind another one.  No run that owns
      an action is queued. */
  ghost predicate NotQueuedBehind(s: System, move: Move) {
    move.FinalizeRejected? && MayStart(s) ==> !QueuedBehind(s.db.runs, move.run)
  }

  lemma FinalizeKeepsOrderIff(db: Db, r: Id)
    requires OrderOk(db.runs)
    ensures CommandsOk(FinalizeTx(db, r).runs)
    ensures Fifo(FinalizeTx(db, r).runs) <==> !QueuedBehind(db.runs, r)
  {
    var next := FinalizeTx(db, r).runs;
    if QueuedBehind(db.runs, r) {
      var i :| 0 <= i < r && db.runs[i].session == db.runs[r].session && db.runs[i].state == Queued;
      assert next[i].state == Queued && next[r].state == Running && next[i].session == next[r].session;
    }
  }

  lemma MoveKeepsOrder(s: System, move: Move, max: nat)
    requires OrderOk(s.db.runs) && WorkerOk(s) && NotQueuedBehind(s, move)
    ensures OrderOk(Do(s, move, max).db.runs)
  {
    hide OrderOk, WorkerOk, QueuedBehind;
    if Ends(move) {
      if Top(s, false).Some? {
        TopIsWorking(s);
        EndTxKeepsOrder(s.db, Top(s, false).value, move, max);
      }
    } else {
      match move
      case Intake(session, command, event, message, now) =>
        IntakeKeepsOrder(s.db, session, command, event, message, now);
      case Prepare(r, now) => PrepareKeepsOrder(s.db, r, now, max);
      case LoadFault(releases) => if s.worker.next.Some? { LoadFaultKeepsOrder(s.db, s.worker.next.value, releases); }
      case Resume(r) => ResumeKeepsOrder(s.db, r);
      case FinalizeRejected(r) => if MayStart(s) { SafeFinalizeKeepsOrder(s.db, r); }
      case Recover(now, limit) => SweepsKeepOrder(s.db, 0, Delivery(true, None), now, limit, max);
      case RetryPrompts(now) => SweepsKeepOrder(s.db, 0, Delivery(true, None), now, 0, max);
      case RecordPrompt(r, d, now) => SweepsKeepOrder(s.db, r, d, now, 0, max);
      case _ => SettlingMoveKeepsOrder(s, move, max);
    }
  }

  lemma SafeFinalizeKeepsOrder(db: Db, r: Id)
    requires OrderOk(db.runs) && !QueuedBehind(db.runs, r)
    ensures OrderOk(FinalizeTx(db, r).runs)
  {
    FinalizeKeepsOrderIff(db, r);
  }

  lemma UnsafeFinalizeBreaksOrder(s: System, move: Move, max: nat)
    requires OrderOk(s.db.runs) && !NotQueuedBehind(s, move)
    ensures !Fifo(Do(s, move, max).db.runs)
  {
    FinalizeKeepsOrderIff(s.db, move.run);
  }

  /** In every state of the run, behind a queued run of a session everything is queued. */
  ghost predicate AlwaysFifo(s: System, moves: seq<Move>, max: nat) {
    && Fifo(DoAll(s, moves, max).db.runs)
    && (moves == [] || AlwaysFifo(s, moves[..|moves| - 1], max))
  }

  ghost predicate NeverQueuedBehind(s: System, moves: seq<Move>, max: nat) {
    moves == [] ||
    (NeverQueuedBehind(s, moves[..|moves| - 1], max)
      && NotQueuedBehind(DoAll(s, moves[..|moves| - 1], max), moves[|moves| - 1]))
  }

  lemma StartOrderOk()
    ensures OrderOk(START.db.runs) && WorkerOk(START)
  {
  }

  lemma {:induction false} SafeMovesKeepOrder(moves: seq<Move>, max: nat)
    requires NeverQueuedBehind(START, moves, max)
    ensures OrderOk(DoAll(START, moves, max).db.runs) && WorkerOk(DoAll(START, moves, max))
  {
    hide OrderOk, WorkerOk, Do, NotQueuedBehind;
    if moves == [] {
      StartOrderOk();
    } else {
      var before := DoAll(START, moves[..|moves| - 1], max);
      SafeMovesKeepOrder(moves[..|moves| - 1], max);
      MoveKeepsOrder(before, moves[|moves| - 1], max);
      MoveKeepsWorker(before, moves[|moves| - 1], max);
    }
  }

  /** The runs of a session start in order of arrival, over repeated and late rejections as well, if
      and only if no finalize_rejected_action is given a run that is queued behind another one. */
  lemma {:induction false} RunsStartInOrder(moves: seq<Move>, max: nat)
    ensures AlwaysFifo(START, moves, max) <==> NeverQueuedBehind(START, moves, max)
  {
    hide NotQueuedBehind, WorkerOk, Do;
    if NeverQueuedBehind(START, moves, max) {
      SafeMovesKeepOrder(moves, max);
    }
    if moves != [] {
      RunsStartInOrder(moves[..|moves| - 1], max);
      var before := DoAll(START, moves[..|moves| - 1], max);
      if NeverQueuedBehind(START, moves[..|moves| - 1], max) && !NotQueuedBehind(before, moves[|moves| - 1]) {
        SafeMovesKeepOrder(moves[..|moves| - 1], max);
        UnsafeFinalizeBreaksOrder(before, moves[|moves| - 1], max);
      }
    }
  }

  // ---- Why the condition is met -------------------------------------------------------------

  ghost predicate NoneRequeued(runs: seq<Run>, next: seq<Run>) {
    |runs| <= |next| && forall k | 0 <= k < |runs| && next[k].state == Queued :: runs[k].state == Queued
  }

  lemma EndRequeuesNone(db: Db, r: Id, run: Run, session: SessionId, now: Time)
    requires r < |db.runs| && run.state != Queued
    ensures NoneRequeued(db.runs, Promote(Release(SetRun(db, r, run), session), session, now).runs)
  {
  }

  lemma EndTxRequeuesNone(db: Db, r: Id, move: Move, max: nat)
    requires r < |db.runs| && Ends(move)
    ensures NoneRequeued(db.runs, EndTx(db, r, move, max).runs)
  {
    hide Promote;
    var run := db.runs[r];
    match move
    case RecordDelivery(d, now) =>
      var delivery := DeliveryStateOf(run, d, max);
      EndRequeuesNone(db, r, run.(delivery := Some(delivery), retryAt := None,
                                  state := if delivery != Sent || Fatal(d.kind) then Failed else Completed),
                      run.session, now);
    case Complete(now) => EndRequeuesNone(db, r, run.(state := Failed, delivery := None), run.session, now);
    case _ =>
  }

  lemma PrepareRequeuesNone(db: Db, r: Id, now: Time, max: nat)
    ensures NoneRequeued(db.runs, PrepareTx(db, r, now, max).runs)
  {
    hide Promote;
    if r < |db.runs| {
      var run := db.runs[r];
      EndRequeuesNone(db, r, run.(state := Failed, delivery := Some(NotSent), retryAt := None), run.session, now);
    }
  }

  lemma MoveRequeuesNone(s: System, move: Move, max: nat)
    ensures NoneRequeued(s.db.runs, Do(s, move, max).db.runs)
  {
    if Ends(move) {
      if Top(s, false).Some? {
        EndTxRequeuesNone(s.db, Top(s, false).value, move, max);
      }
    } else if move.Prepare? {
      hide PrepareTx;
      PrepareRequeuesNone(s.db, move.run, move.now, max);
    }
  }

  /** A run that has been started is never queued again.  Only started runs propose writes, so the
      run of an action is not queued when its rejection is finalized, however late that is. */
  lemma {:induction false} StartedIsNeverQueued(s: System, moves: seq<Move>, max: nat, r: Id)
    requires r < |s.db.runs| && s.db.runs[r].state != Queued
    ensures var last := DoAll(s, moves, max).db.runs;
      r < |last| && last[r].state != Queued && !QueuedBehind(last, r)
  {
    if moves != [] {
      hide Do;
      StartedIsNeverQueued(s, moves[..|moves| - 1], max, r);
      MoveRequeuesNone(DoAll(s, moves[..|moves| - 1], max), moves[|moves| - 1], max);
    }
  }
}
