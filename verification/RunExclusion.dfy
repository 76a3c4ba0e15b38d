/** Mutual exclusion of a session's runs over whole runs of the system, and the exact condition for
    it: finalize_rejected_action does not look at the state of its run. */
module RunExclusion {
  import opened Domain
  import opened RunQueue
  import opened Wrappers

  /** finalize_rejected_action does not look at the run's state.  It keeps mutual exclusion exactly
      when its run was at work already, or no ordinary run of the session is. */
  lemma FinalizeKeepsExclusionIff(db: Db, r: Id)
    requires Exclusive(db.runs) && r < |db.runs| && !db.runs[r].command
    ensures Exclusive(FinalizeTx(db, r).runs) <==>
      Working(db.runs[r]) || NoneWorking(db.runs, db.runs[r].session)
  {
    var after := FinalizeTx(db, r).runs;
    if !Working(db.runs[r]) && !NoneWorking(db.runs, db.runs[r].session) {
      var k :| 0 <= k < |db.runs| && db.runs[k].session == db.runs[r].session && Working(db.runs[k]);
      assert Working(after[k]) && Working(after[r]) && after[k].session == after[r].session;
      assert k < r || r < k;
    }
  }

  /** What mutual exclusion itself rests on, without any claim on which run is active. */
  ghost predicate TablesOk(db: Db) {
    Exclusive(db.runs) && ActiveOk(db) && CommandsOk(db.runs)
  }

  lemma SetKeepsTables(db: Db, r: Id, run: Run)
    requires TablesOk(db) && r < |db.runs| && SameIdentity(db.runs[r], run)
    requires run.command ==> run.state != Queued && run.state != WaitingConfirmation
    requires run.state == Queued ==> db.runs[r].state == Queued
    requires Working(run) ==> Working(db.runs[r]) || NoneWorking(db.runs, run.session)
    ensures TablesOk(SetRun(db, r, run))
  {
  }

  lemma PromoteKeepsTables(db: Db, session: SessionId, now: Time)
    requires TablesOk(db) && NoneWorking(db.runs, session)
    ensures TablesOk(Promote(db, session, now))
  {
    var oldest := OldestQueued(db.runs, session);
    if oldest.Some? {
      var run := Promote(db, session, now).runs[oldest.value];
      SetKeepsTables(db, oldest.value, run);
    }
  }

  lemma ReleaseKeepsTables(db: Db, session: SessionId)
    requires TablesOk(db)
    ensures TablesOk(Release(db, session))
  {
  }

  lemma EndKeepsTables(db: Db, r: Id, run: Run, now: Time)
    requires TablesOk(db) && r < |db.runs| && Working(db.runs[r])
    requires SameIdentity(db.runs[r], run) && (run.state == Completed || run.state == Failed)
    ensures TablesOk(Promote(Release(SetRun(db, r, run), run.session), run.session, now))
  {
    var ended := SetRun(db, r, run);
    SetKeepsTables(db, r, run);
    assert NoneWorking(ended.runs, run.session) by {
      forall k | 0 <= k < |db.runs| && db.runs[k].session == run.session && k != r ensures !Working(db.runs[k]) {
        assert k < r || r < k;
      }
    }
    hide TablesOk, Promote;
    ReleaseKeepsTables(ended, run.session);
    PromoteKeepsTables(Release(ended, run.session), run.session, now);
  }

  lemma IntakeKeepsTables(db: Db, session: SessionId, command: bool, event: string, message: string, now: Time)
    requires TablesOk(db)
    ensures TablesOk(IntakeTx(db, session, command, event, message, now))
  {
    hide Seen, SessionBusy;
    var next := IntakeTx(db, session, command, event, message, now);
    if !Seen(db.runs, event, message) {
      IntakeFacts(db.runs, next.runs[|db.runs|]);
    }
  }

  lemma PrepareKeepsTables(db: Db, r: Id, now: Time, max: nat)
    requires TablesOk(db)
    ensures TablesOk(PrepareTx(db, r, now, max))
  {
    hide Promote, Release;
    if r < |db.runs| {
      var run := db.runs[r];
      if run.state == DeliveryPending && Due(run, now) && run.attempts >= max {
        var ended := run.(state := Failed, delivery := Some(NotSent), retryAt := None);
        if run.session in db.active && db.active[run.session] == r {
          EndKeepsTables(db, r, ended, now);
        } else {
          SetKeepsTables(db, r, ended);
        }
      } else if PrepareTx(db, r, now, max) != db {
        SetKeepsTables(db, r, PrepareTx(db, r, now, max).runs[r]);
      }
    }
  }

  lemma RecoverKeepsTables(db: Db, now: Time, limit: Time)
    requires TablesOk(db)
    ensures TablesOk(db.(runs := RecoverRuns(db.runs, now, limit)))
  {
  }

  lemma PromptsKeepTables(db: Db, r: Id, d: Delivery, now: Time, max: nat)
    requires TablesOk(db)
    ensures TablesOk(db.(runs := PromptRuns(db.runs, now, max))) && TablesOk(RecordPromptTx(db, r, d, now, max))
  {
    if r < |db.runs| {
      SetKeepsTables(db, r, RecordPromptTx(db, r, d, now, max).runs[r]);
    }
  }

  lemma EndTxKeepsTables(db: Db, r: Id, move: Move, max: nat)
    requires TablesOk(db) && r < |db.runs| && Working(db.runs[r]) && Ends(move)
    ensures TablesOk(EndTx(db, r, move, max))
  {
    hide TablesOk, Promote;
    var run := db.runs[r];
    match move
    case Suspend => SetKeepsTables(db, r, run.(state := WaitingConfirmation));
    case ScheduleRetry(now) =>
      SetKeepsTables(db, r, run.(state := DeliveryPending, retryAt := Some(now + RETRY_DELAY)));
    case RecordDelivery(d, now) =>
      var delivery := DeliveryStateOf(run, d, max);
      SetKeepsTables(db, r, run.(delivery := Some(delivery), state := DeliveryPending,
                                 retryAt := Some(now + RETRY_DELAY)));
      EndKeepsTables(db, r, run.(delivery := Some(delivery), retryAt := None,
                                 state := if delivery != Sent || Fatal(d.kind) then Failed else Completed), now);
    case Complete(now) => EndKeepsTables(db, r, run.(state := Failed, delivery := None), now);
  }

  lemma LoadFaultKeepsTables(db: Db, r: Id, releases: bool)
    requires TablesOk(db)
    ensures TablesOk(LoadFaultTx(db, r, releases))
  {
    if Loadable(db, r) {
      var failed := db.runs[r].(state := Failed);
      SetKeepsTables(db, r, failed);
      ReleaseKeepsTables(SetRun(db, r, failed), failed.session);
    }
  }

  /** The check that finalize_rejected_action does not make: its run is at work already, or no
      ordinary run of the session is. */
  ghost predicate FinalizesSafely(s: System, move: Move) {
    move.FinalizeRejected? && MayStart(s) && move.run < |s.db.runs| && !s.db.runs[move.run].command ==>
      Working(s.db.runs[move.run]) || NoneWorking(s.db.runs, s.db.runs[move.run].session)
  }

  lemma StartKeepsTables(db: Db, r: Id)
    requires TablesOk(db) && r < |db.runs|
    requires !db.runs[r].command ==> Working(db.runs[r]) || NoneWorking(db.runs, db.runs[r].session)
    ensures TablesOk(FinalizeTx(db, r))
  {
    SetKeepsTables(db, r, db.runs[r].(state := Running, hasAnswer := false));
  }

  lemma ResumeKeepsTables(db: Db, r: Id)
    requires TablesOk(db)
    ensures TablesOk(ResumeTx(db, r))
  {
    if r < |db.runs| && db.runs[r].state == WaitingConfirmation {
      StartKeepsTables(db, r);
    }
  }

  lemma SettlingMoveKeepsTables(s: System, move: Move, max: nat)
    requires TablesOk(s.db) && WorkerOk(s)
    requires move.Answer? || move.RecoverWrites? || move.RecordCommand? || move.Load? || move.Crash?
    ensures TablesOk(Do(s, move, max).db)
  {
    hide TablesOk, WorkerOk;
    var next := Do(s, move, max);
    if next.db != s.db {
      var r := TopSettles(s, move, max);
      SetKeepsTables(s.db, r, next.db.runs[r]);
    }
  }

  lemma MoveKeepsTables(s: System, move: Move, max: nat)
    requires TablesOk(s.db) && WorkerOk(s) && FinalizesSafely(s, move)
    ensures TablesOk(Do(s, move, max).db)
  {
    hide TablesOk, WorkerOk;
    if Ends(move) {
      if Top(s, false).Some? {
        TopIsWorking(s);
        EndTxKeepsTables(s.db, Top(s, false).value, move, max);
      }
    } else {
      match move
      case Intake(session, command, event, message, now) =>
        IntakeKeepsTables(s.db, session, command, event, message, now);
      case Prepare(r, now) => PrepareKeepsTables(s.db, r, now, max);
      case LoadFault(releases) => if s.worker.next.Some? { LoadFaultKeepsTables(s.db, s.worker.next.value, releases); }
      case Resume(r) => ResumeKeepsTables(s.db, r);
      case FinalizeRejected(r) => if MayStart(s) && r < |s.db.runs| { StartKeepsTables(s.db, r); }
      case Recover(now, limit) => RecoverKeepsTables(s.db, now, limit);
      case RetryPrompts(now) => PromptsKeepTables(s.db, 0, Delivery(true, None), now, max);
      case RecordPrompt(r, d, now) => PromptsKeepTables(s.db, r, d, now, max);
      case _ => SettlingMoveKeepsTables(s, move, max);
    }
  }

  lemma UnsafeFinalizeBreaks(s: System, move: Move, max: nat)
    requires Exclusive(s.db.runs) && !FinalizesSafely(s, move)
    ensures !Exclusive(Do(s, move, max).db.runs)
  {
    FinalizeKeepsExclusionIff(s.db, move.run);
  }

  /** No state of the run has two ordinary runs of one session at work. */
  ghost predicate AlwaysExclusive(s: System, moves: seq<Move>, max: nat) {
    && Exclusive(DoAll(s, moves, max).db.runs)
    && (moves == [] || AlwaysExclusive(s, moves[..|moves| - 1], max))
  }

  /** Every call of finalize_rejected_action in the run meets the check. */
  ghost predicate AllFinalizeSafely(s: System, moves: seq<Move>, max: nat) {
    moves == [] ||
    (AllFinalizeSafely(s, moves[..|moves| - 1], max)
      && FinalizesSafely(DoAll(s, moves[..|moves| - 1], max), moves[|moves| - 1]))
  }

  lemma StartTablesOk()
    ensures TablesOk(START.db) && WorkerOk(START)
  {
  }

  lemma {:induction false} SafeMovesKeepTables(moves: seq<Move>, max: nat)
    requires AllFinalizeSafely(START, moves, max)
    ensures TablesOk(DoAll(START, moves, max).db) && WorkerOk(DoAll(START, moves, max))
  {
    hide TablesOk, WorkerOk, Do, FinalizesSafely;
    if moves == [] {
      StartTablesOk();
    } else {
      var before := DoAll(START, moves[..|moves| - 1], max);
      SafeMovesKeepTables(moves[..|moves| - 1], max);
      MoveKeepsTables(before, moves[|moves| - 1], max);
      MoveKeepsWorker(before, moves[|moves| - 1], max);
    }
  }

  /** Over intake, processing, delivery, retry, exhaustion, stale recovery, suspension, resume,
      rejection and crashes: a session never has two ordinary runs at work, if and only if every
      finalize_rejected_action is given a run at work or a session without one. */
  lemma {:induction false} SessionMutualExclusion(moves: seq<Move>, max: nat)
    ensures AlwaysExclusive(START, moves, max) <==> AllFinalizeSafely(START, moves, max)
  {
    hide FinalizesSafely, WorkerOk, Do;
    if AllFinalizeSafely(START, moves, max) {
      SafeMovesKeepTables(moves, max);
    }
    if moves != [] {
      SessionMutualExclusion(moves[..|moves| - 1], max);
      var before := DoAll(START, moves[..|moves| - 1], max);
      if Exclusive(before.db.runs) && !FinalizesSafely(before, moves[|moves| - 1]) {
        UnsafeFinalizeBreaks(before, moves[|moves| - 1], max);
      }
    }
  }

  // ---- A run that breaks it -----------------------------------------------------------------

  lemma {:induction false} DoAllConcat(s: System, first: seq<Move>, second: seq<Move>, max: nat)
    ensures DoAll(s, first + second, max) == DoAll(DoAll(s, first, max), second, max)
    decreases |second|
  {
    if second == [] {
      assert first + second == first;
    } else {
      assert (first + second)[..|first + second| - 1] == first + second[..|second| - 1];
      DoAllConcat(s, first, second[..|second| - 1], max);
    }
  }

  lemma DoTwo(s: System, a: Move, b: Move, max: nat)
    ensures DoAll(s, [a, b], max) == Do(Do(s, a, max), b, max)
  {
    hide Do;
    assert [a, b][..1] == [a] && [a][..0] == [];
    assert DoAll(s, [a], max) == Do(s, a, max);
  }

  lemma DoFour(s: System, a: Move, b: Move, c: Move, d: Move, max: nat)
    ensures DoAll(s, [a, b, c, d], max) == Do(Do(Do(Do(s, a, max), b, max), c, max), d, max)
  {
    hide Do;
    assert [a, b, c, d] == [a, b] + [c, d];
    DoAllConcat(s, [a, b], [c, d], max);
    DoTwo(s, a, b, max);
    DoTwo(DoAll(s, [a, b], max), c, d, max);
  }

  function NewRun(command: bool, key: string): Run {
    Run("s", command, key, key, Running, 1, 0, Some(0), None, false, None)
  }

  function Idle(runs: seq<Run>, active: map<SessionId, Id>): System {
    System(Db(runs, active), Worker([], None))
  }

  /** A user's message whose run proposes a write and waits. */
  function Ask(r: Id, key: string): seq<Move> {
    [Intake("s", false, key, key, 0), Prepare(r, 0), Load, Suspend]
  }

  /** A rejection command: its run finalizes the rejection of run `r`. */
  function Reject(command: Id, key: string, r: Id): seq<Move> {
    [Intake("s", true, key, key, 0), Prepare(command, 0), Load, FinalizeRejected(r)]
  }

  lemma AskWaits(runs: seq<Run>, active: map<SessionId, Id>, key: string)
    requires !Seen(runs, key, key) && !SessionBusy(runs, "s")
    ensures DoAll(Idle(runs, active), Ask(|runs|, key), 3)
      == Idle(runs + [NewRun(false, key).(state := WaitingConfirmation)], active["s" := |runs|])
  {
    hide Seen, SessionBusy;
    var r, run := |runs|, NewRun(false, key);
    var db := Db(runs + [run], active["s" := r]);
    assert Do(Idle(runs, active), Intake("s", false, key, key, 0), 3) == System(db, Worker([], None));
    assert Do(System(db, Worker([], None)), Prepare(r, 0), 3) == System(db, Worker([], Some(r)));
    assert Do(System(db, Worker([], Some(r))), Load, 3) == System(db, Worker([r], None));
    assert Do(System(db, Worker([r], None)), Suspend, 3)
        == Idle(runs + [run.(state := WaitingConfirmation)], active["s" := r]);
    hide Do;
    DoFour(Idle(runs, active), Intake("s", false, key, key, 0), Prepare(r, 0), Load, Suspend, 3);
  }

  lemma RejectRestarts(runs: seq<Run>, active: map<SessionId, Id>, key: string, r: Id)
    requires !Seen(runs, key, key) && r < |runs|
    ensures DoAll(Idle(runs, active), Reject(|runs|, key, r), 3)
      == System(Db(runs[r := runs[r].(state := Running, hasAnswer := false)] + [NewRun(true, key)], active),
                Worker([|runs|], None))
  {
    hide Seen, SessionBusy;
    var c, command := |runs|, NewRun(true, key);
    var db := Db(runs + [command], active);
    assert Do(Idle(runs, active), Intake("s", true, key, key, 0), 3) == System(db, Worker([], None));
    assert Do(System(db, Worker([], None)), Prepare(c, 0), 3) == System(db, Worker([], Some(c)));
    assert Do(System(db, Worker([], Some(c))), Load, 3) == System(db, Worker([c], None));
    assert Do(System(db, Worker([c], None)), FinalizeRejected(r), 3)
        == System(Db(runs[r := runs[r].(state := Running, hasAnswer := false)] + [command], active), Worker([c], None));
    hide Do;
    DoFour(Idle(runs, active), Intake("s", true, key, key, 0), Prepare(c, 0), Load, FinalizeRejected(r), 3);
  }

  const DELIVERED := Delivery(true, None)

  /** The command processes the run it restarted, to its end. */
  lemma RestartedRunEnds(run: Run, command: Run)
    requires run == NewRun(false, "a") && command == NewRun(true, "b")
    ensures DoAll(System(Db([run, command], map["s" := 0]), Worker([1], None)),
                  [Prepare(0, 0), Load, Answer, RecordDelivery(DELIVERED, 0)], 3)
      == System(Db([run.(state := Completed, hasAnswer := true, delivery := Some(Sent)), command], map[]),
                Worker([1], None))
  {
    var db, active := Db([run, command], map["s" := 0]), map["s" := 0];
    var answered := run.(state := DeliveryPending, hasAnswer := true);
    assert Do(System(db, Worker([1], None)), Prepare(0, 0), 3) == System(db, Worker([1], Some(0)));
    assert Do(System(db, Worker([1], Some(0))), Load, 3) == System(db, Worker([1, 0], None));
    assert Do(System(db, Worker([1, 0], None)), Answer, 3)
        == System(Db([answered, command], active), Worker([1, 0], None));
    DeliveredRunEnds(answered, command);
    hide Do;
    DoFour(System(db, Worker([1], None)), Prepare(0, 0), Load, Answer, RecordDelivery(DELIVERED, 0), 3);
  }

  lemma DeliveredRunEnds(answered: Run, command: Run)
    requires answered == NewRun(false, "a").(state := DeliveryPending, hasAnswer := true)
    requires command == NewRun(true, "b")
    ensures Do(System(Db([answered, command], map["s" := 0]), Worker([1, 0], None)), RecordDelivery(DELIVERED, 0), 3)
      == System(Db([answered.(state := Completed, delivery := Some(Sent)), command], map[]), Worker([1], None))
  {
    var ended := [answered.(state := Completed, delivery := Some(Sent)), command];
    assert (map["s" := 0] - {"s"}) == map[];
    assert OldestQueued(ended, "s") == None;
    assert [1, 0][..1] == [1];
  }

  lemma CommandEnds(run: Run, command: Run)
    requires command == NewRun(true, "b")
    ensures DoAll(System(Db([run, command], map[]), Worker([1], None)), [Answer, RecordCommand(DELIVERED, 0)], 3)
      == Idle([run, command.(state := Completed, hasAnswer := true, delivery := Some(Sent))], map[])
  {
    var s := System(Db([run, command], map[]), Worker([1], None));
    DoTwo(s, Answer, RecordCommand(DELIVERED, 0), 3);
    var answered := command.(state := DeliveryPending, hasAnswer := true);
    assert Do(s, Answer, 3) == System(Db([run, answered], map[]), Worker([1], None));
  }

  function FinishedRuns(): seq<Run> {
    [NewRun(false, "a").(state := Completed, hasAnswer := true, delivery := Some(Sent)),
     NewRun(true, "b").(state := Completed, hasAnswer := true, delivery := Some(Sent))]
  }

  function Ending(): seq<Move> {
    [Prepare(0, 0), Load, Answer, RecordDelivery(DELIVERED, 0)] + [Answer, RecordCommand(DELIVERED, 0)]
  }

  /** The first rejection goes well: both runs end. */
  lemma FirstRejection()
    ensures DoAll(START, Ask(0, "a") + Reject(1, "b", 0) + Ending(), 3) == Idle(FinishedRuns(), map[])
  {
    hide DoAll, Do;
    var run, command := NewRun(false, "a"), NewRun(true, "b");
    var waiting := run.(state := WaitingConfirmation);
    DoAllConcat(START, Ask(0, "a") + Reject(1, "b", 0), Ending(), 3);
    DoAllConcat(START, Ask(0, "a"), Reject(1, "b", 0), 3);
    AskWaits([], map[], "a");
    assert [] + [waiting] == [waiting] && START == Idle([], map[]);
    RejectRestarts([waiting], map["s" := 0], "b", 0);
    assert [waiting][0 := run] == [run] && [run] + [command] == [run, command];
    var s := System(Db([run, command], map["s" := 0]), Worker([1], None));
    DoAllConcat(s, [Prepare(0, 0), Load, Answer, RecordDelivery(DELIVERED, 0)],
                [Answer, RecordCommand(DELIVERED, 0)], 3);
    RestartedRunEnds(run, command);
    CommandEnds(FinishedRuns()[0], command);
  }

  /** The second does not: the finished run starts again beside a waiting one. */
  lemma SecondRejection()
    ensures !Exclusive(DoAll(Idle(FinishedRuns(), map[]), Ask(2, "c") + Reject(3, "d", 0), 3).db.runs)
  {
    hide DoAll, Do;
    var runs, waiting := FinishedRuns(), NewRun(false, "c").(state := WaitingConfirmation);
    DoAllConcat(Idle(runs, map[]), Ask(2, "c"), Reject(3, "d", 0), 3);
    AskWaits(runs, map[], "c");
    var asked := runs + [waiting];
    RejectRestarts(asked, map["s" := 2], "d", 0);
    var after := asked[0 := asked[0].(state := Running, hasAnswer := false)] + [NewRun(true, "d")];
    assert Working(after[0]) && Working(after[2]) && after[0].session == after[2].session;
  }

  /** Rejecting the same action a second time, after its run has been rejected, restarted and
      finished: the finished run starts to run beside the one that waits by then. */
  lemma RepeatedRejectionBreaksExclusion() returns (moves: seq<Move>)
    ensures !Exclusive(DoAll(START, moves, 3).db.runs)
  {
    hide DoAll, Exclusive;
    var first := Ask(0, "a") + Reject(1, "b", 0) + Ending();
    moves := first + (Ask(2, "c") + Reject(3, "d", 0));
    DoAllConcat(START, first, Ask(2, "c") + Reject(3, "d", 0), 3);
    FirstRejection();
    SecondRejection();
  }
}
