/** What the agent worker's moves amount to when nothing comes between them: an attempt of a run from
    its start to the delivery of its answer, and the ends it may come to instead. */
module RunRounds {
  import opened Domain
  import opened RunEffects
  import opened RunQueue
  import opened Wrappers

  /** The worker is at this run, and at no other. */
  predicate At(s: System, r: Id) {
    s.worker == Worker([r], None) && r < |s.db.runs|
  }

  /** An attempt of a run starts only between two runs, or inside the command that resolves it. */
  lemma AttemptStarts(s: System, r: Id, now: Time, max: nat)
    requires s.worker == Worker([], None) && r < |s.db.runs|
    ensures var next := Do(s, Prepare(r, now), max);
      && next.worker.stack == [] && (next.worker.next == Some(r) || next.worker.next == None)
      && AttemptPrepared(s.db, next.db, r, now, max, next.worker.next == Some(r))
  {
    hide PrepareTx, AttemptPrepared;
    PreparePrepares(s.db, r, now, max);
  }

  /** A run is processed when it runs or waits for its delivery; any other is let go. */
  lemma LoadTakes(s: System, r: Id, max: nat)
    requires s.worker == Worker([], Some(r)) && r < |s.db.runs|
    ensures Do(s, Load, max) ==
      System(s.db, Worker(if s.db.runs[r].state in {Running, DeliveryPending} then [r] else [], None))
  {
    assert [] + [r] == [r];
  }

  /** A command may start the run it resolves, and goes on when that run ends. */
  lemma NestedRunReturns(s: System, c: Id, r: Id, now: Time, max: nat)
    requires At(s, c) && s.db.runs[c].command && r < |s.db.runs| && !s.db.runs[r].command
    requires s.db.runs[r].state == Running && s.db.runs[r].startedAt.Some?
    ensures var nested := Do(Do(s, Prepare(r, now), max), Load, max);
      && nested == System(s.db, Worker([c, r], None))
      && At(Do(nested, Suspend, max), c) && At(Do(nested, ScheduleRetry(now), max), c)
  {
    var prepared := Do(s, Prepare(r, now), max);
    assert prepared == System(s.db, Worker([c], Some(r)));
    assert [c] + [r] == [c, r] && [c, r][..1] == [c];
  }

  /** An attempt that is claimed is loaded before anything else is started. */
  lemma LoadingComesFirst(s: System, r: Id, now: Time, max: nat)
    requires s.worker.next.Some?
    ensures Do(s, Prepare(r, now), max) == s && Do(s, Resume(r), max) == s && Do(s, FinalizeRejected(r), max) == s
  {
  }

  /** A command, once started, starts no further command, and an ordinary run starts no run. */
  lemma NothingElseStarts(s: System, c: Id, r: Id, now: Time, max: nat)
    requires At(s, c) && r < |s.db.runs|
    ensures !s.db.runs[c].command || s.db.runs[r].command ==> Do(s, Prepare(r, now), max) == s
  {
  }

  /** A run that is answered and delivered: it is COMPLETED with its answer kept, its session goes on
      to the oldest queued run, and the worker is free. */
  lemma RunIsProcessed(s: System, r: Id, now: Time, max: nat)
    requires At(s, r) && !s.db.runs[r].command && s.db.runs[r].state == Running
    ensures var answered := Do(s, Answer, max);
      var last := Do(answered, RecordDelivery(Delivery(true, None), now), max);
      && last.worker == Worker([], None) && |last.db.runs| == |s.db.runs|
      && HandsOver(answered.db.runs, last.db, s.db.runs[r].session)
      && last.db.runs[r] == s.db.runs[r].(hasAnswer := true, state := Completed, delivery := Some(Sent),
                                          retryAt := None)
  {
    hide Promote, HandsOver, RecordDeliveryTx;
    var answered := Do(s, Answer, max);
    AnswerMeans(s.db, r);
    assert At(answered, r) && answered.db.runs[r].state != Queued;
    DeliveryIsRecorded(answered.db, r, Delivery(true, None), now, max);
    EndsAt(answered, r, Delivery(true, None), now, max);
  }

  /** However an attempt ends, the worker is free again, and the tables are those of its one
      transaction. */
  lemma EndsAt(s: System, r: Id, d: Delivery, now: Time, max: nat)
    requires At(s, r) && !s.db.runs[r].command
    ensures Do(s, RecordDelivery(d, now), max) == System(RecordDeliveryTx(s.db, r, d, now, max), Worker([], None))
    ensures Do(s, Complete(now), max) == System(CompleteTx(s.db, r, now), Worker([], None))
    ensures Do(s, Suspend, max).worker == Worker([], None) && Do(s, ScheduleRetry(now), max).worker == Worker([], None)
    ensures Do(s, RecoverWrites, max).worker == s.worker && Do(s, Answer, max).worker == s.worker
  {
    hide RecordDeliveryTx, CompleteTx;
    assert [r][..0] == [];
  }

  /** A command is answered and delivered without a claim of its own. */
  lemma CommandIsProcessed(s: System, c: Id, d: Delivery, now: Time, max: nat)
    requires At(s, c) && s.db.runs[c].command
    ensures Do(s, Answer, max) == System(AnswerTx(s.db, c), s.worker)
    ensures var last := Do(s, RecordCommand(d, now), max);
      last.worker == Worker([], None) && CommandRecorded(s.db, last.db, c, d, now, max)
  {
    hide RecordCommandTx, CommandRecorded, AnswerTx;
    CommandIsRecorded(s.db, c, d, now, max);
    assert [c][..0] == [];
  }

  /** What a run cannot be loaded for fails it, before the worker is at it. */
  lemma FaultLetsGo(s: System, r: Id, releases: bool, max: nat)
    requires s.worker == Worker([], Some(r)) && r < |s.db.runs|
    ensures var next := Do(s, LoadFault(releases), max);
      && next.worker == Worker([], None) && |next.db.runs| == |s.db.runs|
      && (s.db.runs[r].state in {Running, DeliveryPending} ==> next.db.runs[r] == s.db.runs[r].(state := Failed))
  {
    hide LoadFaultTx;
    LoadFaultMeans(s.db, r, releases);
  }

  /** Answers to proposals and recoveries are for a worker that is free. */
  lemma FreeWorkerResumes(s: System, r: Id, now: Time, limit: Time, max: nat)
    requires r < |s.db.runs| && s.worker == Worker([], None)
    ensures Do(s, Resume(r), max) == System(ResumeTx(s.db, r), s.worker)
    ensures Do(s, FinalizeRejected(r), max) == System(FinalizeTx(s.db, r), s.worker)
    ensures Do(s, Recover(now, limit), max) == System(Db(RecoverRuns(s.db.runs, now, limit), s.db.active), s.worker)
    ensures Do(s, RetryPrompts(now), max) == System(Db(PromptRuns(s.db.runs, now, max), s.db.active), s.worker)
  {
    hide ResumeTx, FinalizeTx, RecoverRuns, PromptRuns;
  }

  /** While an ordinary run is processed they wait. */
  lemma BusyWorkerWaits(s: System, r: Id, now: Time, limit: Time, max: nat)
    requires At(s, r) && !s.db.runs[r].command
    ensures Do(s, Resume(r), max) == s && Do(s, FinalizeRejected(r), max) == s
    ensures Do(s, Recover(now, limit), max) == s && Do(s, RetryPrompts(now), max) == s
  {
    hide ResumeTx, FinalizeTx, RecoverRuns, PromptRuns;
  }

  /** The outcome of a prompt is recorded whatever the worker is at. */
  lemma PromptsAreRecorded(s: System, r: Id, d: Delivery, now: Time, max: nat)
    ensures Do(s, RecordPrompt(r, d, now), max) == System(RecordPromptTx(s.db, r, d, now, max), s.worker)
  {
    hide RecordPromptTx;
  }

  /** Messages come in whatever the worker is at. */
  lemma IntakeDoesNotWait(s: System, session: SessionId, command: bool, event: string, message: string, now: Time,
                          max: nat)
    ensures var next := Do(s, Intake(session, command, event, message, now), max);
      next.worker == s.worker && TakenIn(s.db, next.db, session, command, event, message, now)
  {
    hide IntakeTx, TakenIn;
    IntakeTakesIn(s.db, session, command, event, message, now);
  }

  /** A process that dies loses its place, and nothing in the tables. */
  lemma CrashForgets(s: System, max: nat)
    ensures Do(s, Crash, max) == System(s.db, Worker([], None))
  {
  }
}
