/** What each transaction of the run queue does to its run and to the others, in the states and times
    themselves. */
module RunEffects {
  import opened Domain
  import opened RunQueue
  import opened Wrappers

  predicate QueuedIn(runs: seq<Run>, session: SessionId, q: Id) {
    q < |runs| && runs[q].session == session && runs[q].state == Queued
  }

  /** The session's claim passes to its oldest queued run, which starts; without one it lapses. */
  ghost predicate HandsOver(before: seq<Run>, next: Db, session: SessionId) {
    if exists q: Id :: QueuedIn(before, session, q)
    then session in next.active && StartsOldest(before, next.runs, session, next.active[session])
    else session !in next.active
  }

  ghost predicate StartsOldest(before: seq<Run>, after: seq<Run>, session: SessionId, r: Id) {
    && QueuedIn(before, session, r) && (forall q: Id | QueuedIn(before, session, q) :: r <= q)
    && |after| == |before| && SameIdentity(before[r], after[r])
    && after[r].state == Running && after[r].attempts == before[r].attempts + 1
    && after[r].startedAt.Some? && after[r].retryAt == None
  }

  lemma PromoteStartsOldest(db: Db, session: SessionId, now: Time)
    ensures var next := Promote(db, session, now);
      if exists q: Id :: QueuedIn(db.runs, session, q)
      then
        && session in next.active && StartsOldest(db.runs, next.runs, session, next.active[session])
        && forall k: Id | k < |db.runs| && k != next.active[session] :: next.runs[k] == db.runs[k]
      else next == db
  {
    var oldest := OldestQueued(db.runs, session);
    if oldest.Some? {
      assert QueuedIn(db.runs, session, oldest.value);
    }
  }

  lemma EndHandsOver(db: Db, r: Id, run: Run, now: Time)
    requires r < |db.runs| && SameIdentity(db.runs[r], run) && db.runs[r].state != Queued && run.state != Queued
    ensures var next := Promote(Release(SetRun(db, r, run), run.session), run.session, now);
      HandsOver(db.runs, next, run.session) && next.runs[r] == run
  {
    var released := Release(SetRun(db, r, run), run.session);
    hide Promote;
    PromoteStartsOldest(released, run.session, now);
    forall q: Id ensures QueuedIn(released.runs, run.session, q) <==> QueuedIn(db.runs, run.session, q) {
    }
  }

  /** No other run and no session claim changes. */
  ghost predicate OnlyRun(db: Db, next: Db, r: Id) {
    && |next.runs| == |db.runs| && next.active == db.active
    && forall k: Id | k < |db.runs| && k != r :: next.runs[k] == db.runs[k]
  }

  // ---- Intake -------------------------------------------------------------------------------

  ghost predicate Known(runs: seq<Run>, event: string, message: string) {
    exists i :: 0 <= i < |runs| && (runs[i].event == event || runs[i].message == message)
  }

  ghost predicate Occupied(runs: seq<Run>, session: SessionId) {
    exists i :: 0 <= i < |runs| && runs[i].session == session
      && runs[i].state in {Running, DeliveryPending, WaitingConfirmation, Queued}
  }

  /** A known event or message changes nothing.  A command starts at once and takes no claim; an
      ordinary message starts and takes the claim of a free session, and waits in a busy one. */
  ghost predicate TakenIn(before: Db, after: Db, session: SessionId, command: bool, event: string, message: string,
                          now: Time)
  {
    if Known(before.runs, event, message) then after == before
    else
      && |after.runs| == |before.runs| + 1 && before.runs <= after.runs
      && after.active == (if !command && !Occupied(before.runs, session) then before.active[session := |before.runs|]
                          else before.active)
      && var run := after.runs[|before.runs|];
         && run.session == session && run.command == command && run.event == event && run.message == message
         && run.createdAt == now && !run.hasAnswer && run.delivery == None && run.retryAt == None
         && if command || !Occupied(before.runs, session)
            then run.state == Running && run.attempts == 1 && run.startedAt == Some(now)
            else run.state == Queued && run.attempts == 0 && run.startedAt == None
  }

  lemma SeenIsKnown(runs: seq<Run>, event: string, message: string, session: SessionId)
    ensures Seen(runs, event, message) <==> Known(runs, event, message)
    ensures SessionBusy(runs, session) <==> Occupied(runs, session)
  {
    if Known(runs, event, message) {
      var i :| 0 <= i < |runs| && (runs[i].event == event || runs[i].message == message);
      assert runs[i] in runs;
    }
    if Occupied(runs, session) {
      var i :| 0 <= i < |runs| && runs[i].session == session
        && runs[i].state in {Running, DeliveryPending, WaitingConfirmation, Queued};
      assert runs[i] in runs;
    }
  }

  lemma IntakeTakesIn(db: Db, session: SessionId, command: bool, event: string, message: string, now: Time)
    ensures TakenIn(db, IntakeTx(db, session, command, event, message, now), session, command, event, message, now)
  {
    SeenIsKnown(db.runs, event, message, session);
    hide Seen, SessionBusy, Known, Occupied;
  }

  // ---- Attempts -----------------------------------------------------------------------------

  /** An attempt of a run: not before its retry time; not beyond the limit, where the run fails and
      hands its own claim to the oldest queued run; otherwise one more attempt is counted. */
  ghost predicate AttemptPrepared(before: Db, after: Db, r: Id, now: Time, max: nat, go: bool)
    requires r < |before.runs|
  {
    && |after.runs| == |before.runs|
    && var run := before.runs[r];
       match run.state
       case DeliveryPending =>
         if run.retryAt.Some? && now < run.retryAt.value then !go && after == before
         else if max <= run.attempts then
           && !go && after.runs[r] == run.(state := Failed, delivery := Some(NotSent), retryAt := None)
           && if run.session in before.active && before.active[run.session] == r
              then HandsOver(before.runs, after, run.session) else OnlyRun(before, after, r)
         else
           && go && OnlyRun(before, after, r)
           && after.runs[r] == run.(attempts := run.attempts + 1, retryAt := None)
       case Running =>
         && go && OnlyRun(before, after, r)
         && after.runs[r] == if run.startedAt == None
                             then run.(attempts := run.attempts + 1, retryAt := None, startedAt := Some(now)) else run
       case _ => go && after == before
  }

  lemma PreparePrepares(db: Db, r: Id, now: Time, max: nat)
    requires r < |db.runs|
    ensures AttemptPrepared(db, PrepareTx(db, r, now, max), r, now, max, Prepared(db, r, now, max))
  {
    hide Promote, HandsOver;
    var run := db.runs[r];
    if run.state == DeliveryPending && Due(run, now) && run.attempts >= max {
      EndHandsOver(db, r, run.(state := Failed, delivery := Some(NotSent), retryAt := None), now);
      PromoteKeepsIdentity(Release(SetRun(db, r, run.(state := Failed, delivery := Some(NotSent), retryAt := None)),
                                   run.session), run.session, now);
    }
  }

  /** A run whose context cannot be loaded fails; some faults also give up its claim. */
  lemma LoadFaultMeans(db: Db, r: Id, releases: bool)
    requires r < |db.runs|
    ensures var next, run := LoadFaultTx(db, r, releases), db.runs[r];
      && |next.runs| == |db.runs| && (forall k: Id | k < |db.runs| && k != r :: next.runs[k] == db.runs[k])
      && if run.state == Running || run.state == DeliveryPending
         then
           && next.runs[r] == run.(state := Failed)
           && next.active == if releases && run.session in db.active && db.active[run.session] == r
                             then db.active - {run.session} else db.active
         else next == db
  {
  }

  // ---- Answers and deliveries ---------------------------------------------------------------

  /** The first answer is kept, and waits for its delivery. */
  lemma AnswerMeans(db: Db, r: Id)
    requires r < |db.runs|
    ensures var next, run := AnswerTx(db, r), db.runs[r];
      && OnlyRun(db, next, r)
      && next.runs[r] == if run.hasAnswer then run else run.(hasAnswer := true, state := DeliveryPending)
  {
  }

  /** What a delivery makes of an ordinary run: delivered it is COMPLETED, a retryable failure waits
      five minutes while attempts remain, any other failure ends it; an ended run hands over. */
  ghost predicate DeliveryRecorded(before: Db, after: Db, r: Id, d: Delivery, now: Time, max: nat)
    requires r < |before.runs|
  {
    && |after.runs| == |before.runs|
    && var run := before.runs[r];
       if d.kind == Some(Retryable) && run.attempts < max then
         && OnlyRun(before, after, r)
         && after.runs[r] == run.(state := DeliveryPending, delivery := Some(RetryWait), retryAt := Some(now + 300))
       else
         && HandsOver(before.runs, after, run.session)
         && match d.kind
            case None =>
              after.runs[r] == if d.success then run.(state := Completed, delivery := Some(Sent), retryAt := None)
                               else run.(state := Failed, delivery := Some(NotSent), retryAt := None)
            case Some(Ambiguous) => after.runs[r] == run.(state := Failed, delivery := Some(Unclear), retryAt := None)
            case Some(Retryable) =>
              after.runs[r] == run.(state := Failed, delivery := Some(NotSent), retryAt := None)
            case Some(_) =>
              after.runs[r] == run.(state := Failed, delivery := Some(if d.success then Sent else NotSent),
                                    retryAt := None)
  }

  lemma DeliveryIsRecorded(db: Db, r: Id, d: Delivery, now: Time, max: nat)
    requires r < |db.runs| && db.runs[r].state != Queued
    ensures DeliveryRecorded(db, RecordDeliveryTx(db, r, d, now, max), r, d, now, max)
  {
    hide Promote, HandsOver, Release;
    var run := db.runs[r];
    var delivery := DeliveryStateOf(run, d, max);
    var ended := run.(delivery := Some(delivery), retryAt := None,
                      state := if delivery != Sent || Fatal(d.kind) then Failed else Completed);
    EndHandsOver(db, r, ended, now);
    PromoteKeepsIdentity(Release(SetRun(db, r, ended), run.session), run.session, now);
    ReleaseKeepsRuns(SetRun(db, r, ended), run.session);
  }

  /** The state a delivery leaves tells what happened. */
  ghost predicate DeliveryOutcome(before: Db, after: Db, r: Id, d: Delivery, now: Time, max: nat)
    requires r < |before.runs|
  {
    && r < |after.runs|
    && match after.runs[r].state
       case DeliveryPending =>
         && d.kind == Some(Retryable) && after.runs[r].attempts == before.runs[r].attempts < max
         && after.active == before.active
         && (forall later :: Due(after.runs[r], later) <==> now + RETRY_DELAY <= later)
       case Completed => d.success && d.kind == None && HandsOver(before.runs, after, before.runs[r].session)
       case Failed =>
         && (d.kind == Some(Retryable) ==> max <= before.runs[r].attempts)
         && !(d.success && d.kind == None) && HandsOver(before.runs, after, before.runs[r].session)
       case _ => false
  }

  lemma RecordedOutcome(before: Db, after: Db, r: Id, d: Delivery, now: Time, max: nat)
    requires r < |before.runs| && DeliveryRecorded(before, after, r, d, now, max)
    ensures DeliveryOutcome(before, after, r, d, now, max)
  {
    hide HandsOver;
  }

  lemma ReleaseKeepsRuns(db: Db, session: SessionId)
    ensures Release(db, session).runs == db.runs
  {
  }

  /** A command's delivery: like a run's, but it has its answer and owns no claim. */
  ghost predicate CommandRecorded(before: Db, after: Db, r: Id, d: Delivery, now: Time, max: nat)
    requires r < |before.runs|
  {
    && OnlyRun(before, after, r)
    && var run := before.runs[r].(hasAnswer := true);
       match d.kind
       case Some(Retryable) =>
         after.runs[r] == if run.attempts < max
                          then run.(state := DeliveryPending, delivery := Some(RetryWait), retryAt := Some(now + 300))
                          else run.(state := Failed, delivery := Some(RetryWait), retryAt := None)
       case Some(Ambiguous) => after.runs[r] == run.(state := Failed, delivery := Some(Unclear), retryAt := None)
       case Some(_) =>
         after.runs[r] == run.(state := Failed, delivery := Some(if d.success then Sent else NotSent), retryAt := None)
       case None =>
         after.runs[r] == run.(state := Completed, retryAt := None,
                               delivery := Some(if d.success then Sent else NotSent))
  }

  lemma CommandIsRecorded(db: Db, r: Id, d: Delivery, now: Time, max: nat)
    requires r < |db.runs|
    ensures CommandRecorded(db, RecordCommandTx(db, r, d, now, max), r, d, now, max)
  {
  }

  /** A run that ends without an answer fails, and its session goes on. */
  lemma CompleteMeans(db: Db, r: Id, now: Time)
    requires r < |db.runs| && db.runs[r].state != Queued
    ensures var next := CompleteTx(db, r, now);
      && |next.runs| == |db.runs| && next.runs[r] == db.runs[r].(state := Failed, delivery := None)
      && HandsOver(db.runs, next, db.runs[r].session)
  {
    hide Promote, HandsOver;
    EndHandsOver(db, r, db.runs[r].(state := Failed, delivery := None), now);
    PromoteKeepsIdentity(Release(SetRun(db, r, db.runs[r].(state := Failed, delivery := None)), db.runs[r].session),
                         db.runs[r].session, now);
  }

  // ---- Confirmations ------------------------------------------------------------------------

  /** A confirmation wakes a waiting run only; a rejection sets any run going. */
  lemma ResumeMeans(db: Db, r: Id)
    requires r < |db.runs|
    ensures OnlyRun(db, ResumeTx(db, r), r) && OnlyRun(db, FinalizeTx(db, r), r)
    ensures ResumeTx(db, r).runs[r] ==
      if db.runs[r].state == WaitingConfirmation then db.runs[r].(state := Running, hasAnswer := false) else db.runs[r]
    ensures FinalizeTx(db, r).runs[r] == db.runs[r].(state := Running, hasAnswer := false)
  {
  }

  /** A prompt is sent again to a waiting run while it is undelivered, due and below the limit. */
  lemma PromptsMean(runs: seq<Run>, now: Time, max: nat, i: nat)
    requires i < |runs|
    ensures var run := runs[i];
      PromptRuns(runs, now, max)[i] ==
        if run.state == WaitingConfirmation && run.attempts < max
           && (run.retryAt == None || run.retryAt.value <= now)
           && (run.delivery == None || run.delivery == Some(NotSent) || run.delivery == Some(RetryWait))
        then run.(attempts := run.attempts + 1, retryAt := None) else run
  {
  }

  lemma PromptIsRecorded(db: Db, r: Id, d: Delivery, now: Time, max: nat)
    requires r < |db.runs|
    ensures var next, run := RecordPromptTx(db, r, d, now, max), db.runs[r];
      && OnlyRun(db, next, r)
      && if d.success then next.runs[r] == run.(delivery := Some(Sent), retryAt := None)
         else
           match d.kind
           case Some(Retryable) =>
             next.runs[r] == if run.attempts < max then run.(delivery := Some(RetryWait), retryAt := Some(now + 300))
                             else run.(delivery := Some(NotSent), retryAt := None)
           case Some(Ambiguous) => next.runs[r] == run.(delivery := Some(Unclear), retryAt := None)
           case Some(_) => next.runs[r] == run.(delivery := Some(Undeliverable), retryAt := None)
           case None => next.runs[r] == run.(delivery := Some(NotSent), retryAt := None)
  {
  }

  // ---- Recovery and the worker's own steps --------------------------------------------------

  /** Recovery fails the runs that have been running for too long, and only those. */
  lemma RecoverMeans(runs: seq<Run>, now: Time, limit: Time, i: nat)
    requires i < |runs|
    ensures var run := runs[i]; var since := match run.startedAt case Some(t) => t case None => run.createdAt;
      RecoverRuns(runs, now, limit)[i] ==
        if run.state == Running && now - since > limit then run.(state := Failed, retryAt := None) else run
  {
  }

  /** The steps of the run being processed that need no answer: it waits for its user, is put off
      after a retryable LLM failure, or keeps the answer of a recovered batch. */
  lemma TopMoves(s: System, now: Time, max: nat)
    requires Top(s, false).Some?
    ensures var r := Top(s, false).value; var run := s.db.runs[r];
      && OnlyRun(s.db, Do(s, Suspend, max).db, r) && OnlyRun(s.db, Do(s, ScheduleRetry(now), max).db, r)
      && OnlyRun(s.db, Do(s, RecoverWrites, max).db, r)
      && Do(s, Suspend, max).db.runs[r] == run.(state := WaitingConfirmation)
      && Do(s, ScheduleRetry(now), max).db.runs[r] == run.(state := DeliveryPending, retryAt := Some(now + 300))
      && Do(s, RecoverWrites, max).db.runs[r]
         == run.(hasAnswer := true, state := DeliveryPending, retryAt := None, delivery := None)
  {
  }
}
