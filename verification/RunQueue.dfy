/** Agent runs and the session queue: intake, the one agent worker, delivery, suspension, recovery.

    A run's id is its position, so ids are ordered by arrival.  A session with no entry in `active`
    has no active_run_id. */
module RunQueue {
  import opened Domain
  import opened Wrappers

  type Id = nat
  type Time = int
  type SessionId = string

  const RETRY_DELAY: Time := 300

  datatype RunState = Running | Queued | DeliveryPending | WaitingConfirmation | Completed | Failed

  datatype DeliveryState = Sent | NotSent | RetryWait | Unclear | Undeliverable

  /** `command` says that the message routes as a confirmation command. */
  datatype Run = Run(
    session: SessionId, command: bool, event: string, message: string, state: RunState, attempts: nat,
    createdAt: Time, startedAt: Option<Time>, retryAt: Option<Time>, hasAnswer: bool,
    delivery: Option<DeliveryState>)

  datatype Db = Db(runs: seq<Run>, active: map<SessionId, Id>)

  const EMPTY := Db([], map[])

  /** What the provider said of one delivery. */
  datatype Delivery = Delivery(success: bool, kind: Option<ProviderErrorKind>)

  predicate Busy(state: RunState) {
    state == Running || state == DeliveryPending || state == WaitingConfirmation
  }

  function SetRun(db: Db, r: Id, run: Run): Db {
    if r < |db.runs| then db.(runs := db.runs[r := run]) else db
  }

  function Release(db: Db, session: SessionId): Db {
    db.(active := db.active - {session})
  }

  // ---- Transactions -------------------------------------------------------------------------

  predicate Seen(runs: seq<Run>, event: string, message: string) {
    exists run :: run in runs && (run.event == event || run.message == message)
  }

  predicate SessionBusy(runs: seq<Run>, session: SessionId) {
    exists run :: run in runs && run.session == session && (Busy(run.state) || run.state == Queued)
  }

  /** The intake transaction of _persist_event. */
  function IntakeTx(db: Db, session: SessionId, command: bool, event: string, message: string, now: Time): Db {
    if Seen(db.runs, event, message) then db
    else
      var busy := SessionBusy(db.runs, session);
      var starts := command || !busy;
      var run := Run(session, command, event, message, if starts then Running else Queued, if starts then 1 else 0,
                     now, if starts then Some(now) else None, None, false, None);
      Db(db.runs + [run], if !busy && !command then db.active[session := |db.runs|] else db.active)
  }

  function OldestQueued(runs: seq<Run>, session: SessionId): (r: Option<Id>)
    ensures r.Some? ==> r.value < |runs| && runs[r.value].session == session && runs[r.value].state == Queued
    ensures forall i | 0 <= i < |runs| && runs[i].session == session && runs[i].state == Queued ::
      r.Some? && r.value <= i
  {
    if runs == [] then None
    else
      var last := runs[|runs| - 1];
      match OldestQueued(runs[..|runs| - 1], session)
      case Some(r) => Some(r)
      case None => if last.session == session && last.state == Queued then Some(|runs| - 1) else None
  }

  /** promote_next_run, inside the transaction of its caller. */
  function Promote(db: Db, session: SessionId, now: Time): Db {
    match OldestQueued(db.runs, session)
    case None => db
    case Some(r) =>
      var run := db.runs[r];
      SetRun(db, r, run.(state := Running, startedAt := Some(now), attempts := run.attempts + 1, retryAt := None))
        .(active := db.active[session := r])
  }

  predicate Due(run: Run, now: Time) {
    run.retryAt.Some? ==> run.retryAt.value <= now
  }

  /** _prepare_run_attempt; the run may be in any state. */
  function PrepareTx(db: Db, r: Id, now: Time, max: nat): Db {
    if r >= |db.runs| then db
    else
      var run := db.runs[r];
      if run.state == DeliveryPending then
        if !Due(run, now) then db
        else if run.attempts >= max then
          var failed := SetRun(db, r, run.(state := Failed, delivery := Some(NotSent), retryAt := None));
          if run.session in db.active && db.active[run.session] == r
          then Promote(Release(failed, run.session), run.session, now) else failed
        else SetRun(db, r, run.(attempts := run.attempts + 1, retryAt := None))
      else if run.state == Running && run.startedAt == None then
        SetRun(db, r, run.(startedAt := Some(now), attempts := run.attempts + 1, retryAt := None))
      else db
  }

  predicate Prepared(db: Db, r: Id, now: Time, max: nat) {
    r < |db.runs| && !(db.runs[r].state == DeliveryPending && (!Due(db.runs[r], now) || db.runs[r].attempts >= max))
  }

  predicate Loadable(db: Db, r: Id) {
    r < |db.runs| && (db.runs[r].state == Running || db.runs[r].state == DeliveryPending)
  }

  /** load_context on unusable data: the run fails, some faults also give up its session claim. */
  function LoadFaultTx(db: Db, r: Id, releases: bool): Db {
    if !Loadable(db, r) then db
    else
      var failed := SetRun(db, r, db.runs[r].(state := Failed));
      var session := db.runs[r].session;
      if releases && session in db.active && db.active[session] == r then Release(failed, session) else failed
  }

  function StateTx(db: Db, r: Id, state: RunState): Db {
    if r < |db.runs| then SetRun(db, r, db.runs[r].(state := state)) else db
  }

  /** _schedule_run_retry */
  function ScheduleRetryTx(db: Db, r: Id, now: Time): Db {
    if r < |db.runs| then SetRun(db, r, db.runs[r].(state := DeliveryPending, retryAt := Some(now + RETRY_DELAY)))
    else db
  }

  /** persist_final_message */
  function AnswerTx(db: Db, r: Id): Db {
    if r >= |db.runs| || db.runs[r].hasAnswer then db
    else SetRun(db, r, db.runs[r].(hasAnswer := true, state := DeliveryPending))
  }

  function DeliveryStateOf(run: Run, d: Delivery, max: nat): DeliveryState {
    match d.kind
    case Some(Retryable) => if run.attempts < max then RetryWait else NotSent
    case Some(Ambiguous) => Unclear
    case _ => if d.success then Sent else NotSent
  }

  predicate Fatal(kind: Option<ProviderErrorKind>) {
    kind == Some(Permanent) || kind == Some(Definite) || kind == Some(Ambiguous)
  }

  /** record_delivery */
  function RecordDeliveryTx(db: Db, r: Id, d: Delivery, now: Time, max: nat): Db {
    if r >= |db.runs| then db
    else
      var run := db.runs[r];
      var delivery := DeliveryStateOf(run, d, max);
      if d.kind == Some(Retryable) && run.attempts < max then
        SetRun(db, r, run.(delivery := Some(delivery), state := DeliveryPending, retryAt := Some(now + RETRY_DELAY)))
      else
        var state := if delivery != Sent || Fatal(d.kind) then Failed else Completed;
        Promote(Release(SetRun(db, r, run.(delivery := Some(delivery), state := state, retryAt := None)), run.session),
                run.session, now)
  }

  /** record_command_delivery: the session claim is not touched. */
  function RecordCommandTx(db: Db, r: Id, d: Delivery, now: Time, max: nat): Db {
    if r >= |db.runs| then db
    else
      var run := db.runs[r];
      var retry := d.kind == Some(Retryable);
      var delivery := if retry then RetryWait else if d.kind == Some(Ambiguous) then Unclear
                      else if d.success then Sent else NotSent;
      if retry && run.attempts < max then
        SetRun(db, r, run.(hasAnswer := true, delivery := Some(delivery), state := DeliveryPending,
                           retryAt := Some(now + RETRY_DELAY)))
      else
        SetRun(db, r, run.(hasAnswer := true, delivery := Some(delivery), retryAt := None,
                           state := if retry || Fatal(d.kind) then Failed else Completed))
  }

  /** complete_run without an answer. */
  function CompleteTx(db: Db, r: Id, now: Time): Db {
    if r >= |db.runs| then db
    else
      var session := db.runs[r].session;
      Promote(Release(SetRun(db, r, db.runs[r].(state := Failed, delivery := None)), session), session, now)
  }

  predicate Stale(run: Run, now: Time, limit: Time) {
    run.state == Running && now - (if run.startedAt.Some? then run.startedAt.value else run.createdAt) > limit
  }

  /** recover_runs */
  function RecoverRuns(runs: seq<Run>, now: Time, limit: Time): (r: seq<Run>)
    ensures |r| == |runs|
    ensures forall i | 0 <= i < |runs| ::
      r[i] == if Stale(runs[i], now, limit) then runs[i].(state := Failed, retryAt := None) else runs[i]
  {
    if runs == [] then []
    else
      var last := runs[|runs| - 1];
      RecoverRuns(runs[..|runs| - 1], now, limit)
      + [if Stale(last, now, limit) then last.(state := Failed, retryAt := None) else last]
  }

  predicate PromptDue(run: Run, now: Time, max: nat) {
    && run.state == WaitingConfirmation && run.attempts < max && Due(run, now)
    && (run.delivery.Some? ==> run.delivery.value == NotSent || run.delivery.value == RetryWait)
  }

  /** The first transaction of retry_confirmation_prompts. */
  function PromptRuns(runs: seq<Run>, now: Time, max: nat): (r: seq<Run>)
    ensures |r| == |runs|
    ensures forall i | 0 <= i < |runs| ::
      r[i] == if PromptDue(runs[i], now, max) then runs[i].(attempts := runs[i].attempts + 1, retryAt := None)
              else runs[i]
  {
    if runs == [] then []
    else
      var last := runs[|runs| - 1];
      PromptRuns(runs[..|runs| - 1], now, max)
      + [if PromptDue(last, now, max) then last.(attempts := last.attempts + 1, retryAt := None) else last]
  }

  /** record_confirmation_delivery, whatever state the run is in. */
  function RecordPromptTx(db: Db, r: Id, d: Delivery, now: Time, max: nat): Db {
    if r >= |db.runs| then db
    else
      var run := db.runs[r];
      if !d.success && d.kind == Some(Retryable) && run.attempts < max
      then SetRun(db, r, run.(delivery := Some(RetryWait), retryAt := Some(now + RETRY_DELAY)))
      else
        var delivery := if d.success then Sent else if d.kind == Some(Ambiguous) then Unclear
                        else if Fatal(d.kind) then Undeliverable else NotSent;
        SetRun(db, r, run.(delivery := Some(delivery), retryAt := None))
  }

  /** resume_confirmed_action's last transaction, on the run. */
  function ResumeTx(db: Db, r: Id): Db {
    if r < |db.runs| && db.runs[r].state == WaitingConfirmation
    then SetRun(db, r, db.runs[r].(state := Running, hasAnswer := false)) else db
  }

  /** finalize_rejected_action, on the run: whatever state it is in. */
  function FinalizeTx(db: Db, r: Id): Db {
    if r < |db.runs| then SetRun(db, r, db.runs[r].(state := Running, hasAnswer := false)) else db
  }

  // ---- The system: one worker thread, and webhooks at any time --------------------------------

  /** `stack` holds the runs being processed, innermost last: a command may process the run it
      resolves.  `next` is a run whose attempt is claimed but whose context is not loaded yet. */
  datatype Worker = Worker(stack: seq<Id>, next: Option<Id>)

  datatype System = System(db: Db, worker: Worker)

  const START := System(EMPTY, Worker([], None))

  datatype Move =
    | Intake(session: SessionId, command: bool, event: string, message: string, now: Time)
    | Prepare(run: Id, now: Time)
    | Load
    | LoadFault(releases: bool)
    | Suspend
    | RecoverWrites                             // persist_write_recovery
    | Answer
    | ScheduleRetry(now: Time)
    | RecordDelivery(delivery: Delivery, now: Time)
    | RecordCommand(delivery: Delivery, now: Time)
    | Complete(now: Time)
    | Resume(run: Id)
    | FinalizeRejected(run: Id)
    | Recover(now: Time, limit: Time)
    | RetryPrompts(now: Time)
    | RecordPrompt(run: Id, delivery: Delivery, now: Time)
    | Crash

  /** The worker is idle, or inside a command that may start the run it resolves. */
  predicate MayStart(s: System) {
    && s.worker.next == None
    && (s.worker.stack == []
        || (|s.worker.stack| == 1 && s.worker.stack[0] < |s.db.runs| && s.db.runs[s.worker.stack[0]].command))
  }

  /** The innermost run being processed, when it is of the given kind. */
  function Top(s: System, command: bool): Option<Id> {
    if s.worker.stack == [] || s.worker.next.Some? then None
    else
      var r := s.worker.stack[|s.worker.stack| - 1];
      if r < |s.db.runs| && s.db.runs[r].command == command then Some(r) else None
  }

  function Popped(s: System, db: Db): System {
    System(db, Worker(if s.worker.stack == [] then [] else s.worker.stack[..|s.worker.stack| - 1], None))
  }

  function Do(s: System, move: Move, max: nat): System {
    match move
    case Intake(session, command, event, message, now) =>
      s.(db := IntakeTx(s.db, session, command, event, message, now))
    case Prepare(r, now) =>
      if !MayStart(s) || r >= |s.db.runs| || (s.worker.stack != [] && s.db.runs[r].command) then s
      else System(PrepareTx(s.db, r, now, max),
                  s.worker.(next := if Prepared(s.db, r, now, max) then Some(r) else None))
    case Load =>
      if s.worker.next.None? then s
      else if Loadable(s.db, s.worker.next.value)
      then s.(worker := Worker(s.worker.stack + [s.worker.next.value], None))
      else s.(worker := s.worker.(next := None))
    case LoadFault(releases) =>
      if s.worker.next.None? then s
      else System(LoadFaultTx(s.db, s.worker.next.value, releases), s.worker.(next := None))
    case Suspend =>
      if Top(s, false).None? then s else Popped(s, StateTx(s.db, Top(s, false).value, WaitingConfirmation))
    case RecoverWrites =>
      if Top(s, false).None? then s
      else
        var r := Top(s, false).value;
        s.(db := SetRun(s.db, r,
                         s.db.runs[r].(hasAnswer := true, state := DeliveryPending, retryAt := None, delivery := None)))
    case Answer =>
      if Top(s, false).Some? then s.(db := AnswerTx(s.db, Top(s, false).value))
      else if Top(s, true).Some? then s.(db := AnswerTx(s.db, Top(s, true).value)) else s
    case ScheduleRetry(now) =>
      if Top(s, false).None? then s else Popped(s, ScheduleRetryTx(s.db, Top(s, false).value, now))
    case RecordDelivery(d, now) =>
      if Top(s, false).None? then s else Popped(s, RecordDeliveryTx(s.db, Top(s, false).value, d, now, max))
    case RecordCommand(d, now) =>
      if Top(s, true).None? then s else Popped(s, RecordCommandTx(s.db, Top(s, true).value, d, now, max))
    case Complete(now) =>
      if Top(s, false).None? then s else Popped(s, CompleteTx(s.db, Top(s, false).value, now))
    case Resume(r) => if MayStart(s) then s.(db := ResumeTx(s.db, r)) else s
    case FinalizeRejected(r) => if MayStart(s) then s.(db := FinalizeTx(s.db, r)) else s
    case Recover(now, limit) =>
      if s.worker == Worker([], None) then s.(db := s.db.(runs := RecoverRuns(s.db.runs, now, limit))) else s
    case RetryPrompts(now) =>
      if s.worker == Worker([], None) then s.(db := s.db.(runs := PromptRuns(s.db.runs, now, max))) else s
    case RecordPrompt(r, d, now) => s.(db := RecordPromptTx(s.db, r, d, now, max))
    case Crash => s.(worker := Worker([], None))
  }

  function DoAll(s: System, moves: seq<Move>, max: nat): System {
    if moves == [] then s else Do(DoAll(s, moves[..|moves| - 1], max), moves[|moves| - 1], max)
  }

  // ---- Mutual exclusion ---------------------------------------------------------------------

  /** An ordinary run that has been started and is not over. */
  predicate Working(run: Run) {
    !run.command && Busy(run.state)
  }

  /** No session has two ordinary runs at work. */
  ghost predicate Exclusive(runs: seq<Run>) {
    forall i, j | 0 <= i < j < |runs| && Working(runs[i]) && Working(runs[j]) :: runs[i].session != runs[j].session
  }

  /** The run at work is the one its session calls active. */
  ghost predicate Claimed(db: Db) {
    forall r | 0 <= r < |db.runs| && Working(db.runs[r]) ::
      db.runs[r].session in db.active && db.active[db.runs[r].session] == r
  }

  /** An active_run_id names an ordinary run of its session that has been started. */
  ghost predicate ActiveOk(db: Db) {
    forall session | session in db.active ::
      && db.active[session] < |db.runs|
      && db.runs[db.active[session]].session == session && !db.runs[db.active[session]].command
      && db.runs[db.active[session]].state != Queued
  }

  ghost predicate CommandsOk(runs: seq<Run>) {
    forall r | 0 <= r < |runs| && runs[r].command :: runs[r].state != Queued && runs[r].state != WaitingConfirmation
  }

  /** Runs start in order of arrival: behind a queued run of its session everything is queued. */
  ghost predicate Fifo(runs: seq<Run>) {
    forall i, j | 0 <= i < j < |runs| && runs[i].session == runs[j].session && !runs[j].command
      && runs[i].state == Queued :: runs[j].state == Queued
  }

  ghost predicate MessagesDistinct(runs: seq<Run>) {
    forall i, j | 0 <= i < j < |runs| :: runs[i].event != runs[j].event && runs[i].message != runs[j].message
  }

  ghost predicate DbOk(db: Db) {
    Claimed(db) && ActiveOk(db) && CommandsOk(db.runs) && Fifo(db.runs) && MessagesDistinct(db.runs)
  }

  /** Runs being processed are running or delivering; only the outermost may be a command. */
  ghost predicate WorkerOk(s: System) {
    && (forall i | 0 <= i < |s.worker.stack| :: Loadable(s.db, s.worker.stack[i]))
    && |s.worker.stack| <= 2
    && (|s.worker.stack| == 2 ==> s.db.runs[s.worker.stack[0]].command && !s.db.runs[s.worker.stack[1]].command)
    && (s.worker.next.Some? ==>
          && s.worker.next.value < |s.db.runs|
          && (s.worker.stack != [] ==>
                && |s.worker.stack| == 1 && s.db.runs[s.worker.stack[0]].command
                && !s.db.runs[s.worker.next.value].command))
  }

  ghost predicate Inv(s: System) {
    DbOk(s.db) && WorkerOk(s)
  }

  // -- transactions keep the tables in order

  ghost predicate SameIdentity(a: Run, b: Run) {
    a.session == b.session && a.command == b.command && a.event == b.event && a.message == b.message
  }

  /** A change that starts no work and leaves the queue alone. */
  ghost predicate Settles(before: Run, after: Run) {
    && SameIdentity(before, after)
    && (Working(after) ==> Working(before))
    && (after.state == Queued <==> before.state == Queued)
    && (after.command ==> after.state != Queued && after.state != WaitingConfirmation)
  }

  lemma SetKeeps(db: Db, r: Id, run: Run)
    requires DbOk(db) && r < |db.runs| && Settles(db.runs[r], run)
    ensures DbOk(SetRun(db, r, run))
  {
  }

  ghost predicate NoneWorking(runs: seq<Run>, session: SessionId) {
    forall k | 0 <= k < |runs| && runs[k].session == session :: !Working(runs[k])
  }

  lemma ReleaseKeeps(db: Db, session: SessionId)
    requires DbOk(db) && NoneWorking(db.runs, session)
    ensures DbOk(Release(db, session))
  {
  }

  lemma PromoteKeeps(db: Db, session: SessionId, now: Time)
    requires DbOk(db) && NoneWorking(db.runs, session)
    ensures DbOk(Promote(db, session, now))
  {
    var oldest := OldestQueued(db.runs, session);
    if oldest.Some? {
      var next := Promote(db, session, now);
      PromoteFifo(db, session, now);
      assert forall k | 0 <= k < |db.runs| && k != oldest.value :: next.runs[k] == db.runs[k];
      assert !db.runs[oldest.value].command;
    }
  }

  lemma PromoteFifo(db: Db, session: SessionId, now: Time)
    requires Fifo(db.runs)
    ensures Fifo(Promote(db, session, now).runs)
  {
  }

  /** Promotion starts exactly the oldest queued run of the session, and makes it the active run. */
  lemma PromoteTakesOldest(db: Db, session: SessionId, now: Time, q: Id)
    requires q < |db.runs| && db.runs[q].session == session && db.runs[q].state == Queued
    ensures var next := Promote(db, session, now);
      && session in next.active && next.active[session] <= q
      && db.runs[next.active[session]].state == Queued && next.runs[next.active[session]].state == Running
      && (next.runs[q].state == Running <==> next.active[session] == q)
  {
  }

  lemma OnlyWorker(db: Db, r: Id)
    requires Claimed(db) && r < |db.runs| && Working(db.runs[r])
    ensures forall k: Id | k < |db.runs| && db.runs[k].session == db.runs[r].session && Working(db.runs[k]) :: k == r
  {
  }

  /** Ending the session's run at work, releasing its claim and promoting the next. */
  lemma EndKeeps(db: Db, r: Id, run: Run, now: Time)
    requires DbOk(db) && r < |db.runs| && Working(db.runs[r])
    requires SameIdentity(db.runs[r], run) && (run.state == Completed || run.state == Failed)
    ensures var next := Promote(Release(SetRun(db, r, run), run.session), run.session, now);
      DbOk(next)
  {
    OnlyWorker(db, r);
    SetKeeps(db, r, run);
    var ended := SetRun(db, r, run);
    assert NoneWorking(ended.runs, run.session);
    ReleaseKeeps(ended, run.session);
    PromoteKeeps(Release(ended, run.session), run.session, now);
  }

  ghost predicate Unseen(runs: seq<Run>, run: Run) {
    forall k | 0 <= k < |runs| :: runs[k].event != run.event && runs[k].message != run.message
  }

  ghost predicate WaitsItsTurn(runs: seq<Run>, run: Run) {
    forall k | 0 <= k < |runs| && runs[k].session == run.session && runs[k].state == Queued :: run.state == Queued
  }

  lemma AppendKeepsOrder(runs: seq<Run>, run: Run)
    requires CommandsOk(runs) && Fifo(runs) && MessagesDistinct(runs)
    requires Unseen(runs, run) && (run.command || WaitsItsTurn(runs, run))
    requires run.command ==> run.state == Running
    ensures CommandsOk(runs + [run]) && Fifo(runs + [run]) && MessagesDistinct(runs + [run])
  {
  }

  lemma IntakeFacts(runs: seq<Run>, run: Run)
    ensures !Seen(runs, run.event, run.message) ==> Unseen(runs, run)
    ensures !SessionBusy(runs, run.session) ==> NoneWorking(runs, run.session)
    ensures !SessionBusy(runs, run.session) || run.state == Queued ==> WaitsItsTurn(runs, run)
  {
    assert forall k | 0 <= k < |runs| :: runs[k] in runs;
  }

  lemma IntakeKeeps(db: Db, session: SessionId, command: bool, event: string, message: string, now: Time)
    requires DbOk(db)
    ensures DbOk(IntakeTx(db, session, command, event, message, now))
  {
    hide Fifo, MessagesDistinct, CommandsOk, Seen, SessionBusy, Unseen, WaitsItsTurn;
    var next := IntakeTx(db, session, command, event, message, now);
    if !Seen(db.runs, event, message) {
      var run := next.runs[|db.runs|];
      IntakeFacts(db.runs, run);
      AppendKeepsOrder(db.runs, run);
    }
  }

  lemma PrepareKeeps(db: Db, r: Id, now: Time, max: nat)
    requires DbOk(db)
    ensures DbOk(PrepareTx(db, r, now, max))
  {
    if r < |db.runs| {
      var run := db.runs[r];
      if run.state == DeliveryPending && Due(run, now) && run.attempts >= max {
        var ended := run.(state := Failed, delivery := Some(NotSent), retryAt := None);
        if run.session in db.active && db.active[run.session] == r {
          EndKeeps(db, r, ended, now);
        } else {
          SetKeeps(db, r, ended);
        }
      } else if PrepareTx(db, r, now, max) != db {
        SetKeeps(db, r, PrepareTx(db, r, now, max).runs[r]);
      }
    }
  }

  lemma RecoverKeeps(db: Db, now: Time, limit: Time)
    requires DbOk(db)
    ensures DbOk(db.(runs := RecoverRuns(db.runs, now, limit)))
  {
    AllSettle(db, RecoverRuns(db.runs, now, limit));
  }

  lemma PromptsKeep(db: Db, r: Id, d: Delivery, now: Time, max: nat)
    requires DbOk(db)
    ensures DbOk(db.(runs := PromptRuns(db.runs, now, max))) && DbOk(RecordPromptTx(db, r, d, now, max))
  {
    AllSettle(db, PromptRuns(db.runs, now, max));
    if r < |db.runs| {
      SetKeeps(db, r, RecordPromptTx(db, r, d, now, max).runs[r]);
    }
  }

  lemma AllSettle(db: Db, next: seq<Run>)
    requires DbOk(db) && |next| == |db.runs|
    requires forall k | 0 <= k < |next| :: Settles(db.runs[k], next[k])
    ensures DbOk(db.(runs := next))
  {
  }

  lemma RecordDeliveryKeeps(db: Db, r: Id, d: Delivery, now: Time, max: nat)
    requires DbOk(db) && r < |db.runs| && Working(db.runs[r])
    ensures DbOk(RecordDeliveryTx(db, r, d, now, max))
  {
    var run := db.runs[r];
    var delivery := DeliveryStateOf(run, d, max);
    if d.kind == Some(Retryable) && run.attempts < max {
      SetKeeps(db, r, run.(delivery := Some(delivery), state := DeliveryPending, retryAt := Some(now + RETRY_DELAY)));
    } else {
      EndKeeps(db, r, run.(delivery := Some(delivery), retryAt := None,
                           state := if delivery != Sent || Fatal(d.kind) then Failed else Completed), now);
    }
  }

  /** The run is its session's active run. */
  predicate IsActive(db: Db, r: Id)
    requires r < |db.runs|
  {
    db.runs[r].session in db.active && db.active[db.runs[r].session] == r
  }

  lemma FinalizeKeeps(db: Db, r: Id)
    requires DbOk(db) && r < |db.runs| && (!db.runs[r].command ==> IsActive(db, r))
    ensures DbOk(FinalizeTx(db, r))
  {
    if db.runs[r].command {
      SetKeeps(db, r, db.runs[r].(state := Running, hasAnswer := false));
    } else {
      var next := FinalizeTx(db, r);
      assert forall k | 0 <= k < |db.runs| && k != r :: next.runs[k] == db.runs[k];
      assert SameIdentity(db.runs[r], next.runs[r]) && db.runs[r].state != Queued;
    }
  }

  // -- the worker

  /** Other runs stay as they are, except for a queued one that is promoted. */
  ghost predicate Undisturbed(db: Db, next: Db, r: Id) {
    && |next.runs| == |db.runs|
    && forall k: Id | k < |db.runs| && k != r ::
         next.runs[k] == db.runs[k] || (db.runs[k].state == Queued && next.runs[k].command == db.runs[k].command)
  }

  /** The transactions that end the processing of an ordinary run. */
  function EndTx(db: Db, r: Id, move: Move, max: nat): Db {
    match move
    case Suspend => StateTx(db, r, WaitingConfirmation)
    case ScheduleRetry(now) => ScheduleRetryTx(db, r, now)
    case RecordDelivery(d, now) => RecordDeliveryTx(db, r, d, now, max)
    case Complete(now) => CompleteTx(db, r, now)
    case _ => db
  }

  lemma EndIsUndisturbed(db: Db, r: Id, run: Run, now: Time)
    requires r < |db.runs| && (run.state == Completed || run.state == Failed)
    ensures Undisturbed(db, Promote(Release(SetRun(db, r, run), run.session), run.session, now), r)
  {
  }

  lemma EndTxIsUndisturbed(db: Db, r: Id, move: Move, max: nat)
    requires r < |db.runs|
    ensures Undisturbed(db, EndTx(db, r, move, max), r)
  {
    hide Promote;
    var run := db.runs[r];
    match move
    case RecordDelivery(d, now) =>
      var delivery := DeliveryStateOf(run, d, max);
      EndIsUndisturbed(db, r, run.(delivery := Some(delivery), retryAt := None,
                                   state := if delivery != Sent || Fatal(d.kind) then Failed else Completed), now);
    case Complete(now) => EndIsUndisturbed(db, r, run.(state := Failed, delivery := None), now);
    case _ =>
  }

  lemma PrepareIsUndisturbed(db: Db, r: Id, now: Time, max: nat)
    requires r < |db.runs|
    ensures var next := PrepareTx(db, r, now, max);
      Undisturbed(db, next, r) && next.runs[r].command == db.runs[r].command
  {
    hide Promote;
    var failed := db.runs[r].(state := Failed, delivery := Some(NotSent), retryAt := None);
    EndIsUndisturbed(db, r, failed, now);
    PromoteKeepsIdentity(Release(SetRun(db, r, failed), failed.session), failed.session, now);
  }

  lemma PromoteKeepsIdentity(db: Db, session: SessionId, now: Time)
    ensures |Promote(db, session, now).runs| == |db.runs|
    ensures forall k | 0 <= k < |db.runs| :: SameIdentity(db.runs[k], Promote(db, session, now).runs[k])
  {
  }

  /** Popping the innermost run leaves the command around it as it was. */
  lemma PopKeepsWorker(s: System, next: Db)
    requires WorkerOk(s) && s.worker.stack != [] && s.worker.next == None
    requires Undisturbed(s.db, next, s.worker.stack[|s.worker.stack| - 1])
    ensures WorkerOk(Popped(s, next))
  {
    if |s.worker.stack| == 2 {
      assert Loadable(s.db, s.worker.stack[0]);
      assert s.worker.stack[0] != s.worker.stack[1];
    }
  }

  lemma TopIsWorking(s: System)
    requires WorkerOk(s) && Top(s, false).Some?
    ensures Top(s, false).value < |s.db.runs| && Working(s.db.runs[Top(s, false).value])
  {
  }

  predicate Ends(move: Move) {
    move.Suspend? || move.ScheduleRetry? || move.RecordDelivery? || move.Complete?
  }

  lemma EndKeepsWorker(s: System, move: Move, max: nat)
    requires WorkerOk(s) && Top(s, false).Some? && Ends(move)
    ensures WorkerOk(Do(s, move, max))
  {
    hide StateTx, ScheduleRetryTx, RecordDeliveryTx, CompleteTx, WorkerOk;
    TopIsWorking(s);
    EndTxIsUndisturbed(s.db, Top(s, false).value, move, max);
    PopKeepsWorker(s, EndTx(s.db, Top(s, false).value, move, max));
  }

  lemma StartKeepsWorker(s: System, move: Move, max: nat)
    requires WorkerOk(s) && (move.Prepare? || move.Load? || move.LoadFault?)
    ensures WorkerOk(Do(s, move, max))
  {
    hide PrepareTx;
    if move.Prepare? && move.run < |s.db.runs| {
      PrepareIsUndisturbed(s.db, move.run, move.now, max);
    }
    if s.worker.stack != [] {
      assert Loadable(s.db, s.worker.stack[0]);
    }
    if move.Load? && s.worker.next.Some? {
      assert forall i | 0 <= i < |s.worker.stack| :: (s.worker.stack + [s.worker.next.value])[i] == s.worker.stack[i];
    }
  }

  lemma RowsKeepWorker(s: System, move: Move, max: nat)
    requires WorkerOk(s) && !Ends(move) && !(move.Prepare? || move.Load? || move.LoadFault?)
    ensures WorkerOk(Do(s, move, max))
  {
    forall i | 0 <= i < |s.worker.stack| ensures Loadable(s.db, s.worker.stack[i]) {
    }
    if move.RecordCommand? && Top(s, true).Some? {
      PopKeepsWorker(s, RecordCommandTx(s.db, Top(s, true).value, move.delivery, move.now, max));
    }
  }

  /** No move disturbs the runs being processed: this needs nothing of the tables. */
  lemma MoveKeepsWorker(s: System, move: Move, max: nat)
    requires WorkerOk(s)
    ensures WorkerOk(Do(s, move, max))
  {
    hide WorkerOk;
    if Ends(move) {
      if Top(s, false).Some? {
        EndKeepsWorker(s, move, max);
      }
    } else if move.Prepare? || move.Load? || move.LoadFault? {
      StartKeepsWorker(s, move, max);
    } else {
      RowsKeepWorker(s, move, max);
    }
  }

  // -- moves

  /** What callers of finalize_rejected_action owe: the run is its session's active run. */
  predicate RejectsActive(s: System, move: Move) {
    move.FinalizeRejected? && MayStart(s) && move.run < |s.db.runs| && !s.db.runs[move.run].command ==>
      IsActive(s.db, move.run)
  }

  ghost predicate AllRejectActive(s: System, moves: seq<Move>, max: nat) {
    moves == [] ||
    (AllRejectActive(s, moves[..|moves| - 1], max)
      && RejectsActive(DoAll(s, moves[..|moves| - 1], max), moves[|moves| - 1]))
  }

  lemma EndTxKeeps(db: Db, r: Id, move: Move, max: nat)
    requires DbOk(db) && r < |db.runs| && Working(db.runs[r]) && Ends(move)
    ensures DbOk(EndTx(db, r, move, max))
  {
    hide DbOk, Promote;
    var run := db.runs[r];
    match move
    case Suspend => SetKeeps(db, r, run.(state := WaitingConfirmation));
    case ScheduleRetry(now) => SetKeeps(db, r, run.(state := DeliveryPending, retryAt := Some(now + RETRY_DELAY)));
    case RecordDelivery(d, now) => RecordDeliveryKeeps(db, r, d, now, max);
    case Complete(now) => EndKeeps(db, r, run.(state := Failed, delivery := None), now);
  }

  lemma LoadFaultKeeps(db: Db, r: Id, releases: bool)
    requires DbOk(db)
    ensures DbOk(LoadFaultTx(db, r, releases))
  {
    if Loadable(db, r) {
      var run := db.runs[r];
      var failed := SetRun(db, r, run.(state := Failed));
      SetKeeps(db, r, run.(state := Failed));
      if releases && run.session in db.active && db.active[run.session] == r {
        assert NoneWorking(failed.runs, run.session);
        ReleaseKeeps(failed, run.session);
      }
    }
  }

  /** The changes of the run on top: answers, recoveries, and the end of a command. */
  lemma TopSettles(s: System, move: Move, max: nat) returns (r: Id)
    requires WorkerOk(s) && (move.Answer? || move.RecoverWrites? || move.RecordCommand?)
    requires Do(s, move, max).db != s.db
    ensures r < |s.db.runs| && r < |Do(s, move, max).db.runs| && Settles(s.db.runs[r], Do(s, move, max).db.runs[r])
    ensures Do(s, move, max).db == SetRun(s.db, r, Do(s, move, max).db.runs[r])
  {
    r := s.worker.stack[|s.worker.stack| - 1];
    assert Loadable(s.db, r);
  }

  lemma MoveKeepsDb(s: System, move: Move, max: nat)
    requires Inv(s) && RejectsActive(s, move)
    ensures DbOk(Do(s, move, max).db)
  {
    hide DbOk, WorkerOk;
    if Ends(move) {
      if Top(s, false).Some? {
        TopIsWorking(s);
        EndTxKeeps(s.db, Top(s, false).value, move, max);
      }
    } else {
      match move
      case Intake(session, command, event, message, now) => IntakeKeeps(s.db, session, command, event, message, now);
      case Prepare(r, now) => PrepareKeeps(s.db, r, now, max);
      case LoadFault(releases) => if s.worker.next.Some? { LoadFaultKeeps(s.db, s.worker.next.value, releases); }
      case Resume(r) => ResumeKeeps(s.db, r);
      case FinalizeRejected(r) => if MayStart(s) && r < |s.db.runs| { FinalizeKeeps(s.db, r); }
      case Recover(now, limit) => RecoverKeeps(s.db, now, limit);
      case RetryPrompts(now) => PromptsKeep(s.db, 0, Delivery(true, None), now, max);
      case RecordPrompt(r, d, now) => PromptsKeep(s.db, r, d, now, max);
      case _ => SettlingMoveKeepsDb(s, move, max);
    }
  }

  lemma ResumeKeeps(db: Db, r: Id)
    requires DbOk(db)
    ensures DbOk(ResumeTx(db, r))
  {
    if r < |db.runs| && db.runs[r].state == WaitingConfirmation {
      SetKeeps(db, r, db.runs[r].(state := Running, hasAnswer := false));
    }
  }

  lemma SettlingMoveKeepsDb(s: System, move: Move, max: nat)
    requires Inv(s)
    requires move.Answer? || move.RecoverWrites? || move.RecordCommand? || move.Load? || move.Crash?
    ensures DbOk(Do(s, move, max).db)
  {
    hide DbOk, WorkerOk;
    var next := Do(s, move, max);
    if next.db != s.db {
      var r := TopSettles(s, move, max);
      SetKeeps(s.db, r, next.db.runs[r]);
    }
  }

  lemma MoveKeepsInv(s: System, move: Move, max: nat)
    requires Inv(s) && RejectsActive(s, move)
    ensures Inv(Do(s, move, max))
  {
    hide DbOk, WorkerOk, Do;
    MoveKeepsDb(s, move, max);
    MoveKeepsWorker(s, move, max);
  }

  lemma {:induction false} MovesKeepInv(moves: seq<Move>, max: nat)
    requires AllRejectActive(START, moves, max)
    ensures Inv(DoAll(START, moves, max))
  {
    hide Inv;
    if moves == [] {
      StartIsOk();
    } else {
      MovesKeepInv(moves[..|moves| - 1], max);
      MoveKeepsInv(DoAll(START, moves[..|moves| - 1], max), moves[|moves| - 1], max);
    }
  }

  lemma StartIsOk()
    ensures Inv(START)
  {
  }

  // ---- The results --------------------------------------------------------------------------

  /** In every state of the run, the run at work is the one its session calls active. */
  ghost predicate AlwaysClaimed(s: System, moves: seq<Move>, max: nat) {
    && Claimed(DoAll(s, moves, max).db)
    && (moves == [] || AlwaysClaimed(s, moves[..|moves| - 1], max))
  }

  lemma InactiveFinalizeBreaks(s: System, move: Move, max: nat)
    requires !RejectsActive(s, move)
    ensures !Claimed(Do(s, move, max).db)
  {
    var next := Do(s, move, max).db;
    assert Working(next.runs[move.run]) && !IsActive(next, move.run);
  }

  /** The run at work is always the one its session calls active, if and only if every
      finalize_rejected_action is given its session's active run. */
  lemma {:induction false} RunAtWorkIsActive(moves: seq<Move>, max: nat)
    ensures AlwaysClaimed(START, moves, max) <==> AllRejectActive(START, moves, max)
  {
    hide RejectsActive, Do, WorkerOk;
    if AllRejectActive(START, moves, max) {
      MovesKeepInv(moves, max);
    }
    if moves != [] {
      RunAtWorkIsActive(moves[..|moves| - 1], max);
      var before := DoAll(START, moves[..|moves| - 1], max);
      if !RejectsActive(before, moves[|moves| - 1]) {
        InactiveFinalizeBreaks(before, moves[|moves| - 1], max);
      }
    }
  }

  /** No transaction but intake adds a run, and none rewrites whose message a run answers. */
  ghost predicate KeepsRuns(runs: seq<Run>, next: seq<Run>) {
    |next| == |runs| && forall k | 0 <= k < |runs| :: SameIdentity(runs[k], next[k])
  }

  lemma EndTxKeepsRuns(db: Db, r: Id, run: Run, session: SessionId, now: Time)
    requires r < |db.runs| && SameIdentity(db.runs[r], run)
    ensures KeepsRuns(db.runs, Promote(Release(SetRun(db, r, run), session), session, now).runs)
  {
    hide Promote;
    PromoteKeepsIdentity(Release(SetRun(db, r, run), session), session, now);
  }

  lemma PrepareKeepsRuns(s: System, move: Move, max: nat)
    requires move.Prepare?
    ensures KeepsRuns(s.db.runs, Do(s, move, max).db.runs)
  {
    hide Promote;
    if move.run < |s.db.runs| {
      var run := s.db.runs[move.run];
      EndTxKeepsRuns(s.db, move.run, run.(state := Failed, delivery := Some(NotSent), retryAt := None),
                     run.session, move.now);
    }
  }

  lemma MoveKeepsRuns(s: System, move: Move, max: nat)
    requires !move.Intake?
    ensures KeepsRuns(s.db.runs, Do(s, move, max).db.runs)
  {
    if Ends(move) {
      EndKeepsRuns(s, move, max);
    } else if move.Prepare? {
      PrepareKeepsRuns(s, move, max);
    }
  }

  lemma EndKeepsRuns(s: System, move: Move, max: nat)
    requires Ends(move)
    ensures KeepsRuns(s.db.runs, Do(s, move, max).db.runs)
  {
    hide Promote;
    if move.RecordDelivery? && Top(s, false).Some? {
      var run := s.db.runs[Top(s, false).value];
      var delivery := DeliveryStateOf(run, move.delivery, max);
      EndTxKeepsRuns(s.db, Top(s, false).value,
                     run.(delivery := Some(delivery), retryAt := None,
                          state := if delivery != Sent || Fatal(move.delivery.kind) then Failed else Completed),
                     run.session, move.now);
    } else if move.Complete? && Top(s, false).Some? {
      var run := s.db.runs[Top(s, false).value];
      EndTxKeepsRuns(s.db, Top(s, false).value, run.(state := Failed, delivery := None), run.session, move.now);
    }
  }

  lemma IntakeKeepsDistinct(db: Db, session: SessionId, command: bool, event: string, message: string, now: Time)
    requires MessagesDistinct(db.runs)
    ensures MessagesDistinct(IntakeTx(db, session, command, event, message, now).runs)
  {
    hide Seen, SessionBusy;
    var next := IntakeTx(db, session, command, event, message, now);
    if !Seen(db.runs, event, message) {
      IntakeFacts(db.runs, next.runs[|db.runs|]);
    }
  }

  /** A provider event or message starts at most one run, whatever else happens. */
  lemma {:induction false} IntakeIsIdempotent(moves: seq<Move>, max: nat)
    ensures MessagesDistinct(DoAll(START, moves, max).db.runs)
  {
    if moves != [] {
      var before, last := DoAll(START, moves[..|moves| - 1], max), moves[|moves| - 1];
      IntakeIsIdempotent(moves[..|moves| - 1], max);
      hide IntakeTx, PrepareTx, LoadFaultTx, RecordDeliveryTx, RecordCommandTx, CompleteTx;
      if last.Intake? {
        IntakeKeepsDistinct(before.db, last.session, last.command, last.event, last.message, last.now);
      } else {
        MoveKeepsRuns(before, last, max);
      }
    }
  }

  /** What the lifecycle's fallback looks for: a queued run whose session has no run that is running,
      queued, delivering or waiting. */
  predicate FallbackCandidate(runs: seq<Run>, r: Id) {
    r < |runs| && runs[r].state == Queued && !SessionBusy(runs, runs[r].session)
  }

  /** It never finds one: the candidate itself is such a run. */
  lemma FallbackNeverFindsARun(runs: seq<Run>, r: Id)
    ensures !FallbackCandidate(runs, r)
  {
    if r < |runs| {
      assert runs[r] in runs;
    }
  }
}
