/** The outbox publisher: at-least-once delivery by one worker that may die between any two
    transactions, while mail arrives, agents propose and operators retry. */
module MailPublisher {
  import opened Wrappers
  import opened MailEvents

  /** What the LLM answers when asked about a mail; `retryable` is false for permanent LLM errors. */
  datatype Reply = Answer(verdict: Verdict) | Unavailable(retryable: bool)

  /** How one delivery ended: the consumer returned, or raised. */
  datatype Outcome = Delivered | Raised(terminal: bool)

  datatype Handled = Handled(db: Db, outcome: Outcome)

  /** _deliver: at most one transaction with effects, and the consumer's outcome. */
  function Deliver(db: Db, e: Id, reply: Reply): Handled {
    if e >= |db.events| then Handled(db, Raised(false))
    else if db.events[e].kind == Unconsumed || e in db.markers then Handled(db, Delivered)
    else
      match db.events[e].kind
      case MailReceived =>
        if !Receives(db, e) then Handled(db, Raised(false))
        else if !db.mails[db.events[e].aggregate].job then Handled(NonJobTx(db, e), Delivered)
        else if reply.Answer? then Handled(PersistTx(db, e, reply.verdict), Delivered)
        else Handled(MarkFailureTx(db, db.events[e].aggregate, reply.retryable), Raised(!reply.retryable))
      case JobMailAnalyzed =>
        if !Routable(db, e) then Handled(db, Raised(false)) else Handled(RouteTx(db, e), Delivered)
      case _ =>
        if !Notifiable(db, e) then Handled(db, Raised(false)) else Handled(NotifyTx(db, e), Delivered)
  }

  function DeliverSteps(db: Db, e: Id, reply: Reply): seq<Step> {
    if e >= |db.events| || db.events[e].kind == Unconsumed || e in db.markers then []
    else
      match db.events[e].kind
      case MailReceived =>
        if !Receives(db, e) then []
        else if !db.mails[db.events[e].aggregate].job then [MarkNonJob(e)]
        else if reply.Answer? then [Persist(e, reply.verdict)]
        else [MarkFailure(db.events[e].aggregate, reply.retryable)]
      case JobMailAnalyzed => if !Routable(db, e) then [] else [Route(e)]
      case _ => if !Notifiable(db, e) then [] else [Notify(e)]
  }

  lemma DeliverIsRun(db: Db, e: Id, reply: Reply)
    ensures Deliver(db, e, reply).db == Run(db, DeliverSteps(db, e, reply))
  {
    var steps := DeliverSteps(db, e, reply);
    if steps != [] {
      assert steps[..|steps| - 1] == [];
    }
  }

  /** The transaction after a delivery. */
  function SettleStep(e: Id, outcome: Outcome, now: Time): Step {
    match outcome
    case Delivered => Publish(e)
    case Raised(terminal) => Fail(e, terminal, now)
  }

  predicate Due(delivery: Delivery, now: Time) {
    delivery.status == Waiting && (delivery.retryAt.Some? ==> delivery.retryAt.value <= now)
  }

  predicate Ascending(ids: seq<Id>) {
    forall i, j | 0 <= i < j < |ids| :: ids[i] < ids[j]
  }

  /** The batch of publish_once, oldest first. */
  function Eligible(deliveries: seq<Delivery>, now: Time): (ids: seq<Id>)
    ensures Ascending(ids)
    ensures forall e: Id :: e in ids <==> e < |deliveries| && Due(deliveries[e], now)
  {
    if deliveries == [] then []
    else
      var last := |deliveries| - 1;
      var before := Eligible(deliveries[..last], now);
      assert forall i | 0 <= i < |before| :: before[i] in before;
      if Due(deliveries[last], now) then before + [last] else before
  }

  // ---- One publisher among the other workers ------------------------------------------------

  datatype Worker =
    | Idle
    | Draining(todo: seq<Id>, now: Time)
    | Settling(event: Id, outcome: Outcome, todo: seq<Id>, now: Time)

  /** `retries` counts the manual retries that took effect, per event. */
  datatype System = System(db: Db, worker: Worker, retries: map<Id, nat>)

  const START := System(EMPTY, Idle, map[])

  datatype Move =
    | MailArrives(mail: Mail)
    | ActionArrives(action: Action)
    | EventArrives(aggregate: Id)
    | ManualRetry(event: Id, now: Time)
    | Select(now: Time)
    | DeliverNext(reply: Reply)
    | Settle
    | Crash

  function Retries(s: System, e: Id): nat {
    if e in s.retries then s.retries[e] else 0
  }

  function Do(s: System, move: Move): System {
    match move
    case MailArrives(mail) => s.(db := Apply(s.db, Ingest(mail)))
    case ActionArrives(action) => s.(db := Apply(s.db, AgentProposes(action)))
    case EventArrives(aggregate) => s.(db := Apply(s.db, OtherEvent(aggregate)))
    case ManualRetry(e, now) =>
      if e < |s.db.deliveries| && s.db.deliveries[e].status == Failed
      then s.(db := Apply(s.db, Retry(e, now)), retries := s.retries[e := Retries(s, e) + 1])
      else s
    case Select(now) => if s.worker == Idle then s.(worker := Draining(Eligible(s.db.deliveries, now), now)) else s
    case DeliverNext(reply) =>
      if !s.worker.Draining? then s
      else if s.worker.todo == [] then s.(worker := Idle)
      else
        var e := s.worker.todo[0];
        var handled := Deliver(s.db, e, reply);
        s.(db := handled.db, worker := Settling(e, handled.outcome, s.worker.todo[1..], s.worker.now))
    case Settle =>
      if !s.worker.Settling? then s
      else
        s.(db := Apply(s.db, SettleStep(s.worker.event, s.worker.outcome, s.worker.now)),
           worker := Draining(s.worker.todo, s.worker.now))
    case Crash => s.(worker := Idle)
  }

  function DoAll(s: System, moves: seq<Move>): System {
    if moves == [] then s else Do(DoAll(s, moves[..|moves| - 1]), moves[|moves| - 1])
  }

  // ---- Published means processed, failed means not ------------------------------------------

  predicate Processed(db: Db, e: Id) {
    e < |db.events| && (db.events[e].kind == Unconsumed || e in db.markers)
  }

  ghost predicate StatusOk(db: Db) {
    forall e: Id | e < |db.deliveries| ::
      && (db.deliveries[e].status == Published ==> Processed(db, e))
      && (db.deliveries[e].status == Failed ==> !Processed(db, e))
  }

  /** The analysis state on the mail row agrees with what was done with its receipt. */
  ghost predicate ProgressOk(db: Db) {
    forall e: Id | Receives(db, e) && db.events[e].aggregate < |db.progress| ::
      && (db.progress[db.events[e].aggregate].processing == Succeeded <==>
            e in db.markers && db.mails[db.events[e].aggregate].job)
      && (db.progress[db.events[e].aggregate].processing == NonJob <==>
            e in db.markers && !db.mails[db.events[e].aggregate].job)
  }

  ghost predicate AttemptsOk(s: System) {
    && (forall e: Id | e < |s.db.deliveries| ::
          s.db.deliveries[e].attempts + (if s.db.deliveries[e].status == Waiting then 1 else 0)
          <= MAX_OUTBOX_ATTEMPTS + Retries(s, e))
    && (forall e | e in s.retries :: e < |s.db.deliveries|)
  }

  function Todo(worker: Worker): seq<Id> {
    if worker == Idle then [] else worker.todo
  }

  ghost predicate WorkerOk(db: Db, worker: Worker) {
    && Ascending(Todo(worker))
    && (forall i | 0 <= i < |Todo(worker)| ::
          Todo(worker)[i] < |db.deliveries| && db.deliveries[Todo(worker)[i]].status == Waiting)
    && (worker.Settling? ==>
          && worker.event < |db.deliveries| && db.deliveries[worker.event].status == Waiting
          && worker.event !in worker.todo
          && (worker.outcome == Delivered <==> Processed(db, worker.event)))
  }

  ghost predicate SystemInv(s: System) {
    Inv(s.db) && StatusOk(s.db) && ProgressOk(s.db) && AttemptsOk(s) && WorkerOk(s.db, s.worker)
  }

  // -- arrivals

  /** What the other workers may do between two publisher transactions. */
  ghost predicate Arrives(db: Db, next: Db) {
    && db.events <= next.events && db.deliveries <= next.deliveries && next.markers == db.markers
    && (forall e | |db.deliveries| <= e < |next.deliveries| :: next.deliveries[e] == Delivery(Waiting, 0, None))
    && |db.deliveries| == |db.events| && |next.deliveries| == |next.events|
  }

  lemma ArrivalKeepsStatus(db: Db, next: Db)
    requires Arrives(db, next) && StatusOk(db)
    requires forall e | e in db.markers :: e < |db.events|
    ensures StatusOk(next)
  {
    forall e: Id | e < |next.deliveries| && e >= |db.deliveries| ensures next.deliveries[e].status == Waiting {
    }
    forall e: Id | e < |db.deliveries| ensures Processed(next, e) <==> Processed(db, e) {
    }
  }

  lemma ArrivalKeepsProgress(db: Db, step: Step)
    requires Inv(db) && ProgressOk(db) && (step.Ingest? || step.AgentProposes? || step.OtherEvent?)
    ensures ProgressOk(Apply(db, step))
  {
    var next := Apply(db, step);
    forall e: Id | Receives(next, e) ensures e == |db.events| || Receives(db, e) {
    }
  }

  lemma ArrivalKeepsWorker(db: Db, next: Db, worker: Worker)
    requires Arrives(db, next) && WorkerOk(db, worker)
    ensures WorkerOk(next, worker)
  {
    forall i | 0 <= i < |Todo(worker)|
      ensures Todo(worker)[i] < |next.deliveries| && next.deliveries[Todo(worker)[i]].status == Waiting
    {
      assert next.deliveries[Todo(worker)[i]] == db.deliveries[Todo(worker)[i]];
    }
  }

  lemma ArrivalKeepsSystem(s: System, step: Step)
    requires SystemInv(s) && (step.Ingest? || step.AgentProposes? || step.OtherEvent?)
    ensures SystemInv(s.(db := Apply(s.db, step)))
  {
    var next := Apply(s.db, step);
    StepKeepsInv(s.db, step);
    ArrivalKeepsStatus(s.db, next);
    ArrivalKeepsProgress(s.db, step);
    ArrivalKeepsWorker(s.db, next, s.worker);
  }

  // -- delivery

  /** A delivery returns normally exactly when the event ends up processed. */
  lemma DeliveryOutcome(db: Db, e: Id, reply: Reply)
    requires Inv(db) && e < |db.events|
    ensures var handled := Deliver(db, e, reply);
      && (handled.outcome == Delivered <==> Processed(handled.db, e))
      && (forall f: Id | f < |db.events| && f != e :: Processed(handled.db, f) <==> Processed(db, f))
      && db.deliveries <= handled.db.deliveries
  {
    if db.events[e].kind == JobMailAnalyzed {
      assert Routable(db, e) ==> Routes(db, e);
    }
  }

  lemma DeliveryArrivals(db: Db, e: Id, reply: Reply)
    requires Inv(db)
    ensures var next := Deliver(db, e, reply).db;
      && Inv(next) && db.deliveries <= next.deliveries
      && (forall f | |db.deliveries| <= f < |next.deliveries| :: next.deliveries[f] == Delivery(Waiting, 0, None))
  {
    var steps := DeliverSteps(db, e, reply);
    DeliverIsRun(db, e, reply);
    RunKeepsInv(db, steps);
  }

  lemma DeliveryKeepsStatus(db: Db, e: Id, reply: Reply)
    requires Inv(db) && StatusOk(db) && e < |db.events| && db.deliveries[e].status == Waiting
    ensures StatusOk(Deliver(db, e, reply).db)
  {
    DeliveryOutcome(db, e, reply);
    DeliveryArrivals(db, e, reply);
  }

  lemma SameReceipt(db: Db, e: Id, f: Id)
    requires EventsOk(db) && Receives(db, e) && Receives(db, f) && db.events[e].aggregate == db.events[f].aggregate
    ensures e == f
  {
    assert db.events[e] == db.events[f];
  }

  lemma DeliveryKeepsProgress(db: Db, e: Id, reply: Reply)
    requires Inv(db) && ProgressOk(db) && e < |db.events|
    ensures ProgressOk(Deliver(db, e, reply).db)
  {
    var next := Deliver(db, e, reply).db;
    forall f: Id | Receives(next, f)
      ensures Receives(db, f)
      ensures f != e && Receives(db, e) ==> db.events[f].aggregate != db.events[e].aggregate
    {
      assert f < |db.events|;
      if Receives(db, e) && db.events[f].aggregate == db.events[e].aggregate {
        SameReceipt(db, e, f);
      }
    }
    if Receives(db, e) {
      ReceiptProgress(db, e, reply);
    }
  }

  /** Where delivering a receipt leaves its mail. */
  lemma ReceiptProgress(db: Db, e: Id, reply: Reply)
    requires Inv(db) && ProgressOk(db) && Receives(db, e)
    ensures var m, next := db.events[e].aggregate, Deliver(db, e, reply).db;
      && (next.progress[m].processing == Succeeded <==> e in next.markers && db.mails[m].job)
      && (next.progress[m].processing == NonJob <==> e in next.markers && !db.mails[m].job)
      && (forall k | 0 <= k < |db.progress| && k != m :: next.progress[k] == db.progress[k])
  {
  }

  lemma TakenKeepsWorker(db: Db, next: Db, worker: Worker, outcome: Outcome)
    requires WorkerOk(db, worker) && worker.Draining? && worker.todo != []
    requires db.deliveries <= next.deliveries && (outcome == Delivered <==> Processed(next, worker.todo[0]))
    ensures WorkerOk(next, Settling(worker.todo[0], outcome, worker.todo[1..], worker.now))
  {
    var todo := worker.todo;
    forall i | 0 <= i < |todo|
      ensures todo[i] < |next.deliveries| && next.deliveries[todo[i]].status == Waiting
    {
      assert next.deliveries[todo[i]] == db.deliveries[todo[i]];
    }
    assert forall i | 0 <= i < |todo[1..]| :: todo[1..][i] == todo[i + 1];
  }

  lemma DeliveryKeepsAttempts(s: System, reply: Reply)
    requires Inv(s.db) && AttemptsOk(s) && s.worker.Draining? && s.worker.todo != []
    ensures AttemptsOk(Do(s, DeliverNext(reply)))
  {
    hide Inv, Deliver;
    DeliveryArrivals(s.db, s.worker.todo[0], reply);
  }

  lemma SameLength(db: Db)
    requires Inv(db)
    ensures |db.deliveries| == |db.events|
  {
  }

  lemma DeliveryKeepsSystem(s: System, reply: Reply)
    requires SystemInv(s) && s.worker.Draining? && s.worker.todo != []
    ensures SystemInv(Do(s, DeliverNext(reply)))
  {
    hide Inv, ProgressOk, StatusOk, AttemptsOk, Deliver;
    var e := s.worker.todo[0];
    assert e < |s.db.deliveries| && s.db.deliveries[e].status == Waiting;
    SameLength(s.db);
    DeliveryArrivals(s.db, e, reply);
    DeliveryKeepsStatus(s.db, e, reply);
    DeliveryKeepsProgress(s.db, e, reply);
    DeliveryKeepsAttempts(s, reply);
    DeliveryOutcome(s.db, e, reply);
    TakenKeepsWorker(s.db, Deliver(s.db, e, reply).db, s.worker, Deliver(s.db, e, reply).outcome);
  }

  // -- settling, retrying, selecting

  /** Transactions on deliveries alone leave processing untouched. */
  lemma DeliveriesKeepProgress(db: Db, next: Db)
    requires Inv(db) && ProgressOk(db) && next == db.(deliveries := next.deliveries)
    requires |next.deliveries| == |db.deliveries|
    ensures Inv(next) && ProgressOk(next) && forall e: Id :: Processed(next, e) == Processed(db, e)
  {
    RetryColumnsKeepInv(db, next);
    forall e: Id ensures Receives(next, e) == Receives(db, e) {
    }
  }

  lemma SettleKeepsRest(s: System)
    requires StatusOk(s.db) && AttemptsOk(s) && WorkerOk(s.db, s.worker) && s.worker.Settling?
    ensures var next := Do(s, Settle);
      StatusOk(next.db) && AttemptsOk(next) && WorkerOk(next.db, next.worker)
  {
    var next, todo := Do(s, Settle), s.worker.todo;
    forall i | 0 <= i < |todo| ensures todo[i] != s.worker.event {
      assert todo[i] in todo;
    }
    forall e: Id ensures Processed(next.db, e) == Processed(s.db, e) {
    }
  }

  lemma SettleKeepsSystem(s: System)
    requires SystemInv(s) && s.worker.Settling?
    ensures SystemInv(Do(s, Settle))
  {
    hide Inv, ProgressOk, StatusOk, AttemptsOk, WorkerOk;
    DeliveriesKeepProgress(s.db, Do(s, Settle).db);
    SettleKeepsRest(s);
  }

  lemma RetryKeepsSystem(s: System, e: Id, now: Time)
    requires SystemInv(s)
    ensures SystemInv(Do(s, ManualRetry(e, now)))
  {
    hide Inv, ProgressOk;
    DeliveriesKeepProgress(s.db, Do(s, ManualRetry(e, now)).db);
  }

  lemma SelectKeepsSystem(s: System, now: Time)
    requires SystemInv(s)
    ensures SystemInv(Do(s, Select(now)))
  {
    var ids := Eligible(s.db.deliveries, now);
    forall i | 0 <= i < |ids| ensures ids[i] < |s.db.deliveries| && s.db.deliveries[ids[i]].status == Waiting {
      assert ids[i] in ids;
    }
  }

  lemma MoveKeepsSystem(s: System, move: Move)
    requires SystemInv(s)
    ensures SystemInv(Do(s, move))
  {
    match move
    case MailArrives(mail) => ArrivalKeepsSystem(s, Ingest(mail));
    case ActionArrives(action) => ArrivalKeepsSystem(s, AgentProposes(action));
    case EventArrives(aggregate) => ArrivalKeepsSystem(s, OtherEvent(aggregate));
    case ManualRetry(e, now) => RetryKeepsSystem(s, e, now);
    case Select(now) => SelectKeepsSystem(s, now);
    case DeliverNext(reply) => if s.worker.Draining? && s.worker.todo != [] { DeliveryKeepsSystem(s, reply); }
    case Settle => if s.worker.Settling? { SettleKeepsSystem(s); }
    case Crash =>
  }

  lemma StartIsOk()
    ensures SystemInv(START)
  {
    hide Inv;
    EmptyInv();
  }

  lemma {:induction false} MovesKeepSystem(moves: seq<Move>)
    ensures SystemInv(DoAll(START, moves))
  {
    if moves == [] {
      StartIsOk();
    } else {
      MovesKeepSystem(moves[..|moves| - 1]);
      MoveKeepsSystem(DoAll(START, moves[..|moves| - 1]), moves[|moves| - 1]);
    }
  }

  /** The states the publisher and the other workers reach together. */
  ghost predicate Occurs(s: System) {
    exists moves :: s == DoAll(START, moves)
  }

  lemma OccurringInv(s: System)
    requires Occurs(s)
    ensures SystemInv(s)
  {
    var moves :| s == DoAll(START, moves);
    MovesKeepSystem(moves);
  }

  /** A published event has its consumer's marker and a failed one has not, and no event was
      attempted more than three times beyond its manual retries. */
  lemma PublishedExactlyWhenProcessed(s: System, e: Id)
    requires Occurs(s) && e < |s.db.deliveries|
    ensures s.db.deliveries[e].status == Published ==> Processed(s.db, e)
    ensures s.db.deliveries[e].status == Failed ==> !Processed(s.db, e)
    ensures s.db.deliveries[e].attempts <= MAX_OUTBOX_ATTEMPTS + Retries(s, e)
  {
    OccurringInv(s);
  }

  /** A mail's own state tells what happened: analysed, set aside, or still to do. */
  lemma ProcessingTellsOutcome(s: System, m: Id)
    requires Occurs(s) && m < |s.db.mails|
    ensures |s.db.progress| == |s.db.mails|
    ensures s.db.progress[m].processing == Succeeded <==> Analyzed(s.db.analyses, m)
    ensures s.db.progress[m].processing == NonJob ==> !s.db.mails[m].job
  {
    OccurringInv(s);
    assert Announced(s.db.events, MailReceived, m);
    var e: Id :| Announces(s.db.events, e, MailReceived, m);
    assert Receives(s.db, e);
  }

  /** The publisher among the other workers keeps one notification per mail. */
  lemma OneNotificationUnderCrashes(s: System, i: nat, j: nat)
    requires Occurs(s) && i < |s.db.notices| && j < |s.db.notices|
    requires s.db.notices[i].mail.Some? && s.db.notices[i].mail == s.db.notices[j].mail
    ensures i == j
  {
    OccurringInv(s);
    OneNotification(s.db, i, j);
  }

  // ---- One publishing round -----------------------------------------------------------------

  /** publish_once from its batch on: deliver and settle each event.  `llm` is what the LLM would
      answer about the mail of an event. */
  function PublishAll(db: Db, ids: seq<Id>, llm: Id -> Reply, now: Time): Db
    decreases |ids|
  {
    if ids == [] then db
    else
      var handled := Deliver(db, ids[0], llm(ids[0]));
      PublishAll(Apply(handled.db, SettleStep(ids[0], handled.outcome, now)), ids[1..], llm, now)
  }

  /** Delivering and settling one event changes no other delivery and no other event's processing. */
  lemma OneRound(db: Db, e: Id, llm: Id -> Reply, now: Time)
    requires Inv(db) && e < |db.events|
    ensures var handled := Deliver(db, e, llm(e));
      var next := Apply(handled.db, SettleStep(e, handled.outcome, now));
      && Inv(next) && |next.deliveries| >= |db.deliveries|
      && (forall f | 0 <= f < |db.deliveries| && f != e :: next.deliveries[f] == db.deliveries[f])
      && next.deliveries[e].attempts == db.deliveries[e].attempts + 1
      && (db.deliveries[e].status == Waiting ==> (next.deliveries[e].status == Published <==> Processed(next, e)))
      && (forall f: Id | f < |db.events| && f != e :: Processed(next, f) == Processed(db, f))
  {
    hide Inv, Deliver;
    var handled := Deliver(db, e, llm(e));
    SameLength(db);
    DeliveryArrivals(db, e, llm(e));
    SameLength(handled.db);
    DeliveryOutcome(db, e, llm(e));
    RetryColumnsKeepInv(handled.db, Apply(handled.db, SettleStep(e, handled.outcome, now)));
  }

  lemma {:induction false} RoundSettlesBatch(db: Db, ids: seq<Id>, llm: Id -> Reply, now: Time, e: Id)
    requires Inv(db) && Ascending(ids) && e < |db.events|
    requires forall i | 0 <= i < |ids| :: ids[i] < |db.events|
    ensures var after := PublishAll(db, ids, llm, now);
      && Inv(after) && |after.deliveries| >= |db.deliveries|
      && (e !in ids ==> after.deliveries[e] == db.deliveries[e] && Processed(after, e) == Processed(db, e))
      && (e in ids ==> after.deliveries[e].attempts == db.deliveries[e].attempts + 1)
      && (e in ids && db.deliveries[e].status == Waiting ==>
            (after.deliveries[e].status == Published <==> Processed(after, e)))
    decreases |ids|
  {
    if ids != [] {
      var handled := Deliver(db, ids[0], llm(ids[0]));
      var next := Apply(handled.db, SettleStep(ids[0], handled.outcome, now));
      OneRound(db, ids[0], llm, now);
      assert forall i | 0 <= i < |ids[1..]| :: ids[1..][i] == ids[i + 1];
      assert e in ids <==> e == ids[0] || e in ids[1..];
      RoundSettlesBatch(next, ids[1..], llm, now, e);
    }
  }

  /** One call of publish_once tries every due event once and no other, and publishes exactly those
      whose effect is now in place. */
  lemma RoundTriesEveryDueEvent(db: Db, llm: Id -> Reply, now: Time, e: Id)
    requires Inv(db) && e < |db.events|
    ensures var after := PublishAll(db, Eligible(db.deliveries, now), llm, now);
      && |after.deliveries| >= |db.deliveries|
      && if Due(db.deliveries[e], now)
         then after.deliveries[e].attempts == db.deliveries[e].attempts + 1
              && (after.deliveries[e].status == Published <==> Processed(after, e))
         else after.deliveries[e] == db.deliveries[e]
  {
    var ids := Eligible(db.deliveries, now);
    forall i | 0 <= i < |ids| ensures ids[i] < |db.events| {
      assert ids[i] in ids;
    }
    RoundSettlesBatch(db, ids, llm, now, e);
  }

  // ---- What a delivery does -----------------------------------------------------------------

  /** What delivering the unprocessed receipt of a mail does, by the mail and the LLM's reply. */
  ghost predicate ReceiptHandled(before: Db, after: Db, outcome: Outcome, e: Id, reply: Reply)
    requires Receives(before, e)
  {
    var m := before.events[e].aggregate;
    && |after.progress| == |before.progress| && m < |before.progress|
    && (forall k | 0 <= k < |before.progress| && k != m :: after.progress[k] == before.progress[k])
    && after.notices == before.notices && after.actions == before.actions && after.mails == before.mails
    && if !before.mails[m].job then
         && outcome == Delivered && after.markers == before.markers + {e} && after.analyses == before.analyses
         && after.progress[m] == Progress(NonJob, before.progress[m].attempts)
       else
         match reply
         case Answer(v) =>
           && outcome == Delivered && after.markers == before.markers + {e}
           && after.analyses == before.analyses + [Analysis(m, v)] && SaysOf(after.analyses, m, v)
           && after.progress[m] == Progress(Succeeded, before.progress[m].attempts + 1)
         case Unavailable(retryable) =>
           && outcome == (if retryable then Raised(false) else Raised(true))
           && after.markers == before.markers && after.analyses == before.analyses && after.events == before.events
           && after.progress[m] == Progress(if retryable then RetryWait else AnalysisFailed,
                                            before.progress[m].attempts + 1)
  }

  lemma ReceiptsExist(db: Db, e: Id)
    requires Inv(db) && IsEvent(db, e, MailReceived)
    ensures Receives(db, e)
  {
  }

  lemma DeliverHandlesReceipt(db: Db, e: Id, reply: Reply)
    requires Inv(db) && Receives(db, e) && e !in db.markers
    ensures var handled := Deliver(db, e, reply); ReceiptHandled(db, handled.db, handled.outcome, e, reply)
  {
    if db.mails[db.events[e].aggregate].job && reply.Answer? {
      PersistStores(db, e, reply.verdict);
    }
  }

  /** What delivering the unprocessed event of an analysis does, by the stored verdict. */
  ghost predicate AnalysisRouted(before: Db, after: Db, outcome: Outcome, e: Id)
    requires Routes(before, e)
  {
    var a := before.events[e].aggregate;
    var analysis := before.analyses[a];
    && after.mails == before.mails && after.analyses == before.analyses && after.progress == before.progress
    && if analysis.verdict.shouldUpdate && !analysis.verdict.usable then outcome == Raised(false) && after == before
       else
         && outcome == Delivered && after.markers == before.markers + {e}
         && if analysis.verdict.shouldUpdate
            then
              && after.actions == before.actions + [FromMail(a)] && after.notices == before.notices
              && after.events == before.events + [Event(ActionCreated, |before.actions|)]
            else
              && after.notices == before.notices + [Notice(JobMail, e, Some(analysis.mail))]
              && after.actions == before.actions && after.events == before.events
  }

  lemma DeliverRoutes(db: Db, e: Id, reply: Reply)
    requires Inv(db) && Routes(db, e) && e !in db.markers
    ensures var handled := Deliver(db, e, reply); AnalysisRouted(db, handled.db, handled.outcome, e)
  {
  }

  /** What delivering the unprocessed event of an action does, by the action. */
  ghost predicate ActionNotified(before: Db, after: Db, outcome: Outcome, e: Id)
    requires IsEvent(before, e, ActionCreated) && before.events[e].aggregate < |before.actions|
  {
    && after.mails == before.mails && after.analyses == before.analyses && after.progress == before.progress
    && after.actions == before.actions && after.events == before.events
    && match before.actions[before.events[e].aggregate]
       case AgentStatus => outcome == Raised(false) && after == before
       case AgentKnowledge =>
         && outcome == Delivered && after.markers == before.markers + {e}
         && after.notices == before.notices + [Notice(Confirmation, e, None)]
       case FromMail(a) =>
         && a < |before.analyses| && outcome == Delivered && after.markers == before.markers + {e}
         && after.notices == before.notices + [Notice(Confirmation, e, Some(before.analyses[a].mail))]
  }

  lemma DeliverNotifies(db: Db, e: Id, reply: Reply)
    requires Inv(db) && IsEvent(db, e, ActionCreated) && e !in db.markers
    ensures db.events[e].aggregate < |db.actions|
    ensures var handled := Deliver(db, e, reply); ActionNotified(db, handled.db, handled.outcome, e)
  {
  }

  /** An event already processed, or of a type without consumer, is delivered without any effect. */
  lemma DeliverAgainDoesNothing(db: Db, e: Id, reply: Reply)
    requires e < |db.events| && (e in db.markers || db.events[e].kind == Unconsumed)
    ensures Deliver(db, e, reply) == Handled(db, Delivered)
  {
  }

  /** One try of a due receipt whose LLM call fails: a permanent error fails the event at once, a
      retryable one at the third attempt, and until then it is due again after five minutes. */
  lemma LlmErrorsSettle(db: Db, e: Id, retryable: bool, now: Time)
    requires Inv(db) && Receives(db, e) && e !in db.markers && db.mails[db.events[e].aggregate].job
    requires e < |db.deliveries| && db.deliveries[e].status == Waiting
    ensures var handled := Deliver(db, e, Unavailable(retryable));
      var after := Apply(handled.db, SettleStep(e, handled.outcome, now));
      && e < |after.deliveries| && after.deliveries[e].attempts == db.deliveries[e].attempts + 1
      && (after.deliveries[e].status == Failed <==> !retryable || db.deliveries[e].attempts + 1 >= 3)
      && (forall later :: Due(after.deliveries[e], later) <==>
            retryable && db.deliveries[e].attempts + 1 < 3 && now + 300 <= later)
  {
  }

  /** An event that does not exist, and a receipt without its mail, raise and are tried again. */
  lemma MissingRaises(db: Db, e: Id, reply: Reply)
    requires e >= |db.events| || (IsEvent(db, e, MailReceived) && e !in db.markers && !Receives(db, e))
    ensures Deliver(db, e, reply) == Handled(db, Raised(false))
  {
  }

  // ---- Agent status actions -----------------------------------------------------------------

  /** A waiting event of an action raises exactly when the action is an agent's status action. */
  lemma RaisesIffAgentStatus(db: Db, e: Id, reply: Reply)
    requires Inv(db) && IsEvent(db, e, ActionCreated) && e !in db.markers
    ensures Deliver(db, e, reply).outcome.Raised? <==> Unconfirmable(db, e)
    ensures Unconfirmable(db, e) ==> Deliver(db, e, reply) == Handled(db, Raised(false))
  {
  }

  /** In every state that occurs, such an event is not published; after three tries, and one more
      per manual retry, it is failed. */
  lemma AgentStatusEndsFailed(s: System, e: Id)
    requires Occurs(s) && Unconfirmable(s.db, e)
    ensures e < |s.db.deliveries| && e !in s.db.markers
    ensures s.db.deliveries[e].status == Waiting || s.db.deliveries[e].status == Failed
    ensures s.db.deliveries[e].attempts >= MAX_OUTBOX_ATTEMPTS + Retries(s, e) ==> s.db.deliveries[e].status == Failed
  {
    OccurringInv(s);
    AgentStatusIsNeverNotified(s.db, e);
  }

  lemma DeliverKeepsUnconfirmable(db: Db, f: Id, reply: Reply, e: Id)
    requires Unconfirmable(db, e)
    ensures Unconfirmable(Deliver(db, f, reply).db, e)
  {
  }

  /** What a try that raises leaves of a delivery. */
  function Tried(delivery: Delivery, now: Time): Delivery {
    if delivery.attempts + 1 >= MAX_OUTBOX_ATTEMPTS then Delivery(Failed, delivery.attempts + 1, None)
    else delivery.(attempts := delivery.attempts + 1, retryAt := Some(now + RETRY_DELAY))
  }

  lemma OneRoundOfAgentStatus(db: Db, f: Id, llm: Id -> Reply, now: Time, e: Id)
    requires Inv(db) && f < |db.events| && Unconfirmable(db, e)
    ensures var handled := Deliver(db, f, llm(f));
      var next := Apply(handled.db, SettleStep(f, handled.outcome, now));
      && Inv(next) && Unconfirmable(next, e) && |next.deliveries| >= |db.deliveries| == |db.events|
      && |next.events| >= |db.events|
      && next.deliveries[e] == if e == f then Tried(db.deliveries[e], now) else db.deliveries[e]
  {
    hide Inv;
    OneRound(db, f, llm, now);
    SameLength(db);
    SameLength(Apply(Deliver(db, f, llm(f)).db, SettleStep(f, Deliver(db, f, llm(f)).outcome, now)));
    DeliverKeepsUnconfirmable(db, f, llm(f), e);
    if e == f {
      AgentStatusIsNeverNotified(db, e);
      RaisesIffAgentStatus(db, e, llm(e));
    }
  }

  lemma {:induction false} BatchTriesAgentStatus(db: Db, ids: seq<Id>, llm: Id -> Reply, now: Time, e: Id)
    requires Inv(db) && Ascending(ids) && Unconfirmable(db, e)
    requires forall i | 0 <= i < |ids| :: ids[i] < |db.events|
    ensures var after := PublishAll(db, ids, llm, now);
      && Inv(after) && Unconfirmable(after, e) && e < |db.deliveries| <= |after.deliveries|
      && after.deliveries[e] == if e in ids then Tried(db.deliveries[e], now) else db.deliveries[e]
    decreases |ids|
  {
    hide Inv, Unconfirmable, Tried, Deliver, Apply, SettleStep;
    SameLength(db);
    AgentStatusIsEvent(db, e);
    if ids != [] {
      var handled := Deliver(db, ids[0], llm(ids[0]));
      var next := Apply(handled.db, SettleStep(ids[0], handled.outcome, now));
      OneRoundOfAgentStatus(db, ids[0], llm, now, e);
      assert forall i | 0 <= i < |ids[1..]| :: ids[1..][i] == ids[i + 1];
      assert e in ids <==> e == ids[0] || e in ids[1..];
      BatchTriesAgentStatus(next, ids[1..], llm, now, e);
    }
  }

  lemma AgentStatusIsEvent(db: Db, e: Id)
    requires Unconfirmable(db, e)
    ensures e < |db.events|
  {
  }

  /** One publishing round. */
  function PublishRound(db: Db, llm: Id -> Reply, now: Time): Db {
    PublishAll(db, Eligible(db.deliveries, now), llm, now)
  }

  lemma RoundTriesAgentStatus(db: Db, llm: Id -> Reply, now: Time, e: Id)
    requires Inv(db) && Unconfirmable(db, e)
    ensures var after := PublishRound(db, llm, now);
      && Inv(after) && Unconfirmable(after, e) && e < |db.deliveries| <= |after.deliveries|
      && after.deliveries[e] == if Due(db.deliveries[e], now) then Tried(db.deliveries[e], now) else db.deliveries[e]
  {
    var ids := Eligible(db.deliveries, now);
    hide Inv, Unconfirmable, Tried, PublishAll;
    SameLength(db);
    forall i | 0 <= i < |ids| ensures ids[i] < |db.events| {
      assert ids[i] in ids;
    }
    AgentStatusIsEvent(db, e);
    BatchTriesAgentStatus(db, ids, llm, now, e);
  }

  /** The other workers' transactions since the last round, then one publishing round. */
  datatype Round = Round(others: seq<Step>, llm: Id -> Reply, now: Time)

  function AfterRound(db: Db, round: Round): Db {
    PublishRound(Run(db, round.others), round.llm, round.now)
  }

  /** The step does not settle or requeue event e, which only the publisher and an operator do. */
  predicate LeavesDelivery(step: Step, e: Id) {
    (step.Publish? || step.Fail? || step.Retry?) ==> step.event != e
  }

  predicate AllLeave(steps: seq<Step>, e: Id) {
    forall i | 0 <= i < |steps| :: LeavesDelivery(steps[i], e)
  }

  lemma StepLeaves(db: Db, step: Step, e: Id)
    requires Unconfirmable(db, e) && e < |db.deliveries| && LeavesDelivery(step, e)
    ensures var next := Apply(db, step);
      Unconfirmable(next, e) && e < |next.deliveries| && next.deliveries[e] == db.deliveries[e]
  {
  }

  lemma {:induction false} StepsLeave(db: Db, steps: seq<Step>, e: Id)
    requires Inv(db) && Unconfirmable(db, e) && e < |db.deliveries| && AllLeave(steps, e)
    ensures var next := Run(db, steps);
      Inv(next) && Unconfirmable(next, e) && e < |next.deliveries| && next.deliveries[e] == db.deliveries[e]
  {
    if steps != [] {
      hide Inv, Unconfirmable, Apply, LeavesDelivery;
      StepsLeave(db, steps[..|steps| - 1], e);
      StepKeepsInv(Run(db, steps[..|steps| - 1]), steps[|steps| - 1]);
      StepLeaves(Run(db, steps[..|steps| - 1]), steps[|steps| - 1], e);
    }
  }

  lemma AfterRoundTries(db: Db, round: Round, e: Id)
    requires Inv(db) && Unconfirmable(db, e) && e < |db.deliveries| && AllLeave(round.others, e)
    ensures var after := AfterRound(db, round);
      && Inv(after) && Unconfirmable(after, e) && e < |after.deliveries|
      && after.deliveries[e]
         == if Due(db.deliveries[e], round.now) then Tried(db.deliveries[e], round.now) else db.deliveries[e]
  {
    hide Inv, Unconfirmable, PublishRound, Run, AllLeave, Tried, Due;
    StepsLeave(db, round.others, e);
    RoundTriesAgentStatus(Run(db, round.others), round.llm, round.now, e);
  }

  /** Three rounds, each at least the retry delay after the one before, leave a new event of an
      agent's status action FAILED: whatever the LLM answers in each of them, whatever else is
      published, and whatever the other workers do before and between them. */
  lemma ThreeRoundsFailAgentStatus(db: Db, e: Id, first: Round, second: Round, third: Round)
    requires Inv(db) && Unconfirmable(db, e)
    requires e < |db.deliveries| && db.deliveries[e] == Delivery(Waiting, 0, None)
    requires AllLeave(first.others, e) && AllLeave(second.others, e) && AllLeave(third.others, e)
    requires first.now + RETRY_DELAY <= second.now && second.now + RETRY_DELAY <= third.now
    ensures var after := AfterRound(AfterRound(AfterRound(db, first), second), third);
      e < |after.deliveries| && after.deliveries[e] == Delivery(Failed, 3, None) && e !in after.markers
  {
    hide Inv, Unconfirmable, AfterRound, AllLeave;
    var once := AfterRound(db, first);
    var twice := AfterRound(once, second);
    AfterRoundTries(db, first, e);
    AfterRoundTries(once, second, e);
    AfterRoundTries(twice, third, e);
    AgentStatusIsNeverNotified(AfterRound(twice, third), e);
  }

  /** The mail tables as the service changes them. */
  class Pipeline {
    var mails: seq<Mail>
    var progress: seq<Progress>
    var analyses: seq<Analysis>
    var actions: seq<Action>
    var notices: seq<Notice>
    var events: seq<Event>
    var deliveries: seq<Delivery>
    var markers: set<Id>

    ghost function Tables(): Db
      reads this
    {
      Db(mails, progress, analyses, actions, notices, events, deliveries, markers)
    }

    constructor ()
      ensures Tables() == EMPTY
    {
      mails, progress, analyses, actions, notices, events, deliveries, markers := [], [], [], [], [], [], [], {};
    }

    method AddEvent(kind: Kind, aggregate: Id)
      modifies `events, `deliveries
      ensures Tables() == Emit(old(Tables()), kind, aggregate)
    {
      events := events + [Event(kind, aggregate)];
      deliveries := deliveries + [Delivery(Waiting, 0, None)];
    }

    method IngestMail(mail: Mail) returns (created: bool)
      modifies this
      ensures Tables() == IngestTx(old(Tables()), mail)
      ensures created <==> forall m | 0 <= m < |old(mails)| :: old(mails)[m].provider != mail.provider
      ensures created ==>
        && mails == old(mails) + [mail] && events == old(events) + [Event(MailReceived, |old(mails)|)]
        && progress == old(progress) + [Progress(Unprocessed, 0)]
        && deliveries == old(deliveries) + [Delivery(Waiting, 0, None)]
      ensures !created ==> Tables() == old(Tables())
    {
      created := !Known(mails, mail.provider);
      if created {
        AddEvent(MailReceived, |mails|);
        mails := mails + [mail];
        progress := progress + [Progress(Unprocessed, 0)];
      }
    }

    /** consume_mail_received with analyze_mail and persist_analysis. */
    method ConsumeMailReceived(e: Id, reply: Reply) returns (outcome: Outcome)
      requires IsEvent(Tables(), e, MailReceived) && |progress| == |mails|
      modifies this
      ensures Handled(Tables(), outcome) == Deliver(old(Tables()), e, reply)
      ensures old(Inv(Tables())) && e !in old(markers) ==>
        old(Receives(Tables(), e)) && ReceiptHandled(old(Tables()), Tables(), outcome, e, reply)
      ensures e in old(markers) ==> outcome == Delivered && Tables() == old(Tables())
    {
      hide Inv, ReceiptHandled;
      if Inv(Tables()) && e !in markers {
        ReceiptsExist(Tables(), e);
        DeliverHandlesReceipt(Tables(), e, reply);
      }
      if e in markers {
        return Delivered;
      }
      var m := events[e].aggregate;
      if m >= |mails| {
        return Raised(false);
      }
      if !mails[m].job {
        progress := progress[m := Progress(NonJob, progress[m].attempts)];
        markers := markers + {e};
        return Delivered;
      }
      if reply.Unavailable? {
        progress := progress[m := Progress(if reply.retryable then RetryWait else AnalysisFailed,
                                           progress[m].attempts + 1)];
        return Raised(!reply.retryable);
      }
      if Analyzed(analyses, m) {
        analyses := Overwrite(analyses, m, reply.verdict);
      } else {
        AddEvent(JobMailAnalyzed, |analyses|);
        analyses := analyses + [Analysis(m, reply.verdict)];
      }
      progress := progress[m := Progress(Succeeded, progress[m].attempts + 1)];
      markers := markers + {e};
      return Delivered;
    }

    /** consume_job_analyzed; a duplicate notification row would violate its unique key, which Inv excludes. */
    method ConsumeJobAnalyzed(e: Id) returns (outcome: Outcome)
      requires IsEvent(Tables(), e, JobMailAnalyzed) && Inv(Tables())
      modifies this
      ensures forall reply :: Handled(Tables(), outcome) == Deliver(old(Tables()), e, reply)
      ensures old(Routes(Tables(), e))
      ensures if e in old(markers) then outcome == Delivered && Tables() == old(Tables())
              else AnalysisRouted(old(Tables()), Tables(), outcome, e)
    {
      if e in markers {
        return Delivered;
      }
      var a := events[e].aggregate;
      assert Routes(Tables(), e);
      if analyses[a].verdict.shouldUpdate {
        if !analyses[a].verdict.usable {
          return Raised(false);
        }
        if !Proposed(actions, a) {
          AddEvent(ActionCreated, |actions|);
          actions := actions + [FromMail(a)];
        }
      } else {
        notices := notices + [Notice(JobMail, e, Some(analyses[a].mail))];
      }
      markers := markers + {e};
      return Delivered;
    }

    /** consume_action_created */
    method ConsumeActionCreated(e: Id) returns (outcome: Outcome)
      requires IsEvent(Tables(), e, ActionCreated) && Inv(Tables())
      modifies this
      ensures forall reply :: Handled(Tables(), outcome) == Deliver(old(Tables()), e, reply)
      ensures old(events)[e].aggregate < |old(actions)|
      ensures if e in old(markers) then outcome == Delivered && Tables() == old(Tables())
              else ActionNotified(old(Tables()), Tables(), outcome, e)
    {
      if e in markers {
        return Delivered;
      }
      var action := actions[events[e].aggregate];
      if action == AgentStatus {
        return Raised(false);
      }
      var mail := if action.FromMail? then Some(analyses[action.analysis].mail) else None;
      notices := notices + [Notice(Confirmation, e, mail)];
      markers := markers + {e};
      return Delivered;
    }

    method DeliverEvent(e: Id, reply: Reply) returns (outcome: Outcome)
      requires Inv(Tables())
      modifies this
      ensures Handled(Tables(), outcome) == Deliver(old(Tables()), e, reply)
    {
      if e >= |events| {
        return Raised(false);
      }
      match events[e].kind
      case Unconsumed => outcome := Delivered;
      case MailReceived => outcome := ConsumeMailReceived(e, reply);
      case JobMailAnalyzed => outcome := ConsumeJobAnalyzed(e);
      case ActionCreated => outcome := ConsumeActionCreated(e);
    }

    method SettleEvent(e: Id, outcome: Outcome, now: Time)
      modifies `deliveries
      ensures Tables() == Apply(old(Tables()), SettleStep(e, outcome, now))
      ensures old(Inv(Tables())) ==> Inv(Tables())
      ensures old(StatusOk(Tables())) && (outcome == Delivered <==> old(Processed(Tables(), e))) ==> StatusOk(Tables())
      ensures e < |deliveries| && old(deliveries[e].status) == Waiting ==>
        && deliveries[e].attempts == old(deliveries[e].attempts) + 1
        && (deliveries[e].status == Published <==> outcome == Delivered)
        && (forall later :: Due(deliveries[e], later) <==>
              outcome == Raised(false) && deliveries[e].attempts < MAX_OUTBOX_ATTEMPTS && now + RETRY_DELAY <= later)
      ensures |deliveries| == |old(deliveries)|
      ensures forall f | 0 <= f < |deliveries| && f != e :: deliveries[f] == old(deliveries)[f]
    {
      hide Inv;
      if Inv(Tables()) {
        RetryColumnsKeepInv(Tables(), Apply(Tables(), SettleStep(e, outcome, now)));
      }
      assert forall f: Id ::
        Processed(Apply(Tables(), SettleStep(e, outcome, now)), f) == Processed(Tables(), f);
      if e >= |deliveries| {
        return;
      }
      var attempts := deliveries[e].attempts + 1;
      match outcome
      case Delivered => deliveries := deliveries[e := Delivery(Published, attempts, None)];
      case Raised(terminal) =>
        if terminal || attempts >= MAX_OUTBOX_ATTEMPTS {
          deliveries := deliveries[e := Delivery(Failed, attempts, None)];
        } else {
          deliveries := deliveries[e := deliveries[e].(attempts := attempts, retryAt := Some(now + RETRY_DELAY))];
        }
    }

    /** publish_once */
    method PublishOnce(now: Time, llm: Id -> Reply) returns (tried: nat)
      requires Inv(Tables())
      modifies this
      ensures Tables() == PublishAll(old(Tables()), Eligible(old(deliveries), now), llm, now)
      ensures Inv(Tables())
      ensures tried == |Eligible(old(deliveries), now)|
    {
      var ids := Eligible(deliveries, now);
      forall i | 0 <= i < |ids| ensures ids[i] < |events| {
        assert ids[i] in ids;
      }
      for k := 0 to |ids|
        invariant Inv(Tables()) && |events| >= |old(events)|
        invariant PublishAll(Tables(), ids[k..], llm, now) == PublishAll(old(Tables()), ids, llm, now)
      {
        assert ids[k..][0] == ids[k] && ids[k..][1..] == ids[k + 1..];
        OneRound(Tables(), ids[k], llm, now);
        var outcome := DeliverEvent(ids[k], llm(ids[k]));
        SettleEvent(ids[k], outcome, now);
      }
      tried := |ids|;
    }

    method RetryOutboxEvent(e: Id, now: Time) returns (changed: bool)
      modifies `deliveries
      ensures Tables() == RetryTx(old(Tables()), e, now)
      ensures changed <==> e < |old(deliveries)| && old(deliveries)[e].status == Failed
      ensures changed ==>
        && e < |deliveries| && deliveries == old(deliveries)[e := deliveries[e]]
        && deliveries[e] == Delivery(Waiting, old(deliveries)[e].attempts, Some(now))
      ensures !changed ==> Tables() == old(Tables())
    {
      if e >= |deliveries| || deliveries[e].status != Failed {
        return false;
      }
      deliveries := deliveries[e := deliveries[e].(status := Waiting, retryAt := Some(now))];
      return true;
    }
  }
}
