/** From a received mail to its one notification, through the outbox.

    Table rows are append-only here, so the id of a row is its position.  The facts of a row and the
    columns that change on retries are kept side by side: `mails` with `progress`, `events` with
    `deliveries`.  Every function named `...Tx` is one transaction; a unique-key violation rolls it
    back.  Nothing in this module assumes a single publisher. */
module MailEvents {
  import opened Wrappers

  type Id = nat
  type Time = int

  const MAX_OUTBOX_ATTEMPTS: nat := 3
  const RETRY_DELAY: Time := 300

  /** `job` is what classify_mail says of the frozen subject and content. */
  datatype Mail = Mail(provider: string, job: bool)

  datatype Processing = Unprocessed | Succeeded | RetryWait | AnalysisFailed | NonJob

  datatype Progress = Progress(processing: Processing, attempts: nat)

  /** The part of an LLM analysis that routing reads; `usable` says that the suggested update passes
      the validator of StatusUpdateArguments. */
  datatype Verdict = Verdict(shouldUpdate: bool, usable: bool)

  datatype Analysis = Analysis(mail: Id, verdict: Verdict)

  datatype Action = FromMail(analysis: Id) | AgentStatus | AgentKnowledge

  /** Event types with the consumer each one has; every other type is delivered to nobody. */
  datatype Kind = MailReceived | JobMailAnalyzed | ActionCreated | Unconsumed

  datatype Event = Event(kind: Kind, aggregate: Id)

  datatype Status = Waiting | Published | Failed

  datatype Delivery = Delivery(status: Status, attempts: nat, retryAt: Option<Time>)

  datatype NoticeType = JobMail | Confirmation

  datatype Notice = Notice(kind: NoticeType, source: Id, mail: Option<Id>)

  /** `markers` holds the processed events: an event type has one consumer, so the unique key
      (consumer, event) is the event. */
  datatype Db = Db(
    mails: seq<Mail>, progress: seq<Progress>, analyses: seq<Analysis>, actions: seq<Action>,
    notices: seq<Notice>, events: seq<Event>, deliveries: seq<Delivery>, markers: set<Id>)

  const EMPTY := Db([], [], [], [], [], [], [], {})

  // ---- Transactions -------------------------------------------------------------------------

  function Emit(db: Db, kind: Kind, aggregate: Id): Db {
    db.(events := db.events + [Event(kind, aggregate)],
        deliveries := db.deliveries + [Delivery(Waiting, 0, None)])
  }

  predicate IsEvent(db: Db, e: Id, kind: Kind) {
    e < |db.events| && db.events[e].kind == kind
  }

  predicate Known(mails: seq<Mail>, provider: string) {
    exists m :: m in mails && m.provider == provider
  }

  function IngestTx(db: Db, mail: Mail): Db {
    if Known(db.mails, mail.provider) then db
    else
      Emit(db.(mails := db.mails + [mail], progress := db.progress + [Progress(Unprocessed, 0)]),
           MailReceived, |db.mails|)
  }

  function SetProgress(db: Db, m: Id, processing: Processing, counted: bool): Db {
    if m >= |db.progress| then db
    else
      var before := db.progress[m];
      db.(progress := db.progress[m := Progress(processing, before.attempts + if counted then 1 else 0)])
  }

  /** The mail a MAIL_RECEIVED event is about, when there is such an event and such a mail. */
  predicate Receives(db: Db, e: Id) {
    IsEvent(db, e, MailReceived) && db.events[e].aggregate < |db.mails|
  }

  /** analyze_mail for a mail that is no job mail. */
  function NonJobTx(db: Db, e: Id): Db {
    if !Receives(db, e) || db.mails[db.events[e].aggregate].job || e in db.markers then db
    else SetProgress(db, db.events[e].aggregate, NonJob, false).(markers := db.markers + {e})
  }

  predicate Analyzed(analyses: seq<Analysis>, m: Id) {
    exists a :: a in analyses && a.mail == m
  }

  function Overwrite(analyses: seq<Analysis>, m: Id, verdict: Verdict): seq<Analysis> {
    if analyses == [] then []
    else [if analyses[0].mail == m then Analysis(m, verdict) else analyses[0]] + Overwrite(analyses[1..], m, verdict)
  }

  /** persist_analysis: insert with its event, or overwrite, and mark the event. */
  function PersistTx(db: Db, e: Id, verdict: Verdict): Db {
    if !Receives(db, e) || !db.mails[db.events[e].aggregate].job || e in db.markers then db
    else
      var m := db.events[e].aggregate;
      var upserted :=
        if Analyzed(db.analyses, m) then db.(analyses := Overwrite(db.analyses, m, verdict))
        else Emit(db.(analyses := db.analyses + [Analysis(m, verdict)]), JobMailAnalyzed, |db.analyses|);
      SetProgress(upserted, m, Succeeded, true).(markers := db.markers + {e})
  }

  /** mark_analysis_failure */
  function MarkFailureTx(db: Db, m: Id, retryable: bool): Db {
    SetProgress(db, m, if retryable then RetryWait else AnalysisFailed, true)
  }

  predicate Routable(db: Db, e: Id) {
    && IsEvent(db, e, JobMailAnalyzed) && db.events[e].aggregate < |db.analyses|
    && var verdict := db.analyses[db.events[e].aggregate].verdict; (verdict.shouldUpdate ==> verdict.usable)
  }

  predicate Proposed(actions: seq<Action>, a: Id) {
    FromMail(a) in actions
  }

  predicate Noticed(notices: seq<Notice>, kind: NoticeType, e: Id) {
    exists n :: n in notices && n.kind == kind && n.source == e
  }

  function ProposeAction(db: Db, action: Action): Db {
    Emit(db.(actions := db.actions + [action]), ActionCreated, |db.actions|)
  }

  /** consume_job_analyzed */
  function RouteTx(db: Db, e: Id): Db {
    if !Routable(db, e) || e in db.markers then db
    else
      var a := db.events[e].aggregate;
      if db.analyses[a].verdict.shouldUpdate then
        (if Proposed(db.actions, a) then db else ProposeAction(db, FromMail(a))).(markers := db.markers + {e})
      else if Noticed(db.notices, JobMail, e) then db
      else
        db.(notices := db.notices + [Notice(JobMail, e, Some(db.analyses[a].mail))], markers := db.markers + {e})
  }

  /** An action the confirmation consumer accepts: agent status actions are refused as mismatched. */
  predicate Notifiable(db: Db, e: Id) {
    && IsEvent(db, e, ActionCreated) && db.events[e].aggregate < |db.actions|
    && match db.actions[db.events[e].aggregate]
       case FromMail(a) => a < |db.analyses|
       case AgentKnowledge => true
       case AgentStatus => false
  }

  function MailOf(db: Db, action: Action): Option<Id> {
    if action.FromMail? && action.analysis < |db.analyses| then Some(db.analyses[action.analysis].mail) else None
  }

  /** consume_action_created */
  function NotifyTx(db: Db, e: Id): Db {
    if !Notifiable(db, e) || e in db.markers || Noticed(db.notices, Confirmation, e) then db
    else
      var notice := Notice(Confirmation, e, MailOf(db, db.actions[db.events[e].aggregate]));
      db.(notices := db.notices + [notice], markers := db.markers + {e})
  }

  function SetDelivery(db: Db, e: Id, delivery: Delivery): Db {
    if e >= |db.deliveries| then db else db.(deliveries := db.deliveries[e := delivery])
  }

  function PublishTx(db: Db, e: Id): Db {
    if e >= |db.deliveries| then db
    else SetDelivery(db, e, Delivery(Published, db.deliveries[e].attempts + 1, None))
  }

  function FailTx(db: Db, e: Id, terminal: bool, now: Time): Db {
    if e >= |db.deliveries| then db
    else
      var attempts := db.deliveries[e].attempts + 1;
      if terminal || attempts >= MAX_OUTBOX_ATTEMPTS then SetDelivery(db, e, Delivery(Failed, attempts, None))
      else SetDelivery(db, e, db.deliveries[e].(attempts := attempts, retryAt := Some(now + RETRY_DELAY)))
  }

  /** retry_outbox_event */
  function RetryTx(db: Db, e: Id, now: Time): Db {
    if e >= |db.deliveries| || db.deliveries[e].status != Failed then db
    else SetDelivery(db, e, db.deliveries[e].(status := Waiting, retryAt := Some(now)))
  }

  datatype Step =
    | Ingest(mail: Mail)
    | AgentProposes(action: Action)          // an action the agent created, with its event
    | OtherEvent(aggregate: Id)              // an event nobody consumes
    | MarkNonJob(event: Id)
    | Persist(event: Id, verdict: Verdict)
    | MarkFailure(mailId: Id, retryable: bool)
    | Route(event: Id)
    | Notify(event: Id)
    | Publish(event: Id)
    | Fail(event: Id, terminal: bool, now: Time)
    | Retry(event: Id, now: Time)

  function Apply(db: Db, step: Step): Db {
    match step
    case Ingest(mail) => IngestTx(db, mail)
    case AgentProposes(action) => if action.FromMail? then db else ProposeAction(db, action)
    case OtherEvent(aggregate) => Emit(db, Unconsumed, aggregate)
    case MarkNonJob(e) => NonJobTx(db, e)
    case Persist(e, verdict) => PersistTx(db, e, verdict)
    case MarkFailure(m, retryable) => MarkFailureTx(db, m, retryable)
    case Route(e) => RouteTx(db, e)
    case Notify(e) => NotifyTx(db, e)
    case Publish(e) => PublishTx(db, e)
    case Fail(e, terminal, now) => FailTx(db, e, terminal, now)
    case Retry(e, now) => RetryTx(db, e, now)
  }

  function Run(db: Db, steps: seq<Step>): Db {
    if steps == [] then db else Apply(Run(db, steps[..|steps| - 1]), steps[|steps| - 1])
  }

  // ---- Events and rows, one for one ---------------------------------------------------------

  ghost predicate Announces(events: seq<Event>, e: Id, kind: Kind, aggregate: Id) {
    e < |events| && events[e] == Event(kind, aggregate)
  }

  ghost predicate Announced(events: seq<Event>, kind: Kind, aggregate: Id) {
    exists e: Id :: Announces(events, e, kind, aggregate)
  }

  /** Rows 0..n-1 and the events of this kind correspond one to one. */
  ghost predicate OneEach(events: seq<Event>, kind: Kind, n: nat) {
    && (forall e: Id | e < |events| && events[e].kind == kind :: events[e].aggregate < n)
    && (forall r: Id | r < n :: Announced(events, kind, r))
    && (forall e: Id, f: Id | e < |events| && f < |events| && events[e].kind == kind && events[e] == events[f] ::
          e == f)
  }

  lemma EmitKeepsOneEach(events: seq<Event>, kind: Kind, n: nat, event: Event)
    requires OneEach(events, kind, n)
    requires event.kind == kind ==> event.aggregate == n
    ensures OneEach(events + [event], kind, if event.kind == kind then n + 1 else n)
  {
    var after := events + [event];
    forall r: Id | r < if event.kind == kind then n + 1 else n
      ensures Announced(after, kind, r)
    {
      if r < n {
        assert Announced(events, kind, r);
        var e: Id :| Announces(events, e, kind, r);
        assert Announces(after, e, kind, r);
      } else {
        assert Announces(after, |events|, kind, r);
      }
    }
  }

  // ---- The invariant, for any interleaving --------------------------------------------------

  ghost predicate EventsOk(db: Db) {
    && OneEach(db.events, MailReceived, |db.mails|)
    && OneEach(db.events, JobMailAnalyzed, |db.analyses|)
    && OneEach(db.events, ActionCreated, |db.actions|)
    && |db.deliveries| == |db.events| && |db.progress| == |db.mails|
    && (forall e | e in db.markers :: e < |db.events|)
  }

  ghost predicate MailsDistinct(mails: seq<Mail>) {
    forall i, j | 0 <= i < j < |mails| :: mails[i].provider != mails[j].provider
  }

  ghost predicate AnalysesDistinct(analyses: seq<Analysis>, n: nat) {
    && (forall i | 0 <= i < |analyses| :: analyses[i].mail < n)
    && (forall i, j | 0 <= i < j < |analyses| :: analyses[i].mail != analyses[j].mail)
  }

  /** A mail has its analysis exactly when it is a job mail and its receipt is processed. */
  ghost predicate ReceiptsOk(db: Db) {
    forall e: Id | Receives(db, e) ::
      Analyzed(db.analyses, db.events[e].aggregate) <==> e in db.markers && db.mails[db.events[e].aggregate].job
  }

  predicate Routes(db: Db, e: Id) {
    IsEvent(db, e, JobMailAnalyzed) && db.events[e].aggregate < |db.analyses|
  }

  /** A routed analysis has its action or its notification, as it asked, and never both. */
  ghost predicate RoutesOk(db: Db) {
    forall e: Id | Routes(db, e) ::
      && (Proposed(db.actions, db.events[e].aggregate) <==>
            e in db.markers && db.analyses[db.events[e].aggregate].verdict.shouldUpdate)
      && (Noticed(db.notices, JobMail, e) <==>
            e in db.markers && !db.analyses[db.events[e].aggregate].verdict.shouldUpdate)
  }

  ghost predicate ActionsOk(db: Db) {
    && (forall i | 0 <= i < |db.actions| && db.actions[i].FromMail? :: db.actions[i].analysis < |db.analyses|)
    && (forall i, j | 0 <= i < j < |db.actions| && db.actions[i].FromMail? :: db.actions[i] != db.actions[j])
  }

  ghost predicate ConfirmationsOk(db: Db) {
    forall e: Id | IsEvent(db, e, ActionCreated) :: Noticed(db.notices, Confirmation, e) <==> e in db.markers
  }

  ghost predicate NoticeOk(db: Db, n: Notice) {
    match n.kind
    case JobMail => Routes(db, n.source) && n.mail == Some(db.analyses[db.events[n.source].aggregate].mail)
    case Confirmation =>
      && IsEvent(db, n.source, ActionCreated) && db.events[n.source].aggregate < |db.actions|
      && n.mail == MailOf(db, db.actions[db.events[n.source].aggregate])
      && db.actions[db.events[n.source].aggregate] != AgentStatus
  }

  ghost predicate NoticesOk(db: Db) {
    && (forall i | 0 <= i < |db.notices| :: NoticeOk(db, db.notices[i]))
    && (forall i, j | 0 <= i < j < |db.notices| ::
          db.notices[i].kind != db.notices[j].kind || db.notices[i].source != db.notices[j].source)
  }

  ghost predicate Inv(db: Db) {
    && EventsOk(db) && MailsDistinct(db.mails) && AnalysesDistinct(db.analyses, |db.mails|)
    && ReceiptsOk(db) && RoutesOk(db) && ActionsOk(db) && ConfirmationsOk(db) && NoticesOk(db)
  }

  // ---- What an appended row adds ------------------------------------------------------------

  lemma AnalyzedAppend(analyses: seq<Analysis>, x: Analysis, m: Id)
    ensures Analyzed(analyses + [x], m) <==> Analyzed(analyses, m) || x.mail == m
  {
    if Analyzed(analyses, m) {
      var a :| a in analyses && a.mail == m;
      assert a in analyses + [x];
    }
    if x.mail == m {
      assert x in analyses + [x];
    }
  }

  lemma NoticedAppend(notices: seq<Notice>, x: Notice, kind: NoticeType, e: Id)
    ensures Noticed(notices + [x], kind, e) <==> Noticed(notices, kind, e) || (x.kind == kind && x.source == e)
  {
    if Noticed(notices, kind, e) {
      var n :| n in notices && n.kind == kind && n.source == e;
      assert n in notices + [x];
    }
    if x.kind == kind && x.source == e {
      assert x in notices + [x];
    }
  }

  /** Emitting one event for the next row of its kind keeps all three correspondences. */
  lemma EmitAll(db: Db, event: Event)
    requires EventsOk(db)
    requires event.kind == MailReceived ==> event.aggregate == |db.mails|
    requires event.kind == JobMailAnalyzed ==> event.aggregate == |db.analyses|
    requires event.kind == ActionCreated ==> event.aggregate == |db.actions|
    ensures var after := db.events + [event];
      && OneEach(after, MailReceived, |db.mails| + if event.kind == MailReceived then 1 else 0)
      && OneEach(after, JobMailAnalyzed, |db.analyses| + if event.kind == JobMailAnalyzed then 1 else 0)
      && OneEach(after, ActionCreated, |db.actions| + if event.kind == ActionCreated then 1 else 0)
  {
    EmitKeepsOneEach(db.events, MailReceived, |db.mails|, event);
    EmitKeepsOneEach(db.events, JobMailAnalyzed, |db.analyses|, event);
    EmitKeepsOneEach(db.events, ActionCreated, |db.actions|, event);
  }

  /** Rows are only added. */
  ghost predicate Grows(db: Db, next: Db) {
    && db.mails <= next.mails && db.analyses <= next.analyses && db.actions <= next.actions
    && db.events <= next.events
  }

  lemma NoticesStable(db: Db, next: Db)
    requires NoticesOk(db) && ActionsOk(db) && Grows(db, next) && next.notices == db.notices
    ensures NoticesOk(next)
  {
    forall i | 0 <= i < |db.notices| ensures NoticeOk(next, db.notices[i]) {
      assert NoticeOk(db, db.notices[i]);
    }
  }

  lemma NoNoticeYet(db: Db, kind: NoticeType, e: Id)
    requires NoticesOk(db) && e >= |db.events|
    ensures !Noticed(db.notices, kind, e)
  {
    forall n | n in db.notices ensures n.source < |db.events| {
      assert NoticeOk(db, n);
    }
  }

  // ---- Each transaction keeps the invariant -------------------------------------------------

  lemma IngestKeepsInv(db: Db, mail: Mail)
    requires Inv(db)
    ensures Inv(IngestTx(db, mail))
  {
    var next := IngestTx(db, mail);
    if !Known(db.mails, mail.provider) {
      EmitAll(db, Event(MailReceived, |db.mails|));
      forall i | 0 <= i < |db.mails| ensures db.mails[i].provider != mail.provider {
        assert db.mails[i] in db.mails;
      }
      NewReceipt(db, next);
      EventsOfOtherKinds(db, next);
      NoticesStable(db, next);
    }
  }

  lemma NewReceipt(db: Db, next: Db)
    requires EventsOk(db) && AnalysesDistinct(db.analyses, |db.mails|) && ReceiptsOk(db)
    requires next.events == db.events + [Event(MailReceived, |db.mails|)] && next.markers == db.markers
    requires db.mails <= next.mails && next.analyses == db.analyses
    ensures ReceiptsOk(next)
  {
    forall e: Id | Receives(next, e)
      ensures Analyzed(next.analyses, next.events[e].aggregate)
              <==> e in next.markers && next.mails[next.events[e].aggregate].job
    {
      if e < |db.events| {
        assert Receives(db, e);
      }
    }
  }

  /** A new event that is neither an analysis nor an action leaves routing and confirmations alone. */
  lemma EventsOfOtherKinds(db: Db, next: Db)
    requires RoutesOk(db) && ConfirmationsOk(db)
    requires |next.events| == |db.events| + 1 && db.events <= next.events
    requires next.events[|db.events|].kind in {MailReceived, Unconsumed}
    requires next.markers == db.markers && next.analyses == db.analyses
    requires next.actions == db.actions && next.notices == db.notices
    ensures RoutesOk(next) && ConfirmationsOk(next)
  {
    forall e: Id | Routes(next, e) ensures e < |db.events| && Routes(db, e) {
    }
    forall e: Id | IsEvent(next, e, ActionCreated) ensures IsEvent(db, e, ActionCreated) {
    }
  }

  lemma OtherEventKeepsInv(db: Db, aggregate: Id)
    requires Inv(db)
    ensures Inv(Emit(db, Unconsumed, aggregate))
  {
    var next := Emit(db, Unconsumed, aggregate);
    EmitAll(db, Event(Unconsumed, aggregate));
    forall e: Id | Receives(next, e) ensures e < |db.events| && Receives(db, e) {
    }
    EventsOfOtherKinds(db, next);
    NoticesStable(db, next);
  }

  /** What creating an action leaves in place, but for the routing of its own analysis. */
  lemma ActionKeepsRest(db: Db, action: Action)
    requires Inv(db)
    requires action.FromMail? ==> action.analysis < |db.analyses| && !Proposed(db.actions, action.analysis)
    ensures var next := ProposeAction(db, action);
      EventsOk(next) && ReceiptsOk(next) && ActionsOk(next) && ConfirmationsOk(next) && NoticesOk(next)
  {
    var next := ProposeAction(db, action);
    EmitAll(db, Event(ActionCreated, |db.actions|));
    forall e: Id | Receives(next, e) ensures e < |db.events| && Receives(db, e) {
    }
    NoNoticeYet(db, Confirmation, |db.events|);
    forall e: Id | IsEvent(next, e, ActionCreated) ensures e == |db.events| || IsEvent(db, e, ActionCreated) {
    }
    NoticesStable(db, next);
  }

  lemma AgentKeepsInv(db: Db, action: Action)
    requires Inv(db) && !action.FromMail?
    ensures Inv(ProposeAction(db, action))
  {
    var next := ProposeAction(db, action);
    ActionKeepsRest(db, action);
    forall e: Id | Routes(next, e) ensures e < |db.events| && Routes(db, e) {
    }
  }

  lemma NonJobKeepsInv(db: Db, e: Id)
    requires Inv(db)
    ensures Inv(NonJobTx(db, e))
  {
    var next := NonJobTx(db, e);
    if next != db {
      MarkingReceipt(db, next, e);
      NoticesStable(db, next);
    }
  }

  /** Marking a receipt touches neither routing nor confirmations. */
  lemma MarkingReceipt(db: Db, next: Db, e: Id)
    requires RoutesOk(db) && ConfirmationsOk(db) && IsEvent(db, e, MailReceived)
    requires next == db.(markers := db.markers + {e}, progress := next.progress)
    ensures RoutesOk(next) && ConfirmationsOk(next)
  {
    forall f: Id | Routes(next, f) ensures Routes(db, f) && f != e {
    }
    forall f: Id | IsEvent(next, f, ActionCreated) ensures IsEvent(db, f, ActionCreated) && f != e {
    }
  }

  lemma PersistKeepsInv(db: Db, e: Id, verdict: Verdict)
    requires Inv(db)
    ensures Inv(PersistTx(db, e, verdict))
  {
    if Receives(db, e) && db.mails[db.events[e].aggregate].job && e !in db.markers {
      PersistKeepsReceipts(db, e, verdict);
      PersistKeepsRoutes(db, e, verdict);
      PersistKeepsRest(db, e, verdict);
    }
  }

  lemma PersistKeepsRest(db: Db, e: Id, verdict: Verdict)
    requires EventsOk(db) && AnalysesDistinct(db.analyses, |db.mails|) && ReceiptsOk(db)
    requires ActionsOk(db) && ConfirmationsOk(db) && NoticesOk(db)
    requires Receives(db, e) && db.mails[db.events[e].aggregate].job && e !in db.markers
    ensures var next := PersistTx(db, e, verdict);
      && EventsOk(next) && AnalysesDistinct(next.analyses, |next.mails|)
      && ActionsOk(next) && ConfirmationsOk(next) && NoticesOk(next)
  {
    var next, m := PersistTx(db, e, verdict), db.events[e].aggregate;
    assert !Analyzed(db.analyses, m);
    EmitAll(db, Event(JobMailAnalyzed, |db.analyses|));
    forall i | 0 <= i < |db.analyses| ensures db.analyses[i].mail != m {
      assert db.analyses[i] in db.analyses;
    }
    forall f: Id | IsEvent(next, f, ActionCreated) ensures f != e && IsEvent(db, f, ActionCreated) {
    }
    NoticesStable(db, next);
  }

  lemma PersistKeepsReceipts(db: Db, e: Id, verdict: Verdict)
    requires EventsOk(db) && ReceiptsOk(db)
    requires Receives(db, e) && db.mails[db.events[e].aggregate].job && e !in db.markers
    ensures ReceiptsOk(PersistTx(db, e, verdict))
  {
    var next, m := PersistTx(db, e, verdict), db.events[e].aggregate;
    forall f: Id | Receives(next, f)
      ensures Analyzed(next.analyses, next.events[f].aggregate)
              <==> f in next.markers && next.mails[next.events[f].aggregate].job
    {
      assert Receives(db, f);
      AnalyzedAppend(db.analyses, Analysis(m, verdict), db.events[f].aggregate);
    }
  }

  lemma PersistKeepsRoutes(db: Db, e: Id, verdict: Verdict)
    requires EventsOk(db) && RoutesOk(db) && ActionsOk(db) && NoticesOk(db) && ReceiptsOk(db)
    requires Receives(db, e) && db.mails[db.events[e].aggregate].job && e !in db.markers
    ensures RoutesOk(PersistTx(db, e, verdict))
  {
    var next := PersistTx(db, e, verdict);
    NoNoticeYet(db, JobMail, |db.events|);
    forall f: Id | Routes(next, f) ensures f == |db.events| || (Routes(db, f) && f != e) {
      if f < |db.events| {
        assert db.events[f].aggregate < |db.analyses|;
      }
    }
  }

  lemma RouteKeepsInv(db: Db, e: Id)
    requires Inv(db)
    ensures Inv(RouteTx(db, e))
  {
    if Routable(db, e) && e !in db.markers {
      assert Routes(db, e);
      if db.analyses[db.events[e].aggregate].verdict.shouldUpdate {
        RouteToAction(db, e);
      } else {
        RouteToNotice(db, e);
      }
    }
  }

  lemma RouteToAction(db: Db, e: Id)
    requires Inv(db) && Routable(db, e) && e !in db.markers
    requires db.analyses[db.events[e].aggregate].verdict.shouldUpdate
    ensures Inv(RouteTx(db, e))
  {
    var a, next := db.events[e].aggregate, RouteTx(db, e);
    assert Routes(db, e);
    var created := ProposeAction(db, FromMail(a));
    ActionKeepsRest(db, FromMail(a));
    assert next == created.(markers := created.markers + {e});
    forall f: Id | Receives(next, f) ensures Receives(created, f) && f != e {
    }
    forall f: Id | IsEvent(next, f, ActionCreated) ensures IsEvent(created, f, ActionCreated) && f != e {
    }
    NoticesStable(created, next);
    forall f: Id | Routes(next, f) ensures Routes(db, f) && (f == e <==> db.events[f].aggregate == a) {
    }
  }

  lemma RouteToNotice(db: Db, e: Id)
    requires Inv(db) && Routable(db, e) && e !in db.markers
    requires !db.analyses[db.events[e].aggregate].verdict.shouldUpdate
    ensures Inv(RouteTx(db, e))
  {
    var next := RouteTx(db, e);
    assert Routes(db, e);
    var notice := Notice(JobMail, e, Some(db.analyses[db.events[e].aggregate].mail));
    assert next == db.(notices := db.notices + [notice], markers := db.markers + {e});
    NewNotice(db, next, notice);
    forall f: Id | Receives(next, f) ensures Receives(db, f) && f != e {
    }
    forall f: Id | Routes(next, f) ensures Routes(db, f) {
      NoticedAppend(db.notices, notice, JobMail, f);
    }
    forall f: Id | IsEvent(next, f, ActionCreated) ensures IsEvent(db, f, ActionCreated) && f != e {
      NoticedAppend(db.notices, notice, Confirmation, f);
    }
    RoutesWithNotice(db, next, e, notice);
  }

  lemma RoutesWithNotice(db: Db, next: Db, e: Id, notice: Notice)
    requires RoutesOk(db) && ConfirmationsOk(db) && notice.source == e
    requires next == db.(notices := db.notices + [notice], markers := db.markers + {e})
    requires if notice.kind == JobMail
             then Routes(db, e) && !db.analyses[db.events[e].aggregate].verdict.shouldUpdate && e !in db.markers
             else IsEvent(db, e, ActionCreated)
    ensures RoutesOk(next) && ConfirmationsOk(next)
  {
    forall f: Id | Routes(next, f)
      ensures Noticed(next.notices, JobMail, f)
              <==> Noticed(db.notices, JobMail, f) || (notice.kind == JobMail && f == e)
    {
      assert Routes(db, f);
      NoticedAppend(db.notices, notice, JobMail, f);
    }
    forall f: Id | IsEvent(next, f, ActionCreated)
      ensures Noticed(next.notices, Confirmation, f) <==> f in next.markers
    {
      assert IsEvent(db, f, ActionCreated);
      NoticedAppend(db.notices, notice, Confirmation, f);
    }
  }

  lemma NewNotice(db: Db, next: Db, notice: Notice)
    requires NoticesOk(db) && NoticeOk(db, notice) && !Noticed(db.notices, notice.kind, notice.source)
    requires next == db.(notices := db.notices + [notice], markers := next.markers)
    ensures NoticesOk(next)
  {
    forall i | 0 <= i < |next.notices| ensures NoticeOk(next, next.notices[i]) {
      assert NoticeOk(db, next.notices[i]);
    }
    forall i | 0 <= i < |db.notices|
      ensures db.notices[i].kind != notice.kind || db.notices[i].source != notice.source
    {
      assert db.notices[i] in db.notices;
    }
  }

  lemma NotifyKeepsInv(db: Db, e: Id)
    requires Inv(db)
    ensures Inv(NotifyTx(db, e))
  {
    var next := NotifyTx(db, e);
    if Notifiable(db, e) && e !in db.markers {
      assert !Noticed(db.notices, Confirmation, e);
      var notice := Notice(Confirmation, e, MailOf(db, db.actions[db.events[e].aggregate]));
      NewNotice(db, next, notice);
      RoutesWithNotice(db, next, e, notice);
      forall f: Id | Receives(next, f) ensures Receives(db, f) && f != e {
      }
    }
  }

  /** Transactions on the retry columns alone. */
  lemma RetryColumnsKeepInv(db: Db, next: Db)
    requires Inv(db) && |next.progress| == |db.progress| && |next.deliveries| == |db.deliveries|
    requires next == db.(progress := next.progress, deliveries := next.deliveries)
    ensures Inv(next)
  {
    NoticesStable(db, next);
    forall e: Id | Receives(next, e) ensures Receives(db, e) {
    }
    forall e: Id | Routes(next, e) ensures Routes(db, e) {
    }
    forall e: Id | IsEvent(next, e, ActionCreated) ensures IsEvent(db, e, ActionCreated) {
    }
  }

  /** No transaction of any worker breaks the invariant. */
  lemma StepKeepsInv(db: Db, step: Step)
    requires Inv(db)
    ensures Inv(Apply(db, step))
  {
    match step
    case Ingest(mail) => IngestKeepsInv(db, mail);
    case AgentProposes(action) => if !action.FromMail? { AgentKeepsInv(db, action); }
    case OtherEvent(aggregate) => OtherEventKeepsInv(db, aggregate);
    case MarkNonJob(e) => NonJobKeepsInv(db, e);
    case Persist(e, verdict) => PersistKeepsInv(db, e, verdict);
    case Route(e) => RouteKeepsInv(db, e);
    case Notify(e) => NotifyKeepsInv(db, e);
    case _ => RetryColumnsKeepInv(db, Apply(db, step));
  }

  lemma {:induction false} RunKeepsInv(db: Db, steps: seq<Step>)
    requires Inv(db)
    ensures Inv(Run(db, steps))
  {
    if steps != [] {
      RunKeepsInv(db, steps[..|steps| - 1]);
      StepKeepsInv(Run(db, steps[..|steps| - 1]), steps[|steps| - 1]);
    }
  }

  // ---- One effect per mail ------------------------------------------------------------------

  /** The states some run of any workers reaches. */
  ghost predicate Reachable(db: Db) {
    exists steps :: db == Run(EMPTY, steps)
  }

  lemma ReachableInv(db: Db)
    requires Reachable(db)
    ensures Inv(db)
  {
    var steps :| db == Run(EMPTY, steps);
    EmptyInv();
    RunKeepsInv(EMPTY, steps);
  }

  lemma EmptyInv()
    ensures Inv(EMPTY)
  {
  }

  /** Every mail has exactly one receipt event; every analysis and every action has exactly one event. */
  lemma OneEventEach(db: Db)
    requires Reachable(db)
    ensures OneEach(db.events, MailReceived, |db.mails|)
    ensures OneEach(db.events, JobMailAnalyzed, |db.analyses|)
    ensures OneEach(db.events, ActionCreated, |db.actions|)
  {
    ReachableInv(db);
  }

  lemma AnalysedMailIsJobMail(db: Db, a: Id)
    requires EventsOk(db) && ReceiptsOk(db) && a < |db.analyses| && db.analyses[a].mail < |db.mails|
    ensures db.mails[db.analyses[a].mail].job
  {
    var m := db.analyses[a].mail;
    assert db.analyses[a] in db.analyses;
    assert Announced(db.events, MailReceived, m);
    var e: Id :| Announces(db.events, e, MailReceived, m);
    assert Receives(db, e);
  }

  /** A mail is analysed at most once, and only when it is a job mail. */
  lemma OneAnalysisPerMail(db: Db, a: Id, b: Id)
    requires Reachable(db) && a < |db.analyses| && b < |db.analyses| && db.analyses[a].mail == db.analyses[b].mail
    ensures a == b && db.analyses[a].mail < |db.mails| && db.mails[db.analyses[a].mail].job
  {
    ReachableInv(db);
    AnalysedMailIsJobMail(db, a);
  }

  /** An analysis leads to an action or to a notification, never to both. */
  lemma ActionOrNotice(db: Db, e: Id)
    requires Inv(db) && Routes(db, e)
    ensures Proposed(db.actions, db.events[e].aggregate) ==> !Noticed(db.notices, JobMail, e)
    ensures e in db.markers ==> Proposed(db.actions, db.events[e].aggregate) || Noticed(db.notices, JobMail, e)
    ensures e !in db.markers ==> !Proposed(db.actions, db.events[e].aggregate) && !Noticed(db.notices, JobMail, e)
  {
  }

  /** The analysis behind a notification about a mail, and how it came to it. */
  lemma NoticeOrigin(db: Db, n: Notice) returns (a: Id)
    requires Inv(db) && n in db.notices && n.mail.Some?
    ensures a < |db.analyses| && db.analyses[a].mail == n.mail.value
    ensures match n.kind
      case JobMail =>
        && IsEvent(db, n.source, JobMailAnalyzed) && db.events[n.source].aggregate == a
        && !Proposed(db.actions, a)
      case Confirmation =>
        && IsEvent(db, n.source, ActionCreated) && db.events[n.source].aggregate < |db.actions|
        && db.actions[db.events[n.source].aggregate] == FromMail(a) && Proposed(db.actions, a)
  {
    assert NoticeOk(db, n);
    if n.kind == JobMail {
      a := db.events[n.source].aggregate;
      assert Noticed(db.notices, JobMail, n.source);
      ActionOrNotice(db, n.source);
    } else {
      a := db.actions[db.events[n.source].aggregate].analysis;
    }
  }

  /** A mail gives rise to at most one notification row. */
  lemma OneNotification(db: Db, i: nat, j: nat)
    requires Inv(db) && i < |db.notices| && j < |db.notices|
    requires db.notices[i].mail.Some? && db.notices[i].mail == db.notices[j].mail
    ensures i == j
  {
    var a := NoticeOrigin(db, db.notices[i]);
    var b := NoticeOrigin(db, db.notices[j]);
    assert a == b;
    assert db.notices[i].kind == db.notices[j].kind;
    var e, f := db.notices[i].source, db.notices[j].source;
    assert db.events[e] == db.events[f];
    assert e == f;
  }

  // ---- The LLM's answer decides -------------------------------------------------------------

  /** The one analysis of the mail, and it says this. */
  ghost predicate SaysOf(analyses: seq<Analysis>, m: Id, v: Verdict) {
    && (exists a :: 0 <= a < |analyses| && analyses[a].mail == m && analyses[a].verdict == v)
    && (forall a, b | 0 <= a < |analyses| && 0 <= b < |analyses| && analyses[a].mail == m && analyses[b].mail == m ::
          a == b)
  }

  /** Persisting an answer stores it as the mail's only analysis, announces it, and marks the receipt. */
  lemma PersistStores(db: Db, e: Id, v: Verdict)
    requires Inv(db) && Receives(db, e) && db.mails[db.events[e].aggregate].job && e !in db.markers
    ensures var next, m := PersistTx(db, e, v), db.events[e].aggregate;
      && next.analyses == db.analyses + [Analysis(m, v)] && SaysOf(next.analyses, m, v)
      && e in next.markers && m < |next.progress| && next.progress[m].processing == Succeeded
      && Announced(next.events, JobMailAnalyzed, |db.analyses|)
  {
    var next, m := PersistTx(db, e, v), db.events[e].aggregate;
    assert !Analyzed(db.analyses, m);
    forall a | 0 <= a < |db.analyses| ensures db.analyses[a].mail != m {
      assert db.analyses[a] in db.analyses;
    }
    assert next.analyses[|db.analyses|] == Analysis(m, v);
    assert Announces(next.events, |db.events|, JobMailAnalyzed, |db.analyses|);
  }

  lemma {:induction false} OverwriteSets(analyses: seq<Analysis>, m: Id, v: Verdict)
    ensures var after := Overwrite(analyses, m, v);
      && |after| == |analyses|
      && forall a | 0 <= a < |analyses| ::
           after[a] == if analyses[a].mail == m then Analysis(m, v) else analyses[a]
  {
    if analyses != [] {
      OverwriteSets(analyses[1..], m, v);
    }
  }

  /** Persisting an answer for a mail that has an analysis rewrites its verdict and adds no event; a
      second notification of an event is not written. */
  lemma SecondTime(db: Db, e: Id, v: Verdict)
    requires e < |db.events| && e !in db.markers
    ensures Receives(db, e) && db.mails[db.events[e].aggregate].job && Analyzed(db.analyses, db.events[e].aggregate) ==>
      var next, m := PersistTx(db, e, v), db.events[e].aggregate;
      && |next.analyses| == |db.analyses| && next.events == db.events && e in next.markers
      && forall a | 0 <= a < |db.analyses| ::
           next.analyses[a] == if db.analyses[a].mail == m then Analysis(m, v) else db.analyses[a]
    ensures Noticed(db.notices, Confirmation, e) ==> NotifyTx(db, e) == db
    ensures Routable(db, e) && !db.analyses[db.events[e].aggregate].verdict.shouldUpdate ==>
      Noticed(db.notices, JobMail, e) ==> RouteTx(db, e) == db
  {
    OverwriteSets(db.analyses, db.events[e].aggregate, v);
  }

  /** A committed analysis is never rewritten: the overwriting branch is never taken. */
  lemma AnalysesAreFinal(db: Db, step: Step)
    requires Inv(db)
    ensures db.analyses <= Apply(db, step).analyses
  {
    if step.Persist? {
      if Receives(db, step.event) && db.mails[db.events[step.event].aggregate].job && step.event !in db.markers {
        PersistStores(db, step.event, step.verdict);
      }
    }
  }

  lemma {:induction false} AnalysesStay(db: Db, steps: seq<Step>)
    requires Inv(db)
    ensures db.analyses <= Run(db, steps).analyses
  {
    if steps != [] {
      hide Inv, Apply;
      AnalysesStay(db, steps[..|steps| - 1]);
      RunKeepsInv(db, steps[..|steps| - 1]);
      AnalysesAreFinal(Run(db, steps[..|steps| - 1]), steps[|steps| - 1]);
    }
  }

  /** The analysis a, whatever any worker does from here on: once its event is processed, it has its
      action iff it asks for an update, and otherwise its notification. */
  lemma AnalysisDecidesRoute(db: Db, a: Id, steps: seq<Step>, f: Id)
    requires Inv(db) && a < |db.analyses|
    requires Announces(Run(db, steps).events, f, JobMailAnalyzed, a) && f in Run(db, steps).markers
    ensures var after, analysis := Run(db, steps), db.analyses[a];
      && SaysOf(after.analyses, analysis.mail, analysis.verdict)
      && (FromMail(a) in after.actions <==> analysis.verdict.shouldUpdate)
      && (Noticed(after.notices, JobMail, f) <==> !analysis.verdict.shouldUpdate)
      && (analysis.verdict.shouldUpdate ==> Announced(after.events, ActionCreated, ActionOf(after.actions, a)))
  {
    hide Inv, Run, Announces, Announced, Noticed, SaysOf, ActionOf;
    RunKeepsInv(db, steps);
    AnalysesStay(db, steps);
    var after := Run(db, steps);
    assert after.analyses[a] == db.analyses[a];
    RoutedAsStored(after, f, a);
  }

  /** From the LLM's answer to its effect, whatever any worker does in between and afterwards: the
      receipt of a job mail is processed with answer v, and once the event of the stored analysis is
      processed, the mail has its action iff v asks for an update, and otherwise its notification. */
  lemma AnswerDecidesRoute(db: Db, e: Id, v: Verdict, steps: seq<Step>, f: Id)
    requires Inv(db) && Receives(db, e) && db.mails[db.events[e].aggregate].job && e !in db.markers
    requires Announces(Run(PersistTx(db, e, v), steps).events, f, JobMailAnalyzed, |db.analyses|)
    requires f in Run(PersistTx(db, e, v), steps).markers
    ensures var after, a := Run(PersistTx(db, e, v), steps), |db.analyses|;
      && SaysOf(after.analyses, db.events[e].aggregate, v)
      && (FromMail(a) in after.actions <==> v.shouldUpdate)
      && (Noticed(after.notices, JobMail, f) <==> !v.shouldUpdate)
  {
    hide Inv, Run, PersistTx, Announces, Announced, Noticed, SaysOf, ActionOf, Receives;
    PersistStores(db, e, v);
    PersistKeepsInv(db, e, v);
    AnalysisDecidesRoute(PersistTx(db, e, v), |db.analyses|, steps, f);
  }

  function ActionOf(actions: seq<Action>, a: Id): Id {
    if actions == [] then 0
    else if actions[|actions| - 1] == FromMail(a) then |actions| - 1 else ActionOf(actions[..|actions| - 1], a)
  }

  lemma {:induction false} ActionOfIs(actions: seq<Action>, a: Id)
    requires FromMail(a) in actions
    ensures ActionOf(actions, a) < |actions| && actions[ActionOf(actions, a)] == FromMail(a)
  {
    if actions[|actions| - 1] != FromMail(a) {
      assert actions == actions[..|actions| - 1] + [actions[|actions| - 1]];
      ActionOfIs(actions[..|actions| - 1], a);
    }
  }

  lemma RoutedAsStored(db: Db, f: Id, a: Id)
    requires Inv(db) && Announces(db.events, f, JobMailAnalyzed, a) && a < |db.analyses| && f in db.markers
    ensures FromMail(a) in db.actions <==> db.analyses[a].verdict.shouldUpdate
    ensures Noticed(db.notices, JobMail, f) <==> !db.analyses[a].verdict.shouldUpdate
    ensures FromMail(a) in db.actions ==> Announced(db.events, ActionCreated, ActionOf(db.actions, a))
    ensures SaysOf(db.analyses, db.analyses[a].mail, db.analyses[a].verdict)
  {
    assert Routes(db, f);
    if FromMail(a) in db.actions {
      ActionOfIs(db.actions, a);
    }
  }

  /** After any run of any workers: one notification row per mail. */
  lemma OneNotificationPerMail(db: Db, i: nat, j: nat)
    requires Reachable(db) && i < |db.notices| && j < |db.notices|
    requires db.notices[i].mail.Some? && db.notices[i].mail == db.notices[j].mail
    ensures i == j
  {
    ReachableInv(db);
    OneNotification(db, i, j);
  }

  /** The event of a status action that an agent created: its consumer refuses the action's source. */
  predicate Unconfirmable(db: Db, e: Id) {
    && IsEvent(db, e, ActionCreated) && db.events[e].aggregate < |db.actions|
    && db.actions[db.events[e].aggregate] == AgentStatus
  }

  /** Such an event is never processed, so nobody is notified of the action. */
  lemma AgentStatusIsNeverNotified(db: Db, e: Id)
    requires Inv(db) && Unconfirmable(db, e)
    ensures e !in db.markers && !Noticed(db.notices, Confirmation, e)
  {
    forall n | n in db.notices ensures !(n.kind == Confirmation && n.source == e) {
      assert NoticeOk(db, n);
    }
  }

  /** A provider message is stored at most once. */
  lemma OneMailPerProviderId(db: Db, i: nat, j: nat)
    requires Reachable(db) && i < |db.mails| && j < |db.mails| && db.mails[i].provider == db.mails[j].provider
    ensures i == j
  {
    ReachableInv(db);
  }
}
