/** Confirmed status writes (application_core).

    Every function named `...Tx` is one `with transaction(...)` block of the service, written as a
    function from the tables before the block to the tables after it.  A run is any sequence of
    such transactions: workers interleave freely, and a crash is a run that simply stops between
    two of them (a rolled back transaction leaves the tables as they were). */
module StatusWrites {
  import opened Domain
  import opened Wrappers

  type Id = nat
  type Time = int

  datatype Status =
    | Applied | Screening | Assessment | Interview | HrInterview
    | Offer | OfferAccepted | StatusRejected | Terminated

  datatype State = Pending | Confirmed | Executing | Completed | Rejected | Failed | Expired

  /** What an application currently says: its status, with a round for interviews. */
  datatype Stage = Stage(status: Status, round: Option<int>)

  /** Normalised company, department and position. */
  datatype Reference = Reference(company: string, department: string, position: string)

  /** The unique business key of an application row. */
  datatype Key = Key(user: string, reference: Reference)

  datatype Arguments = Arguments(reference: Reference, stage: Stage)

  datatype Action = Action(
    user: string, source: string, arguments: Arguments, code: string, state: State,
    expiresAt: Time, confirmedAt: Option<Time>, startedAt: Option<Time>,
    attempts: nat, nextRetryAt: Option<Time>)

  datatype Application = Application(id: Id, stage: Stage, latestEvent: Id)

  datatype JobEvent = JobEvent(
    id: Id, application: Id, action: Id, previous: Option<Stage>, current: Stage, confirmedAt: Time)

  datatype OutboxRow =
    | ActionCreated(id: Id, action: Id, code: string)
    | ActionResolved(id: Id, action: Id, resolution: Resolution)
    | StatusChanged(id: Id, application: Id, action: Id, previous: Option<Stage>, current: Stage)

  /** One completing transaction: which action, and the frozen write it applied. */
  datatype Commit = Commit(action: Id, key: Key, stage: Stage)

  /** The tables.  `commits` is the order in which completing transactions committed. */
  datatype Db = Db(
    actions: map<Id, Action>, applications: map<Key, Application>,
    events: seq<JobEvent>, outbox: seq<OutboxRow>, commits: seq<Commit>, nextId: Id)

  const EMPTY := Db(map[], map[], [], [], [], 0)

  const MAX_ATTEMPTS: nat := 3
  const RETRY_DELAY: Time := 300
  const EXPIRY: Time := 7 * 24 * 3600

  /** The validator of the frozen arguments: a positive round for interviews, none otherwise. */
  predicate WellFormed(arguments: Arguments) {
    var Stage(status, round) := arguments.stage;
    if status == Interview then round.Some? && round.value > 0 else round.None?
  }

  function KeyOf(action: Action): Key {
    Key(action.user, action.arguments.reference)
  }

  function CommitOf(id: Id, action: Action): Commit {
    Commit(id, KeyOf(action), action.arguments.stage)
  }

  function StageAt(applications: map<Key, Application>, key: Key): Option<Stage> {
    if key in applications then Some(applications[key].stage) else None
  }

  // ---- Transactions -------------------------------------------------------------------------

  datatype ProposeResult = Existing(existing: Id) | Conflict | Created(created: Id) | Drawing

  predicate SameProposal(action: Action, source: string, arguments: Arguments) {
    action.source == source && action.arguments == arguments
  }

  predicate CodeFree(db: Db, code: string) {
    forall id | id in db.actions :: db.actions[id].code != code
  }

  /** create_status_proposal: a repeated proposal changes nothing. */
  function ProposeTx(db: Db, user: string, source: string, arguments: Arguments, code: string, now: Time): Db {
    if exists id :: id in db.actions && SameProposal(db.actions[id], source, arguments) then db
    else if !WellFormed(arguments) || !CodeFree(db, code) then db
    else
      var action := Action(user, source, arguments, code, Pending, now + EXPIRY, None, None, 0, None);
      db.(actions := db.actions[db.nextId := action],
          outbox := db.outbox + [ActionCreated(db.nextId + 1, db.nextId, code)],
          nextId := db.nextId + 2)
  }

  /** What resolving makes of a pending action: a late answer finds it expired. */
  function Resolved(action: Action, resolution: Resolution, now: Time): Action {
    if action.expiresAt <= now then action.(state := Expired)
    else if resolution == Confirm then action.(state := Confirmed, confirmedAt := Some(now))
    else action.(state := Rejected)
  }

  /** _resolve_action, for the action the command selects. */
  function ResolveTx(db: Db, id: Id, resolution: Resolution, now: Time): Db {
    if id !in db.actions || db.actions[id].state != Pending then db
    else
      var action := Resolved(db.actions[id], resolution, now);
      var resolved := db.(actions := db.actions[id := action]);
      if action.state == Expired then resolved
      else resolved.(outbox := db.outbox + [ActionResolved(db.nextId, id, resolution)], nextId := db.nextId + 1)
  }

  predicate Claimable(db: Db, id: Id) {
    id in db.actions && (db.actions[id].state == Confirmed || db.actions[id].state == Failed)
  }

  /** _claim_status_update. */
  function ClaimTx(db: Db, id: Id, now: Time): Db {
    if !Claimable(db, id) then db
    else
      var action := db.actions[id];
      db.(actions := db.actions[id := action.(
        state := Executing, startedAt := Some(now), attempts := action.attempts + 1, nextRetryAt := None)])
  }

  predicate Executable(db: Db, id: Id) {
    id in db.actions && db.actions[id].state == Executing && WellFormed(db.actions[id].arguments)
  }

  /** _execute_claimed_status_update: one atomic write of row, history, outbox and action. */
  function ExecuteTx(db: Db, id: Id, now: Time): Db {
    if !Executable(db, id) then db
    else
      var action := db.actions[id];
      var key, stage := KeyOf(action), action.arguments.stage;
      var previous := StageAt(db.applications, key);
      var completed := db.(
        actions := db.actions[id := action.(state := Completed)],
        commits := db.commits + [CommitOf(id, action)]);
      if previous == Some(stage) then completed
      else
        var application := if key in db.applications then db.applications[key].id else db.nextId;
        var event := JobEvent(db.nextId + 1, application, id, previous, stage,
                              if action.confirmedAt.Some? then action.confirmedAt.value else now);
        completed.(
          applications := db.applications[key := Application(application, stage, event.id)],
          events := db.events + [event],
          outbox := db.outbox + [StatusChanged(db.nextId + 2, application, id, previous, stage)],
          nextId := db.nextId + 3)
  }

  /** _record_execution_failure. */
  function FailTx(db: Db, id: Id, now: Time): Db {
    if id !in db.actions || db.actions[id].state != Executing then db
    else
      var action := db.actions[id];
      db.(actions := db.actions[id := action.(
        state := Failed,
        nextRetryAt := if action.attempts < MAX_ATTEMPTS then Some(now + RETRY_DELAY) else None)])
  }

  function Unstuck(action: Action, now: Time, staleAfter: Time): Action {
    if action.state == Executing && action.startedAt.Some? && action.startedAt.value < now - staleAfter then
      action.(state := Failed, nextRetryAt := Some(now + RETRY_DELAY))
    else action
  }

  /** The first transaction of recover_pending_actions: give up stale executions. */
  function MarkStaleTx(db: Db, now: Time, staleAfter: Time): Db {
    db.(actions := map id | id in db.actions :: Unstuck(db.actions[id], now, staleAfter))
  }

  /** The selection of recover_pending_actions. */
  predicate Recoverable(action: Action, now: Time) {
    action.state == Confirmed
    || (action.state == Failed && action.attempts < MAX_ATTEMPTS
        && (action.nextRetryAt.None? || action.nextRetryAt.value <= now))
  }

  /** retry_pending_action: the user requeues a failed action. */
  function RetryTx(db: Db, id: Id, now: Time): Db {
    if id !in db.actions || db.actions[id].state != Failed then db
    else db.(actions := db.actions[id := db.actions[id].(state := Confirmed, nextRetryAt := Some(now))])
  }

  // ---- Runs ---------------------------------------------------------------------------------

  datatype Step =
    | Propose(user: string, source: string, arguments: Arguments, code: string, now: Time)
    | Resolve(id: Id, resolution: Resolution, now: Time)
    | Claim(id: Id, now: Time)
    | Execute(id: Id, now: Time)
    | Fail(id: Id, now: Time)
    | MarkStale(now: Time, staleAfter: Time)
    | Retry(id: Id, now: Time)

  function Apply(db: Db, step: Step): Db {
    match step
    case Propose(user, source, arguments, code, now) => ProposeTx(db, user, source, arguments, code, now)
    case Resolve(id, resolution, now) => ResolveTx(db, id, resolution, now)
    case Claim(id, now) => ClaimTx(db, id, now)
    case Execute(id, now) => ExecuteTx(db, id, now)
    case Fail(id, now) => FailTx(db, id, now)
    case MarkStale(now, staleAfter) => MarkStaleTx(db, now, staleAfter)
    case Retry(id, now) => RetryTx(db, id, now)
  }

  function Run(db: Db, steps: seq<Step>): Db {
    if steps == [] then db
    else Apply(Run(db, steps[..|steps| - 1]), steps[|steps| - 1])
  }

  lemma {:induction false} RunConcat(db: Db, first: seq<Step>, second: seq<Step>)
    ensures Run(db, first + second) == Run(Run(db, first), second)
    decreases |second|
  {
    if second == [] {
      assert first + second == first;
    } else {
      var all := first + second;
      assert all[..|all| - 1] == first + second[..|second| - 1];
      RunConcat(db, first, second[..|second| - 1]);
    }
  }

  // ---- The plain fold the tables must agree with --------------------------------------------

  /** Apply the frozen writes one after the other; later writes win. */
  function Fold(commits: seq<Commit>): map<Key, Stage> {
    if commits == [] then map[]
    else
      var last := commits[|commits| - 1];
      Fold(commits[..|commits| - 1])[last.key := last.stage]
  }

  function StageOf(fold: map<Key, Stage>, key: Key): Option<Stage> {
    if key in fold then Some(fold[key]) else None
  }

  /** The actions whose write changed the fold, in order: the history with no-ops removed. */
  function Effective(commits: seq<Commit>): seq<Id> {
    if commits == [] then []
    else
      var rest, last := commits[..|commits| - 1], commits[|commits| - 1];
      var before := Fold(rest);
      Effective(rest) + if StageOf(before, last.key) == Some(last.stage) then [] else [last.action]
  }

  function EventsOf(events: seq<JobEvent>, application: Id): seq<JobEvent> {
    if events == [] then []
    else
      var last := events[|events| - 1];
      EventsOf(events[..|events| - 1], application) + if last.application == application then [last] else []
  }

  /** A history with no gap and no repetition. */
  ghost predicate Chain(history: seq<JobEvent>) {
    history != []
    && history[0].previous == None
    && forall i | 0 < i < |history| ::
         history[i].previous == Some(history[i - 1].current) && history[i].current != history[i - 1].current
  }

  function StatusRows(outbox: seq<OutboxRow>): seq<OutboxRow> {
    if outbox == [] then []
    else
      var last := outbox[|outbox| - 1];
      StatusRows(outbox[..|outbox| - 1]) + if last.StatusChanged? then [last] else []
  }

  function ActionIds(events: seq<JobEvent>): seq<Id> {
    seq(|events|, i requires 0 <= i < |events| => events[i].action)
  }

  // ---- Invariants ---------------------------------------------------------------------------

  /** Applications table = fold of the completed actions. */
  ghost predicate AgreesWithFold(db: Db) {
    var fold := Fold(db.commits);
    && db.applications.Keys == fold.Keys
    && forall key | key in db.applications :: db.applications[key].stage == fold[key]
  }

  /** Each application row sits at the end of its own unbroken history. */
  ghost predicate HistoryOk(applications: map<Key, Application>, events: seq<JobEvent>, key: Key)
    requires key in applications
  {
    var row := applications[key];
    var history := EventsOf(events, row.id);
    && Chain(history)
    && history[|history| - 1].current == row.stage
    && history[|history| - 1].id == row.latestEvent
  }

  ghost predicate Histories(db: Db) {
    forall key | key in db.applications :: HistoryOk(db.applications, db.events, key)
  }

  ghost predicate EventOk(db: Db, event: JobEvent) {
    && event.action in db.actions
    && var action := db.actions[event.action];
       && action.state == Completed
       && action.confirmedAt == Some(event.confirmedAt)
       && event.confirmedAt < action.expiresAt
       && event.current == action.arguments.stage
       && var key := Key(action.user, action.arguments.reference);
          key in db.applications && db.applications[key].id == event.application
  }

  ghost predicate RowMatches(row: OutboxRow, event: JobEvent) {
    && row.StatusChanged?
    && row.application == event.application && row.action == event.action
    && row.previous == event.previous && row.current == event.current
  }

  /** Status-change rows of the outbox are one-to-one with the job events, in order. */
  ghost predicate OutboxMatches(db: Db) {
    var rows := StatusRows(db.outbox);
    |rows| == |db.events| && forall i | 0 <= i < |rows| :: RowMatches(rows[i], db.events[i])
  }

  ghost predicate CommitOk(db: Db, commit: Commit) {
    && commit.action in db.actions
    && var action := db.actions[commit.action];
       && action.state == Completed
       && commit.key.user == action.user && commit.key.reference == action.arguments.reference
       && commit.stage == action.arguments.stage
  }

  /** The commit log lists the completed actions, each once. */
  ghost predicate CommitsAreCompletions(db: Db) {
    && (forall i | 0 <= i < |db.commits| :: CommitOk(db, db.commits[i]))
    && (forall i, j | 0 <= i < j < |db.commits| :: db.commits[i].action != db.commits[j].action)
    && (forall id | id in db.actions && db.actions[id].state == Completed ::
          exists i :: 0 <= i < |db.commits| && db.commits[i].action == id)
  }

  predicate WasConfirmed(state: State) {
    state == Confirmed || state == Executing || state == Failed || state == Completed
  }

  predicate Terminal(state: State) {
    state == Completed || state == Rejected || state == Expired
  }

  ghost predicate ActionOk(action: Action) {
    && WellFormed(action.arguments)
    && (if WasConfirmed(action.state)
        then action.confirmedAt.Some? && action.confirmedAt.value < action.expiresAt
        else action.confirmedAt.None?)
  }

  ghost predicate ActionsOk(db: Db) {
    forall id | id in db.actions :: ActionOk(db.actions[id])
  }

  ghost predicate EventsOk(db: Db) {
    forall i | 0 <= i < |db.events| :: EventOk(db, db.events[i])
  }

  ghost predicate EventsAreEffective(db: Db) {
    ActionIds(db.events) == Effective(db.commits)
  }

  ghost predicate Fresh(db: Db) {
    && (forall id | id in db.actions :: id < db.nextId)
    && (forall key | key in db.applications :: db.applications[key].id < db.nextId)
    && (forall k, l | k in db.applications && l in db.applications && k != l ::
          db.applications[k].id != db.applications[l].id)
    && (forall i | 0 <= i < |db.events| :: db.events[i].application < db.nextId && db.events[i].id < db.nextId)
  }

  ghost predicate Inv(db: Db) {
    && Fresh(db) && ActionsOk(db)
    && CommitsAreCompletions(db) && AgreesWithFold(db) && Histories(db)
    && EventsAreEffective(db) && EventsOk(db) && OutboxMatches(db)
  }

  // ---- Steps that write no status -----------------------------------------------------------

  /** A step that leaves applications, history and commits alone. */
  ghost predicate Quiet(db: Db, next: Db) {
    && next.applications == db.applications && next.events == db.events && next.commits == db.commits
    && next.nextId >= db.nextId
    && StatusRows(next.outbox) == StatusRows(db.outbox)
    && (forall id | id in next.actions :: id < next.nextId && ActionOk(next.actions[id]))
    && (forall id | id in db.actions && db.actions[id].state == Completed ::
          id in next.actions && next.actions[id] == db.actions[id])
    && (forall id | id in next.actions && next.actions[id].state == Completed ::
          id in db.actions && db.actions[id].state == Completed)
  }

  lemma QuietKeepsInv(db: Db, next: Db)
    requires Inv(db) && Quiet(db, next)
    ensures Inv(next)
  {
    forall i | 0 <= i < |next.commits| ensures CommitOk(next, next.commits[i]) {
      assert CommitOk(db, db.commits[i]);
    }
    forall i | 0 <= i < |next.events| ensures EventOk(next, next.events[i]) {
      assert EventOk(db, db.events[i]);
    }
    forall key | key in next.applications ensures HistoryOk(next.applications, next.events, key) {
      assert HistoryOk(db.applications, db.events, key);
    }
  }

  lemma OtherRow(outbox: seq<OutboxRow>, row: OutboxRow)
    requires !row.StatusChanged?
    ensures StatusRows(outbox + [row]) == StatusRows(outbox)
  {
    assert (outbox + [row])[..|outbox|] == outbox;
  }

  /** Changing one action that is not completed, and does not become so, is quiet. */
  lemma ActionChangeIsQuiet(db: Db, next: Db, id: Id)
    requires Fresh(db) && ActionsOk(db)
    requires id in next.actions && next.actions == db.actions[id := next.actions[id]]
    requires next.applications == db.applications && next.events == db.events && next.commits == db.commits
    requires db.nextId <= next.nextId && StatusRows(next.outbox) == StatusRows(db.outbox)
    requires id < next.nextId && ActionOk(next.actions[id]) && next.actions[id].state != Completed
    requires id in db.actions ==> db.actions[id].state != Completed
    ensures Quiet(db, next)
  {
  }

  lemma MarkStaleIsQuiet(db: Db, now: Time, staleAfter: Time)
    requires Fresh(db) && ActionsOk(db)
    ensures Quiet(db, MarkStaleTx(db, now, staleAfter))
  {
  }

  lemma ProposeIsQuiet(db: Db, user: string, source: string, arguments: Arguments, code: string, now: Time)
    requires Fresh(db) && ActionsOk(db)
    ensures Quiet(db, ProposeTx(db, user, source, arguments, code, now))
  {
    var next := ProposeTx(db, user, source, arguments, code, now);
    if next != db {
      OtherRow(db.outbox, ActionCreated(db.nextId + 1, db.nextId, code));
      ActionChangeIsQuiet(db, next, db.nextId);
    }
  }

  lemma ResolvedOk(action: Action, resolution: Resolution, now: Time)
    requires ActionOk(action) && action.state == Pending
    ensures ActionOk(Resolved(action, resolution, now))
    ensures Resolved(action, resolution, now).state in {Confirmed, Rejected, Expired}
  {
  }

  lemma ResolveIsQuiet(db: Db, id: Id, resolution: Resolution, now: Time)
    requires Fresh(db) && ActionsOk(db)
    ensures Quiet(db, ResolveTx(db, id, resolution, now))
  {
    var next := ResolveTx(db, id, resolution, now);
    if next != db {
      ResolvedOk(db.actions[id], resolution, now);
      OtherRow(db.outbox, ActionResolved(db.nextId, id, resolution));
      assert id < next.nextId;
      ActionChangeIsQuiet(db, next, id);
    }
  }

  lemma QuietStep(db: Db, step: Step)
    requires Fresh(db) && ActionsOk(db) && !step.Execute?
    ensures Quiet(db, Apply(db, step))
  {
    match step
    case Propose(user, source, arguments, code, now) => ProposeIsQuiet(db, user, source, arguments, code, now);
    case Resolve(id, resolution, now) => ResolveIsQuiet(db, id, resolution, now);
    case MarkStale(now, staleAfter) => MarkStaleIsQuiet(db, now, staleAfter);
    case Claim(id, now) => ClaimIsQuiet(db, id, now);
    case Fail(id, now) => FailIsQuiet(db, id, now);
    case Retry(id, now) => RetryIsQuiet(db, id, now);
  }

  lemma ClaimIsQuiet(db: Db, id: Id, now: Time)
    requires Fresh(db) && ActionsOk(db)
    ensures Quiet(db, ClaimTx(db, id, now))
  {
  }

  lemma FailIsQuiet(db: Db, id: Id, now: Time)
    requires Fresh(db) && ActionsOk(db)
    ensures Quiet(db, FailTx(db, id, now))
  {
  }

  lemma RetryIsQuiet(db: Db, id: Id, now: Time)
    requires Fresh(db) && ActionsOk(db)
    ensures Quiet(db, RetryTx(db, id, now))
  {
  }

  // ---- The step that writes -----------------------------------------------------------------

  lemma FoldAppend(commits: seq<Commit>, commit: Commit)
    ensures Fold(commits + [commit]) == Fold(commits)[commit.key := commit.stage]
    ensures Effective(commits + [commit]) ==
      Effective(commits) +
        if StageOf(Fold(commits), commit.key) == Some(commit.stage) then [] else [commit.action]
  {
    assert (commits + [commit])[..|commits|] == commits;
  }

  lemma EventsOfAppend(events: seq<JobEvent>, event: JobEvent, application: Id)
    ensures EventsOf(events + [event], application) ==
      EventsOf(events, application) + if event.application == application then [event] else []
  {
    assert (events + [event])[..|events|] == events;
  }

  lemma {:induction false} NoEventsOf(events: seq<JobEvent>, application: Id)
    requires forall i | 0 <= i < |events| :: events[i].application != application
    ensures EventsOf(events, application) == []
  {
    if events != [] {
      NoEventsOf(events[..|events| - 1], application);
    }
  }

  lemma StatusRowsAppend(outbox: seq<OutboxRow>, row: OutboxRow)
    requires row.StatusChanged?
    ensures StatusRows(outbox + [row]) == StatusRows(outbox) + [row]
  {
    assert (outbox + [row])[..|outbox|] == outbox;
  }

  lemma CommitStays(db: Db, next: Db, commit: Commit)
    requires CommitOk(db, commit) && commit.action in next.actions
    requires next.actions[commit.action] == db.actions[commit.action]
    ensures CommitOk(next, commit)
  {
  }

  lemma ExecuteKeepsCommits(db: Db, id: Id, now: Time)
    requires CommitsAreCompletions(db) && Executable(db, id)
    ensures CommitsAreCompletions(ExecuteTx(db, id, now))
  {
    var next := ExecuteTx(db, id, now);
    var commit := CommitOf(id, db.actions[id]);
    assert next.commits == db.commits + [commit];
    assert next.actions == db.actions[id := db.actions[id].(state := Completed)];
    forall i | 0 <= i < |db.commits| ensures db.commits[i].action != id && CommitOk(next, next.commits[i]) {
      assert CommitOk(db, db.commits[i]);
      CommitStays(db, next, db.commits[i]);
    }
    assert CommitOk(next, commit);
    hide CommitOk;
    forall a | a in next.actions && next.actions[a].state == Completed
      ensures exists i :: 0 <= i < |next.commits| && next.commits[i].action == a
    {
      if a == id {
        assert next.commits[|db.commits|].action == a;
      } else {
        var i :| 0 <= i < |db.commits| && db.commits[i].action == a;
        assert next.commits[i].action == a;
      }
    }
  }

  lemma ChainGrows(history: seq<JobEvent>, event: JobEvent)
    requires if history == [] then event.previous == None
             else Chain(history) && event.previous == Some(history[|history| - 1].current)
                  && event.previous != Some(event.current)
    ensures Chain(history + [event])
  {
  }

  lemma WrittenHistory(db: Db, id: Id, now: Time)
    requires Fresh(db) && Histories(db) && Executable(db, id)
    requires ExecuteTx(db, id, now).events != db.events
    ensures var next := ExecuteTx(db, id, now); HistoryOk(next.applications, next.events, KeyOf(db.actions[id]))
  {
    var next, key := ExecuteTx(db, id, now), KeyOf(db.actions[id]);
    var event, row := next.events[|db.events|], next.applications[key];
    assert next.events == db.events + [event];
    EventsOfAppend(db.events, event, row.id);
    if key in db.applications {
      assert HistoryOk(db.applications, db.events, key);
    } else {
      NoEventsOf(db.events, row.id);
    }
    ChainGrows(EventsOf(db.events, row.id), event);
  }

  lemma OtherHistory(db: Db, id: Id, now: Time, key: Key)
    requires Fresh(db) && Histories(db) && Executable(db, id)
    requires ExecuteTx(db, id, now).events != db.events
    requires key in db.applications && key != KeyOf(db.actions[id])
    ensures var next := ExecuteTx(db, id, now);
      key in next.applications && HistoryOk(next.applications, next.events, key)
  {
    var next := ExecuteTx(db, id, now);
    var event := next.events[|db.events|];
    assert next.events == db.events + [event];
    assert event.application != db.applications[key].id;
    EventsOfAppend(db.events, event, db.applications[key].id);
    assert HistoryOk(db.applications, db.events, key);
  }

  lemma ExecuteKeepsHistories(db: Db, id: Id, now: Time)
    requires Fresh(db) && Histories(db) && Executable(db, id)
    ensures Histories(ExecuteTx(db, id, now))
  {
    var next := ExecuteTx(db, id, now);
    forall key | key in next.applications ensures HistoryOk(next.applications, next.events, key) {
      if next.events == db.events {
        assert HistoryOk(db.applications, db.events, key);
      } else if key == KeyOf(db.actions[id]) {
        WrittenHistory(db, id, now);
      } else {
        OtherHistory(db, id, now, key);
      }
    }
  }

  lemma ExecuteKeepsEvents(db: Db, id: Id, now: Time)
    requires ActionsOk(db) && Executable(db, id) && EventsOk(db)
    ensures EventsOk(ExecuteTx(db, id, now))
  {
    var next := ExecuteTx(db, id, now);
    forall i | 0 <= i < |next.events| ensures EventOk(next, next.events[i]) {
      if i < |db.events| {
        assert EventOk(db, db.events[i]);
        assert next.events[i] == db.events[i];
      }
    }
  }

  lemma ExecuteKeepsOutbox(db: Db, id: Id, now: Time)
    requires OutboxMatches(db) && Executable(db, id)
    ensures OutboxMatches(ExecuteTx(db, id, now))
  {
    var next := ExecuteTx(db, id, now);
    if next.events != db.events {
      StatusRowsAppend(db.outbox, next.outbox[|db.outbox|]);
    }
  }

  lemma PreviousIsFold(db: Db, key: Key)
    requires AgreesWithFold(db)
    ensures StageAt(db.applications, key) == StageOf(Fold(db.commits), key)
  {
  }

  lemma ExecuteKeepsFold(db: Db, id: Id, now: Time)
    requires AgreesWithFold(db) && Executable(db, id)
    ensures AgreesWithFold(ExecuteTx(db, id, now))
  {
    FoldAppend(db.commits, CommitOf(id, db.actions[id]));
  }

  lemma ExecuteKeepsEffective(db: Db, id: Id, now: Time)
    requires AgreesWithFold(db) && EventsAreEffective(db) && Executable(db, id)
    ensures EventsAreEffective(ExecuteTx(db, id, now))
  {
    var next := ExecuteTx(db, id, now);
    FoldAppend(db.commits, CommitOf(id, db.actions[id]));
    PreviousIsFold(db, KeyOf(db.actions[id]));
    if next.events != db.events {
      assert ActionIds(next.events) == ActionIds(db.events) + [id];
    }
  }

  lemma ExecuteKeepsFresh(db: Db, id: Id, now: Time)
    requires Fresh(db) && ActionsOk(db) && Executable(db, id)
    ensures Fresh(ExecuteTx(db, id, now)) && ActionsOk(ExecuteTx(db, id, now))
  {
  }

  lemma ExecuteKeepsInv(db: Db, id: Id, now: Time)
    requires Inv(db)
    ensures Inv(ExecuteTx(db, id, now))
  {
    if Executable(db, id) {
      ExecuteKeepsFresh(db, id, now);
      ExecuteKeepsCommits(db, id, now);
      ExecuteKeepsFold(db, id, now);
      ExecuteKeepsHistories(db, id, now);
      ExecuteKeepsEffective(db, id, now);
      ExecuteKeepsEvents(db, id, now);
      ExecuteKeepsOutbox(db, id, now);
    }
  }

  // ---- Main results -------------------------------------------------------------------------

  lemma StepKeepsInv(db: Db, step: Step)
    requires Inv(db)
    ensures Inv(Apply(db, step))
  {
    if step.Execute? {
      ExecuteKeepsInv(db, step.id, step.now);
    } else {
      QuietStep(db, step);
      QuietKeepsInv(db, Apply(db, step));
    }
  }

  lemma {:induction false} RunKeepsInv(db: Db, steps: seq<Step>)
    requires Inv(db)
    ensures Inv(Run(db, steps))
  {
    if steps != [] {
      RunKeepsInv(db, steps[..|steps| - 1]);
      StepKeepsInv(Run(db, steps[..|steps| - 1]), steps[|steps| - 1]);
    }
  }

  /** The states some run from empty tables reaches. */
  ghost predicate Reachable(db: Db) {
    exists steps :: db == Run(EMPTY, steps)
  }

  lemma ReachableInv(db: Db)
    requires Reachable(db)
    ensures Inv(db)
  {
    var steps :| db == Run(EMPTY, steps);
    EmptyInv();
    RunKeepsInv(EMPTY, steps);
  }

  lemma EmptyInv()
    ensures Inv(EMPTY)
  {
  }

  /** After any interleaving of any workers, stopped anywhere: the applications are the left fold
      of the completed actions' frozen writes in commit order, and the job events are exactly the
      writes of that fold that changed something. */
  lemma TablesEqualFold(db: Db)
    requires Reachable(db)
    ensures (map key | key in db.applications :: db.applications[key].stage) == Fold(db.commits)
    ensures ActionIds(db.events) == Effective(db.commits)
    ensures CommitsAreCompletions(db)
  {
    ReachableInv(db);
  }

  lemma RowHistory(db: Db, key: Key)
    requires Histories(db) && AgreesWithFold(db) && key in db.applications
    ensures var row := db.applications[key];
      var history := EventsOf(db.events, row.id);
      && Chain(history)
      && history[|history| - 1].current == row.stage
      && history[|history| - 1].id == row.latestEvent
      && StageOf(Fold(db.commits), key) == Some(row.stage)
  {
    assert HistoryOk(db.applications, db.events, key);
  }

  /** Per application: the history starts from nothing, never skips, never repeats, and ends at
      the row, which points to its last event. */
  lemma HistoryEndsAtRow(db: Db, key: Key)
    requires Reachable(db) && key in db.applications
    ensures var row := db.applications[key];
      var history := EventsOf(db.events, row.id);
      && Chain(history)
      && history[|history| - 1].current == row.stage
      && history[|history| - 1].id == row.latestEvent
      && StageOf(Fold(db.commits), key) == Some(row.stage)
  {
    ReachableInv(db);
    RowHistory(db, key);
  }

  lemma {:induction false} EffectiveOrigin(commits: seq<Commit>, i: nat) returns (j: nat)
    requires i < |Effective(commits)|
    ensures j < |commits| && commits[j].action == Effective(commits)[i]
  {
    var rest := commits[..|commits| - 1];
    if i < |Effective(rest)| {
      j := EffectiveOrigin(rest, i);
    } else {
      j := |commits| - 1;
    }
  }

  lemma {:induction false} EffectiveDistinct(commits: seq<Commit>)
    requires forall i, j | 0 <= i < j < |commits| :: commits[i].action != commits[j].action
    ensures forall i, j | 0 <= i < j < |Effective(commits)| :: Effective(commits)[i] != Effective(commits)[j]
  {
    if commits != [] {
      var rest := commits[..|commits| - 1];
      EffectiveDistinct(rest);
      forall i | 0 <= i < |Effective(rest)| ensures Effective(rest)[i] != commits[|commits| - 1].action {
        var j := EffectiveOrigin(rest, i);
      }
    }
  }

  /** Every job event belongs to one completed action, confirmed strictly before its expiry, and
      carries that action's frozen stage; no two events share an action; and the status-change
      rows of the outbox mirror the events one to one. */
  lemma EventsAreConfirmedWrites(db: Db)
    requires Reachable(db)
    ensures forall i | 0 <= i < |db.events| :: EventOk(db, db.events[i])
    ensures forall i, j | 0 <= i < j < |db.events| :: db.events[i].action != db.events[j].action
    ensures OutboxMatches(db)
  {
    ReachableInv(db);
    EffectiveDistinct(db.commits);
    forall i, j | 0 <= i < j < |db.events| ensures db.events[i].action != db.events[j].action {
      assert ActionIds(db.events)[i] != ActionIds(db.events)[j];
    }
  }

  lemma TerminalStep(db: Db, step: Step, id: Id)
    requires Fresh(db) && id in db.actions && Terminal(db.actions[id].state)
    ensures var next := Apply(db, step); id in next.actions && next.actions[id] == db.actions[id]
  {
  }

  /** COMPLETED, REJECTED and EXPIRED are absorbing. */
  lemma {:induction false} TerminalIsAbsorbing(db: Db, steps: seq<Step>, id: Id)
    requires Inv(db) && id in db.actions && Terminal(db.actions[id].state)
    ensures var last := Run(db, steps); id in last.actions && last.actions[id] == db.actions[id]
  {
    if steps != [] {
      var before := steps[..|steps| - 1];
      TerminalIsAbsorbing(db, before, id);
      RunKeepsInv(db, before);
      TerminalStep(Run(db, before), steps[|steps| - 1], id);
    }
  }

  /** A rejected or expired action never produces an event, whatever runs afterwards. */
  lemma RefusedWritesNothing(db: Db, steps: seq<Step>, id: Id)
    requires Inv(db) && id in db.actions && (db.actions[id].state == Rejected || db.actions[id].state == Expired)
    ensures forall i | 0 <= i < |Run(db, steps).events| :: Run(db, steps).events[i].action != id
  {
    var last := Run(db, steps);
    TerminalIsAbsorbing(db, steps, id);
    RunKeepsInv(db, steps);
    forall i | 0 <= i < |last.events| ensures last.events[i].action != id {
      assert EventOk(last, last.events[i]);
    }
  }

  /** The history only grows: no transaction rewrites a committed event or commit. */
  lemma {:induction false} HistoryIsAppendOnly(db: Db, steps: seq<Step>)
    ensures db.events <= Run(db, steps).events && db.commits <= Run(db, steps).commits
  {
    if steps != [] {
      HistoryIsAppendOnly(db, steps[..|steps| - 1]);
    }
  }

  /** What a status row can say: a positive round for interviews, none otherwise. */
  lemma RowsAreValid(db: Db, key: Key)
    requires Reachable(db) && key in db.applications
    ensures var stage := db.applications[key].stage;
      if stage.status == Interview then stage.round.Some? && stage.round.value > 0 else stage.round.None?
  {
    hide Inv, Chain;
    HistoryEndsAtRow(db, key);
    var history := EventsOf(db.events, db.applications[key].id);
    EventsOfIn(db.events, db.applications[key].id);
    assert history[|history| - 1] in db.events;
    var i :| 0 <= i < |db.events| && db.events[i] == history[|history| - 1];
    ReachableInv(db);
    EventIsValid(db, i);
  }

  lemma EventIsValid(db: Db, i: nat)
    requires Inv(db) && i < |db.events|
    ensures var stage := db.events[i].current;
      if stage.status == Interview then stage.round.Some? && stage.round.value > 0 else stage.round.None?
  {
    assert EventOk(db, db.events[i]);
  }

  lemma {:induction false} EventsOfIn(events: seq<JobEvent>, application: Id)
    ensures forall event | event in EventsOf(events, application) :: event in events
  {
    if events != [] {
      EventsOfIn(events[..|events| - 1], application);
    }
  }

  // ---- What each transaction leaves of the action it is about --------------------------------

  /** A new proposal freezes what was asked, pending for seven days, and announces its code. */
  lemma ProposalIsFrozen(db: Db, user: string, source: string, arguments: Arguments, code: string, now: Time)
    requires Fresh(db) && ProposeTx(db, user, source, arguments, code, now) != db
    ensures var next := ProposeTx(db, user, source, arguments, code, now);
      && next.actions.Keys == db.actions.Keys + {db.nextId} && db.nextId !in db.actions
      && var action := next.actions[db.nextId];
         && action.user == user && action.source == source && action.arguments == arguments && action.code == code
         && action.state == Pending && action.expiresAt == now + 604800 && action.attempts == 0
         && action.confirmedAt == None && action.startedAt == None && action.nextRetryAt == None
         && |next.outbox| == |db.outbox| + 1 && db.outbox <= next.outbox
         && var row := next.outbox[|db.outbox|];
            row.ActionCreated? && row.action == db.nextId && row.code == code
    ensures forall id | id in db.actions :: !(db.actions[id].source == source && db.actions[id].arguments == arguments)
  {
  }

  /** A proposal is made unless one with the same source and arguments was ever made, the arguments are
      malformed or the code is taken. */
  lemma ProposedUnless(db: Db, user: string, source: string, arguments: Arguments, code: string, now: Time)
    ensures ProposeTx(db, user, source, arguments, code, now) == db <==>
      || (exists id :: id in db.actions && db.actions[id].source == source && db.actions[id].arguments == arguments)
      || (arguments.stage.status == Interview && (arguments.stage.round == None || arguments.stage.round.value <= 0))
      || (arguments.stage.status != Interview && arguments.stage.round != None)
      || (exists id :: id in db.actions && db.actions[id].code == code)
  {
    if id :| id in db.actions && db.actions[id].source == source && db.actions[id].arguments == arguments {
      assert SameProposal(db.actions[id], source, arguments);
    }
  }

  /** A claim starts one more attempt. */
  lemma ClaimStarts(db: Db, id: Id, now: Time)
    requires id in db.actions
    ensures var next := ClaimTx(db, id, now);
      && id in next.actions
      && if db.actions[id].state in {Confirmed, Failed}
         then
           && next.actions[id].state == Executing && next.actions[id].attempts == db.actions[id].attempts + 1
           && next.actions[id].startedAt == Some(now) && next.actions[id].nextRetryAt == None
         else next == db
  {
  }

  /** A write that fails is tried again after five minutes, three times in all. */
  lemma FailureSchedules(db: Db, id: Id, now: Time)
    requires id in db.actions && db.actions[id].state == Executing
    ensures var next := FailTx(db, id, now);
      && id in next.actions && next.actions[id].state == Failed && next.actions[id].attempts == db.actions[id].attempts
      && (forall later :: Recoverable(next.actions[id], later) <==> db.actions[id].attempts < 3 && now + 300 <= later)
  {
  }

  /** A stale execution is given up like a failed one; nothing else is touched by the sweep. */
  lemma SweepGivesUp(db: Db, now: Time, staleAfter: Time, id: Id)
    requires id in db.actions
    ensures var next := MarkStaleTx(db, now, staleAfter);
      && next.actions.Keys == db.actions.Keys && next.outbox == db.outbox && next.events == db.events
      && var before := db.actions[id]; var after := next.actions[id];
         if before.state == Executing && before.startedAt.Some? && before.startedAt.value < now - staleAfter
         then
           && after.state == Failed && after.attempts == before.attempts
           && (forall later :: Recoverable(after, later) <==> before.attempts < 3 && now + 300 <= later)
         else after == before
  {
  }

  /** What the sweep and the retries select: confirmed actions, and failed ones that are due and have
      attempts left. */
  lemma RecoverableMeans(action: Action, now: Time)
    ensures Recoverable(action, now) <==>
      match action.state
      case Confirmed => true
      case Failed => action.attempts < 3 && (action.nextRetryAt == None || action.nextRetryAt.value <= now)
      case _ => false
  {
  }

  /** A manual retry makes a failed action, and only such an action, due at once. */
  lemma RetryRequeues(db: Db, id: Id, now: Time)
    requires id in db.actions
    ensures var next := RetryTx(db, id, now);
      && id in next.actions
      && if db.actions[id].state == Failed
         then next.actions[id].state == Confirmed && next.actions[id].nextRetryAt == Some(now)
              && next.actions[id].attempts == db.actions[id].attempts
         else next == db
  {
  }

  /** Executing writes the stage the user confirmed under the company, department and position the
      user confirmed, with an event that continues from the old stage; an unchanged stage adds none. */
  lemma ExecutionWrites(db: Db, id: Id, now: Time)
    requires Executable(db, id)
    ensures var next := ExecuteTx(db, id, now); var action := db.actions[id];
      var key := Key(action.user, action.arguments.reference);
      && id in next.actions && next.actions[id].state == Completed
      && key in next.applications && next.applications[key].stage == action.arguments.stage
      && (key in db.applications ==> next.applications[key].id == db.applications[key].id)
      && (forall other | other in db.applications && other != key ::
            other in next.applications && next.applications[other] == db.applications[other])
      && next.applications.Keys == db.applications.Keys + {key}
      && if key in db.applications && db.applications[key].stage == action.arguments.stage
         then next.events == db.events && next.outbox == db.outbox && next.applications == db.applications
         else
           && |next.events| == |db.events| + 1 && db.events <= next.events
           && var event := next.events[|db.events|];
              && event.action == id && event.application == next.applications[key].id
              && event.id == next.applications[key].latestEvent
              && (key !in db.applications ==> event.id != event.application)
              && event.previous == (if key in db.applications then Some(db.applications[key].stage) else None)
              && event.current == action.arguments.stage
              && (action.confirmedAt.Some? ==> event.confirmedAt == action.confirmedAt.value)
              && |next.outbox| == |db.outbox| + 1 && db.outbox <= next.outbox
              && RowMatches(next.outbox[|db.outbox|], event)
  {
  }

  // ---- Answers and what they lead to --------------------------------------------------------

  /** A pending action answered in time goes where the answer says, with one outbox row that repeats
      it; answered too late it expires silently.  Any other action stays as it is. */
  lemma AnswerDecides(db: Db, id: Id, resolution: Resolution, now: Time)
    requires id in db.actions
    ensures var next := ResolveTx(db, id, resolution, now);
      && id in next.actions
      && var before := db.actions[id]; var after := next.actions[id];
         if before.state != Pending then next == db
         else if before.expiresAt <= now then
           after.state == Expired && after.confirmedAt == before.confirmedAt && next.outbox == db.outbox
         else
           && (resolution == Confirm ==> after.state == Confirmed && after.confirmedAt == Some(now))
           && (resolution == Reject ==> after.state == Rejected && after.confirmedAt == before.confirmedAt)
           && |next.outbox| == |db.outbox| + 1 && db.outbox <= next.outbox
           && var row := next.outbox[|db.outbox|];
              row.ActionResolved? && row.action == id && row.resolution == resolution
  {
  }

  ghost predicate Answered(outbox: seq<OutboxRow>, id: Id, resolution: Resolution) {
    exists row :: row in outbox && row.ActionResolved? && row.action == id && row.resolution == resolution
  }

  /** The states an answer leads to, against the answers in the outbox. */
  ghost predicate FollowsAnswer(db: Db, id: Id) {
    && (Answered(db.outbox, id, Confirm) <==> IsConfirmed(db, id))
    && (Answered(db.outbox, id, Reject) <==> IsRejected(db, id))
  }

  ghost predicate FollowAnswers(db: Db) {
    forall id :: FollowsAnswer(db, id)
  }

  lemma AnsweredAppend(outbox: seq<OutboxRow>, row: OutboxRow, id: Id, resolution: Resolution)
    ensures Answered(outbox + [row], id, resolution) <==>
      Answered(outbox, id, resolution) || (row.ActionResolved? && row.action == id && row.resolution == resolution)
  {
    if Answered(outbox, id, resolution) {
      var r :| r in outbox && r.ActionResolved? && r.action == id && r.resolution == resolution;
      assert r in outbox + [row];
    }
    if row.ActionResolved? && row.action == id && row.resolution == resolution {
      assert row in outbox + [row];
    }
  }

  /** Appending at most one row, of which the state changes are the reflection. */
  lemma AppendKeepsAnswers(db: Db, next: Db, row: OutboxRow)
    requires FollowAnswers(db) && next.outbox == db.outbox + [row]
    requires forall id :: ReflectsRow(db, next, row, id)
    ensures FollowAnswers(next)
  {
    forall id ensures FollowsAnswer(next, id) {
      assert FollowsAnswer(db, id) && ReflectsRow(db, next, row, id);
      AnsweredAppend(db.outbox, row, id, Confirm);
      AnsweredAppend(db.outbox, row, id, Reject);
    }
  }

  ghost predicate IsConfirmed(db: Db, id: Id) {
    id in db.actions && WasConfirmed(db.actions[id].state)
  }

  ghost predicate IsRejected(db: Db, id: Id) {
    id in db.actions && db.actions[id].state == Rejected
  }

  ghost predicate ReflectsRow(db: Db, next: Db, row: OutboxRow, id: Id) {
    var about := row.ActionResolved? && row.action == id;
    && (IsConfirmed(next, id) <==> IsConfirmed(db, id) || (about && row.resolution == Confirm))
    && (IsRejected(next, id) <==> IsRejected(db, id) || (about && row.resolution == Reject))
  }

  lemma SameOutboxKeepsAnswers(db: Db, next: Db)
    requires FollowAnswers(db) && next.outbox == db.outbox
    requires forall id :: SameStanding(db, next, id)
    ensures FollowAnswers(next)
  {
    forall id ensures FollowsAnswer(next, id) {
      assert FollowsAnswer(db, id) && SameStanding(db, next, id);
    }
  }

  ghost predicate SameStanding(db: Db, next: Db, id: Id) {
    (IsConfirmed(next, id) <==> IsConfirmed(db, id)) && (IsRejected(next, id) <==> IsRejected(db, id))
  }

  /** One transaction adds at most one outbox row, and its state changes are what the row says. */
  lemma StepReflects(db: Db, step: Step, id: Id)
    requires Fresh(db)
    ensures var next := Apply(db, step);
      || (next.outbox == db.outbox && SameStanding(db, next, id))
      || (&& |next.outbox| == |db.outbox| + 1 && next.outbox == db.outbox + [next.outbox[|db.outbox|]]
          && ReflectsRow(db, next, next.outbox[|db.outbox|], id))
  {
  }

  lemma StepKeepsAnswers(db: Db, step: Step)
    requires Fresh(db) && FollowAnswers(db)
    ensures FollowAnswers(Apply(db, step))
  {
    hide Apply, ReflectsRow, SameStanding, FollowAnswers;
    var next := Apply(db, step);
    StepReflects(db, step, 0);
    forall id
      ensures next.outbox == db.outbox ==> SameStanding(db, next, id)
      ensures next.outbox != db.outbox ==> ReflectsRow(db, next, next.outbox[|db.outbox|], id)
    {
      StepReflects(db, step, id);
    }
    if next.outbox == db.outbox {
      SameOutboxKeepsAnswers(db, next);
    } else {
      AppendKeepsAnswers(db, next, next.outbox[|db.outbox|]);
    }
  }

  lemma {:induction false} RunKeepsAnswers(steps: seq<Step>)
    ensures FollowAnswers(Run(EMPTY, steps))
  {
    if steps != [] {
      hide Inv, FollowAnswers, Apply;
      EmptyInv();
      RunKeepsInv(EMPTY, steps[..|steps| - 1]);
      RunKeepsAnswers(steps[..|steps| - 1]);
      InvIsFresh(Run(EMPTY, steps[..|steps| - 1]));
      StepKeepsAnswers(Run(EMPTY, steps[..|steps| - 1]), steps[|steps| - 1]);
    }
  }

  lemma InvIsFresh(db: Db)
    requires Inv(db)
    ensures Fresh(db)
  {
  }

  /** Only what the user confirmed is ever written, and what the user refused never is: every job
      event's action has a confirmation in the outbox and no rejection. */
  lemma EventsAreAnswered(db: Db, i: nat)
    requires Reachable(db) && i < |db.events|
    ensures Answered(db.outbox, db.events[i].action, Confirm) && !Answered(db.outbox, db.events[i].action, Reject)
  {
    ReachableInv(db);
    var steps :| db == Run(EMPTY, steps);
    RunKeepsAnswers(steps);
    assert EventOk(db, db.events[i]) && FollowsAnswer(db, db.events[i].action);
  }

  /** And the user's answer decides: in every state an action is refused iff it was rejected in time,
      and can be executed only if it was confirmed. */
  lemma StatesFollowAnswers(db: Db, id: Id)
    requires Reachable(db)
    ensures Answered(db.outbox, id, Confirm) <==>
      id in db.actions && db.actions[id].state in {Confirmed, Executing, Failed, Completed}
    ensures Answered(db.outbox, id, Reject) <==> id in db.actions && db.actions[id].state == Rejected
    ensures id in db.actions ==>
      (db.actions[id].confirmedAt.Some? <==> db.actions[id].state in {Confirmed, Executing, Failed, Completed})
  {
    var steps :| db == Run(EMPTY, steps);
    RunKeepsAnswers(steps);
    assert FollowsAnswer(db, id);
    ReachableInv(db);
  }

  // ---- Selecting an action by command -------------------------------------------------------

  /** Confirmation codes and proposals are unique. */
  ghost predicate Unique(db: Db) {
    forall i, j | i in db.actions && j in db.actions && i != j ::
      && db.actions[i].code != db.actions[j].code
      && !SameProposal(db.actions[i], db.actions[j].source, db.actions[j].arguments)
  }

  /** No transaction rewrites who proposed what under which code. */
  predicate SameIdentity(a: Action, b: Action) {
    a.user == b.user && a.source == b.source && a.arguments == b.arguments && a.code == b.code
    && a.expiresAt == b.expiresAt
  }

  lemma IdentityIsFrozen(db: Db, step: Step)
    requires Fresh(db)
    ensures var next := Apply(db, step);
      forall id | id in db.actions :: id in next.actions && SameIdentity(db.actions[id], next.actions[id])
    ensures !step.Propose? ==> Apply(db, step).actions.Keys == db.actions.Keys
  {
  }

  lemma StepKeepsUnique(db: Db, step: Step)
    requires Fresh(db) && Unique(db)
    ensures Unique(Apply(db, step))
  {
    IdentityIsFrozen(db, step);
  }

  lemma {:induction false} RunKeepsUnique(db: Db, steps: seq<Step>)
    requires Inv(db) && Unique(db)
    ensures Unique(Run(db, steps))
  {
    if steps != [] {
      RunKeepsInv(db, steps[..|steps| - 1]);
      RunKeepsUnique(db, steps[..|steps| - 1]);
      StepKeepsUnique(Run(db, steps[..|steps| - 1]), steps[|steps| - 1]);
    }
  }

  /** find_pending_by_code and list_pending_actions: the actions a command can mean. */
  function Targets(actions: map<Id, Action>, user: string, code: Option<string>, now: Time): set<Id> {
    set id | id in actions && actions[id].user == user &&
      match code
      case Some(c) => actions[id].code == c
      case None => actions[id].state == Pending && actions[id].expiresAt > now
  }

  /** With a code: the user's actions that carry it.  Without one: the user's actions that wait. */
  lemma TargetsAre(actions: map<Id, Action>, user: string, now: Time, id: Id)
    ensures forall c :: id in Targets(actions, user, Some(c), now) <==>
      id in actions && actions[id].user == user && actions[id].code == c
    ensures id in Targets(actions, user, None, now) <==>
      id in actions && actions[id].user == user && actions[id].state == Pending && now < actions[id].expiresAt
  {
  }

  lemma CodeHasOneTarget(db: Db, user: string, code: string, now: Time, id: Id)
    requires Unique(db) && id in Targets(db.actions, user, Some(code), now)
    ensures Targets(db.actions, user, Some(code), now) == {id}
  {
  }
}
