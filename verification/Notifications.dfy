/** Notification dispatch: a write-ahead ledger of delivery attempts, one dispatcher, a stale recovery
    that runs beside it, and manual retries.

    A notification's id is its position. */
module Notifications {
  import opened Domain
  import opened Wrappers

  type Id = nat
  type Time = int

  const RETRY_DELAY: Time := 300

  datatype State = Pending | Sending | RetryWait | Sent | Failed

  datatype Notification = Notification(
    user: string, content: string, state: State, attempts: nat, retryAt: Option<Time>, lastAttempt: Option<Time>)

  /** The unique key of an attempt row. */
  datatype AttemptKey = AttemptKey(notification: Id, no: nat)

  datatype AttemptResult = Started | Delivered | Refused(kind: Option<ProviderErrorKind>)

  datatype Db = Db(rows: seq<Notification>, attempts: map<AttemptKey, AttemptResult>)

  const EMPTY := Db([], map[])

  /** What one push came to; an exception of the gateway has no kind. */
  datatype Outcome = Outcome(success: bool, kind: Option<ProviderErrorKind>)

  // ---- Transactions -------------------------------------------------------------------------

  function CreateTx(db: Db, user: string, content: string): Db {
    db.(rows := db.rows + [Notification(user, content, Pending, 0, None, None)])
  }

  predicate Stale(row: Notification, now: Time, staleAfter: Time) {
    row.state == Sending && (row.lastAttempt.Some? ==> row.lastAttempt.value <= now - staleAfter)
  }

  function RecoverRow(row: Notification, now: Time, staleAfter: Time): Notification {
    if Stale(row, now, staleAfter) then row.(state := RetryWait, retryAt := Some(now)) else row
  }

  /** recover_stale */
  function RecoverAll(rows: seq<Notification>, now: Time, staleAfter: Time): (r: seq<Notification>)
    ensures |r| == |rows| && forall i | 0 <= i < |rows| :: r[i] == RecoverRow(rows[i], now, staleAfter)
  {
    if rows == [] then []
    else RecoverAll(rows[..|rows| - 1], now, staleAfter) + [RecoverRow(rows[|rows| - 1], now, staleAfter)]
  }

  predicate Eligible(row: Notification, now: Time) {
    row.state == Pending || (row.state == RetryWait && (row.retryAt.Some? ==> row.retryAt.value <= now))
  }

  function ClaimRow(row: Notification, now: Time): Notification {
    if Eligible(row, now) then row.(state := Sending, attempts := row.attempts + 1, lastAttempt := Some(now)) else row
  }

  function ClaimAll(rows: seq<Notification>, now: Time): (r: seq<Notification>)
    ensures |r| == |rows| && forall i | 0 <= i < |rows| :: r[i] == ClaimRow(rows[i], now)
  {
    if rows == [] then [] else ClaimAll(rows[..|rows| - 1], now) + [ClaimRow(rows[|rows| - 1], now)]
  }

  function NewAttempts(rows: seq<Notification>, now: Time): map<AttemptKey, AttemptResult> {
    map i | 0 <= i < |rows| && Eligible(rows[i], now) :: AttemptKey(i, rows[i].attempts + 1) := Started
  }

  /** The claims of dispatch_once, in id order. */
  function Claims(rows: seq<Notification>, now: Time): (ids: seq<Id>)
    ensures forall i, j | 0 <= i < j < |ids| :: ids[i] < ids[j]
    ensures forall d: Id :: d in ids <==> d < |rows| && Eligible(rows[d], now)
  {
    if rows == [] then []
    else
      var last := |rows| - 1;
      var before := Claims(rows[..last], now);
      assert forall i | 0 <= i < |before| :: before[i] in before;
      if Eligible(rows[last], now) then before + [last] else before
  }

  /** The claiming transaction: every eligible row, each with its attempt row. */
  function ClaimTx(db: Db, now: Time): Db {
    Db(ClaimAll(db.rows, now), db.attempts + NewAttempts(db.rows, now))
  }

  predicate Final(kind: Option<ProviderErrorKind>) {
    kind == Some(Permanent) || kind == Some(Definite) || kind == Some(Ambiguous)
  }

  /** _finish_attempt */
  function FinishTx(db: Db, id: Id, outcome: Outcome, now: Time, max: nat): Db {
    if id >= |db.rows| || AttemptKey(id, db.rows[id].attempts) !in db.attempts then db
    else
      var row, key := db.rows[id], AttemptKey(id, db.rows[id].attempts);
      if outcome.success then
        Db(db.rows[id := row.(state := Sent, retryAt := None)], db.attempts[key := Delivered])
      else
        var next := if Final(outcome.kind) || row.attempts >= max then row.(state := Failed, retryAt := None)
                    else row.(state := RetryWait, retryAt := Some(now + RETRY_DELAY));
        Db(db.rows[id := next], db.attempts[key := Refused(outcome.kind)])
  }

  /** retry_failed_notification */
  function RetryTx(db: Db, id: Id, now: Time): Db {
    if id < |db.rows| && db.rows[id].state == Failed
    then db.(rows := db.rows[id := db.rows[id].(state := RetryWait, retryAt := Some(now))]) else db
  }

  // ---- The system ---------------------------------------------------------------------------

  datatype Dispatcher =
    | Idle
    | Claimed(todo: seq<Id>)
    | Pushed(id: Id, outcome: Outcome, todo: seq<Id>)

  /** `pushes` records every push the provider saw; `recoveries` and `retries` count, per
      notification, the stale recoveries and manual retries that took effect. */
  datatype System = System(
    db: Db, dispatcher: Dispatcher, pushes: seq<AttemptKey>, recoveries: seq<nat>, retries: seq<nat>)

  const START := System(EMPTY, Idle, [], [], [])

  datatype Move =
    | Create(user: string, content: string)
    | Recover(now: Time, staleAfter: Time)
    | ManualRetry(id: Id, now: Time)
    | Claim(now: Time)
    | Push(outcome: Outcome)
    | Finish(now: Time)
    | Crash

  function CountRecoveries(counts: seq<nat>, rows: seq<Notification>, now: Time, staleAfter: Time): (r: seq<nat>)
    requires |counts| == |rows|
    ensures |r| == |counts|
    ensures forall i | 0 <= i < |counts| :: r[i] == counts[i] + if Stale(rows[i], now, staleAfter) then 1 else 0
  {
    if counts == [] then []
    else
      var last := |counts| - 1;
      CountRecoveries(counts[..last], rows[..last], now, staleAfter)
      + [counts[last] + if Stale(rows[last], now, staleAfter) then 1 else 0]
  }

  function Todo(dispatcher: Dispatcher): seq<Id> {
    if dispatcher.Idle? then [] else dispatcher.todo
  }

  function Do(s: System, move: Move, max: nat): System {
    match move
    case Create(user, content) =>
      s.(db := CreateTx(s.db, user, content), recoveries := s.recoveries + [0], retries := s.retries + [0])
    case Recover(now, staleAfter) =>
      if |s.recoveries| != |s.db.rows| then s
      else
        s.(db := s.db.(rows := RecoverAll(s.db.rows, now, staleAfter)),
           recoveries := CountRecoveries(s.recoveries, s.db.rows, now, staleAfter))
    case ManualRetry(id, now) =>
      if id < |s.db.rows| && id < |s.retries| && s.db.rows[id].state == Failed
      then s.(db := RetryTx(s.db, id, now), retries := s.retries[id := s.retries[id] + 1]) else s
    case Claim(now) =>
      if !s.dispatcher.Idle? then s
      else s.(db := ClaimTx(s.db, now), dispatcher := Claimed(Claims(s.db.rows, now)))
    case Push(outcome) =>
      if !s.dispatcher.Claimed? then s
      else if s.dispatcher.todo == [] then s.(dispatcher := Idle)
      else
        var id := s.dispatcher.todo[0];
        s.(pushes := s.pushes + [AttemptKey(id, if id < |s.db.rows| then s.db.rows[id].attempts else 0)],
           dispatcher := Pushed(id, outcome, s.dispatcher.todo[1..]))
    case Finish(now) =>
      if !s.dispatcher.Pushed? then s
      else
        s.(db := FinishTx(s.db, s.dispatcher.id, s.dispatcher.outcome, now, max),
           dispatcher := Claimed(s.dispatcher.todo))
    case Crash => s.(dispatcher := Idle)
  }

  function DoAll(s: System, moves: seq<Move>, max: nat): System {
    if moves == [] then s else Do(DoAll(s, moves[..|moves| - 1], max), moves[|moves| - 1], max)
  }

  // ---- The invariant ------------------------------------------------------------------------

  /** The attempt numbers of a notification are exactly 1..attempt_count. */
  ghost predicate LedgerOk(db: Db) {
    forall k: AttemptKey ::
      k in db.attempts <==> k.notification < |db.rows| && 1 <= k.no <= db.rows[k.notification].attempts
  }

  /** SENT rows are those whose last attempt was delivered; no other attempt ever was. */
  ghost predicate SentOk(db: Db) {
    && (forall id: Id | id < |db.rows| && db.rows[id].state == Sent :: WasDelivered(db, id))
    && (forall k: AttemptKey | k in db.attempts && db.attempts[k] == Delivered ::
          k.notification < |db.rows| && db.rows[k.notification].state == Sent
          && k.no == db.rows[k.notification].attempts)
  }

  predicate WasDelivered(db: Db, id: Id) {
    && id < |db.rows| && AttemptKey(id, db.rows[id].attempts) in db.attempts
    && db.attempts[AttemptKey(id, db.rows[id].attempts)] == Delivered
  }

  ghost predicate Bounded(s: System, max: nat) {
    && |s.recoveries| == |s.db.rows| && |s.retries| == |s.db.rows|
    && forall id: Id | id < |s.db.rows| ::
         WithinBound(s.db.rows[id], s.recoveries[id] + s.retries[id], max)
  }

  predicate WithinBound(row: Notification, extra: nat, max: nat) {
    match row.state
    case Pending => row.attempts == 0
    case RetryWait => row.attempts + 1 <= max + extra
    case _ => row.attempts <= max + extra
  }

  /** A claimed notification is in flight: its attempt row is committed, its push has not happened. */
  ghost predicate InFlight(db: Db, id: Id) {
    && id < |db.rows| && (db.rows[id].state == Sending || db.rows[id].state == RetryWait)
    && AttemptKey(id, db.rows[id].attempts) in db.attempts
    && db.attempts[AttemptKey(id, db.rows[id].attempts)] != Delivered
  }

  ghost predicate Distinct(ids: seq<Id>) {
    forall i, j | 0 <= i < j < |ids| :: ids[i] != ids[j]
  }

  ghost predicate DispatcherOk(s: System) {
    && Distinct(Todo(s.dispatcher))
    && (forall i | 0 <= i < |Todo(s.dispatcher)| ::
          InFlight(s.db, Todo(s.dispatcher)[i])
          && AttemptKey(Todo(s.dispatcher)[i], s.db.rows[Todo(s.dispatcher)[i]].attempts) !in s.pushes)
    && (s.dispatcher.Pushed? ==> InFlight(s.db, s.dispatcher.id) && s.dispatcher.id !in s.dispatcher.todo)
  }

  ghost predicate PushesOk(db: Db, pushes: seq<AttemptKey>) {
    && (forall i | 0 <= i < |pushes| :: pushes[i] in db.attempts)
    && (forall i, j | 0 <= i < j < |pushes| :: pushes[i] != pushes[j])
  }

  ghost predicate Inv(s: System, max: nat) {
    LedgerOk(s.db) && SentOk(s.db) && Bounded(s, max) && DispatcherOk(s) && PushesOk(s.db, s.pushes)
  }

  // -- each move

  lemma CreateKeepsInv(s: System, user: string, content: string, max: nat)
    requires Inv(s, max)
    ensures Inv(Do(s, Create(user, content), max), max)
  {
    var next := Do(s, Create(user, content), max);
    forall i | 0 <= i < |Todo(s.dispatcher)| ensures InFlight(next.db, Todo(s.dispatcher)[i]) {
      assert InFlight(s.db, Todo(s.dispatcher)[i]);
    }
  }

  /** Changes of rows that keep attempt counts, and neither make nor unmake SENT. */
  ghost predicate RowsSettle(rows: seq<Notification>, next: seq<Notification>) {
    && |next| == |rows|
    && forall id | 0 <= id < |rows| ::
         && next[id].attempts == rows[id].attempts
         && (next[id].state == Sent <==> rows[id].state == Sent)
         && (rows[id].state == Sending || rows[id].state == RetryWait ==>
               next[id].state == Sending || next[id].state == RetryWait)
  }

  lemma RowsSettleKeeps(s: System, next: seq<Notification>)
    requires LedgerOk(s.db) && SentOk(s.db) && DispatcherOk(s) && PushesOk(s.db, s.pushes)
    requires RowsSettle(s.db.rows, next)
    ensures var after := s.(db := s.db.(rows := next));
      LedgerOk(after.db) && SentOk(after.db) && DispatcherOk(after) && PushesOk(after.db, after.pushes)
  {
    var after := s.(db := s.db.(rows := next));
    forall id: Id | id < |next| && next[id].state == Sent ensures WasDelivered(after.db, id) {
      assert WasDelivered(s.db, id);
    }
    forall i | 0 <= i < |Todo(s.dispatcher)| ensures InFlight(after.db, Todo(s.dispatcher)[i]) {
      assert InFlight(s.db, Todo(s.dispatcher)[i]);
    }
  }

  lemma RecoverKeepsInv(s: System, now: Time, staleAfter: Time, max: nat)
    requires Inv(s, max)
    ensures Inv(Do(s, Recover(now, staleAfter), max), max)
  {
    var next := Do(s, Recover(now, staleAfter), max);
    RowsSettleKeeps(s, next.db.rows);
    forall id: Id | id < |s.db.rows|
      ensures WithinBound(next.db.rows[id], next.recoveries[id] + next.retries[id], max)
    {
      assert WithinBound(s.db.rows[id], s.recoveries[id] + s.retries[id], max);
    }
  }

  lemma RetryKeepsInv(s: System, id: Id, now: Time, max: nat)
    requires Inv(s, max)
    ensures Inv(Do(s, ManualRetry(id, now), max), max)
  {
    var next := Do(s, ManualRetry(id, now), max);
    if next != s {
      RowsSettleKeeps(s, next.db.rows);
      forall k: Id | k < |s.db.rows|
        ensures WithinBound(next.db.rows[k], next.recoveries[k] + next.retries[k], max)
      {
        assert WithinBound(s.db.rows[k], s.recoveries[k] + s.retries[k], max);
      }
    }
  }

  ghost predicate Separate(a: map<AttemptKey, AttemptResult>, b: map<AttemptKey, AttemptResult>) {
    forall k | k in a :: k !in b
  }

  predicate StartsAttempt(rows: seq<Notification>, now: Time, k: AttemptKey) {
    k.notification < |rows| && Eligible(rows[k.notification], now) && k.no == rows[k.notification].attempts + 1
  }

  lemma NewAttemptsAre(rows: seq<Notification>, now: Time, k: AttemptKey)
    ensures k in NewAttempts(rows, now) <==> StartsAttempt(rows, now, k)
  {
    if StartsAttempt(rows, now, k) {
      assert k == AttemptKey(k.notification, rows[k.notification].attempts + 1);
    }
  }

  lemma ClaimLedger(db: Db, now: Time)
    requires LedgerOk(db)
    ensures LedgerOk(ClaimTx(db, now)) && Separate(db.attempts, NewAttempts(db.rows, now))
  {
    forall k: AttemptKey
      ensures k in NewAttempts(db.rows, now) <==> StartsAttempt(db.rows, now, k)
    {
      NewAttemptsAre(db.rows, now, k);
    }
  }

  ghost predicate AllStarted(added: map<AttemptKey, AttemptResult>) {
    forall k | k in added :: added[k] == Started
  }

  ghost predicate KeepsSent(rows: seq<Notification>, next: seq<Notification>) {
    && |next| == |rows|
    && forall id | 0 <= id < |rows| ::
         && (next[id].state == Sent <==> rows[id].state == Sent)
         && (rows[id].state == Sent ==> next[id] == rows[id])
  }

  /** New attempts, all just started, leave SENT and DELIVERED as they are. */
  lemma StartingKeepsSent(db: Db, next: Db, added: map<AttemptKey, AttemptResult>)
    requires SentOk(db) && Separate(db.attempts, added) && AllStarted(added)
    requires next.attempts == db.attempts + added && KeepsSent(db.rows, next.rows)
    ensures SentOk(next)
  {
    forall id: Id | id < |next.rows| && next.rows[id].state == Sent ensures WasDelivered(next, id) {
      assert WasDelivered(db, id);
    }
    forall k: AttemptKey | k in next.attempts && next.attempts[k] == Delivered
      ensures k in db.attempts && db.attempts[k] == Delivered
    {
    }
  }

  lemma ClaimingRows(rows: seq<Notification>, now: Time)
    ensures KeepsSent(rows, ClaimAll(rows, now)) && AllStarted(NewAttempts(rows, now))
  {
  }

  lemma ClaimSent(db: Db, now: Time)
    requires LedgerOk(db) && SentOk(db)
    ensures SentOk(ClaimTx(db, now))
  {
    hide SentOk, LedgerOk, KeepsSent, Separate, AllStarted;
    ClaimLedger(db, now);
    ClaimingRows(db.rows, now);
    StartingKeepsSent(db, ClaimTx(db, now), NewAttempts(db.rows, now));
  }

  lemma ClaimDispatcher(s: System, now: Time)
    requires LedgerOk(s.db) && PushesOk(s.db, s.pushes)
    ensures DispatcherOk(s.(db := ClaimTx(s.db, now), dispatcher := Claimed(Claims(s.db.rows, now))))
    ensures PushesOk(ClaimTx(s.db, now), s.pushes)
  {
    var next, ids := ClaimTx(s.db, now), Claims(s.db.rows, now);
    ClaimLedger(s.db, now);
    forall i | 0 <= i < |ids|
      ensures InFlight(next, ids[i]) && AttemptKey(ids[i], next.rows[ids[i]].attempts) !in s.pushes
    {
      assert ids[i] in ids;
      var key := AttemptKey(ids[i], next.rows[ids[i]].attempts);
      NewAttemptsAre(s.db.rows, now, key);
      assert key !in s.db.attempts;
    }
  }

  lemma ClaimBound(s: System, now: Time, max: nat)
    requires Bounded(s, max) && max > 0
    ensures Bounded(s.(db := ClaimTx(s.db, now), dispatcher := Claimed(Claims(s.db.rows, now))), max)
  {
    forall id: Id | id < |s.db.rows|
      ensures WithinBound(ClaimRow(s.db.rows[id], now), s.recoveries[id] + s.retries[id], max)
    {
      assert WithinBound(s.db.rows[id], s.recoveries[id] + s.retries[id], max);
    }
  }

  lemma ClaimKeepsInv(s: System, now: Time, max: nat)
    requires Inv(s, max) && max > 0
    ensures Inv(Do(s, Claim(now), max), max)
  {
    if s.dispatcher.Idle? {
      hide SentOk, LedgerOk, Bounded, DispatcherOk, PushesOk, Separate, ClaimTx;
      ClaimLedger(s.db, now);
      ClaimSent(s.db, now);
      ClaimDispatcher(s, now);
      ClaimBound(s, now, max);
    }
  }

  lemma PushKeepsInv(s: System, outcome: Outcome, max: nat)
    requires Inv(s, max)
    ensures Inv(Do(s, Push(outcome), max), max)
  {
    if s.dispatcher.Claimed? && s.dispatcher.todo != [] {
      var id, rest := s.dispatcher.todo[0], s.dispatcher.todo[1..];
      var key := AttemptKey(id, s.db.rows[id].attempts);
      assert forall i | 0 <= i < |rest| :: rest[i] == s.dispatcher.todo[i + 1] != id;
      assert key in s.db.attempts && key !in s.pushes;
    }
  }

  /** Settling one in-flight notification. */
  lemma FinishLedger(db: Db, id: Id, outcome: Outcome, now: Time, max: nat)
    requires LedgerOk(db) && SentOk(db) && InFlight(db, id)
    ensures var next := FinishTx(db, id, outcome, now, max);
      && LedgerOk(next) && SentOk(next) && next.attempts.Keys == db.attempts.Keys
      && |next.rows| == |db.rows| && next.rows[id].attempts == db.rows[id].attempts
      && forall k: Id | k < |db.rows| && k != id :: next.rows[k] == db.rows[k]
  {
    var next := FinishTx(db, id, outcome, now, max);
    forall k: Id | k < |next.rows| && next.rows[k].state == Sent ensures WasDelivered(next, k) {
      if k != id {
        assert WasDelivered(db, k);
      }
    }
  }

  lemma FinishOthers(db: Db, id: Id, outcome: Outcome, now: Time, max: nat, other: Id)
    requires InFlight(db, id) && InFlight(db, other) && other != id
    ensures InFlight(FinishTx(db, id, outcome, now, max), other)
  {
  }

  lemma FinishDispatcher(s: System, now: Time, max: nat)
    requires LedgerOk(s.db) && SentOk(s.db) && DispatcherOk(s) && s.dispatcher.Pushed?
    ensures DispatcherOk(Do(s, Finish(now), max))
  {
    var todo, next := s.dispatcher.todo, Do(s, Finish(now), max);
    FinishLedger(s.db, s.dispatcher.id, s.dispatcher.outcome, now, max);
    forall i | 0 <= i < |todo|
      ensures InFlight(next.db, todo[i]) && AttemptKey(todo[i], next.db.rows[todo[i]].attempts) !in s.pushes
    {
      assert InFlight(s.db, Todo(s.dispatcher)[i]) && todo[i] in todo;
      FinishOthers(s.db, s.dispatcher.id, s.dispatcher.outcome, now, max, todo[i]);
    }
  }

  lemma FinishBound(s: System, now: Time, max: nat)
    requires Bounded(s, max) && s.dispatcher.Pushed? && InFlight(s.db, s.dispatcher.id)
    ensures Bounded(Do(s, Finish(now), max), max)
  {
    var next := Do(s, Finish(now), max);
    forall k: Id | k < |s.db.rows|
      ensures WithinBound(next.db.rows[k], next.recoveries[k] + next.retries[k], max)
    {
      assert WithinBound(s.db.rows[k], s.recoveries[k] + s.retries[k], max);
    }
  }

  lemma FinishKeepsInv(s: System, now: Time, max: nat)
    requires Inv(s, max)
    ensures Inv(Do(s, Finish(now), max), max)
  {
    if s.dispatcher.Pushed? {
      assert InFlight(s.db, s.dispatcher.id);
      hide SentOk, LedgerOk, Bounded, DispatcherOk;
      FinishLedger(s.db, s.dispatcher.id, s.dispatcher.outcome, now, max);
      FinishDispatcher(s, now, max);
      FinishBound(s, now, max);
    }
  }

  lemma MoveKeepsInv(s: System, move: Move, max: nat)
    requires Inv(s, max) && max > 0
    ensures Inv(Do(s, move, max), max)
  {
    match move
    case Create(user, content) => CreateKeepsInv(s, user, content, max);
    case Recover(now, staleAfter) => RecoverKeepsInv(s, now, staleAfter, max);
    case ManualRetry(id, now) => RetryKeepsInv(s, id, now, max);
    case Claim(now) => ClaimKeepsInv(s, now, max);
    case Push(outcome) => PushKeepsInv(s, outcome, max);
    case Finish(now) => FinishKeepsInv(s, now, max);
    case Crash =>
  }

  lemma StartIsOk(max: nat)
    ensures Inv(START, max)
  {
  }

  lemma {:induction false} MovesKeepInv(moves: seq<Move>, max: nat)
    requires max > 0
    ensures Inv(DoAll(START, moves, max), max)
  {
    hide Inv;
    if moves == [] {
      StartIsOk(max);
    } else {
      MovesKeepInv(moves[..|moves| - 1], max);
      MoveKeepsInv(DoAll(START, moves[..|moves| - 1], max), moves[|moves| - 1], max);
    }
  }

  // ---- The results --------------------------------------------------------------------------

  ghost predicate Reachable(s: System, max: nat) {
    exists moves :: s == DoAll(START, moves, max)
  }

  lemma ReachableInv(s: System, max: nat)
    requires Reachable(s, max) && max > 0
    ensures Inv(s, max)
  {
    hide Inv;
    var moves :| s == DoAll(START, moves, max);
    MovesKeepInv(moves, max);
  }

  /** The attempt numbers of a notification are exactly 1..attempt_count, and attempts never exceed
      the limit plus its stale recoveries and manual retries. */
  lemma AttemptsAreNumberedAndBounded(s: System, max: nat, id: Id)
    requires Reachable(s, max) && max > 0 && id < |s.db.rows|
    ensures |s.recoveries| == |s.retries| == |s.db.rows|
    ensures s.db.rows[id].attempts <= max + s.recoveries[id] + s.retries[id]
    ensures forall no: nat :: AttemptKey(id, no) in s.db.attempts <==> 1 <= no <= s.db.rows[id].attempts
  {
    ReachableInv(s, max);
    assert WithinBound(s.db.rows[id], s.recoveries[id] + s.retries[id], max);
  }

  /** Every push was made under a committed attempt row, and no attempt is pushed twice. */
  lemma PushesAreOnTheLedger(s: System, max: nat, i: nat, j: nat)
    requires Reachable(s, max) && max > 0 && i < |s.pushes| && j < |s.pushes|
    ensures s.pushes[i] in s.db.attempts
    ensures s.pushes[i] == s.pushes[j] ==> i == j
  {
    ReachableInv(s, max);
  }

  /** A push is logged only for an attempt that was already committed when it happened. */
  lemma PushNeedsCommittedAttempt(s: System, outcome: Outcome, max: nat)
    requires Inv(s, max) && s.dispatcher.Claimed? && s.dispatcher.todo != []
    ensures var next := Do(s, Push(outcome), max);
      |next.pushes| == |s.pushes| + 1 && next.pushes[|s.pushes|] in s.db.attempts
  {
    assert InFlight(s.db, Todo(s.dispatcher)[0]);
  }

  /** A SENT notification was delivered by its last attempt; every delivered attempt is such a last one. */
  lemma SentMeansDelivered(s: System, max: nat, id: Id)
    requires Reachable(s, max) && max > 0 && id < |s.db.rows|
    ensures s.db.rows[id].state == Sent <==> WasDelivered(s.db, id)
    ensures forall no: nat | AttemptKey(id, no) in s.db.attempts && s.db.attempts[AttemptKey(id, no)] == Delivered ::
      no == s.db.rows[id].attempts
  {
    ReachableInv(s, max);
  }

  lemma SentStays(s: System, move: Move, max: nat, id: Id)
    requires Inv(s, max) && id < |s.db.rows| && s.db.rows[id].state == Sent
    ensures var next := Do(s, move, max);
      && id < |next.db.rows| && next.db.rows[id].state == Sent && next.db.rows[id].attempts == s.db.rows[id].attempts
      && s.pushes <= next.pushes
      && (|next.pushes| > |s.pushes| ==> |next.pushes| == |s.pushes| + 1 && next.pushes[|s.pushes|].notification != id)
  {
    hide LedgerOk, Bounded, PushesOk, SentOk;
    if move.Push? && s.dispatcher.Claimed? && s.dispatcher.todo != [] {
      assert InFlight(s.db, Todo(s.dispatcher)[0]);
    }
    if move.Finish? && s.dispatcher.Pushed? {
      assert InFlight(s.db, s.dispatcher.id);
    }
  }

  ghost predicate NoPushSince(before: seq<AttemptKey>, after: seq<AttemptKey>, id: Id) {
    before <= after && forall i | |before| <= i < |after| :: after[i].notification != id
  }

  /** Once SENT, always SENT, and never pushed again: whatever workers, operators and crashes do. */
  lemma {:induction false} SentIsNeverPushedAgain(s: System, moves: seq<Move>, max: nat, id: Id)
    requires Inv(s, max) && max > 0 && id < |s.db.rows| && s.db.rows[id].state == Sent
    ensures var after := DoAll(s, moves, max);
      && Inv(after, max) && id < |after.db.rows| && after.db.rows[id].state == Sent
      && NoPushSince(s.pushes, after.pushes, id)
  {
    hide Inv;
    if moves != [] {
      var before := DoAll(s, moves[..|moves| - 1], max);
      SentIsNeverPushedAgain(s, moves[..|moves| - 1], max, id);
      MoveKeepsInv(before, moves[|moves| - 1], max);
      SentStays(before, moves[|moves| - 1], max, id);
    }
  }

  // ---- One dispatch -------------------------------------------------------------------------

  function FinishAll(db: Db, ids: seq<Id>, push: Id -> Outcome, now: Time, max: nat): Db
    decreases |ids|
  {
    if ids == [] then db else FinishAll(FinishTx(db, ids[0], push(ids[0]), now, max), ids[1..], push, now, max)
  }

  /** What a finished attempt leaves of a claimed row. */
  predicate Settled(claimed: Notification, row: Notification, outcome: Outcome, now: Time, max: nat) {
    && row.attempts == claimed.attempts && row.lastAttempt == claimed.lastAttempt
    && row.user == claimed.user && row.content == claimed.content
    && if outcome.success then row.state == Sent && row.retryAt == None
       else if claimed.attempts >= max then row.state == Failed && row.retryAt == None
       else
         match outcome.kind
         case Some(Permanent) | Some(Definite) | Some(Ambiguous) => row.state == Failed && row.retryAt == None
         case Some(Retryable) | None => row.state == RetryWait && row.retryAt == Some(now + 300)
  }

  /** Whether a dispatch takes the row up: a new one, one whose retry is due, or one whose sender is
      gone. */
  predicate TakenUp(row: Notification, now: Time, staleAfter: Time) {
    match row.state
    case Pending => true
    case RetryWait => row.retryAt == None || row.retryAt.value <= now
    case Sending => row.lastAttempt == None || row.lastAttempt.value <= now - staleAfter
    case _ => false
  }

  /** What one undisturbed dispatch leaves of a row: one more attempt, settled by the provider's
      answer, or the row as it was. */
  predicate Dispatched(before: Notification, after: Notification, outcome: Outcome, now: Time, staleAfter: Time,
                       max: nat)
  {
    if TakenUp(before, now, staleAfter)
    then Settled(before.(attempts := before.attempts + 1, lastAttempt := Some(now)), after, outcome, now, max)
    else after == before
  }

  lemma {:induction false} RoundSettlesClaims(db: Db, ids: seq<Id>, push: Id -> Outcome, now: Time, max: nat, id: Id)
    requires LedgerOk(db) && id < |db.rows| && Distinct(ids)
    requires forall i | 0 <= i < |ids| :: ids[i] < |db.rows| && db.rows[ids[i]].attempts > 0
    ensures var after := FinishAll(db, ids, push, now, max);
      && |after.rows| == |db.rows|
      && if id in ids then Settled(db.rows[id], after.rows[id], push(id), now, max) else after.rows[id] == db.rows[id]
    decreases |ids|
  {
    if ids != [] {
      var next := FinishTx(db, ids[0], push(ids[0]), now, max);
      assert AttemptKey(ids[0], db.rows[ids[0]].attempts) in db.attempts;
      assert forall i | 0 <= i < |ids[1..]| :: ids[1..][i] == ids[i + 1] != ids[0];
      assert id in ids <==> id == ids[0] || id in ids[1..];
      RoundSettlesClaims(next, ids[1..], push, now, max, id);
    }
  }

  /** One undisturbed dispatch pushes every eligible notification exactly once and settles it by the
      provider's answer; the others stay as they are. */
  lemma DispatchSettlesEligible(db: Db, push: Id -> Outcome, now: Time, max: nat, id: Id)
    requires LedgerOk(db) && id < |db.rows|
    ensures var after := FinishAll(ClaimTx(db, now), Claims(db.rows, now), push, now, max);
      && |after.rows| == |db.rows|
      && if Eligible(db.rows[id], now) then Settled(ClaimRow(db.rows[id], now), after.rows[id], push(id), now, max)
         else after.rows[id] == db.rows[id]
  {
    var ids := Claims(db.rows, now);
    ClaimLedger(db, now);
    forall i | 0 <= i < |ids| ensures ids[i] < |db.rows| && Eligible(db.rows[ids[i]], now) {
      assert ids[i] in ids;
    }
    RoundSettlesClaims(ClaimTx(db, now), ids, push, now, max, id);
  }

  /** One dispatch, recovery included, row by row. */
  lemma DispatchTakesUp(db: Db, push: Id -> Outcome, now: Time, staleAfter: Time, max: nat, id: Id)
    requires LedgerOk(db) && id < |db.rows|
    ensures var recovered := db.(rows := RecoverAll(db.rows, now, staleAfter));
      var after := FinishAll(ClaimTx(recovered, now), Claims(recovered.rows, now), push, now, max);
      |after.rows| == |db.rows| && Dispatched(db.rows[id], after.rows[id], push(id), now, staleAfter, max)
  {
    hide LedgerOk, FinishAll, ClaimTx, Dispatched, RecoverRow, ClaimRow, Eligible, Settled;
    var recovered := db.(rows := RecoverAll(db.rows, now, staleAfter));
    var after := FinishAll(ClaimTx(recovered, now), Claims(recovered.rows, now), push, now, max);
    RecoveryKeepsLedger(db, now, staleAfter);
    DispatchSettlesEligible(recovered, push, now, max, id);
    RowDispatched(db.rows[id], after.rows[id], push(id), now, staleAfter, max);
  }

  lemma RowDispatched(before: Notification, after: Notification, outcome: Outcome, now: Time, staleAfter: Time,
                      max: nat)
    requires var row := RecoverRow(before, now, staleAfter);
      if Eligible(row, now) then Settled(ClaimRow(row, now), after, outcome, now, max) else after == row
    ensures Dispatched(before, after, outcome, now, staleAfter, max)
  {
  }

  ghost predicate AllDispatched(before: seq<Notification>, after: seq<Notification>, push: Id -> Outcome, now: Time,
                                staleAfter: Time, max: nat)
  {
    && |after| == |before|
    && forall id: Id | id < |before| :: Dispatched(before[id], after[id], push(id), now, staleAfter, max)
  }

  lemma DispatchTakesAllUp(db: Db, push: Id -> Outcome, now: Time, staleAfter: Time, max: nat)
    requires LedgerOk(db)
    ensures var recovered := db.(rows := RecoverAll(db.rows, now, staleAfter));
      var after := FinishAll(ClaimTx(recovered, now), Claims(recovered.rows, now), push, now, max);
      AllDispatched(db.rows, after.rows, push, now, staleAfter, max)
  {
    hide LedgerOk, FinishAll, ClaimTx, Dispatched;
    var recovered := db.(rows := RecoverAll(db.rows, now, staleAfter));
    var after := FinishAll(ClaimTx(recovered, now), Claims(recovered.rows, now), push, now, max);
    KeepsLength(db, push, now, staleAfter, max);
    forall id: Id | id < |db.rows|
      ensures |after.rows| == |db.rows| && Dispatched(db.rows[id], after.rows[id], push(id), now, staleAfter, max)
    {
      DispatchTakesUp(db, push, now, staleAfter, max, id);
    }
  }

  lemma KeepsLength(db: Db, push: Id -> Outcome, now: Time, staleAfter: Time, max: nat)
    ensures var recovered := db.(rows := RecoverAll(db.rows, now, staleAfter));
      |FinishAll(ClaimTx(recovered, now), Claims(recovered.rows, now), push, now, max).rows| == |db.rows|
  {
    var recovered := db.(rows := RecoverAll(db.rows, now, staleAfter));
    FinishAllLength(ClaimTx(recovered, now), Claims(recovered.rows, now), push, now, max);
  }

  lemma {:induction false} FinishAllLength(db: Db, ids: seq<Id>, push: Id -> Outcome, now: Time, max: nat)
    ensures |FinishAll(db, ids, push, now, max).rows| == |db.rows|
    decreases |ids|
  {
    if ids != [] {
      FinishAllLength(FinishTx(db, ids[0], push(ids[0]), now, max), ids[1..], push, now, max);
    }
  }

  lemma RecoveryKeepsLedger(db: Db, now: Time, staleAfter: Time)
    requires LedgerOk(db)
    ensures LedgerOk(db.(rows := RecoverAll(db.rows, now, staleAfter)))
  {
  }

  /** A new notification waits for its first attempt. */
  lemma CreateMeans(db: Db, user: string, content: string)
    ensures var next := CreateTx(db, user, content);
      && next.attempts == db.attempts && |next.rows| == |db.rows| + 1 && next.rows[..|db.rows|] == db.rows
      && var row := next.rows[|db.rows|];
         row.user == user && row.content == content && row.state == Pending && row.attempts == 0
  {
  }

  /** A sender that is gone leaves its notification to be sent again at once. */
  lemma RecoveryMeans(row: Notification, now: Time, staleAfter: Time)
    ensures var after := RecoverRow(row, now, staleAfter);
      if row.state == Sending && (row.lastAttempt == None || row.lastAttempt.value <= now - staleAfter)
      then after == row.(state := RetryWait, retryAt := Some(now)) && Eligible(after, now) else after == row
  {
  }

  function StaleCount(rows: seq<Notification>, now: Time, staleAfter: Time): nat {
    if rows == [] then 0
    else StaleCount(rows[..|rows| - 1], now, staleAfter) + if Stale(rows[|rows| - 1], now, staleAfter) then 1 else 0
  }

  /** The notification tables as the service changes them. */
  class NotificationStore {
    var rows: seq<Notification>
    var attempts: map<AttemptKey, AttemptResult>

    ghost function Tables(): Db
      reads this
    {
      Db(rows, attempts)
    }

    constructor ()
      ensures Tables() == EMPTY
    {
      rows, attempts := [], map[];
    }

    /** recover_stale */
    method RecoverStale(now: Time, staleAfter: Time) returns (recovered: nat)
      modifies `rows
      ensures rows == RecoverAll(old(rows), now, staleAfter)
      ensures recovered == StaleCount(old(rows), now, staleAfter)
      ensures |rows| == |old(rows)| && forall id | 0 <= id < |rows| ::
        rows[id] ==
          if old(rows)[id].state == Sending
             && (old(rows)[id].lastAttempt == None || old(rows)[id].lastAttempt.value <= now - staleAfter)
          then old(rows)[id].(state := RetryWait, retryAt := Some(now)) else old(rows)[id]
    {
      recovered := 0;
      for i := 0 to |rows|
        invariant |rows| == |old(rows)|
        invariant forall j | 0 <= j < |rows| ::
          rows[j] == if j < i then RecoverRow(old(rows)[j], now, staleAfter) else old(rows)[j]
        invariant recovered == StaleCount(old(rows)[..i], now, staleAfter)
      {
        assert old(rows)[..i + 1][..i] == old(rows)[..i];
        if Stale(rows[i], now, staleAfter) {
          rows := rows[i := rows[i].(state := RetryWait, retryAt := Some(now))];
          recovered := recovered + 1;
        }
      }
      assert old(rows)[..|rows|] == old(rows);
    }

    /** The claiming transaction of dispatch_once. */
    method ClaimEligible(now: Time) returns (claims: seq<Id>)
      modifies this
      ensures Tables() == ClaimTx(old(Tables()), now)
      ensures claims == Claims(old(rows), now)
      ensures |rows| == |old(rows)| && forall id: Id | id < |rows| ::
        if old(rows)[id].state == Pending
           || (old(rows)[id].state == RetryWait
               && (old(rows)[id].retryAt == None || old(rows)[id].retryAt.value <= now))
        then
          && id in claims && AttemptKey(id, rows[id].attempts) in attempts
          && attempts[AttemptKey(id, rows[id].attempts)] == Started
          && rows[id] == old(rows)[id].(state := Sending, attempts := old(rows)[id].attempts + 1,
                                        lastAttempt := Some(now))
        else id !in claims && rows[id] == old(rows)[id]
    {
      hide NewAttempts, Claims;
      claims := Claims(rows, now);
      NoAttempts(rows, now);
      for i := 0 to |rows|
        invariant |rows| == |old(rows)|
        invariant forall j | 0 <= j < |rows| ::
          rows[j] == if j < i then ClaimRow(old(rows)[j], now) else old(rows)[j]
        invariant attempts == old(attempts) + NewAttempts(old(rows)[..i], now)
      {
        AttemptsGrow(old(rows), now, i);
        var row := rows[i];
        if Eligible(row, now) {
          AddOne(old(attempts), NewAttempts(old(rows)[..i], now), AttemptKey(i, row.attempts + 1), Started);
          rows := rows[i := row.(state := Sending, attempts := row.attempts + 1, lastAttempt := Some(now))];
          attempts := attempts[AttemptKey(i, row.attempts + 1) := Started];
        }
      }
      assert old(rows)[..|rows|] == old(rows);
      forall id: Id | id < |rows| && Eligible(old(rows)[id], now)
        ensures AttemptKey(id, old(rows)[id].attempts + 1) in NewAttempts(old(rows), now)
        ensures NewAttempts(old(rows), now)[AttemptKey(id, old(rows)[id].attempts + 1)] == Started
      {
        NewAttemptStarted(old(rows), now, id);
      }
      ClaimsAre(old(rows), now);
    }

    /** _finish_attempt */
    method FinishAttempt(id: Id, outcome: Outcome, now: Time, max: nat)
      modifies this
      ensures Tables() == FinishTx(old(Tables()), id, outcome, now, max)
      ensures old(LedgerOk(Tables()) && SentOk(Tables()) && InFlight(Tables(), id)) ==>
        && LedgerOk(Tables()) && SentOk(Tables())
        && id < |rows| && Settled(old(rows)[id], rows[id], outcome, now, max)
        && (outcome.success <==> WasDelivered(Tables(), id))
        && (rows[id].state == RetryWait ==> forall later :: Eligible(rows[id], later) <==> now + RETRY_DELAY <= later)
      ensures |rows| == |old(rows)| && attempts.Keys == old(attempts).Keys
      ensures forall other | 0 <= other < |rows| && other != id :: rows[other] == old(rows)[other]
      ensures forall k | k in attempts && k.notification != id :: attempts[k] == old(attempts)[k]
    {
      hide LedgerOk, SentOk;
      if LedgerOk(Tables()) && SentOk(Tables()) && InFlight(Tables(), id) {
        FinishLedger(Tables(), id, outcome, now, max);
      }
      if id >= |rows| {
        return;
      }
      var row := rows[id];
      var key := AttemptKey(id, row.attempts);
      if key !in attempts {
        return;
      }
      if outcome.success {
        attempts := attempts[key := Delivered];
        rows := rows[id := row.(state := Sent, retryAt := None)];
      } else {
        attempts := attempts[key := Refused(outcome.kind)];
        if Final(outcome.kind) || row.attempts >= max {
          rows := rows[id := row.(state := Failed, retryAt := None)];
        } else {
          rows := rows[id := row.(state := RetryWait, retryAt := Some(now + RETRY_DELAY))];
        }
      }
    }

    /** dispatch_once; `push` is what the provider answers for each notification. */
    method DispatchOnce(now: Time, staleAfter: Time, push: Id -> Outcome, max: nat) returns (dispatched: nat)
      modifies this
      ensures var recovered := old(Tables()).(rows := RecoverAll(old(rows), now, staleAfter));
        && Tables() == FinishAll(ClaimTx(recovered, now), Claims(recovered.rows, now), push, now, max)
        && dispatched == |Claims(recovered.rows, now)|
      ensures old(LedgerOk(Tables())) ==> AllDispatched(old(rows), rows, push, now, staleAfter, max)
    {
      hide AllDispatched, LedgerOk, ClaimTx;
      if LedgerOk(Tables()) {
        DispatchTakesAllUp(Tables(), push, now, staleAfter, max);
      }
      var recovered := RecoverStale(now, staleAfter);
      var claims := ClaimEligible(now);
      ghost var claimed := Tables();
      for i := 0 to |claims|
        invariant FinishAll(Tables(), claims[i..], push, now, max) == FinishAll(claimed, claims, push, now, max)
      {
        assert claims[i..][0] == claims[i] && claims[i..][1..] == claims[i + 1..];
        FinishAttempt(claims[i], push(claims[i]), now, max);
      }
      dispatched := |claims|;
    }

    /** retry_failed_notification */
    method RetryFailed(id: Id, now: Time) returns (changed: bool)
      modifies `rows
      ensures Tables() == RetryTx(old(Tables()), id, now)
      ensures changed <==> id < |old(rows)| && old(rows)[id].state == Failed
      ensures rows == if changed then old(rows)[id := old(rows)[id].(state := RetryWait, retryAt := Some(now))]
                      else old(rows)
      ensures changed ==> id < |rows| && TakenUp(rows[id], now, 0)
    {
      if id >= |rows| || rows[id].state != Failed {
        return false;
      }
      rows := rows[id := rows[id].(state := RetryWait, retryAt := Some(now))];
      return true;
    }
  }

  lemma NewAttemptStarted(rows: seq<Notification>, now: Time, id: Id)
    requires id < |rows| && Eligible(rows[id], now)
    ensures AttemptKey(id, rows[id].attempts + 1) in NewAttempts(rows, now)
    ensures NewAttempts(rows, now)[AttemptKey(id, rows[id].attempts + 1)] == Started
  {
  }

  lemma ClaimsAre(rows: seq<Notification>, now: Time)
    ensures forall d: Id :: d in Claims(rows, now) <==> d < |rows| && Eligible(rows[d], now)
  {
  }

  lemma NoAttempts(rows: seq<Notification>, now: Time)
    ensures NewAttempts(rows[..0], now) == map[]
  {
  }

  lemma AddOne(a: map<AttemptKey, AttemptResult>, b: map<AttemptKey, AttemptResult>, k: AttemptKey, r: AttemptResult)
    ensures (a + b)[k := r] == a + b[k := r]
  {
  }

  lemma AttemptsGrow(rows: seq<Notification>, now: Time, i: nat)
    requires i < |rows|
    ensures NewAttempts(rows[..i + 1], now)
         == if Eligible(rows[i], now) then NewAttempts(rows[..i], now)[AttemptKey(i, rows[i].attempts + 1) := Started]
            else NewAttempts(rows[..i], now)
  {
    var after, before := NewAttempts(rows[..i + 1], now), NewAttempts(rows[..i], now);
    forall k: AttemptKey
      ensures k in after <==> k in before || (Eligible(rows[i], now) && k == AttemptKey(i, rows[i].attempts + 1))
    {
      NewAttemptsAre(rows[..i + 1], now, k);
      NewAttemptsAre(rows[..i], now, k);
    }
  }
}
