/** The attempt bound of status actions.  The service runs one agent worker; it sweeps, selects and
    executes, while users propose, resolve and retry between any two of its transactions, and the
    process may die anywhere. */
module RecoveryWorker {
  import opened Domain
  import opened Wrappers
  import opened StatusWrites

  datatype Worker =
    | Idle
    | Draining(todo: seq<Id>)               // selected, none claimed
    | Working(id: Id, rest: seq<Id>)        // `id` claimed, its write not yet committed

  /** `retries` counts the effective manual retries of each action. */
  datatype System = System(db: Db, worker: Worker, retries: map<Id, nat>)

  const START := System(EMPTY, Idle, map[])

  datatype Move =
    | UserProposes(user: string, source: string, arguments: Arguments, code: string, now: Time)
    | UserResolves(action: Id, resolution: Resolution, now: Time)
    | UserRetries(action: Id, now: Time)
    | Sweep(now: Time, staleAfter: Time)
    | Select(order: seq<Id>, now: Time)     // the selection of recover_pending_actions, in any order
    | Resume(action: Id)                    // resume_confirmed_action
    | ClaimNext(now: Time)
    | Write(now: Time)
    | GiveUp(now: Time)
    | Crash

  function Retries(s: System, id: Id): nat {
    if id in s.retries then s.retries[id] else 0
  }

  predicate Distinct(ids: seq<Id>) {
    forall i, j | 0 <= i < j < |ids| :: ids[i] != ids[j]
  }

  predicate Selection(db: Db, order: seq<Id>, now: Time) {
    && Distinct(order)
    && (forall i | 0 <= i < |order| :: order[i] in db.actions && Recoverable(db.actions[order[i]], now))
  }

  function Do(s: System, move: Move): System {
    match move
    case UserProposes(user, source, arguments, code, now) =>
      s.(db := ProposeTx(s.db, user, source, arguments, code, now))
    case UserResolves(id, resolution, now) => s.(db := ResolveTx(s.db, id, resolution, now))
    case UserRetries(id, now) =>
      if id in s.db.actions && s.db.actions[id].state == Failed
      then s.(db := RetryTx(s.db, id, now), retries := s.retries[id := Retries(s, id) + 1])
      else s
    case Sweep(now, staleAfter) =>
      if s.worker == Idle then s.(db := MarkStaleTx(s.db, now, staleAfter)) else s
    case Select(order, now) =>
      if s.worker == Idle && Selection(s.db, order, now) then s.(worker := Draining(order)) else s
    case Resume(id) =>
      if s.worker == Idle && id in s.db.actions && s.db.actions[id].state in {Confirmed, Completed}
      then s.(worker := Draining([id])) else s
    case ClaimNext(now) =>
      if s.worker.Draining? && s.worker.todo != [] then
        var id, rest := s.worker.todo[0], s.worker.todo[1..];
        if Claimable(s.db, id)
        then s.(db := ClaimTx(s.db, id, now), worker := Working(id, rest))
        else s.(worker := Draining(rest))
      else s.(worker := Idle)
    case Write(now) =>
      if s.worker.Working?
      then s.(db := ExecuteTx(s.db, s.worker.id, now), worker := Draining(s.worker.rest)) else s
    case GiveUp(now) =>
      if s.worker.Working?
      then s.(db := FailTx(s.db, s.worker.id, now), worker := Draining(s.worker.rest)) else s
    case Crash => s.(worker := Idle)
  }

  function DoAll(s: System, moves: seq<Move>): System {
    if moves == [] then s else Do(DoAll(s, moves[..|moves| - 1]), moves[|moves| - 1])
  }

  /** Every move is at most one transaction, so every result about runs holds of the system. */
  lemma {:induction false} MovesAreRuns(moves: seq<Move>)
    ensures Reachable(DoAll(START, moves).db)
  {
    hide ProposeTx, ResolveTx, ClaimTx, ExecuteTx, FailTx, RetryTx, MarkStaleTx;
    if moves == [] {
      assert START.db == Run(EMPTY, []);
    } else {
      var before, last := DoAll(START, moves[..|moves| - 1]), moves[|moves| - 1];
      MovesAreRuns(moves[..|moves| - 1]);
      var steps :| before.db == Run(EMPTY, steps);
      var step := match last
        case UserProposes(user, source, arguments, code, now) => Propose(user, source, arguments, code, now)
        case UserResolves(id, resolution, now) => StatusWrites.Step.Resolve(id, resolution, now)
        case UserRetries(id, now) => Retry(id, now)
        case Sweep(now, staleAfter) => MarkStale(now, staleAfter)
        case ClaimNext(now) => Claim(if Remaining(before.worker) == [] then 0 else Remaining(before.worker)[0], now)
        case Write(now) => Execute(if before.worker.Working? then before.worker.id else 0, now)
        case GiveUp(now) => StatusWrites.Step.Fail(if before.worker.Working? then before.worker.id else 0, now)
        case _ => Retry(0, 0);
      assert (steps + [step])[..|steps|] == steps;
      assert Run(EMPTY, steps + [step]) == Apply(before.db, step);
      assert Do(before, last).db in {before.db, Apply(before.db, step)};
    }
  }

  ghost predicate Bounded(action: Action, retries: nat) {
    && action.attempts <= MAX_ATTEMPTS + retries
    && (action.state == Confirmed ==> action.attempts <= MAX_ATTEMPTS - 1 + retries)
    && (action.state == Pending ==> action.attempts == 0)
  }

  /** A selected action the worker has not reached yet can still be claimed within the bound. */
  ghost predicate Waiting(db: Db, id: Id) {
    && id in db.actions
    && (db.actions[id].state == Failed ==> db.actions[id].attempts < MAX_ATTEMPTS)
    && db.actions[id].state in {Confirmed, Failed, Completed}
  }

  function Remaining(worker: Worker): seq<Id> {
    match worker
    case Idle => []
    case Draining(todo) => todo
    case Working(_, rest) => rest
  }

  ghost predicate BoundInv(s: System) {
    && (forall id | id in s.db.actions :: Bounded(s.db.actions[id], Retries(s, id)) && id < s.db.nextId)
    && (forall id | id in s.retries :: id in s.db.actions)
    && Distinct(Remaining(s.worker))
    && (forall i | 0 <= i < |Remaining(s.worker)| :: Waiting(s.db, Remaining(s.worker)[i]))
    && (s.worker.Working? ==> s.worker.id in s.db.actions && s.worker.id !in s.worker.rest)
  }

  lemma UserKeepsBound(s: System, move: Move)
    requires BoundInv(s) && (move.UserProposes? || move.UserResolves? || move.UserRetries?)
    ensures BoundInv(Do(s, move))
  {
    var next := Do(s, move);
    forall i | 0 <= i < |Remaining(next.worker)| ensures Waiting(next.db, Remaining(next.worker)[i]) {
      assert Waiting(s.db, Remaining(s.worker)[i]);
    }
  }

  lemma ClaimKeepsBound(s: System, now: Time)
    requires BoundInv(s)
    ensures BoundInv(Do(s, ClaimNext(now)))
  {
    var next := Do(s, ClaimNext(now));
    if s.worker.Draining? && s.worker.todo != [] {
      var todo, rest := s.worker.todo, s.worker.todo[1..];
      assert Waiting(s.db, todo[0]);
      assert Remaining(next.worker) == rest;
      forall i | 0 <= i < |rest| ensures Waiting(next.db, rest[i]) {
        assert rest[i] == todo[i + 1] != todo[0];
        assert Waiting(s.db, todo[i + 1]);
      }
    }
  }

  lemma FinishKeepsBound(s: System, move: Move)
    requires BoundInv(s) && (move.Write? || move.GiveUp?)
    ensures BoundInv(Do(s, move))
  {
    var next := Do(s, move);
    if s.worker.Working? {
      var rest := s.worker.rest;
      forall i | 0 <= i < |rest| ensures Waiting(next.db, rest[i]) {
        assert rest[i] != s.worker.id;
        assert Waiting(s.db, rest[i]);
      }
    }
  }

  lemma ControlKeepsBound(s: System, move: Move)
    requires BoundInv(s) && (move.Sweep? || move.Select? || move.Resume? || move.Crash?)
    ensures BoundInv(Do(s, move))
  {
  }

  lemma {:induction false} MovesKeepBound(s: System, moves: seq<Move>)
    requires BoundInv(s)
    ensures BoundInv(DoAll(s, moves))
  {
    if moves != [] {
      var before, last := DoAll(s, moves[..|moves| - 1]), moves[|moves| - 1];
      MovesKeepBound(s, moves[..|moves| - 1]);
      if last.UserProposes? || last.UserResolves? || last.UserRetries? {
        UserKeepsBound(before, last);
      } else if last.ClaimNext? {
        ClaimKeepsBound(before, last.now);
      } else if last.Write? || last.GiveUp? {
        FinishKeepsBound(before, last);
      } else {
        ControlKeepsBound(before, last);
      }
    }
  }

  /** With one worker an action is claimed at most 3 times plus once per manual retry, and while it
      waits as CONFIRMED it has used at most 2 plus its retries. */
  lemma AttemptsAreBounded(moves: seq<Move>, id: Id)
    requires id in DoAll(START, moves).db.actions
    ensures var s := DoAll(START, moves);
      var action := s.db.actions[id];
      && action.attempts <= 3 + Retries(s, id)
      && (action.state == Confirmed ==> action.attempts <= 2 + Retries(s, id))
  {
    MovesKeepBound(START, moves);
  }

  // ---- Two workers --------------------------------------------------------------------------

  /** Two recovery workers over the same tables; a move names the worker that makes it. */
  datatype Pair = Pair(db: Db, workers: map<bool, Worker>, retries: map<Id, nat>)

  const PAIR := Pair(EMPTY, map[false := Idle, true := Idle], map[])

  function DoOne(s: Pair, worker: bool, move: Move): Pair
    requires worker in s.workers
  {
    var next := Do(System(s.db, s.workers[worker], s.retries), move);
    Pair(next.db, s.workers[worker := next.worker], next.retries)
  }

  function DoPair(s: Pair, moves: seq<(bool, Move)>): (last: Pair)
    requires s.workers.Keys == {false, true}
    ensures last.workers.Keys == {false, true}
    decreases moves
  {
    if moves == [] then s else DoPair(DoOne(s, moves[0].0, moves[0].1), moves[1..])
  }

  lemma {:induction false} PairConcat(s: Pair, first: seq<(bool, Move)>, second: seq<(bool, Move)>)
    requires s.workers.Keys == {false, true}
    ensures DoPair(s, first + second) == DoPair(DoPair(s, first), second)
    decreases first
  {
    if first == [] {
      assert first + second == second;
    } else {
      assert (first + second)[1..] == first[1..] + second;
      PairConcat(DoOne(s, first[0].0, first[0].1), first[1..], second);
    }
  }

  /** The tables with one action, `attempts` times tried. */
  function OneAction(action: Action): Db {
    Db(map[0 := action], map[], [], [ActionCreated(1, 0, action.code), ActionResolved(2, 0, Confirm)], [], 3)
  }

  function Both(db: Db, first: Worker, second: Worker): Pair {
    Pair(db, map[false := first, true := second], map[])
  }

  /** One worker selects the action, claims it and fails. */
  function Try(now: Time): seq<(bool, Move)> {
    [(false, Select([0], now)), (false, ClaimNext(now)), (false, GiveUp(now)), (false, ClaimNext(now))]
  }

  /** Both workers select the action; the first claims it and fails, then the second claims it. */
  function Race(now: Time): seq<(bool, Move)> {
    [(false, Select([0], now)), (true, Select([0], now)), (false, ClaimNext(now)),
     (false, GiveUp(now)), (true, ClaimNext(now))]
  }

  lemma FirstMove(s: Pair, worker: bool, move: Move, rest: seq<(bool, Move)>)
    requires s.workers.Keys == {false, true}
    ensures DoPair(s, [(worker, move)] + rest) == DoPair(DoOne(s, worker, move), rest)
  {
    assert ([(worker, move)] + rest)[1..] == rest;
  }

  function Started(action: Action, now: Time): Action {
    action.(state := Executing, startedAt := Some(now), attempts := action.attempts + 1, nextRetryAt := None)
  }

  function Ended(action: Action, now: Time): Action {
    action.(state := Failed, nextRetryAt := if action.attempts < MAX_ATTEMPTS then Some(now + RETRY_DELAY) else None)
  }

  lemma SelectStep(action: Action, first: Worker, second: Worker, worker: bool, now: Time)
    requires Recoverable(action, now) && (if worker then second else first) == Idle
    ensures DoOne(Both(OneAction(action), first, second), worker, Select([0], now))
      == Both(OneAction(action), if worker then first else Draining([0]), if worker then Draining([0]) else second)
  {
  }

  lemma ClaimStep(action: Action, first: Worker, second: Worker, worker: bool, now: Time)
    requires action.state in {Confirmed, Failed} && (if worker then second else first) == Draining([0])
    ensures DoOne(Both(OneAction(action), first, second), worker, ClaimNext(now))
      == Both(OneAction(Started(action, now)), if worker then first else Working(0, []),
              if worker then Working(0, []) else second)
  {
    var todo: seq<Id> := [0];
    assert todo[1..] == [];
    assert map[0 := action][0 := Started(action, now)] == map[0 := Started(action, now)];
  }

  lemma GiveUpStep(action: Action, second: Worker, now: Time)
    requires action.state == Executing
    ensures DoOne(Both(OneAction(action), Working(0, []), second), false, GiveUp(now))
      == Both(OneAction(Ended(action, now)), Draining([]), second)
  {
    assert map[0 := action][0 := Ended(action, now)] == map[0 := Ended(action, now)];
  }

  lemma DrainStep(s: Pair, now: Time)
    requires s.workers == map[false := Draining([]), true := Idle]
    ensures DoOne(s, false, ClaimNext(now)) == s.(workers := map[false := Idle, true := Idle])
  {
  }

  lemma TryFails(action: Action, now: Time)
    requires Recoverable(action, now)
    ensures DoPair(Both(OneAction(action), Idle, Idle), Try(now))
      == Both(OneAction(Ended(Started(action, now), now)), Idle, Idle)
  {
    hide Do, OneAction;
    var s := Both(OneAction(action), Idle, Idle);
    FirstMove(s, false, Select([0], now), Try(now)[1..]);
    assert Try(now) == [(false, Select([0], now))] + Try(now)[1..];
    SelectStep(action, Idle, Idle, false, now);
    assert Try(now)[1..] == [(false, ClaimNext(now))] + Try(now)[2..];
    FirstMove(Both(OneAction(action), Draining([0]), Idle), false, ClaimNext(now), Try(now)[2..]);
    ClaimStep(action, Draining([0]), Idle, false, now);
    var started := Started(action, now);
    assert Try(now)[2..] == [(false, GiveUp(now))] + Try(now)[3..];
    FirstMove(Both(OneAction(started), Working(0, []), Idle), false, GiveUp(now), Try(now)[3..]);
    GiveUpStep(started, Idle, now);
    var last := Both(OneAction(Ended(started, now)), Draining([]), Idle);
    assert Try(now)[3..] == [(false, ClaimNext(now))] + [];
    FirstMove(last, false, ClaimNext(now), []);
    DrainStep(last, now);
  }

  lemma RaceClaimsTwice(action: Action, now: Time)
    requires Recoverable(action, now)
    ensures DoPair(Both(OneAction(action), Idle, Idle), Race(now))
      == Both(OneAction(Started(Ended(Started(action, now), now), now)), Draining([]), Working(0, []))
  {
    hide Do, OneAction;
    FirstMove(Both(OneAction(action), Idle, Idle), false, Select([0], now), Race(now)[1..]);
    assert Race(now) == [(false, Select([0], now))] + Race(now)[1..];
    SelectStep(action, Idle, Idle, false, now);
    assert Race(now)[1..] == [(true, Select([0], now))] + Race(now)[2..];
    FirstMove(Both(OneAction(action), Draining([0]), Idle), true, Select([0], now), Race(now)[2..]);
    SelectStep(action, Draining([0]), Idle, true, now);
    assert Race(now)[2..] == [(false, ClaimNext(now))] + Race(now)[3..];
    FirstMove(Both(OneAction(action), Draining([0]), Draining([0])), false, ClaimNext(now), Race(now)[3..]);
    ClaimStep(action, Draining([0]), Draining([0]), false, now);
    var started := Started(action, now);
    assert Race(now)[3..] == [(false, GiveUp(now))] + Race(now)[4..];
    FirstMove(Both(OneAction(started), Working(0, []), Draining([0])), false, GiveUp(now), Race(now)[4..]);
    GiveUpStep(started, Draining([0]), now);
    var failed := Ended(started, now);
    assert Race(now)[4..] == [(true, ClaimNext(now))] + [];
    FirstMove(Both(OneAction(failed), Draining([]), Draining([0])), true, ClaimNext(now), []);
    ClaimStep(failed, Draining([]), Draining([0]), true, now);
  }

  function Setup(arguments: Arguments): seq<(bool, Move)> {
    [(false, UserProposes("u", "s", arguments, "AAAA", 0)), (false, UserResolves(0, Confirm, 1))]
  }

  lemma SetupConfirms(arguments: Arguments)
    requires WellFormed(arguments)
    ensures DoPair(PAIR, Setup(arguments))
      == Both(OneAction(Action("u", "s", arguments, "AAAA", Confirmed, EXPIRY, Some(1), None, 0, None)), Idle, Idle)
  {
    var pending := Action("u", "s", arguments, "AAAA", Pending, EXPIRY, None, None, 0, None);
    var proposed := Pair(Db(map[0 := pending], map[], [], [ActionCreated(1, 0, "AAAA")], [], 2), PAIR.workers, map[]);
    assert DoOne(PAIR, false, UserProposes("u", "s", arguments, "AAAA", 0)) == proposed;
    FirstMove(PAIR, false, UserProposes("u", "s", arguments, "AAAA", 0), Setup(arguments)[1..]);
    assert Setup(arguments) == [(false, UserProposes("u", "s", arguments, "AAAA", 0))] + Setup(arguments)[1..];
    assert Setup(arguments)[1..] == [(false, UserResolves(0, Confirm, 1))] + [];
    FirstMove(proposed, false, UserResolves(0, Confirm, 1), []);
    var confirmed := Action("u", "s", arguments, "AAAA", Confirmed, EXPIRY, Some(1), None, 0, None);
    assert Resolved(pending, Confirm, 1) == confirmed;
    assert map[0 := pending][0 := confirmed] == map[0 := confirmed];
  }

  /** The bound needs the single worker: two workers select an action after its second failure, and
      the second claims it once more after the first has failed. */
  lemma TwoWorkersExceedTheBound() returns (moves: seq<(bool, Move)>)
    ensures var last := DoPair(PAIR, moves);
      0 in last.db.actions && last.db.actions[0].attempts == 4 && last.retries == map[]
  {
    var arguments := Arguments(Reference("c", "d", "p"), Stage(Applied, None));
    var setup := Setup(arguments);
    moves := setup + Try(2) + Try(302) + Race(602);
    PairConcat(PAIR, setup + Try(2) + Try(302), Race(602));
    PairConcat(PAIR, setup + Try(2), Try(302));
    PairConcat(PAIR, setup, Try(2));
    var action := Action("u", "s", arguments, "AAAA", Confirmed, EXPIRY, Some(1), None, 0, None);
    SetupConfirms(arguments);
    TryFails(action, 2);
    var once := Ended(Started(action, 2), 2);
    TryFails(once, 302);
    var twice := Ended(Started(once, 302), 302);
    RaceClaimsTwice(twice, 602);
  }
}
