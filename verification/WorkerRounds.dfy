/** What the recovery worker's moves amount to when nothing comes between them: a round of moves is
    the recovery that StatusStore runs as one method. */
module WorkerRounds {
  import opened Domain
  import opened RecoveryWorker
  import opened StatusStore
  import opened StatusWrites
  import opened Wrappers

  lemma {:induction false} MovesConcat(s: System, first: seq<Move>, second: seq<Move>)
    ensures DoAll(s, first + second) == DoAll(DoAll(s, first), second)
  {
    if second == [] {
      assert first + second == first;
    } else {
      var all := first + second;
      assert all[..|all| - 1] == first + second[..|second| - 1];
      MovesConcat(s, first, second[..|second| - 1]);
    }
  }

  lemma OneMove(s: System, move: Move)
    ensures DoAll(s, [move]) == Do(s, move)
  {
    assert [move][..0] == [];
  }

  /** Claiming one action after another and writing it, or giving it up when its write fails. */
  function Drained(order: seq<Id>, now: Time, faulty: set<Id>): seq<Move> {
    if order == [] then []
    else [ClaimNext(now)] + [if order[0] in faulty then GiveUp(now) else Write(now)] + Drained(order[1..], now, faulty)
  }

  /** The actions that wait are all due, and the writes that cannot succeed are among the faulty. */
  ghost predicate Due(db: Db, order: seq<Id>, now: Time, faulty: set<Id>) {
    forall i | 0 <= i < |order| ::
      && order[i] in db.actions && Recoverable(db.actions[order[i]], now)
      && (order[i] in faulty || WellFormed(db.actions[order[i]].arguments))
  }

  lemma ClaimAndFinish(s: System, order: seq<Id>, now: Time, faulty: set<Id>)
    requires s.worker == Draining(order) && order != [] && Due(s.db, order, now, faulty)
    ensures var id := order[0];
      Do(Do(s, ClaimNext(now)), if id in faulty then GiveUp(now) else Write(now))
      == System(Attempt(s.db, id, now, id in faulty), Draining(order[1..]), s.retries)
  {
  }

  ghost predicate AllTried(before: Db, after: Db, order: seq<Id>, now: Time, faulty: set<Id>) {
    && after.actions.Keys == before.actions.Keys
    && forall id | id in before.actions ::
         if id in order then Recovered(before.actions[id], after.actions[id], now, id in faulty)
         else after.actions[id] == before.actions[id]
  }

  lemma TriedFirst(db: Db, last: Db, order: seq<Id>, now: Time, faulty: set<Id>)
    requires order != [] && Distinct(order) && Due(db, order, now, faulty)
    requires AllTried(Attempt(db, order[0], now, order[0] in faulty), last, order[1..], now, faulty)
    ensures AllTried(db, last, order, now, faulty)
  {
    hide Attempt;
    var id := order[0];
    AttemptFrame(db, id, now, id in faulty);
    forall other | other in db.actions
      ensures if other in order then Recovered(db.actions[other], last.actions[other], now, other in faulty)
              else last.actions[other] == db.actions[other]
    {
      assert other in order <==> other == id || other in order[1..];
      assert id !in order[1..];
    }
  }

  lemma DueAfter(db: Db, order: seq<Id>, now: Time, faulty: set<Id>)
    requires order != [] && Distinct(order) && Due(db, order, now, faulty)
    ensures Due(Attempt(db, order[0], now, order[0] in faulty), order[1..], now, faulty) && Distinct(order[1..])
  {
    hide Attempt;
    AttemptFrame(db, order[0], now, order[0] in faulty);
  }

  lemma {:induction false} DrainTriesAll(s: System, order: seq<Id>, now: Time, faulty: set<Id>)
    requires s.worker == Draining(order) && Distinct(order) && Due(s.db, order, now, faulty)
    ensures var last := DoAll(s, Drained(order, now, faulty));
      && last.worker == Draining([]) && last.retries == s.retries
      && AllTried(s.db, last.db, order, now, faulty)
    decreases |order|
  {
    hide Do, Attempt;
    if order != [] {
      var id := order[0];
      var finish := if id in faulty then GiveUp(now) else Write(now);
      var next := System(Attempt(s.db, id, now, id in faulty), Draining(order[1..]), s.retries);
      ClaimAndFinish(s, order, now, faulty);
      DueAfter(s.db, order, now, faulty);
      DrainTriesAll(next, order[1..], now, faulty);
      OneMove(s, ClaimNext(now));
      OneMove(Do(s, ClaimNext(now)), finish);
      MovesConcat(s, [ClaimNext(now)], [finish]);
      MovesConcat(s, [ClaimNext(now)] + [finish], Drained(order[1..], now, faulty));
      TriedFirst(s.db, DoAll(s, Drained(order, now, faulty)).db, order, now, faulty);
    }
  }

  /** One round of recover_pending_actions, move by move. */
  function Round(order: seq<Id>, now: Time, staleAfter: Time, faulty: set<Id>): seq<Move> {
    [Sweep(now, staleAfter)] + [Select(order, now)] + Drained(order, now, faulty) + [ClaimNext(now)]
  }

  /** The selection lists exactly the actions that are due after the sweep. */
  ghost predicate Selects(db: Db, order: seq<Id>, now: Time, staleAfter: Time, faulty: set<Id>) {
    && Distinct(order)
    && (forall id | id in order :: id in db.actions)
    && (forall id | id in db.actions :: id in order <==> Recoverable(Unstuck(db.actions[id], now, staleAfter), now))
    && forall id | id in order :: id in faulty || WellFormed(db.actions[id].arguments)
  }

  lemma SweptIsDue(s: System, order: seq<Id>, now: Time, staleAfter: Time, faulty: set<Id>)
    requires s.worker == Idle && Selects(s.db, order, now, staleAfter, faulty)
    ensures var swept := Do(s, Sweep(now, staleAfter)); var selected := Do(swept, Select(order, now));
      && swept.db.actions.Keys == s.db.actions.Keys && selected.db == swept.db && selected.retries == s.retries
      && (forall id | id in s.db.actions :: swept.db.actions[id] == Unstuck(s.db.actions[id], now, staleAfter))
      && selected.worker == Draining(order) && Due(selected.db, order, now, faulty)
  {
    var swept := Do(s, Sweep(now, staleAfter));
    forall i | 0 <= i < |order|
      ensures order[i] in swept.db.actions && Recoverable(swept.db.actions[order[i]], now)
      ensures order[i] in faulty || WellFormed(swept.db.actions[order[i]].arguments)
    {
      assert order[i] in order;
    }
    assert Selection(swept.db, order, now);
  }

  lemma SettledOne(before: Action, last: Action, now: Time, staleAfter: Time, faulty: bool, tried: bool)
    requires tried <==> Recoverable(Unstuck(before, now, staleAfter), now)
    requires if tried then Recovered(Unstuck(before, now, staleAfter), last, now, faulty)
             else last == Unstuck(before, now, staleAfter)
    ensures IsSettled(before, last, now, staleAfter, faulty)
  {
    RecoverySettles(before, last, now, staleAfter, faulty);
  }

  /** A round that nothing interrupts settles every action, like the method that runs it in one go:
      due actions end COMPLETED or FAILED with one attempt more, stale ones FAILED, all else stays. */
  lemma RoundSettlesAll(s: System, order: seq<Id>, now: Time, staleAfter: Time, faulty: set<Id>)
    requires s.worker == Idle && Selects(s.db, order, now, staleAfter, faulty)
    ensures var last := DoAll(s, Round(order, now, staleAfter, faulty));
      && last.worker == Idle && last.retries == s.retries
      && last.db.actions.Keys == s.db.actions.Keys
      && forall id | id in s.db.actions ::
           IsSettled(s.db.actions[id], last.db.actions[id], now, staleAfter, id in faulty)
  {
    hide Do, Recovered, IsSettled, Unstuck, Recoverable, Due;
    var swept := Do(s, Sweep(now, staleAfter));
    var selected := Do(swept, Select(order, now));
    var first, second := [Sweep(now, staleAfter)], [Select(order, now)];
    SweptIsDue(s, order, now, staleAfter, faulty);
    DrainTriesAll(selected, order, now, faulty);
    OneMove(s, Sweep(now, staleAfter));
    OneMove(swept, Select(order, now));
    MovesConcat(s, first, second);
    MovesConcat(s, first + second, Drained(order, now, faulty));
    var drained := DoAll(selected, Drained(order, now, faulty));
    OneMove(drained, ClaimNext(now));
    MovesConcat(s, first + second + Drained(order, now, faulty), [ClaimNext(now)]);
    NothingToClaim(drained, now);
    forall id | id in s.db.actions
      ensures IsSettled(s.db.actions[id], drained.db.actions[id], now, staleAfter, id in faulty)
    {
      SettledOne(s.db.actions[id], drained.db.actions[id], now, staleAfter, id in faulty, id in order);
    }
  }

  lemma NothingToClaim(s: System, now: Time)
    requires s.worker == Draining([])
    ensures Do(s, ClaimNext(now)) == s.(worker := Idle)
  {
  }

  /** A confirmed action that resume_confirmed_action takes up is written by the next two moves. */
  lemma ResumedIsWritten(s: System, id: Id, now: Time)
    requires s.worker == Idle && id in s.db.actions && s.db.actions[id].state == Confirmed
    requires WellFormed(s.db.actions[id].arguments)
    ensures var last := Do(Do(Do(s, Resume(id)), ClaimNext(now)), Write(now));
      && id in last.db.actions && last.db.actions[id].state == Completed
      && last.db.actions[id].attempts == s.db.actions[id].attempts + 1
      && last.worker == Draining([])
  {
  }

  /** Only the retry of a failed action counts as one, and it puts the action back to CONFIRMED. */
  lemma RetriesAreCounted(s: System, id: Id, now: Time)
    requires id in s.db.actions
    ensures var next := Do(s, UserRetries(id, now));
      && id in next.db.actions && next.worker == s.worker
      && Retries(next, id) == Retries(s, id) + (if s.db.actions[id].state == Failed then 1 else 0)
      && (forall other | other != id :: Retries(next, other) == Retries(s, other))
      && next.db.actions[id].state == (if s.db.actions[id].state == Failed then Confirmed else s.db.actions[id].state)
  {
  }

  /** Proposals and answers go to the tables whatever the worker is at. */
  lemma UsersDoNotWait(s: System, user: string, source: string, arguments: Arguments, code: string, id: Id,
                       resolution: Resolution, now: Time)
    ensures Do(s, UserProposes(user, source, arguments, code, now)) ==
            System(ProposeTx(s.db, user, source, arguments, code, now), s.worker, s.retries)
    ensures Do(s, UserResolves(id, resolution, now)) ==
            System(ResolveTx(s.db, id, resolution, now), s.worker, s.retries)
  {
  }

  /** A process that dies loses what it had selected, and nothing in the tables. */
  lemma CrashForgets(s: System)
    ensures Do(s, Crash) == System(s.db, Idle, s.retries)
  {
  }
}
