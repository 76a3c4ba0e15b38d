/** What the dispatcher's moves amount to when nothing comes between them: the dispatch that
    Notifications runs as one method, with one push for each claim. */
module DispatchRounds {
  import opened Notifications
  import opened Wrappers

  lemma {:induction false} MovesConcat(s: System, first: seq<Move>, second: seq<Move>, max: nat)
    ensures DoAll(s, first + second, max) == DoAll(DoAll(s, first, max), second, max)
  {
    if second == [] {
      assert first + second == first;
    } else {
      var all := first + second;
      assert all[..|all| - 1] == first + second[..|second| - 1];
      MovesConcat(s, first, second[..|second| - 1], max);
    }
  }

  lemma OneMove(s: System, move: Move, max: nat)
    ensures DoAll(s, [move], max) == Do(s, move, max)
  {
    assert [move][..0] == [];
  }

  /** Pushing and settling one claim after another. */
  function Dispatched(ids: seq<Id>, push: Id -> Outcome, now: Time): seq<Move> {
    if ids == [] then [] else [Push(push(ids[0]))] + [Finish(now)] + Dispatched(ids[1..], push, now)
  }

  predicate InRange(ids: seq<Id>, n: nat) {
    forall i | 0 <= i < |ids| :: ids[i] < n
  }

  /** The attempts the claimed rows are at. */
  function AttemptsOf(rows: seq<Notification>, ids: seq<Id>): seq<AttemptKey>
    requires InRange(ids, |rows|)
  {
    if ids == [] then []
    else
      [AttemptKey(ids[0], rows[ids[0]].attempts)] + AttemptsOf(rows, ids[1..])
  }

  lemma PushAndFinish(s: System, ids: seq<Id>, push: Id -> Outcome, now: Time, max: nat)
    requires s.dispatcher == Dispatcher.Claimed(ids) && ids != [] && ids[0] < |s.db.rows|
    ensures Do(Do(s, Push(push(ids[0])), max), Finish(now), max) ==
            s.(db := FinishTx(s.db, ids[0], push(ids[0]), now, max), dispatcher := Dispatcher.Claimed(ids[1..]),
               pushes := s.pushes + [AttemptKey(ids[0], s.db.rows[ids[0]].attempts)])
  {
    hide FinishTx;
  }

  lemma FinishKeepsAttempts(db: Db, id: Id, outcome: Outcome, now: Time, max: nat)
    ensures var next := FinishTx(db, id, outcome, now, max);
      |next.rows| == |db.rows| && forall k | 0 <= k < |db.rows| :: next.rows[k].attempts == db.rows[k].attempts
  {
  }

  lemma {:induction false} SameAttempts(rows: seq<Notification>, after: seq<Notification>, ids: seq<Id>)
    requires |after| == |rows| && forall k | 0 <= k < |rows| :: after[k].attempts == rows[k].attempts
    requires InRange(ids, |rows|)
    ensures AttemptsOf(after, ids) == AttemptsOf(rows, ids)
  {
    if ids != [] {
      SameAttempts(rows, after, ids[1..]);
    }
  }

  lemma {:induction false} DispatchesAll(s: System, ids: seq<Id>, push: Id -> Outcome, now: Time, max: nat)
    requires s.dispatcher == Dispatcher.Claimed(ids) && InRange(ids, |s.db.rows|)
    ensures DoAll(s, Dispatched(ids, push, now), max) ==
            s.(db := FinishAll(s.db, ids, push, now, max), dispatcher := Dispatcher.Claimed([]),
               pushes := s.pushes + AttemptsOf(s.db.rows, ids))
    decreases |ids|
  {
    hide Do, FinishTx;
    if ids == [] {
      assert s.pushes + [] == s.pushes;
    } else {
      var first, rest := Push(push(ids[0])), ids[1..];
      var next := Do(Do(s, first, max), Finish(now), max);
      PushAndFinish(s, ids, push, now, max);
      FinishKeepsAttempts(s.db, ids[0], push(ids[0]), now, max);
      SameAttempts(s.db.rows, next.db.rows, rest);
      DispatchesAll(next, rest, push, now, max);
      OneMove(s, first, max);
      OneMove(Do(s, first, max), Finish(now), max);
      MovesConcat(s, [first], [Finish(now)], max);
      MovesConcat(s, [first] + [Finish(now)], Dispatched(rest, push, now), max);
      Regroup(s.pushes, AttemptKey(ids[0], s.db.rows[ids[0]].attempts), AttemptsOf(s.db.rows, rest));
    }
  }

  lemma Regroup(before: seq<AttemptKey>, key: AttemptKey, rest: seq<AttemptKey>)
    ensures before + [key] + rest == before + ([key] + rest)
  {
  }

  /** One dispatch_once, move by move, whatever was stale; the last move finds nothing left. */
  function Round(rows: seq<Notification>, push: Id -> Outcome, now: Time, staleAfter: Time): seq<Move> {
    [Move.Recover(now, staleAfter)] + [Claim(now)]
    + Dispatched(Claims(RecoverAll(rows, now, staleAfter), now), push, now) + [Push(Outcome(true, None))]
  }

  /** A dispatch that nothing interrupts leaves the tables that the method leaves, and the provider
      saw exactly one push for each claimed row, under the attempt number of that claim. */
  lemma RoundDispatchesAll(s: System, push: Id -> Outcome, now: Time, staleAfter: Time, max: nat)
    requires s.dispatcher == Idle && |s.recoveries| == |s.db.rows|
    ensures var recovered := s.db.(rows := RecoverAll(s.db.rows, now, staleAfter));
      var claims, claimed := Claims(recovered.rows, now), ClaimTx(recovered, now);
      var last := DoAll(s, Round(s.db.rows, push, now, staleAfter), max);
      && last.dispatcher == Idle && last.retries == s.retries
      && last.db == FinishAll(claimed, claims, push, now, max)
      && InRange(claims, |claimed.rows|) && last.pushes == s.pushes + AttemptsOf(claimed.rows, claims)
  {
    hide Do, FinishTx, FinishAll, AttemptsOf;
    var recovered, claimed := Do(s, Move.Recover(now, staleAfter), max), s;
    Recovers(s, now, staleAfter, max);
    claimed := Do(recovered, Claim(now), max);
    Claiming(recovered, now, max);
    var claims := Claims(recovered.db.rows, now);
    forall i | 0 <= i < |claims| ensures claims[i] < |recovered.db.rows| {
      assert claims[i] in claims;
    }
    DispatchesAll(claimed, claims, push, now, max);
    var dispatched := DoAll(claimed, Dispatched(claims, push, now), max);
    NothingLeft(dispatched, Outcome(true, None), max);
    OneMove(s, Move.Recover(now, staleAfter), max);
    OneMove(recovered, Claim(now), max);
    OneMove(dispatched, Push(Outcome(true, None)), max);
    var moves := [Move.Recover(now, staleAfter)] + [Claim(now)];
    MovesConcat(s, [Move.Recover(now, staleAfter)], [Claim(now)], max);
    MovesConcat(s, moves, Dispatched(claims, push, now), max);
    MovesConcat(s, moves + Dispatched(claims, push, now), [Push(Outcome(true, None))], max);
  }

  lemma Recovers(s: System, now: Time, staleAfter: Time, max: nat)
    requires |s.recoveries| == |s.db.rows|
    ensures var next := Do(s, Move.Recover(now, staleAfter), max);
      && next == System(s.db.(rows := RecoverAll(s.db.rows, now, staleAfter)), s.dispatcher, s.pushes,
                        next.recoveries, s.retries)
      && |next.recoveries| == |s.recoveries|
      && forall i | 0 <= i < |s.recoveries| ::
           next.recoveries[i] == s.recoveries[i]
             + if s.db.rows[i].state == Sending
                  && (s.db.rows[i].lastAttempt == None || s.db.rows[i].lastAttempt.value <= now - staleAfter)
               then 1 else 0
  {
  }

  lemma Claiming(s: System, now: Time, max: nat)
    requires s.dispatcher == Idle
    ensures Do(s, Claim(now), max) ==
            s.(db := ClaimTx(s.db, now), dispatcher := Dispatcher.Claimed(Claims(s.db.rows, now)))
    ensures |ClaimTx(s.db, now).rows| == |s.db.rows|
  {
  }

  lemma NothingLeft(s: System, outcome: Outcome, max: nat)
    requires s.dispatcher == Dispatcher.Claimed([])
    ensures Do(s, Push(outcome), max) == s.(dispatcher := Idle)
  {
  }

  /** Only the retry of a failed notification counts as one, and it makes it due at once. */
  lemma RetriesAreCounted(s: System, id: Id, now: Time, max: nat)
    requires id < |s.db.rows| == |s.retries|
    ensures var next := Do(s, Move.ManualRetry(id, now), max); var row := s.db.rows[id];
      && next.dispatcher == s.dispatcher && next.pushes == s.pushes && next.recoveries == s.recoveries
      && next.db.attempts == s.db.attempts
      && (if row.state == Failed
          then next.db.rows == s.db.rows[id := row.(state := RetryWait, retryAt := Some(now))]
               && next.retries == s.retries[id := s.retries[id] + 1]
          else next == s)
  {
  }

  /** A new notification is pending and has no attempt, whatever the dispatcher is at. */
  lemma CreatedWaits(s: System, user: string, content: string, max: nat)
    ensures Do(s, Create(user, content), max) ==
            System(Db(s.db.rows + [Notification(user, content, Pending, 0, None, None)], s.db.attempts),
                   s.dispatcher, s.pushes, s.recoveries + [0], s.retries + [0])
  {
  }

  /** A process that dies loses its claims, and nothing in the tables. */
  lemma CrashForgets(s: System, max: nat)
    ensures Do(s, Crash, max) == s.(dispatcher := Idle)
  {
  }
}
