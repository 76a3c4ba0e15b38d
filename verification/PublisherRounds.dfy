/** What the publisher's moves amount to when nothing comes between them: a round of moves is the
    publishing that MailPublisher runs as one method. */
module PublisherRounds {
  import opened MailEvents
  import opened MailPublisher
  import opened Wrappers

  lemma {:induction false} MovesConcat(s: System, first: seq<Move>, second: seq<Move>)
    ensures DoAll(s, first + second) == DoAll(DoAll(s, first), second)
  {
    if second == [] {
      assert first + second == first;
    } else {
      var all := first + second;
      assert all[..|all| - 1] == first + second[..|second| - 1];
      MovesConcat(s, first, second[..|second| - 1]);
    }
  }

  lemma OneMove(s: System, move: Move)
    ensures DoAll(s, [move]) == Do(s, move)
  {
    assert [move][..0] == [];
  }

  /** Delivering and settling one event after another. */
  function Published(ids: seq<Id>, llm: Id -> Reply): seq<Move> {
    if ids == [] then [] else [DeliverNext(llm(ids[0]))] + [Settle] + Published(ids[1..], llm)
  }

  lemma DeliverAndSettle(s: System, ids: seq<Id>, llm: Id -> Reply, now: Time)
    requires s.worker == Draining(ids, now) && ids != []
    ensures var handled := Deliver(s.db, ids[0], llm(ids[0]));
      Do(Do(s, DeliverNext(llm(ids[0]))), Settle)
      == System(Apply(handled.db, SettleStep(ids[0], handled.outcome, now)), Draining(ids[1..], now), s.retries)
  {
    hide Deliver, Apply;
  }

  lemma {:induction false} PublishesAll(s: System, ids: seq<Id>, llm: Id -> Reply, now: Time)
    requires s.worker == Draining(ids, now)
    ensures DoAll(s, Published(ids, llm)) == System(PublishAll(s.db, ids, llm, now), Draining([], now), s.retries)
    decreases |ids|
  {
    hide Do, Deliver, Apply;
    if ids != [] {
      var deliver := DeliverNext(llm(ids[0]));
      DeliverAndSettle(s, ids, llm, now);
      PublishesAll(Do(Do(s, deliver), Settle), ids[1..], llm, now);
      OneMove(s, deliver);
      OneMove(Do(s, deliver), Settle);
      MovesConcat(s, [deliver], [Settle]);
      MovesConcat(s, [deliver] + [Settle], Published(ids[1..], llm));
    }
  }

  /** One round of publish_once, move by move; the last move finds nothing left. */
  function Round(db: Db, llm: Id -> Reply, now: Time): seq<Move> {
    [Select(now)] + Published(Eligible(db.deliveries, now), llm) + [DeliverNext(Unavailable(true))]
  }

  /** A round that nothing interrupts publishes like the method that runs it in one go; so it tries
      every due event once and no other (MailPublisher.RoundTriesEveryDueEvent). */
  lemma RoundPublishesAll(s: System, llm: Id -> Reply, now: Time)
    requires s.worker == Idle
    ensures DoAll(s, Round(s.db, llm, now)) ==
            System(PublishAll(s.db, Eligible(s.db.deliveries, now), llm, now), Idle, s.retries)
  {
    hide Do, Deliver, Apply, PublishAll, Eligible;
    var ids := Eligible(s.db.deliveries, now);
    var selected := Do(s, Select(now));
    Selects(s, now);
    PublishesAll(selected, ids, llm, now);
    OneMove(s, Select(now));
    MovesConcat(s, [Select(now)], Published(ids, llm));
    var published := DoAll(selected, Published(ids, llm));
    NothingLeft(published, Unavailable(true));
    OneMove(published, DeliverNext(Unavailable(true)));
    MovesConcat(s, [Select(now)] + Published(ids, llm), [DeliverNext(Unavailable(true))]);
  }

  lemma Selects(s: System, now: Time)
    requires s.worker == Idle
    ensures Do(s, Select(now)) == s.(worker := Draining(Eligible(s.db.deliveries, now), now))
  {
  }

  lemma NothingLeft(s: System, reply: Reply)
    requires s.worker.Draining? && s.worker.todo == []
    ensures Do(s, DeliverNext(reply)) == s.(worker := Idle)
  {
  }

  /** Only the retry of a failed event counts as one, and it makes the event wait, due at once. */
  lemma RetriesAreCounted(s: System, e: Id, now: Time)
    requires e < |s.db.deliveries|
    ensures var next := Do(s, ManualRetry(e, now)); var failed := s.db.deliveries[e].status == Failed;
      && next.worker == s.worker && |next.db.deliveries| == |s.db.deliveries|
      && Retries(next, e) == Retries(s, e) + (if failed then 1 else 0)
      && (forall other | other != e :: Retries(next, other) == Retries(s, other))
      && next.db.deliveries[e] ==
         (if failed then Delivery(Waiting, s.db.deliveries[e].attempts, Some(now)) else s.db.deliveries[e])
  {
  }

  /** Mail, actions and other events arrive whatever the publisher is at. */
  lemma ArrivalsDoNotWait(s: System, mail: Mail, action: Action, aggregate: Id)
    ensures Do(s, MailArrives(mail)) == System(IngestTx(s.db, mail), s.worker, s.retries)
    ensures Do(s, ActionArrives(action)) ==
            (if action.FromMail? then s else System(ProposeAction(s.db, action), s.worker, s.retries))
    ensures Do(s, EventArrives(aggregate)) == System(Emit(s.db, Unconsumed, aggregate), s.worker, s.retries)
  {
  }

  /** A process that dies loses what it had selected, and nothing in the tables. */
  lemma CrashForgets(s: System)
    ensures Do(s, Crash) == System(s.db, Idle, s.retries)
  {
  }
}
