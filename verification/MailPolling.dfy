/** The IMAP poller: a persisted high-watermark over a mailbox that changes under it.

    The mailbox follows sections 2.3.1.1 and 6.4.8 of RFC 3501: unique identifiers only grow within
    one UIDVALIDITY, and a search for `n:*` always answers the last message, even below n. */
module MailPolling {
  import opened Wrappers
  import opened CursorCodec

  /** What identifies a message: its provider id "qq-imap-v1:{uidvalidity}:{uid}". */
  datatype Message = Message(uidvalidity: nat, uid: nat)

  const ID_PREFIX := "qq-imap-v1:"

  function ProviderId(m: Message): string {
    ID_PREFIX + Decimal(m.uidvalidity) + ":" + Decimal(m.uid)
  }

  /** Different messages have different provider ids, so the unique column identifies messages. */
  lemma ProviderIdsAreDistinct(a: Message, b: Message)
    requires ProviderId(a) == ProviderId(b)
    ensures a == b
  {
    var va, ua, vb, ub := Decimal(a.uidvalidity), Decimal(a.uid), Decimal(b.uidvalidity), Decimal(b.uid);
    assert ProviderId(a) == ID_PREFIX + (va + (":" + ua)) && ProviderId(b) == ID_PREFIX + (vb + (":" + ub));
    CursorCodec.Split(ID_PREFIX, va + (":" + ua));
    CursorCodec.Split(ID_PREFIX, vb + (":" + ub));
    assert va + (":" + ua) == vb + (":" + ub);
    DigitRunOf(va, ":" + ua);
    DigitRunOf(vb, ":" + ub);
    CursorCodec.Split(va, ":" + ua);
    CursorCodec.Split(vb, ":" + ub);
    assert (":" + ua)[1..] == ua && (":" + ub)[1..] == ub;
    NumberOfDecimal(a.uidvalidity);
    NumberOfDecimal(b.uidvalidity);
    NumberOfDecimal(a.uid);
    NumberOfDecimal(b.uid);
  }

  // ---- Server replies -----------------------------------------------------------------------

  predicate Ascending(uids: seq<nat>) {
    forall i, j | 0 <= i < j < |uids| :: uids[i] < uids[j]
  }

  function Insert(uid: nat, uids: seq<nat>): (r: seq<nat>)
    requires Ascending(uids)
    ensures Ascending(r) && forall u :: u in r <==> u == uid || u in uids
  {
    if uids == [] || uid < uids[0] then [uid] + uids
    else if uid == uids[0] then uids
    else
      var rest := Insert(uid, uids[1..]);
      assert forall u :: u in uids <==> u == uids[0] || u in uids[1..];
      assert forall i | 0 <= i < |rest| :: rest[i] in rest;
      [uids[0]] + rest
  }

  /** sorted(set(uids)) */
  function SortUids(raw: seq<nat>): (r: seq<nat>)
    ensures Ascending(r) && forall u :: u in r <==> u in raw
  {
    if raw == [] then []
    else
      assert forall u :: u in raw <==> u == raw[0] || u in raw[1..];
      Insert(raw[0], SortUids(raw[1..]))
  }

  /** What `UID SEARCH UID from:*` matches. */
  predicate Matches(uids: set<nat>, from: nat, u: nat) {
    u in uids && (u >= from || forall w | w in uids :: w <= u)
  }

  predicate AnswersAll(uids: set<nat>, raw: seq<nat>) {
    (forall u | u in raw :: u in uids) && forall u | u in uids :: u in raw
  }

  predicate AnswersFrom(uids: set<nat>, from: nat, raw: seq<nat>) {
    (forall u | u in raw :: Matches(uids, from, u)) && forall u | u in uids && Matches(uids, from, u) :: u in raw
  }

  function Last(uids: seq<nat>, default: nat): nat {
    if uids == [] then default else uids[|uids| - 1]
  }

  function Take(uids: seq<nat>, n: nat): seq<nat> {
    if |uids| <= n then uids else uids[..n]
  }

  /** How _poll_connection starts: resume, or start over at the end of the mailbox.  A stored value
      that is no cursor is None here (see CursorCodec.ResumesExactlyOwnCursors). */
  datatype Start = Resumed(cursor: Cursor) | Restarted(cursor: Cursor, regression: bool)

  function Begin(stored: Option<Cursor>, uidvalidity: nat, rawAll: seq<nat>): Start {
    var baseline := Cursor(uidvalidity, Last(SortUids(rawAll), 0));
    match stored
    case None => Restarted(baseline, false)
    case Some(c) =>
      if c.uidvalidity != uidvalidity then Restarted(baseline, false)
      else if c.uid > baseline.uid then Restarted(baseline, true)
      else Resumed(c)
  }

  /** Begin is classify_cursor read through the decoder. */
  lemma BeginIsClassify(value: Option<string>, uidvalidity: nat, rawAll: seq<nat>)
    ensures var stored := if value.Some? then Decode(value.value) else None;
      Classify(value, uidvalidity, Last(SortUids(rawAll), 0)) ==
      match Begin(stored, uidvalidity, rawAll)
      case Resumed(c) => Resume(c)
      case Restarted(c, regression) =>
        Reset(c, if regression then UidRegression
                 else if value == None then Initial
                 else if !StartsWith(value.value, PREFIX) then Legacy
                 else if stored == None then Invalid else UidValidityChanged)
  {
  }

  /** The messages one poll fetches, and the cursor it will store. */
  function Selected(rawNew: seq<nat>, batch: nat): seq<nat> {
    Take(SortUids(rawNew), batch)
  }

  function NextCursor(c: Cursor, rawNew: seq<nat>, batch: nat): Cursor {
    Cursor(c.uidvalidity, Last(Selected(rawNew, batch), c.uid))
  }

  // ---- The world ----------------------------------------------------------------------------

  datatype Mailbox = Mailbox(uidvalidity: nat, uids: set<nat>, uidNext: nat)

  /** The tables: the stored cursor, the mail rows and the MAIL_RECEIVED events, in insertion order. */
  datatype Tables = Tables(stored: Option<Cursor>, mails: seq<Message>, received: seq<Message>)

  datatype Poller =
    | Idle
    | Searching(cursor: Cursor)
    | Ingesting(todo: seq<nat>, next: Cursor, anew: bool)

  /** `baseline` is the cursor at which this mailbox was last started over (no older mail is read). */
  datatype World = World(box: Mailbox, tables: Tables, baseline: Option<Cursor>, poller: Poller)

  datatype Step =
    | Append(uid: nat)
    | Expunge(uids: set<nat>)
    | NewEpoch(box: Mailbox)
    | Connect(rawAll: seq<nat>)
    | Search(rawNew: seq<nat>)
    | IngestNext
    | Commit
    | Abort                                    // a failed command, or the process dies

  function IngestTx(tables: Tables, m: Message): Tables {
    if m in tables.mails then tables
    else tables.(mails := tables.mails + [m], received := tables.received + [m])
  }

  predicate BoxOk(box: Mailbox) {
    0 < box.uidNext && forall u | u in box.uids :: 0 < u < box.uidNext
  }

  function Next(w: World, step: Step, batch: nat): World {
    match step
    case Append(uid) =>
      if uid < w.box.uidNext || uid == 0 then w
      else w.(box := w.box.(uids := w.box.uids + {uid}, uidNext := uid + 1))
    case Expunge(uids) => w.(box := w.box.(uids := w.box.uids - uids))
    case NewEpoch(box) => if box.uidvalidity > w.box.uidvalidity && BoxOk(box) then w.(box := box) else w
    case Connect(rawAll) =>
      if w.poller != Idle || !AnswersAll(w.box.uids, rawAll) then w
      else
        w.(poller := match Begin(w.tables.stored, w.box.uidvalidity, rawAll)
          case Resumed(c) => Searching(c)
          case Restarted(c, regression) => Ingesting([], c, !regression))
    case Search(rawNew) =>
      if !w.poller.Searching? then w
      else
        var c := w.poller.cursor;
        if c.uidvalidity != w.box.uidvalidity || !AnswersFrom(w.box.uids, c.uid + 1, rawNew) then w.(poller := Idle)
        else w.(poller := Ingesting(Selected(rawNew, batch), NextCursor(c, rawNew, batch), false))
    case IngestNext =>
      if !w.poller.Ingesting? || w.poller.todo == [] then w
      else
        w.(tables := IngestTx(w.tables, Message(w.poller.next.uidvalidity, w.poller.todo[0])),
           poller := w.poller.(todo := w.poller.todo[1..]))
    case Commit =>
      if !w.poller.Ingesting? || w.poller.todo != [] then w
      else
        w.(tables := w.tables.(stored := Some(w.poller.next)),
           baseline := if w.poller.anew then Some(w.poller.next) else w.baseline,
           poller := Idle)
    case Abort => w.(poller := Idle)
  }

  function Run(w: World, steps: seq<Step>, batch: nat): World {
    if steps == [] then w else Next(Run(w, steps[..|steps| - 1], batch), steps[|steps| - 1], batch)
  }

  // ---- No mail lost, none doubled -----------------------------------------------------------

  /** Every message now in the mailbox with lo < uid <= hi is stored or listed in `todo`. */
  ghost predicate Covered(w: World, lo: nat, hi: nat, todo: seq<nat>) {
    forall u | u in w.box.uids && lo < u <= hi :: Message(w.box.uidvalidity, u) in w.tables.mails || u in todo
  }

  ghost predicate NoDoubles(mails: seq<Message>) {
    forall i, j | 0 <= i < j < |mails| :: mails[i] != mails[j]
  }

  /** A cursor of the current epoch has a baseline, lies below the next uid, and covers its range. */
  ghost predicate CursorOk(w: World, c: Cursor, todo: seq<nat>) {
    && c.uidvalidity <= w.box.uidvalidity
    && (c.uidvalidity == w.box.uidvalidity ==>
          && c.uid < w.box.uidNext
          && w.baseline.Some? && w.baseline.value.uidvalidity == c.uidvalidity
          && Covered(w, w.baseline.value.uid, c.uid, todo))
  }

  ghost predicate Inv(w: World) {
    && BoxOk(w.box)
    && NoDoubles(w.tables.mails) && w.tables.received == w.tables.mails
    && (w.tables.stored.Some? ==> CursorOk(w, w.tables.stored.value, []))
    && match w.poller
       case Idle => true
       case Searching(c) => w.tables.stored == Some(c)
       case Ingesting(todo, next, anew) =>
         if anew then
           todo == [] && next.uidvalidity <= w.box.uidvalidity
           && (next.uidvalidity == w.box.uidvalidity ==> next.uid < w.box.uidNext)
         else CursorOk(w, next, todo)
  }

  lemma LastIsGreatest(uids: seq<nat>, u: nat)
    requires Ascending(uids) && u in uids
    ensures u <= Last(uids, 0)
  {
  }

  lemma ConnectKeepsInv(w: World, rawAll: seq<nat>, batch: nat)
    requires Inv(w)
    ensures Inv(Next(w, Connect(rawAll), batch))
  {
    var sorted := SortUids(rawAll);
    if w.poller == Idle && AnswersAll(w.box.uids, rawAll) {
      assert sorted != [] ==> Last(sorted, 0) in sorted && Last(sorted, 0) in w.box.uids;
      assert Last(sorted, 0) < w.box.uidNext;
    }
  }

  lemma SelectedCovers(w: World, c: Cursor, rawNew: seq<nat>, batch: nat, u: nat)
    requires AnswersFrom(w.box.uids, c.uid + 1, rawNew)
    requires u in w.box.uids && c.uid < u <= NextCursor(c, rawNew, batch).uid
    ensures u in Selected(rawNew, batch)
  {
    var sorted := SortUids(rawNew);
    assert u in sorted;
    var i :| 0 <= i < |sorted| && sorted[i] == u;
    if |sorted| > batch {
      var selected := sorted[..batch];
      assert selected != [];
      assert i < batch;
      assert selected[i] == u;
    }
  }

  lemma SearchKeepsInv(w: World, rawNew: seq<nat>, batch: nat)
    requires Inv(w) && w.poller.Searching?
    ensures Inv(Next(w, Search(rawNew), batch))
  {
    var c := w.poller.cursor;
    var next := Next(w, Search(rawNew), batch);
    if next.poller.Ingesting? {
      var selected, cursor := Selected(rawNew, batch), NextCursor(c, rawNew, batch);
      if selected != [] {
        assert selected[|selected| - 1] in SortUids(rawNew);
        assert Matches(w.box.uids, c.uid + 1, selected[|selected| - 1]);
      }
      assert cursor.uid < w.box.uidNext;
      forall u | u in w.box.uids && w.baseline.value.uid < u <= cursor.uid
        ensures Message(w.box.uidvalidity, u) in w.tables.mails || u in selected
      {
        if u > c.uid {
          SelectedCovers(w, c, rawNew, batch, u);
        }
      }
    }
  }

  lemma IngestKeepsInv(w: World, batch: nat)
    requires Inv(w) && w.poller.Ingesting? && w.poller.todo != []
    ensures Inv(Next(w, IngestNext, batch))
  {
    var todo := w.poller.todo;
    var next := Next(w, IngestNext, batch);
    assert forall m | m in w.tables.mails :: m in next.tables.mails;
    assert Message(w.poller.next.uidvalidity, todo[0]) in next.tables.mails;
    assert forall u | u in todo :: u == todo[0] || u in todo[1..];
  }

  lemma BoxKeepsInv(w: World, step: Step, batch: nat)
    requires Inv(w) && (step.Append? || step.Expunge? || step.NewEpoch?)
    ensures Inv(Next(w, step, batch))
  {
  }

  lemma StepKeepsInv(w: World, step: Step, batch: nat)
    requires Inv(w)
    ensures Inv(Next(w, step, batch))
  {
    match step
    case Connect(rawAll) => ConnectKeepsInv(w, rawAll, batch);
    case Search(rawNew) => if w.poller.Searching? { SearchKeepsInv(w, rawNew, batch); }
    case IngestNext => if w.poller.Ingesting? && w.poller.todo != [] { IngestKeepsInv(w, batch); }
    case Commit =>
    case Abort =>
    case _ => BoxKeepsInv(w, step, batch);
  }

  lemma {:induction false} RunKeepsInv(w: World, steps: seq<Step>, batch: nat)
    requires Inv(w)
    ensures Inv(Run(w, steps, batch))
  {
    if steps != [] {
      RunKeepsInv(w, steps[..|steps| - 1], batch);
      StepKeepsInv(Run(w, steps[..|steps| - 1], batch), steps[|steps| - 1], batch);
    }
  }

  predicate Initially(w: World) {
    && BoxOk(w.box)
    && w.tables == Tables(None, [], []) && w.baseline == None && w.poller == Idle
  }

  /** What happens to the mailbox and to a poll that breaks off: the tables are not touched, new mail
      has a uid that was not given out yet, and a new epoch replaces the mailbox. */
  lemma ServerMoves(w: World, uid: nat, gone: set<nat>, box: Mailbox, batch: nat)
    ensures Next(w, Append(uid), batch) ==
      if w.box.uidNext <= uid && 0 < uid
      then w.(box := Mailbox(w.box.uidvalidity, w.box.uids + {uid}, uid + 1)) else w
    ensures Next(w, Expunge(gone), batch) ==
      w.(box := Mailbox(w.box.uidvalidity, w.box.uids - gone, w.box.uidNext))
    ensures BoxOk(box) && w.box.uidvalidity < box.uidvalidity ==> Next(w, NewEpoch(box), batch) == w.(box := box)
    ensures Next(w, Abort, batch) == World(w.box, w.tables, w.baseline, Idle)
  {
  }

  /** Over any run of deliveries, expunges, new epochs, polls, crashes inside a batch and
      regression resets: every message still in the mailbox above the baseline and up to the stored
      cursor is stored; no message is stored twice; each stored message has its one event. */
  lemma NoMailLostOrDoubled(start: World, steps: seq<Step>, batch: nat, u: nat)
    requires Initially(start)
    ensures var w := Run(start, steps, batch);
      && NoDoubles(w.tables.mails) && w.tables.received == w.tables.mails
      && (w.tables.stored.Some? && w.tables.stored.value.uidvalidity == w.box.uidvalidity ==>
            && w.baseline.Some? && w.baseline.value.uidvalidity == w.box.uidvalidity
            && (u in w.box.uids && w.baseline.value.uid < u <= w.tables.stored.value.uid ==>
                  Message(w.box.uidvalidity, u) in w.tables.mails))
  {
    RunKeepsInv(start, steps, batch);
  }

  /** The baseline of an epoch is not moved by regressions: only a first cursor or a new epoch
      (or an unreadable stored cursor) sets it. */
  lemma RegressionKeepsBaseline(w: World, rawAll: seq<nat>, batch: nat)
    requires Inv(w) && w.poller == Idle && w.tables.stored.Some?
    requires w.tables.stored.value.uidvalidity == w.box.uidvalidity
    ensures var after := Next(Next(w, Connect(rawAll), batch), Commit, batch);
      after.baseline == w.baseline
  {
  }

  // ---- The `n:*` quirk ----------------------------------------------------------------------

  /** A poll moves the cursor back exactly when, at its second search, the mailbox is not empty and
      all of it lies below the cursor. */
  lemma MovesBackIff(uids: set<nat>, c: Cursor, rawNew: seq<nat>, batch: nat)
    requires batch > 0 && AnswersFrom(uids, c.uid + 1, rawNew)
    ensures NextCursor(c, rawNew, batch).uid < c.uid <==> uids != {} && forall u | u in uids :: u < c.uid
  {
    var sorted, selected := SortUids(rawNew), Selected(rawNew, batch);
    if selected == [] {
      if uids != {} {
        var top := Greatest(uids);
        assert Matches(uids, c.uid + 1, top);
        assert top in sorted;
      }
    } else {
      var last := selected[|selected| - 1];
      assert last in sorted && Matches(uids, c.uid + 1, last);
      assert last < c.uid ==> forall u | u in uids :: u <= last;
    }
  }

  lemma Greatest(uids: set<nat>) returns (top: nat)
    requires uids != {}
    ensures top in uids && forall u | u in uids :: u <= top
  {
    var some :| some in uids;
    if uids == {some} {
      top := some;
    } else {
      var rest := Greatest(uids - {some});
      top := if rest < some then some else rest;
      assert uids == (uids - {some}) + {some};
    }
  }

  /** While the mailbox stands still during a poll, the cursor never moves back. */
  lemma StableMailboxNeverMovesBack(uids: set<nat>, stored: Cursor, rawAll: seq<nat>, rawNew: seq<nat>, batch: nat)
    requires batch > 0 && AnswersAll(uids, rawAll) && AnswersFrom(uids, stored.uid + 1, rawNew)
    requires Begin(Some(stored), stored.uidvalidity, rawAll) == Resumed(stored)
    ensures NextCursor(stored, rawNew, batch).uid >= stored.uid
  {
    MovesBackIff(uids, stored, rawNew, batch);
    var sorted := SortUids(rawAll);
    if uids != {} {
      var top := Greatest(uids);
      assert top in sorted;
      assert Last(sorted, 0) in uids;
    }
  }

  // ---- One poll, uninterrupted --------------------------------------------------------------

  /** What the server reports during one connection. */
  datatype Reply = Reply(uidvalidity: nat, all: seq<nat>, since: seq<nat>)

  datatype Batch = Batch(messages: seq<Message>, next: Cursor, reset: bool)

  function Messages(uidvalidity: nat, uids: seq<nat>): (r: seq<Message>)
    ensures |r| == |uids| && forall i | 0 <= i < |r| :: r[i] == Message(uidvalidity, uids[i])
  {
    if uids == [] then [] else [Message(uidvalidity, uids[0])] + Messages(uidvalidity, uids[1..])
  }

  /** _poll_connection. */
  function PollConnection(stored: Option<Cursor>, reply: Reply, batch: nat): Batch {
    match Begin(stored, reply.uidvalidity, reply.all)
    case Restarted(c, _) => Batch([], c, true)
    case Resumed(c) =>
      Batch(Messages(c.uidvalidity, Selected(reply.since, batch)), NextCursor(c, reply.since, batch), false)
  }

  function IngestAll(tables: Tables, messages: seq<Message>): (r: Tables)
    ensures r.stored == tables.stored
    decreases |messages|
  {
    if messages == [] then tables else IngestAll(IngestTx(tables, messages[0]), messages[1..])
  }

  function PollTables(tables: Tables, reply: Reply, batch: nat): Tables {
    var b := PollConnection(tables.stored, reply, batch);
    IngestAll(tables, b.messages).(stored := Some(b.next))
  }

  /** A reply the mailbox may give while nothing changes in it. */
  ghost predicate Answers(box: Mailbox, stored: Option<Cursor>, reply: Reply) {
    && reply.uidvalidity == box.uidvalidity
    && AnswersAll(box.uids, reply.all)
    && (stored.Some? ==> AnswersFrom(box.uids, stored.value.uid + 1, reply.since))
  }

  function Drain(w: World, batch: nat): World
    decreases if w.poller.Ingesting? then |w.poller.todo| else 0
  {
    if w.poller.Ingesting? && w.poller.todo != [] then Drain(Next(w, IngestNext, batch), batch) else w
  }

  /** The steps of one poll that nothing interrupts. */
  function Poll(w: World, reply: Reply, batch: nat): World {
    var connected := Next(w, Connect(reply.all), batch);
    var searched := if connected.poller.Searching? then Next(connected, Search(reply.since), batch) else connected;
    Next(Drain(searched, batch), Commit, batch)
  }

  lemma {:induction false} DrainIngests(w: World, batch: nat)
    requires w.poller.Ingesting?
    decreases |w.poller.todo|
    ensures Drain(w, batch) == w.(
      tables := IngestAll(w.tables, Messages(w.poller.next.uidvalidity, w.poller.todo)),
      poller := w.poller.(todo := []))
  {
    if w.poller.todo != [] {
      DrainIngests(Next(w, IngestNext, batch), batch);
      var messages := Messages(w.poller.next.uidvalidity, w.poller.todo);
      assert messages[1..] == Messages(w.poller.next.uidvalidity, w.poller.todo[1..]);
    }
  }

  lemma {:induction false} DrainKeepsInv(w: World, batch: nat)
    requires Inv(w)
    ensures Inv(Drain(w, batch))
    decreases if w.poller.Ingesting? then |w.poller.todo| else 0
  {
    if w.poller.Ingesting? && w.poller.todo != [] {
      IngestKeepsInv(w, batch);
      DrainKeepsInv(Next(w, IngestNext, batch), batch);
    }
  }

  /** The step-by-step poll and the poll as one function of tables and replies agree. */
  lemma PollIsPollTables(w: World, reply: Reply, batch: nat)
    requires w.poller == Idle && Answers(w.box, w.tables.stored, reply)
    ensures var after := Poll(w, reply, batch);
      && after.tables == PollTables(w.tables, reply, batch)
      && after.tables.stored == Some(PollConnection(w.tables.stored, reply, batch).next)
      && after.poller == Idle && after.box == w.box
      && (w.tables.stored.Some? && w.tables.stored.value.uidvalidity == w.box.uidvalidity ==>
            after.baseline == w.baseline)
  {
    var connected := Next(w, Connect(reply.all), batch);
    var searched := if connected.poller.Searching? then Next(connected, Search(reply.since), batch) else connected;
    DrainIngests(searched, batch);
  }

  lemma PollKeepsInv(w: World, reply: Reply, batch: nat)
    requires Inv(w)
    ensures Inv(Poll(w, reply, batch))
  {
    var connected := Next(w, Connect(reply.all), batch);
    StepKeepsInv(w, Connect(reply.all), batch);
    var searched := if connected.poller.Searching? then Next(connected, Search(reply.since), batch) else connected;
    StepKeepsInv(connected, Search(reply.since), batch);
    DrainKeepsInv(searched, batch);
    StepKeepsInv(Drain(searched, batch), Commit, batch);
  }

  // ---- Waiting mail is stored in ceil(k / batch) polls --------------------------------------

  function Above(uids: set<nat>, uid: nat): set<nat> {
    set u | u in uids && u > uid
  }

  function Waiting(w: World): set<nat> {
    if w.tables.stored.None? then {} else Above(w.box.uids, w.tables.stored.value.uid)
  }

  /** The mailbox has a baseline in this epoch, so the next poll will not start over in a new one. */
  ghost predicate Settled(w: World) {
    && Inv(w) && w.poller == Idle
    && w.tables.stored.Some? && w.tables.stored.value.uidvalidity == w.box.uidvalidity
  }

  lemma {:induction false} SizeOfAscending(uids: seq<nat>, s: set<nat>)
    requires Ascending(uids) && forall u :: u in s <==> u in uids
    ensures |s| == |uids|
  {
    if uids != [] {
      assert s == (s - {uids[0]}) + {uids[0]};
      assert forall u :: u in uids <==> u == uids[0] || u in uids[1..];
      SizeOfAscending(uids[1..], s - {uids[0]});
    } else {
      assert s == {};
    }
  }

  /** When something waits, the search answers exactly what waits. */
  lemma SearchFindsWaiting(uids: set<nat>, uid: nat, since: seq<nat>, u: nat)
    requires AnswersFrom(uids, uid + 1, since) && Above(uids, uid) != {}
    ensures u in Above(uids, uid) <==> u in SortUids(since)
  {
    var some :| some in Above(uids, uid);
    if u in since {
      assert Matches(uids, uid + 1, u);
      assert u > uid || some <= u;
    }
  }

  function Rest(sorted: seq<nat>, batch: nat): seq<nat> {
    if |sorted| <= batch then [] else sorted[batch..]
  }

  lemma RestIsAbove(sorted: seq<nat>, batch: nat, u: nat)
    requires Ascending(sorted) && sorted != [] && batch > 0
    ensures u in Rest(sorted, batch) <==> u in sorted && u > Last(Take(sorted, batch), 0)
  {
    if |sorted| <= batch {
      if u in sorted {
        LastIsGreatest(sorted, u);
      }
    } else {
      SuffixIsAbove(sorted, batch, u);
    }
  }

  lemma LastTaken(sorted: seq<nat>, batch: nat)
    requires sorted != [] && batch > 0
    ensures Take(sorted, batch) != [] && Last(Take(sorted, batch), 0) in sorted
  {
  }

  lemma NextIsLastTaken(uids: set<nat>, c: Cursor, since: seq<nat>, batch: nat)
    requires batch > 0 && AnswersFrom(uids, c.uid + 1, since) && Above(uids, c.uid) != {}
    ensures SortUids(since) != []
    ensures NextCursor(c, since, batch).uid == Last(Take(SortUids(since), batch), 0) > c.uid
  {
    var some :| some in Above(uids, c.uid);
    SearchFindsWaiting(uids, c.uid, since, some);
    LastTaken(SortUids(since), batch);
    SearchFindsWaiting(uids, c.uid, since, Last(Take(SortUids(since), batch), 0));
  }

  lemma LeftAfterBatch(uids: set<nat>, c: Cursor, since: seq<nat>, batch: nat, u: nat)
    requires batch > 0 && AnswersFrom(uids, c.uid + 1, since) && Above(uids, c.uid) != {}
    ensures u in Above(uids, NextCursor(c, since, batch).uid) <==> u in Rest(SortUids(since), batch)
  {
    NextIsLastTaken(uids, c, since, batch);
    SearchFindsWaiting(uids, c.uid, since, u);
    RestIsAbove(SortUids(since), batch, u);
  }

  lemma WaitingAfter(uids: set<nat>, c: Cursor, since: seq<nat>, batch: nat)
    requires batch > 0 && AnswersFrom(uids, c.uid + 1, since) && Above(uids, c.uid) != {}
    ensures var k := |Above(uids, c.uid)|;
      |Above(uids, NextCursor(c, since, batch).uid)| == if k <= batch then 0 else k - batch
  {
    var sorted := SortUids(since);
    forall u ensures u in Above(uids, c.uid) <==> u in sorted {
      SearchFindsWaiting(uids, c.uid, since, u);
    }
    SizeOfAscending(sorted, Above(uids, c.uid));
    var rest := Rest(sorted, batch);
    forall u ensures u in Above(uids, NextCursor(c, since, batch).uid) <==> u in rest {
      LeftAfterBatch(uids, c, since, batch, u);
    }
    SizeOfAscending(rest, Above(uids, NextCursor(c, since, batch).uid));
  }

  lemma SuffixIsAbove(sorted: seq<nat>, n: nat, u: nat)
    requires Ascending(sorted) && 0 < n < |sorted|
    ensures u in sorted[n..] <==> u in sorted && u > sorted[..n][n - 1]
  {
    if u in sorted && u > sorted[n - 1] {
      var i :| 0 <= i < |sorted| && sorted[i] == u;
      assert i >= n && sorted[n..][i - n] == u;
    }
  }

  lemma BacklogAfter(uids: set<nat>, c: Cursor, reply: Reply, batch: nat)
    requires batch > 0 && AnswersAll(uids, reply.all) && AnswersFrom(uids, c.uid + 1, reply.since)
    requires reply.uidvalidity == c.uidvalidity
    ensures var k := |Above(uids, c.uid)|;
      |Above(uids, PollConnection(Some(c), reply, batch).next.uid)| == if k <= batch then 0 else k - batch
  {
    var sorted := SortUids(reply.all);
    forall u | u in uids ensures u in sorted && u <= Last(sorted, 0) {
      LastIsGreatest(sorted, u);
    }
    var next := PollConnection(Some(c), reply, batch).next;
    if Above(uids, c.uid) != {} {
      WaitingAfter(uids, c, reply.since, batch);
    } else if Begin(Some(c), reply.uidvalidity, reply.all) == Resumed(c) {
      StableMailboxNeverMovesBack(uids, c, reply.all, reply.since, batch);
      assert forall u | u in Above(uids, next.uid) :: u in Above(uids, c.uid);
      assert Above(uids, next.uid) == {};
    } else {
      assert Above(uids, next.uid) == {};
    }
  }

  /** One poll of a quiet mailbox stores a full batch of the backlog, or all of it. */
  lemma PollTakesBatch(w: World, reply: Reply, batch: nat)
    requires Settled(w) && batch > 0 && Answers(w.box, w.tables.stored, reply)
    ensures var after := Poll(w, reply, batch);
      && Settled(after) && after.box == w.box && after.baseline == w.baseline
      && |Waiting(after)| == if |Waiting(w)| <= batch then 0 else |Waiting(w)| - batch
  {
    PollKeepsInv(w, reply, batch);
    PollIsPollTables(w, reply, batch);
    BacklogAfter(w.box.uids, w.tables.stored.value, reply, batch);
  }

  function Polls(w: World, replies: seq<Reply>, batch: nat): World
    decreases |replies|
  {
    if replies == [] then w else Polls(Poll(w, replies[0], batch), replies[1..], batch)
  }

  ghost predicate AllAnswer(w: World, replies: seq<Reply>, batch: nat)
    decreases |replies|
  {
    replies == [] ||
    (Answers(w.box, w.tables.stored, replies[0]) && AllAnswer(Poll(w, replies[0], batch), replies[1..], batch))
  }

  lemma OneBatchLess(k: nat, n: nat, batch: nat)
    requires n > 0 && k <= n * batch
    ensures (if k <= batch then 0 else k - batch) <= (n - 1) * batch
  {
    assert n * batch == (n - 1) * batch + batch;
  }

  lemma {:induction false} PollsShrinkBacklog(w: World, replies: seq<Reply>, batch: nat)
    requires Settled(w) && batch > 0 && AllAnswer(w, replies, batch)
    requires |Waiting(w)| <= |replies| * batch
    ensures var after := Polls(w, replies, batch);
      Settled(after) && after.box == w.box && after.baseline == w.baseline && Waiting(after) == {}
    decreases |replies|
  {
    if replies != [] {
      PollTakesBatch(w, replies[0], batch);
      OneBatchLess(|Waiting(w)|, |replies|, batch);
      PollsShrinkBacklog(Poll(w, replies[0], batch), replies[1..], batch);
    }
  }

  lemma CeilingCovers(k: nat, batch: nat, n: nat)
    requires batch > 0 && n >= (k + batch - 1) / batch
    ensures k <= n * batch
  {
    var q := (k + batch - 1) / batch;
    assert k <= q * batch;
    assert q * batch <= n * batch;
  }

  /** k messages waiting in a quiet mailbox are all stored after ceil(k / batch) uninterrupted polls. */
  lemma BacklogIsStored(w: World, replies: seq<Reply>, batch: nat, u: nat)
    requires Settled(w) && batch > 0 && AllAnswer(w, replies, batch)
    requires |replies| >= (|Waiting(w)| + batch - 1) / batch
    requires u in w.box.uids && u > w.baseline.value.uid
    ensures Message(w.box.uidvalidity, u) in Polls(w, replies, batch).tables.mails
  {
    CeilingCovers(|Waiting(w)|, batch, |replies|);
    PollsShrinkBacklog(w, replies, batch);
    var after := Polls(w, replies, batch);
    assert u !in Waiting(after);
  }

  // ---- What one poll takes ------------------------------------------------------------------

  predicate IsGreatest(uid: nat, uids: seq<nat>) {
    (forall u | u in uids :: u <= uid) && if uids == [] then uid == 0 else uid in uids
  }

  /** The cursor belongs to the mailbox and is not ahead of everything in it. */
  predicate Resumes(stored: Option<Cursor>, uidvalidity: nat, all: seq<nat>) {
    && stored.Some? && stored.value.uidvalidity == uidvalidity
    && (stored.value.uid == 0 || exists u :: u in all && stored.value.uid <= u)
  }

  /** The messages are those the search found with the lowest uids, in their order; some are left
      only when the batch is full. */
  ghost predicate IsBatch(messages: seq<Message>, uidvalidity: nat, since: seq<nat>, batch: nat) {
    && |messages| <= batch
    && (forall i | 0 <= i < |messages| :: messages[i].uidvalidity == uidvalidity && messages[i].uid in since)
    && (forall i, j | 0 <= i < j < |messages| :: messages[i].uid < messages[j].uid)
    && forall u | u in since && Message(uidvalidity, u) !in messages ::
         |messages| == batch && forall m | m in messages :: m.uid < u
  }

  /** A poll that resumes takes a batch and stops at its last message; one that starts over takes
      nothing and stops at the greatest uid of the mailbox. */
  ghost predicate Polled(stored: Option<Cursor>, reply: Reply, batch: nat, taken: seq<Message>, next: Cursor) {
    && next.uidvalidity == reply.uidvalidity
    && if Resumes(stored, reply.uidvalidity, reply.all) then
         && IsBatch(taken, reply.uidvalidity, reply.since, batch)
         && next.uid == if taken == [] then stored.value.uid else taken[|taken| - 1].uid
       else taken == [] && IsGreatest(next.uid, reply.all)
  }

  lemma LastIsTop(raw: seq<nat>)
    ensures IsGreatest(Last(SortUids(raw), 0), raw)
  {
    var sorted := SortUids(raw);
    if raw != [] {
      assert raw[0] in sorted;
      assert Last(sorted, 0) in sorted;
    }
    forall u | u in raw ensures u <= Last(sorted, 0) {
      LastIsGreatest(sorted, u);
    }
  }

  lemma SelectedIsBatch(uidvalidity: nat, since: seq<nat>, batch: nat)
    ensures IsBatch(Messages(uidvalidity, Selected(since, batch)), uidvalidity, since, batch)
  {
    hide SortUids;
    var sorted, messages := SortUids(since), Messages(uidvalidity, Selected(since, batch));
    forall i | 0 <= i < |messages| ensures messages[i].uid in since {
      assert sorted[i] in sorted;
    }
    forall u | u in since && Message(uidvalidity, u) !in messages
      ensures |messages| == batch && forall m | m in messages :: m.uid < u
    {
      LeftIsAbove(uidvalidity, sorted, batch, u);
    }
  }

  lemma LeftIsAbove(uidvalidity: nat, sorted: seq<nat>, batch: nat, u: nat)
    requires Ascending(sorted) && u in sorted
    requires Message(uidvalidity, u) !in Messages(uidvalidity, Take(sorted, batch))
    ensures |sorted| > batch && forall m | m in Messages(uidvalidity, Take(sorted, batch)) :: m.uid < u
  {
    var messages := Messages(uidvalidity, Take(sorted, batch));
    var i :| 0 <= i < |sorted| && sorted[i] == u;
    assert i >= |messages|;
    forall k | 0 <= k < |messages| ensures messages[k].uid < u {
      assert messages[k].uid == Take(sorted, batch)[k] == sorted[k];
      assert k < i;
    }
  }

  lemma ResumesIff(stored: Option<Cursor>, uidvalidity: nat, all: seq<nat>)
    ensures Begin(stored, uidvalidity, all).Resumed? <==> Resumes(stored, uidvalidity, all)
  {
    hide SortUids;
    LastIsTop(all);
  }

  lemma PollTakes(stored: Option<Cursor>, reply: Reply, batch: nat)
    ensures var b := PollConnection(stored, reply, batch);
      Polled(stored, reply, batch, b.messages, b.next)
    ensures PollConnection(stored, reply, batch).reset <==> !Resumes(stored, reply.uidvalidity, reply.all)
  {
    hide SortUids, IsBatch, Resumes, IsGreatest, Messages, Selected;
    LastIsTop(reply.all);
    ResumesIff(stored, reply.uidvalidity, reply.all);
    SelectedIsBatch(reply.uidvalidity, reply.since, batch);
  }

  /** The new rows are the messages taken that were not stored yet, each once. */
  ghost predicate Added(before: seq<Message>, after: seq<Message>, taken: seq<Message>) {
    && before <= after && (forall m :: m in after <==> m in before || m in taken)
    && forall i | |before| <= i < |after| :: after[i] !in after[..i]
  }

  lemma AddedOne(before: seq<Message>, mails: seq<Message>, messages: seq<Message>, i: nat)
    requires i < |messages| && Added(before, mails, messages[..i])
    ensures messages[i] in mails ==> Added(before, mails, messages[..i + 1])
    ensures messages[i] !in mails ==> Added(before, mails + [messages[i]], messages[..i + 1])
  {
    assert messages[..i + 1] == messages[..i] + [messages[i]];
    var after := mails + [messages[i]];
    if messages[i] !in mails {
      forall k | |before| <= k < |after| ensures after[k] !in after[..k] {
        if k < |mails| {
          assert after[..k] == mails[..k];
        } else {
          assert after[..k] == mails;
        }
      }
    }
  }

  lemma AddedNone(before: seq<Message>, messages: seq<Message>)
    ensures Added(before, before, messages[..0])
  {
  }

  // ---- The poller as the service runs it ----------------------------------------------------

  /** One mail account and its mail: ingest_mail and poll_once over the stored columns. */
  class MailPoller {
    var pollingCursor: Option<string>
    var pollingAttempts: nat
    var pollingFailed: bool
    var mails: seq<Message>
    var received: seq<Message>

    ghost function State(): Tables
      reads this
    {
      Tables(if pollingCursor.Some? then Decode(pollingCursor.value) else None, mails, received)
    }

    constructor ()
      ensures State() == Tables(None, [], [])
    {
      pollingCursor, pollingAttempts, pollingFailed, mails, received := None, 0, false, [], [];
    }

    method IngestMail(m: Message) returns (created: bool)
      modifies `mails, `received
      ensures State() == IngestTx(old(State()), m)
      ensures created <==> m !in old(mails)
      ensures mails == old(mails) + (if created then [m] else [])
      ensures received == old(received) + (if created then [m] else [])
    {
      created := m !in mails;
      if created {
        mails, received := mails + [m], received + [m];
      }
    }

    /** poll_once: a failed poll only counts; a good one moves the cursor after all mail is in. */
    method PollOnce(answer: Option<Reply>, batch: nat)
      returns (ingested: nat, failed: bool, ghost taken: seq<Message>, ghost next: Cursor)
      modifies this
      ensures failed <==>
        answer == None || Encode(PollConnection(old(State()).stored, answer.value, batch).next) == None
      ensures pollingAttempts == old(pollingAttempts) + 1 && pollingFailed == failed
      ensures failed ==> State() == old(State()) && pollingCursor == old(pollingCursor) && ingested == 0
      ensures !failed ==> State() == PollTables(old(State()), answer.value, batch)
      ensures |mails| == |old(mails)| + ingested
      ensures !failed ==>
        Polled(old(State()).stored, answer.value, batch, taken, next) && pollingCursor == Encode(next)
      ensures failed ==> taken == []
      ensures Added(old(mails), mails, taken) && received == old(received) + mails[|old(mails)|..]
    {
      hide Polled, Added, PollConnection, Encode, Decode;
      pollingAttempts := pollingAttempts + 1;
      ingested := 0;
      var stored := if pollingCursor.Some? then Decode(pollingCursor.value) else None;
      if answer == None || Encode(PollConnection(stored, answer.value, batch).next) == None {
        pollingFailed := true;
        taken, next, failed := [], Cursor(0, 0), true;
        AddedNone(mails, taken);
        assert taken[..0] == taken;
        return;
      }
      var b := PollConnection(stored, answer.value, batch);
      taken, next := b.messages, b.next;
      PollTakes(stored, answer.value, batch);
      AddedNone(mails, b.messages);
      ghost var before := State();
      for i := 0 to |b.messages|
        invariant IngestAll(State(), b.messages[i..]) == IngestAll(before, b.messages)
        invariant pollingAttempts == old(pollingAttempts) + 1 && pollingCursor == old(pollingCursor)
        invariant |mails| == |old(mails)| + ingested
        invariant |old(mails)| <= |mails| && received == old(received) + mails[|old(mails)|..]
        invariant Added(old(mails), mails, b.messages[..i])
      {
        AddedOne(old(mails), mails, b.messages, i);
        var created := IngestMail(b.messages[i]);
        assert b.messages[i..][1..] == b.messages[i + 1..];
        if created {
          ingested := ingested + 1;
        }
      }
      assert b.messages[..|b.messages|] == b.messages;
      DecodeReadsEncode(b.next);
      pollingCursor, pollingFailed := Encode(b.next), false;
      failed := false;
    }
  }
}
