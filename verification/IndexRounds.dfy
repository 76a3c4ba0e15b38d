/** What the moves of a rebuild amount to when nothing comes between them: the rebuild that
    KnowledgeIndex runs as one method. */
module IndexRounds {
  import opened KnowledgeIndex
  import opened VectorIndex
  import opened Wrappers

  lemma {:induction false} MovesConcat(s: System, first: seq<Move>, second: seq<Move>)
    ensures DoAll(s, first + second) == DoAll(DoAll(s, first), second)
  {
    if second == [] {
      assert first + second == first;
    } else {
      var all := first + second;
      assert all[..|all| - 1] == first + second[..|second| - 1];
      MovesConcat(s, first, second[..|second| - 1]);
    }
  }

  lemma OneMove(s: System, move: Move)
    ensures DoAll(s, [move]) == Do(s, move)
  {
    assert [move][..0] == [];
  }

  /** Upserting and marking one document after another; a failing upsert writes nothing. */
  function Fill(ids: seq<Id>, fails: Id -> bool): seq<Move> {
    if ids == [] then [] else [RebuildUpsert(!fails(ids[0]), {})] + [RebuildMark] + Fill(ids[1..], fails)
  }

  lemma UpsertsAll(ix: Index, d: Id)
    requires d < |ix.docs|
    ensures Upsert(ix, d, KeysOf(ix.docs[d], d)) == ix.(store := ix.store + RecordsOf(ix.docs[d], d))
    ensures Upsert(ix, d, {}) == ix
  {
    var records := RecordsOf(ix.docs[d], d);
    assert (map k | k in records && k in KeysOf(ix.docs[d], d) :: records[k]) == records;
    assert Upsert(ix, d, {}).store == ix.store;
  }

  /** The rebuild has handled the first `n` of its documents. */
  ghost predicate Rebuilt(s: System, before: seq<Doc>, ids: seq<Id>, n: nat, fails: Id -> bool) {
    && n <= |ids| && s.rebuild == Filling(ids[n..])
    && RowsAfter(before, s.ix.docs, ids, n, fails) && StoreAfter(before, s.ix.store, ids, n, fails)
  }

  lemma FillOne(s: System, d: Id, rest: seq<Id>, fails: Id -> bool)
    requires s.rebuild == Filling([d] + rest) && d < |s.ix.docs|
    ensures Do(Do(s, RebuildUpsert(!fails(d), {})), RebuildMark) ==
            s.(ix := Index(s.ix.docs[d := s.ix.docs[d].(status := if fails(d) then Failed else Ready)],
                           if fails(d) then s.ix.store else s.ix.store + RecordsOf(s.ix.docs[d], d)),
               rebuild := Filling(rest))
  {
    hide KeysOf, RecordsOf, Upsert;
    UpsertsAll(s.ix, d);
    assert ([d] + rest)[1..] == rest;
  }

  lemma FillNext(s: System, before: seq<Doc>, ids: seq<Id>, n: nat, fails: Id -> bool)
    requires n < |ids| && ids[n] < |before| && Rebuilt(s, before, ids, n, fails)
    ensures var next := Do(Do(s, RebuildUpsert(!fails(ids[n]), {})), RebuildMark);
      Rebuilt(next, before, ids, n + 1, fails) && next.jobs == s.jobs
  {
    hide Do, RowsAfter, StoreAfter, RecordsOf;
    var d := ids[n];
    assert ids[n..] == [d] + ids[n + 1..];
    RowsSame(before, s.ix.docs, ids, n, fails, d);
    FillOne(s, d, ids[n + 1..], fails);
    RowsStep(before, s.ix.docs, ids, n, fails, if fails(d) then Failed else Ready);
    StoreStep(before, s.ix.store, ids, n, fails);
  }

  lemma {:induction false} FillAll(s: System, before: seq<Doc>, ids: seq<Id>, n: nat, fails: Id -> bool)
    requires Rebuilt(s, before, ids, n, fails) && forall d | d in ids :: d < |before|
    ensures var last := DoAll(s, Fill(ids[n..], fails));
      Rebuilt(last, before, ids, |ids|, fails) && last.jobs == s.jobs
    decreases |ids| - n
  {
    hide Do, RowsAfter, StoreAfter;
    if n < |ids| {
      var upsert := RebuildUpsert(!fails(ids[n]), {});
      assert ids[n] in ids;
      FillNext(s, before, ids, n, fails);
      FillAll(Do(Do(s, upsert), RebuildMark), before, ids, n + 1, fails);
      assert ids[n..][1..] == ids[n + 1..];
      OneMove(s, upsert);
      OneMove(Do(s, upsert), RebuildMark);
      MovesConcat(s, [upsert], [RebuildMark]);
      MovesConcat(s, [upsert] + [RebuildMark], Fill(ids[n + 1..], fails));
    }
  }

  /** An upsert that fails part-way leaves what it wrote, and the document is marked FAILED. */
  lemma PartialUpsert(s: System, d: Id, rest: seq<Id>, written: set<ChunkId>, k: ChunkId)
    requires s.rebuild == Filling([d] + rest) && d < |s.ix.docs|
    ensures var tried := Do(s, RebuildUpsert(false, written)); var next := Do(tried, RebuildMark);
      && next.rebuild == Filling(rest) && next.ix.store == tried.ix.store && next.jobs == s.jobs
      && next.ix.docs == s.ix.docs[d := s.ix.docs[d].(status := Failed)]
      && if k in written && k.document == d && k.index < |s.ix.docs[d].chunks|
         then k in next.ix.store && SaysRow(next.ix.store[k], s.ix.docs[d].facts, s.ix.docs[d].chunks[k.index], k)
         else (k in next.ix.store <==> k in s.ix.store)
              && (k in s.ix.store ==> next.ix.store[k] == s.ix.store[k])
  {
    assert ([d] + rest)[1..] == rest;
    if k.document == d && k.index < |s.ix.docs[d].chunks| {
      assert k == ChunkId(d, k.index);
    }
  }

  /** A rebuild, move by move. */
  function Moves(docs: seq<Doc>, fails: Id -> bool): seq<Move> {
    [StartRebuild] + [MarkPending] + [Reset(true, {})] + Fill(ActiveDocs(docs), fails) + [StopRebuild]
  }

  lemma Emptied(s: System, fails: Id -> bool)
    requires s.jobs == map[] && s.rebuild == NoRebuild
    ensures var emptied := Do(Do(Do(s, StartRebuild), MarkPending), Reset(true, {}));
      Rebuilt(emptied, s.ix.docs, ActiveDocs(s.ix.docs), 0, fails) && emptied.jobs == map[]
  {
    hide ActiveDocs, PendingAll, RowsAfter, StoreAfter;
    var ids := ActiveDocs(s.ix.docs);
    RebuildBegins(s.ix.docs, ids, fails);
    assert ids[0..] == ids;
  }

  /** A rebuild that nothing interrupts leaves the rows and the store that the method leaves: every
      active document READY or FAILED, in the store exactly the chunks of those that are READY, and
      agreement. */
  lemma RebuildIsRun(s: System, fails: Id -> bool)
    requires s.jobs == map[] && s.rebuild == NoRebuild
    ensures var last := DoAll(s, Moves(s.ix.docs, fails)); var ids := ActiveDocs(s.ix.docs);
      && last.jobs == map[] && last.rebuild == NoRebuild && Agrees(last.ix)
      && RowsAfter(s.ix.docs, last.ix.docs, ids, |ids|, fails)
      && StoreAfter(s.ix.docs, last.ix.store, ids, |ids|, fails)
  {
    hide Do, ActiveDocs, RowsAfter, StoreAfter, Agrees;
    var ids := ActiveDocs(s.ix.docs);
    var started := Do(s, StartRebuild);
    var marked := Do(started, MarkPending);
    var emptied := Do(marked, Reset(true, {}));
    Emptied(s, fails);
    assert ids[0..] == ids;
    FillAll(emptied, s.ix.docs, ids, 0, fails);
    var filled := DoAll(emptied, Fill(ids, fails));
    StopsRebuild(filled);
    RebuiltAgrees(s.ix.docs, filled.ix.docs, filled.ix.store, fails);
    OneMove(s, StartRebuild);
    OneMove(started, MarkPending);
    OneMove(marked, Reset(true, {}));
    OneMove(filled, StopRebuild);
    MovesConcat(s, [StartRebuild], [MarkPending]);
    MovesConcat(s, [StartRebuild] + [MarkPending], [Reset(true, {})]);
    MovesConcat(s, [StartRebuild] + [MarkPending] + [Reset(true, {})], Fill(ids, fails));
    MovesConcat(s, [StartRebuild] + [MarkPending] + [Reset(true, {})] + Fill(ids, fails), [StopRebuild]);
  }

  lemma StopsRebuild(s: System)
    ensures Do(s, StopRebuild) == s.(rebuild := NoRebuild)
  {
  }

  /** A reset that raises ends the rebuild: the active documents stay PENDING and part of the store
      may be lost. */
  lemma FailedResetStops(s: System, lost: set<ChunkId>)
    requires s.jobs == map[] && s.rebuild == NoRebuild
    ensures Do(Do(Do(s, StartRebuild), MarkPending), Reset(false, lost)) ==
            s.(ix := Index(PendingAll(s.ix.docs, set d | d in ActiveDocs(s.ix.docs)), s.ix.store - lost))
  {
  }

  /** Retries and stale leases are handled whatever the workers are at; only the document meant, or
      only stale leases, change. */
  lemma RetriesDoNotWait(s: System, d: Id, now: Time, staleAfter: Time)
    requires d < |s.ix.docs|
    ensures var doc := s.ix.docs[d];
      && Do(s, RetryIndex(d)) == (if doc.lifecycle == Active && doc.status == Failed
                                  then s.(ix := SetDoc(s.ix, d, doc.(attempts := 0))) else s)
      && Do(s, RetryCleanup(d)) == (if doc.lifecycle == Removed && doc.status == Failed
                                    then s.(ix := SetDoc(s.ix, d, doc.(attempts := 0))) else s)
    ensures var next := Do(s, RecoverStale(now, staleAfter));
      && next.jobs == s.jobs && next.rebuild == s.rebuild && next.ix.store == s.ix.store
      && |next.ix.docs| == |s.ix.docs| && LeaseRecovered(s.ix.docs[d], next.ix.docs[d], now, staleAfter)
  {
  }

  /** A worker that dies leaves its job, and everything else as it is. */
  lemma StoppedWorkerForgets(s: System, worker: nat)
    ensures Do(s, Stop(worker)) == System(s.ix, s.jobs - {worker}, s.rebuild)
  {
  }

  /** While a worker is at a job no rebuild starts, and the other way round. */
  lemma RebuildWaits(s: System, worker: nat, d: Id, now: Time, staleAfter: Time)
    ensures s.jobs != map[] || s.rebuild != NoRebuild ==> Do(s, StartRebuild) == s
    ensures s.rebuild != NoRebuild ==>
      Do(s, Claim(worker, d, now, staleAfter)) == s && Do(s, StartClean(worker, d)) == s
  {
  }
}
