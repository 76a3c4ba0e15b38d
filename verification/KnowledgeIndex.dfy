/** The index operations as the service runs them: indexing, cleanup, rebuild and search. */
module KnowledgeIndex {
  import opened Wrappers
  import opened VectorIndex

  // ---- Search -------------------------------------------------------------------------------

  datatype Filters = Filters(
    kind: Option<string>, company: Option<string>, department: Option<string>, position: Option<string>,
    domain: Option<string>)

  datatype Hit = Hit(chunk: ChunkId, distance: real)

  datatype SearchResult = SearchResult(chunk: ChunkId, title: string, record: Record, score: real)

  predicate Allows(wanted: Option<string>, value: Option<string>) {
    wanted.Some? ==> value == wanted
  }

  predicate Eligible(doc: Doc, user: string, filters: Filters) {
    && doc.facts.user == user && doc.lifecycle == Active && doc.status == Ready
    && Allows(filters.kind, Some(doc.facts.kind)) && Allows(filters.company, doc.facts.company)
    && Allows(filters.department, doc.facts.department) && Allows(filters.position, doc.facts.position)
    && Allows(filters.domain, doc.facts.domain)
  }

  function AllEligible(docs: seq<Doc>, user: string, filters: Filters): (ids: seq<Id>)
    ensures forall d: Id :: d in ids <==> d < |docs| && Eligible(docs[d], user, filters)
  {
    if docs == [] then []
    else
      var last := |docs| - 1;
      AllEligible(docs[..last], user, filters) + if Eligible(docs[last], user, filters) then [last] else []
  }

  /** _eligible: at most `limit` documents. */
  function Selected(docs: seq<Doc>, user: string, filters: Filters, limit: nat): (ids: seq<Id>)
    ensures |ids| <= limit
    ensures forall d: Id | d in ids :: d < |docs| && Eligible(docs[d], user, filters)
    ensures forall d: Id | d < |docs| && Eligible(docs[d], user, filters) :: d in ids || |ids| == limit
  {
    var all := AllEligible(docs, user, filters);
    if |all| <= limit then all else all[..limit]
  }

  /** A document is searched when it is the user's, active, indexed, and has every wanted value. */
  lemma EligibleMeans(doc: Doc, user: string, filters: Filters)
    ensures Eligible(doc, user, filters) <==>
      && doc.facts.user == user && doc.lifecycle == Active && doc.status == Ready
      && (forall kind :: filters.kind == Some(kind) ==> doc.facts.kind == kind)
      && (forall company :: filters.company == Some(company) ==> doc.facts.company == Some(company))
      && (forall department :: filters.department == Some(department) ==> doc.facts.department == Some(department))
      && (forall position :: filters.position == Some(position) ==> doc.facts.position == Some(position))
      && (forall domain :: filters.domain == Some(domain) ==> doc.facts.domain == Some(domain))
  {
  }

  /** A distance read as a similarity between 0 and 1. */
  predicate IsScore(distance: real, score: real) {
    if distance <= 0.0 then score == 1.0 else if 1.0 <= distance then score == 0.0 else score == 1.0 - distance
  }

  function Score(distance: real): (score: real)
    ensures IsScore(distance, score)
  {
    var similarity := 1.0 - distance;
    if similarity < 0.0 then 0.0 else if similarity > 1.0 then 1.0 else similarity
  }

  predicate Accepted(docs: seq<Doc>, ids: seq<Id>, hit: Hit) {
    hit.chunk.document < |docs| && hit.chunk.index < |docs[hit.chunk.document].chunks| && hit.chunk.document in ids
  }

  function ResultOf(docs: seq<Doc>, hit: Hit): SearchResult
    requires hit.chunk.document < |docs| && hit.chunk.index < |docs[hit.chunk.document].chunks|
  {
    var doc := docs[hit.chunk.document];
    SearchResult(hit.chunk, doc.facts.title, RecordOf(doc.facts, doc.chunks[hit.chunk.index], hit.chunk),
                 Score(hit.distance))
  }

  /** The hits that survive relational validation, in the order of the hits. */
  function Validated(docs: seq<Doc>, ids: seq<Id>, hits: seq<Hit>): (results: seq<SearchResult>)
    ensures |results| <= |hits|
    ensures forall i | 0 <= i < |results| :: FromRows(docs, ids, results[i])
    ensures forall k | 0 <= k < |hits| && Accepted(docs, ids, hits[k]) :: ResultOf(docs, hits[k]) in results
  {
    if hits == [] then []
    else
      var last := hits[|hits| - 1];
      Validated(docs, ids, hits[..|hits| - 1]) + if Accepted(docs, ids, last) then [ResultOf(docs, last)] else []
  }

  /** A result names an eligible document and says what the rows, not the store, say. */
  predicate FromRows(docs: seq<Doc>, ids: seq<Id>, result: SearchResult) {
    && result.chunk.document in ids && result.chunk.document < |docs|
    && result.chunk.index < |docs[result.chunk.document].chunks|
    && result.title == docs[result.chunk.document].facts.title
    && SaysRow(result.record, docs[result.chunk.document].facts,
               docs[result.chunk.document].chunks[result.chunk.index], result.chunk)
  }

  /** Whatever the vector store answers, and whatever happens during the search: a document removed
      before the search starts is not returned, and every result belongs to the user. */
  lemma SearchNeverReturnsRemoved(s: System, moves: seq<Move>, user: string, filters: Filters, limit: nat,
                                  hits: seq<Hit>, k: nat)
    requires k < |Validated(DoAll(s, moves).ix.docs, Selected(s.ix.docs, user, filters, limit), hits)|
    ensures var result := Validated(DoAll(s, moves).ix.docs, Selected(s.ix.docs, user, filters, limit), hits)[k];
      var d := result.chunk.document;
      && d < |s.ix.docs| && s.ix.docs[d].lifecycle == Active && s.ix.docs[d].status == Ready
      && s.ix.docs[d].facts.user == user == result.record.metadata.user
  {
    var result := Validated(DoAll(s, moves).ix.docs, Selected(s.ix.docs, user, filters, limit), hits)[k];
    assert FromRows(DoAll(s, moves).ix.docs, Selected(s.ix.docs, user, filters, limit), result);
    FactsStay(s, moves, result.chunk.document);
  }

  /** Rows keep their facts and chunks. */
  lemma {:induction false} FactsStay(s: System, moves: seq<Move>, d: Id)
    requires d < |s.ix.docs|
    ensures d < |DoAll(s, moves).ix.docs|
    ensures DoAll(s, moves).ix.docs[d].facts == s.ix.docs[d].facts
    ensures DoAll(s, moves).ix.docs[d].chunks == s.ix.docs[d].chunks
  {
    if moves != [] {
      FactsStay(s, moves[..|moves| - 1], d);
      MoveEvolves(DoAll(s, moves[..|moves| - 1]), moves[|moves| - 1]);
    }
  }

  /** The result is for the hit's chunk and says what the rows say of it, with the hit's score. */
  ghost predicate Tells(docs: seq<Doc>, hit: Hit, result: SearchResult)
    requires hit.chunk.document < |docs| && hit.chunk.index < |docs[hit.chunk.document].chunks|
  {
    var doc := docs[hit.chunk.document];
    && result.chunk == hit.chunk && result.title == doc.facts.title && IsScore(hit.distance, result.score)
    && SaysRow(result.record, doc.facts, doc.chunks[hit.chunk.index], hit.chunk)
  }

  /** `picks` are the positions of the hits that became results, in order and without omission. */
  ghost predicate PickedExactly(docs: seq<Doc>, ids: seq<Id>, hits: seq<Hit>,
                                results: seq<SearchResult>, picks: seq<nat>)
  {
    && |picks| == |results|
    && (forall i, j | 0 <= i < j < |picks| :: picks[i] < picks[j])
    && (forall i | 0 <= i < |picks| ::
          picks[i] < |hits| && Accepted(docs, ids, hits[picks[i]]) && Tells(docs, hits[picks[i]], results[i]))
    && (forall k: nat | k < |hits| && Accepted(docs, ids, hits[k]) :: k in picks)
  }

  lemma ResultTells(docs: seq<Doc>, hit: Hit)
    requires hit.chunk.document < |docs| && hit.chunk.index < |docs[hit.chunk.document].chunks|
    ensures Tells(docs, hit, ResultOf(docs, hit))
  {
  }

  lemma PicksGrow(docs: seq<Doc>, ids: seq<Id>, hits: seq<Hit>, hit: Hit, results: seq<SearchResult>, picks: seq<nat>)
    requires PickedExactly(docs, ids, hits, results, picks)
    ensures if Accepted(docs, ids, hit)
      then PickedExactly(docs, ids, hits + [hit], results + [ResultOf(docs, hit)], picks + [|hits|])
      else PickedExactly(docs, ids, hits + [hit], results, picks)
  {
    if Accepted(docs, ids, hit) {
      ResultTells(docs, hit);
      hide ResultOf, Tells;
      assert (picks + [|hits|])[|picks|] == |hits|;
      forall k: nat | k < |hits| && Accepted(docs, ids, hits[k]) ensures k in picks + [|hits|] {
        assert k in picks;
      }
    }
  }

  lemma {:induction false} ValidatedPicks(docs: seq<Doc>, ids: seq<Id>, hits: seq<Hit>) returns (picks: seq<nat>)
    ensures PickedExactly(docs, ids, hits, Validated(docs, ids, hits), picks)
  {
    picks := [];
    if hits != [] {
      hide PickedExactly, ResultOf;
      var last := |hits| - 1;
      var before := ValidatedPicks(docs, ids, hits[..last]);
      PicksGrow(docs, ids, hits[..last], hits[last], Validated(docs, ids, hits[..last]), before);
      assert hits[..last] + [hits[last]] == hits;
      picks := before + if Accepted(docs, ids, hits[last]) then [last] else [];
      assert Accepted(docs, ids, hits[last]) || picks == before;
    }
  }

  /** What happens during a search does not change which hits survive, nor what they say. */
  lemma {:induction false} ValidatedStays(s: System, moves: seq<Move>, ids: seq<Id>, hits: seq<Hit>)
    requires forall d: Id | d in ids :: d < |s.ix.docs|
    ensures Validated(DoAll(s, moves).ix.docs, ids, hits) == Validated(s.ix.docs, ids, hits)
  {
    if hits != [] {
      var last := hits[|hits| - 1];
      ValidatedStays(s, moves, ids, hits[..|hits| - 1]);
      if last.chunk.document in ids {
        FactsStay(s, moves, last.chunk.document);
      }
    }
  }

  /** A search returns exactly the hits whose document its first session selected and whose chunk
      row exists, in the order of the hits and with the contents of the rows, whatever runs between
      its two sessions and whatever the store answers. */
  lemma SearchReturnsExactly(s: System, moves: seq<Move>, user: string, filters: Filters, limit: nat, hits: seq<Hit>)
    returns (picks: seq<nat>)
    ensures var ids := Selected(s.ix.docs, user, filters, limit);
      PickedExactly(s.ix.docs, ids, hits, Validated(DoAll(s, moves).ix.docs, ids, hits), picks)
    ensures forall k: nat | k < |hits| ::
      k in picks <==>
        && hits[k].chunk.document in Selected(s.ix.docs, user, filters, limit)
        && hits[k].chunk.index < |s.ix.docs[hits[k].chunk.document].chunks|
  {
    var ids := Selected(s.ix.docs, user, filters, limit);
    ValidatedStays(s, moves, ids, hits);
    picks := ValidatedPicks(s.ix.docs, ids, hits);
    assert forall k: nat | k < |hits| :: k in picks ==> exists i :: 0 <= i < |picks| && picks[i] == k;
  }

  predicate StillActive(docs: seq<Doc>, d: Id) {
    d < |docs| && docs[d].lifecycle == Active
  }

  predicate NoneRemoved(docs: seq<Doc>, results: seq<SearchResult>) {
    forall i | 0 <= i < |results| :: StillActive(docs, results[i].chunk.document)
  }

  /** Only Remove ends a document's life. */
  lemma MoveRemoves(s: System, move: Move, d: Id)
    requires d < |s.ix.docs|
    ensures d < |Do(s, move).ix.docs|
    ensures Do(s, move).ix.docs[d].lifecycle == if move == Remove(d) then Removed else s.ix.docs[d].lifecycle
  {
  }

  lemma LastMove(moves: seq<Move>, move: Move)
    requires moves != []
    ensures move in moves <==> move in moves[..|moves| - 1] || move == moves[|moves| - 1]
  {
    assert moves == moves[..|moves| - 1] + [moves[|moves| - 1]];
  }

  lemma {:induction false} RemovedIff(s: System, moves: seq<Move>, d: Id)
    requires d < |s.ix.docs| && s.ix.docs[d].lifecycle == Active
    ensures d < |DoAll(s, moves).ix.docs|
    ensures StillActive(DoAll(s, moves).ix.docs, d) <==> Remove(d) !in moves
  {
    if moves != [] {
      hide Do;
      var before, last := moves[..|moves| - 1], moves[|moves| - 1];
      RemovedIff(s, before, d);
      FactsStay(s, before, d);
      MoveRemoves(DoAll(s, before), last, d);
      LastMove(moves, Remove(d));
    }
  }

  lemma ResultsStayActive(s: System, moves: seq<Move>, user: string, filters: Filters, limit: nat, hits: seq<Hit>)
    ensures var ids := Selected(s.ix.docs, user, filters, limit);
      NoneRemoved(DoAll(s, moves).ix.docs, Validated(DoAll(s, moves).ix.docs, ids, hits)) <==>
      forall k | 0 <= k < |hits| && Accepted(s.ix.docs, ids, hits[k]) ::
        StillActive(DoAll(s, moves).ix.docs, hits[k].chunk.document)
  {
    hide DoAll, Selected;
    var ids, docs := Selected(s.ix.docs, user, filters, limit), DoAll(s, moves).ix.docs;
    var results := Validated(docs, ids, hits);
    var picks := SearchReturnsExactly(s, moves, user, filters, limit, hits);
    forall k: nat | k < |hits| && Accepted(s.ix.docs, ids, hits[k]) && NoneRemoved(docs, results)
      ensures StillActive(docs, hits[k].chunk.document)
    {
      var i :| 0 <= i < |picks| && picks[i] == k;
      assert results[i].chunk == hits[k].chunk;
    }
  }

  /** A search returns no removed document iff no document that it selected and the store hit is
      removed while it runs: the second session does not look at the lifecycle again. */
  lemma ReturnsNoRemovedIff(s: System, moves: seq<Move>, user: string, filters: Filters, limit: nat, hits: seq<Hit>)
    ensures var ids := Selected(s.ix.docs, user, filters, limit);
      NoneRemoved(DoAll(s, moves).ix.docs, Validated(DoAll(s, moves).ix.docs, ids, hits)) <==>
      forall k | 0 <= k < |hits| && Accepted(s.ix.docs, ids, hits[k]) :: Remove(hits[k].chunk.document) !in moves
  {
    hide DoAll, Validated, NoneRemoved, StillActive;
    var ids := Selected(s.ix.docs, user, filters, limit);
    ResultsStayActive(s, moves, user, filters, limit, hits);
    forall k | 0 <= k < |hits| && Accepted(s.ix.docs, ids, hits[k])
      ensures StillActive(DoAll(s, moves).ix.docs, hits[k].chunk.document) <==> Remove(hits[k].chunk.document) !in moves
    {
      RemovedIff(s, moves, hits[k].chunk.document);
    }
  }

  const ANY := Filters(None, None, None, None, None)

  /** Such a search: the document is indexed and selected, its record is in the store when the store
      answers, and it is removed before the second session. */
  lemma RemovedDuringSearchIsReturned() returns (before: seq<Move>, during: seq<Move>, hit: Hit)
    ensures var s := DoAll(START, before);
      && hit.chunk in s.ix.store && hit.chunk in DoAll(s, during).ix.store
      && |Validated(DoAll(s, during).ix.docs, Selected(s.ix.docs, "u", ANY, 1), [hit])| == 1
      && !NoneRemoved(DoAll(s, during).ix.docs,
                      Validated(DoAll(s, during).ix.docs, Selected(s.ix.docs, "u", ANY, 1), [hit]))
  {
    var facts, chunks := Facts("u", "t", "k", None, None, None, None, "v"), [Chunk("text", None)];
    before := [Add(facts, chunks), Claim(0, 0, 1, 1), TryUpsert(0, true, {}), Finish(0)];
    during, hit := [Remove(0)], Hit(ChunkId(0, 0), 0.0);
    var s, doc := DoAll(START, before), Doc(facts, chunks, Active, Ready, 1, 1);
    IndexedFromStart(facts, chunks);
    assert during[..0] == [] && DoAll(s, []) == s && DoAll(s, during) == Do(s, Remove(0));
    assert [doc][..0] == [] && AllEligible([], "u", ANY) == [];
    assert AllEligible([doc], "u", ANY) == [0] && Selected([doc], "u", ANY, 1) == [0];
    assert [hit][..0] == [] && Validated(DoAll(s, during).ix.docs, [0], []) == [];
    assert Validated(DoAll(s, during).ix.docs, [0], [hit]) == [ResultOf(DoAll(s, during).ix.docs, hit)];
  }

  lemma DoThree(s: System, a: Move, b: Move, c: Move)
    ensures DoAll(s, [a, b, c]) == Do(Do(Do(s, a), b), c)
  {
    hide Do;
    assert [a, b, c][..2] == [a, b] && [a, b][..1] == [a] && [a][..0] == [];
    assert DoAll(s, [a]) == Do(s, a) && DoAll(s, [a, b]) == Do(Do(s, a), b);
  }

  lemma AddAndClaim(facts: Facts, chunks: seq<Chunk>, added: Doc, claimed: Doc)
    requires added == Doc(facts, chunks, Active, Pending, 0, 0)
    requires claimed == Doc(facts, chunks, Active, Indexing, 1, 1)
    ensures Do(START, Add(facts, chunks)) == System(Index([added], map[]), map[], NoRebuild)
    ensures Do(System(Index([added], map[]), map[], NoRebuild), Claim(0, 0, 1, 1))
      == System(Index([claimed], map[]), map[0 := Claimed(0)], NoRebuild)
  {
  }

  lemma UpsertAndFinish(claimed: Doc, ready: Doc)
    requires claimed.lifecycle == Active && ready == claimed.(status := Ready)
    ensures Do(System(Index([claimed], map[]), map[0 := Claimed(0)], NoRebuild), TryUpsert(0, true, {}))
      == System(Index([claimed], RecordsOf(claimed, 0)), map[0 := Upserted(0)], NoRebuild)
    ensures Do(System(Index([claimed], RecordsOf(claimed, 0)), map[0 := Upserted(0)], NoRebuild), Finish(0))
      == System(Index([ready], RecordsOf(claimed, 0)), map[], NoRebuild)
  {
    assert Upsert(Index([claimed], map[]), 0, KeysOf(claimed, 0)).store == RecordsOf(claimed, 0);
    assert (map[0 := Upserted(0)] - {0}) == map[];
  }

  lemma IndexedFromStart(facts: Facts, chunks: seq<Chunk>)
    ensures var doc := Doc(facts, chunks, Active, Ready, 1, 1);
      DoAll(START, [Add(facts, chunks), Claim(0, 0, 1, 1), TryUpsert(0, true, {}), Finish(0)])
        == System(Index([doc], RecordsOf(doc, 0)), map[], NoRebuild)
  {
    hide Do;
    var claimed := Doc(facts, chunks, Active, Indexing, 1, 1);
    var doc := claimed.(status := Ready);
    AddAndClaim(facts, chunks, Doc(facts, chunks, Active, Pending, 0, 0), claimed);
    UpsertAndFinish(claimed, doc);
    assert RecordsOf(doc, 0) == RecordsOf(claimed, 0);
    var all := [Add(facts, chunks), Claim(0, 0, 1, 1), TryUpsert(0, true, {}), Finish(0)];
    DoThree(START, all[0], all[1], all[2]);
    assert all[..3] == [all[0], all[1], all[2]];
  }

  // ---- Indexing and cleanup -----------------------------------------------------------------

  function FirstClaimable(docs: seq<Doc>, now: Time, staleAfter: Time): (d: Option<Id>)
    ensures d.Some? ==> d.value < |docs| && Claimable(docs[d.value], now, staleAfter)
    ensures forall i | 0 <= i < |docs| && Claimable(docs[i], now, staleAfter) :: d.Some? && d.value <= i
  {
    if docs == [] then None
    else
      match FirstClaimable(docs[..|docs| - 1], now, staleAfter)
      case Some(d) => Some(d)
      case None => if Claimable(docs[|docs| - 1], now, staleAfter) then Some(|docs| - 1) else None
  }

  /** index_once without interruption; `written` is what a failed upsert wrote. */
  function IndexOnceOn(ix: Index, now: Time, staleAfter: Time, ok: bool, written: set<ChunkId>): Index {
    match FirstClaimable(ix.docs, now, staleAfter)
    case None => ix
    case Some(d) =>
      var claimed := ClaimTx(ix, d, now);
      if Exhausted(ix.docs[d]) then claimed
      else if ok then ReadyTx(Upsert(claimed, d, KeysOf(claimed.docs[d], d)), d)
      else StatusTx(Upsert(claimed, d, written), d, Failed)
  }

  /** What an indexing attempt leaves of its document: an exhausted stale lease fails; otherwise one
      more attempt is counted, and the document is READY with all its records in the store, or FAILED. */
  ghost predicate IndexTried(before: Doc, after: Doc, d: Id, store: Store, now: Time, ok: bool) {
    if before.status == Indexing && before.attempts >= 3 then after == before.(status := Failed)
    else
      && after == before.(status := if ok then Ready else Failed, startedAt := now, attempts := before.attempts + 1)
      && (ok ==> forall i | 0 <= i < |before.chunks| ::
            ChunkId(d, i) in store && SaysRow(store[ChunkId(d, i)], before.facts, before.chunks[i], ChunkId(d, i)))
  }

  lemma IndexingTries(ix: Index, now: Time, staleAfter: Time, ok: bool, written: set<ChunkId>, d: Id)
    requires FirstClaimable(ix.docs, now, staleAfter) == Some(d)
    ensures var next := IndexOnceOn(ix, now, staleAfter, ok, written);
      && |next.docs| == |ix.docs| && IndexTried(ix.docs[d], next.docs[d], d, next.store, now, ok)
      && forall e | 0 <= e < |ix.docs| && e != d :: next.docs[e] == ix.docs[e]
  {
    if ok && !Exhausted(ix.docs[d]) {
      UpsertKeepsComplete(ClaimTx(ix, d, now), d, KeysOf(ix.docs[d], d), d);
    }
  }

  /** index_once is the run claim, upsert, finish of one worker, so it keeps agreement. */
  lemma IndexOnceIsRun(ix: Index, now: Time, staleAfter: Time, ok: bool, written: set<ChunkId>, d: Id)
    requires FirstClaimable(ix.docs, now, staleAfter) == Some(d)
    ensures DoAll(System(ix, map[], NoRebuild), [Claim(0, d, now, staleAfter), TryUpsert(0, ok, written), Finish(0)]).ix
         == IndexOnceOn(ix, now, staleAfter, ok, written)
  {
    var s := System(ix, map[], NoRebuild);
    DoThree(s, Claim(0, d, now, staleAfter), TryUpsert(0, ok, written), Finish(0));
  }

  lemma IndexOnceKeepsAgreement(ix: Index, now: Time, staleAfter: Time, ok: bool, written: set<ChunkId>)
    requires Agrees(ix)
    ensures Agrees(IndexOnceOn(ix, now, staleAfter, ok, written))
  {
    var first := FirstClaimable(ix.docs, now, staleAfter);
    if first.Some? {
      var s := System(ix, map[], NoRebuild);
      var claim, tried := Claim(0, first.value, now, staleAfter), TryUpsert(0, ok, written);
      MoveKeepsInv(s, claim);
      MoveKeepsInv(Do(s, claim), tried);
      MoveKeepsInv(Do(Do(s, claim), tried), Finish(0));
      IndexOnceIsRun(ix, now, staleAfter, ok, written, first.value);
      DoThree(s, claim, tried, Finish(0));
    }
  }

  lemma CleanupKeepsAgreement(ix: Index, d: Id, ok: bool, deleted: set<ChunkId>)
    requires Agrees(ix) && d < |ix.docs| && Cleanable(ix.docs[d])
    ensures ok ==> Agrees(StatusTx(Delete(ix, d, KeysOf(ix.docs[d], d)), d, Pending))
    ensures !ok ==> Agrees(CleanFailedTx(Delete(ix, d, deleted), d))
  {
    var s := System(ix, map[], NoRebuild);
    var start, tried := StartClean(0, d), TryDelete(0, ok, deleted);
    MoveKeepsInv(s, start);
    MoveKeepsInv(Do(s, start), tried);
    MoveKeepsInv(Do(Do(s, start), tried), Finish(0));
  }

  // ---- Rebuild ------------------------------------------------------------------------------

  datatype Summary = Summary(
    total: nat, ready: nat, failed: nat, totalChunks: nat, upsertedChunks: nat, partialFailure: bool)

  function ChunksOf(docs: seq<Doc>, d: Id): nat {
    if d < |docs| then |docs[d].chunks| else 0
  }

  function ChunkSum(docs: seq<Doc>, ids: seq<Id>): nat {
    if ids == [] then 0 else ChunkSum(docs, ids[..|ids| - 1]) + ChunksOf(docs, ids[|ids| - 1])
  }

  /** The listed documents whose embedding and upsert succeed. */
  function Successful(ids: seq<Id>, fails: Id -> bool): (r: seq<Id>)
    ensures |r| <= |ids|
  {
    if ids == [] then []
    else Successful(ids[..|ids| - 1], fails) + if fails(ids[|ids| - 1]) then [] else [ids[|ids| - 1]]
  }

  /** The rows after the first `n` listed documents were handled. */
  ghost predicate RowsAfter(before: seq<Doc>, docs: seq<Doc>, ids: seq<Id>, n: nat, fails: Id -> bool)
    requires n <= |ids|
  {
    && |docs| == |before|
    && forall d: Id | d < |docs| :: docs[d] ==
         if d in ids[..n] then before[d].(status := if fails(d) then Failed else Ready)
         else if d in ids then before[d].(status := Pending) else before[d]
  }

  ghost predicate Listed(docs: seq<Doc>, ids: seq<Id>, n: nat, fails: Id -> bool, k: ChunkId)
    requires n <= |ids|
  {
    k.document in ids[..n] && !fails(k.document) && k.document < |docs| && k.index < |docs[k.document].chunks|
  }

  /** The store then holds exactly the chunks of the handled documents that succeeded. */
  ghost predicate StoreAfter(before: seq<Doc>, store: Store, ids: seq<Id>, n: nat, fails: Id -> bool)
    requires n <= |ids|
  {
    && (forall k: ChunkId :: k in store <==> Listed(before, ids, n, fails, k))
    && (forall k: ChunkId | k in store && Listed(before, ids, n, fails, k) ::
          SaysRow(store[k], before[k.document].facts, before[k.document].chunks[k.index], k))
  }

  lemma PrefixGrows(ids: seq<Id>, n: nat, d: Id)
    requires n < |ids|
    ensures d in ids[..n + 1] <==> d in ids[..n] || d == ids[n]
  {
    assert ids[..n + 1] == ids[..n] + [ids[n]];
  }

  lemma RowsStep(before: seq<Doc>, docs: seq<Doc>, ids: seq<Id>, n: nat, fails: Id -> bool, status: IndexStatus)
    requires n < |ids| && RowsAfter(before, docs, ids, n, fails) && ids[n] < |docs|
    requires status == if fails(ids[n]) then Failed else Ready
    ensures RowsAfter(before, docs[ids[n] := docs[ids[n]].(status := status)], ids, n + 1, fails)
  {
    forall d: Id ensures d in ids[..n + 1] <==> d in ids[..n] || d == ids[n] {
      PrefixGrows(ids, n, d);
    }
  }

  lemma StoreStep(before: seq<Doc>, store: Store, ids: seq<Id>, n: nat, fails: Id -> bool)
    requires n < |ids| && StoreAfter(before, store, ids, n, fails) && ids[n] < |before|
    ensures fails(ids[n]) ==> StoreAfter(before, store, ids, n + 1, fails)
    ensures !fails(ids[n]) ==> StoreAfter(before, store + RecordsOf(before[ids[n]], ids[n]), ids, n + 1, fails)
  {
    forall d: Id ensures d in ids[..n + 1] <==> d in ids[..n] || d == ids[n] {
      PrefixGrows(ids, n, d);
    }
    var records := RecordsOf(before[ids[n]], ids[n]);
    forall k: ChunkId ensures k in records <==> k.document == ids[n] && k.index < |before[ids[n]].chunks| {
      if k.document == ids[n] && k.index < |before[ids[n]].chunks| {
        assert k == ChunkId(ids[n], k.index);
      }
    }
  }

  lemma RebuildBegins(before: seq<Doc>, ids: seq<Id>, fails: Id -> bool)
    ensures RowsAfter(before, PendingAll(before, set d | d in ids), ids, 0, fails)
    ensures StoreAfter(before, map[], ids, 0, fails)
    ensures Successful(ids[..0], fails) == [] && ChunkSum(before, []) == 0
  {
  }

  lemma RowsSame(before: seq<Doc>, docs: seq<Doc>, ids: seq<Id>, n: nat, fails: Id -> bool, d: Id)
    requires n <= |ids| && RowsAfter(before, docs, ids, n, fails) && d < |before|
    ensures |docs| == |before| && docs[d].chunks == before[d].chunks && RecordsOf(docs[d], d) == RecordsOf(before[d], d)
  {
  }

  /** With atomic upserts a finished rebuild leaves an index that agrees. */
  lemma RebuiltAgrees(before: seq<Doc>, docs: seq<Doc>, store: Store, fails: Id -> bool)
    requires var ids := ActiveDocs(before);
      RowsAfter(before, docs, ids, |ids|, fails) && StoreAfter(before, store, ids, |ids|, fails)
    ensures Agrees(Index(docs, store))
  {
    var ids := ActiveDocs(before);
    assert ids[..|ids|] == ids;
    forall d: Id | Searchable(Index(docs, store), d) ensures Complete(Index(docs, store), d) {
      assert d in ids && !fails(d);
      forall i | 0 <= i < |docs[d].chunks| ensures ChunkId(d, i) in store {
        assert Listed(before, ids, |ids|, fails, ChunkId(d, i));
      }
    }
  }

  function StaleCount(docs: seq<Doc>, now: Time, staleAfter: Time): nat {
    if docs == [] then 0
    else
      var last := docs[|docs| - 1];
      StaleCount(docs[..|docs| - 1], now, staleAfter)
      + if last.lifecycle == Active && last.status == Indexing && last.startedAt < now - staleAfter then 1 else 0
  }

  /** What recovery leaves of a document: only stale leases end, in FAILED after the third attempt. */
  predicate LeaseRecovered(before: Doc, after: Doc, now: Time, staleAfter: Time) {
    if before.lifecycle == Active && before.status == Indexing && before.startedAt < now - staleAfter
    then after == before.(status := if before.attempts >= 3 then Failed else Pending)
    else after == before
  }

  /** What cleaning a removed document leaves: none of its records, or one more failed attempt. */
  ghost predicate CleanTried(before: Index, after: Index, d: Id, ok: bool, deleted: set<ChunkId>) {
    && d < |before.docs| == |after.docs|
    && (forall e | 0 <= e < |before.docs| && e != d :: after.docs[e] == before.docs[e])
    && after.docs[d].lifecycle == before.docs[d].lifecycle == Removed
    && (forall k | k in after.store :: k in before.store && after.store[k] == before.store[k])
    && (forall k | k in before.store && k !in after.store ::
          k.document == d && k.index < |before.docs[d].chunks| && (ok || k in deleted))
    && if ok
       then
         && after.docs[d] == before.docs[d].(status := Pending)
         && forall i | 0 <= i < |before.docs[d].chunks| :: ChunkId(d, i) !in after.store
       else after.docs[d] == before.docs[d].(status := Failed, attempts := before.docs[d].attempts + 1)
  }

  lemma CleaningTries(before: Index, d: Id, ok: bool, deleted: set<ChunkId>)
    requires d < |before.docs| && Cleanable(before.docs[d])
    ensures CleanTried(before, if ok then StatusTx(Delete(before, d, KeysOf(before.docs[d], d)), d, Pending)
                               else CleanFailedTx(Delete(before, d, deleted), d), d, ok, deleted)
  {
    forall i | 0 <= i < |before.docs[d].chunks| ensures ChunkId(d, i) in KeysOf(before.docs[d], d) {
    }
  }

  /** The document rows and the vector store. */
  class Knowledge {
    var docs: seq<Doc>
    var store: Store

    ghost function Tables(): Index
      reads this
    {
      Index(docs, store)
    }

    constructor ()
      ensures Tables() == EMPTY
    {
      docs, store := [], map[];
    }

    /** index_once; `written` is what a failed upsert leaves behind. */
    method IndexOnce(now: Time, staleAfter: Time, ok: bool, written: set<ChunkId>) returns (touched: Option<Id>)
      modifies this
      ensures Tables() == IndexOnceOn(old(Tables()), now, staleAfter, ok, written)
      ensures touched == FirstClaimable(old(docs), now, staleAfter)
      ensures touched.Some? ==>
        && touched.value < |docs| == |old(docs)|
        && (forall e | 0 <= e < |docs| && e != touched.value :: docs[e] == old(docs)[e])
        && IndexTried(old(docs)[touched.value], docs[touched.value], touched.value, store, now, ok)
      ensures touched.None? ==> Tables() == old(Tables())
      ensures old(Agrees(Tables())) ==> Agrees(Tables())
    {
      hide Agrees, IndexTried, SaysRow, RecordsOf, KeysOf;
      if Agrees(Tables()) {
        IndexOnceKeepsAgreement(Tables(), now, staleAfter, ok, written);
      }
      touched := FirstClaimable(docs, now, staleAfter);
      if touched.Some? {
        IndexingTries(Tables(), now, staleAfter, ok, written, touched.value);
      }
      if touched.None? {
        return;
      }
      var d := touched.value;
      if Exhausted(docs[d]) {
        docs := docs[d := docs[d].(status := Failed)];
        return;
      }
      docs := docs[d := docs[d].(status := Indexing, startedAt := now, attempts := docs[d].attempts + 1)];
      var records := RecordsOf(docs[d], d);
      if ok {
        store := store + map k | k in records && k in KeysOf(docs[d], d) :: records[k];
        if docs[d].lifecycle == Active {
          docs := docs[d := docs[d].(status := Ready)];
        }
      } else {
        store := store + map k | k in records && k in written :: records[k];
        docs := docs[d := docs[d].(status := Failed)];
      }
    }

    /** recover_stale_indexing */
    method RecoverStaleIndexing(now: Time, staleAfter: Time) returns (recovered: nat)
      modifies `docs
      ensures docs == RecoverAll(old(docs), now, staleAfter)
      ensures recovered == StaleCount(old(docs), now, staleAfter)
      ensures forall d | 0 <= d < |docs| :: LeaseRecovered(old(docs)[d], docs[d], now, staleAfter)
    {
      recovered := 0;
      for i := 0 to |docs|
        invariant |docs| == |old(docs)|
        invariant forall j | 0 <= j < |docs| ::
          docs[j] == if j < i then Recovered(old(docs)[j], now, staleAfter) else old(docs)[j]
        invariant recovered == StaleCount(old(docs)[..i], now, staleAfter)
      {
        assert old(docs)[..i + 1][..i] == old(docs)[..i];
        var doc := docs[i];
        if doc.lifecycle == Active && doc.status == Indexing && doc.startedAt < now - staleAfter {
          docs := docs[i := doc.(status := if doc.attempts >= MAX_AUTOMATIC_ATTEMPTS then Failed else Pending)];
          recovered := recovered + 1;
        }
      }
      assert old(docs)[..|docs|] == old(docs);
    }

    /** cleanup_removed_once on any document it may pick; the rows say nothing about the vectors. */
    method CleanupRemovedOnce(ok: bool, deleted: set<ChunkId>) returns (cleaned: Option<Id>)
      modifies this
      ensures cleaned.None? ==>
        Tables() == old(Tables()) && forall i | 0 <= i < |docs| :: !Cleanable(docs[i])
      ensures cleaned.Some? ==>
        && cleaned.value < |old(docs)| && Cleanable(old(docs)[cleaned.value])
        && var d := cleaned.value; var before := old(Tables());
           Tables() == if ok then StatusTx(Delete(before, d, KeysOf(before.docs[d], d)), d, Pending)
                       else CleanFailedTx(Delete(before, d, deleted), d)
      ensures cleaned.Some? ==> CleanTried(old(Tables()), Tables(), cleaned.value, ok, deleted)
      ensures old(Agrees(Tables())) ==> Agrees(Tables())
    {
      var candidates := set i | 0 <= i < |docs| && Cleanable(docs[i]);
      if candidates == {} {
        forall i | 0 <= i < |docs| ensures !Cleanable(docs[i]) {
          assert i !in candidates;
        }
        return None;
      }
      var d :| d in candidates;
      CleaningTries(Tables(), d, ok, deleted);
      if Agrees(Tables()) {
        CleanupKeepsAgreement(Tables(), d, ok, deleted);
      }
      if ok {
        store := store - KeysOf(docs[d], d) * KeysOf(docs[d], d);
        docs := docs[d := docs[d].(status := Pending)];
      } else {
        store := store - KeysOf(docs[d], d) * deleted;
        docs := docs[d := docs[d].(status := Failed, attempts := docs[d].attempts + 1)];
      }
      return Some(d);
    }

    /** retry_index and retry_cleanup */
    method Retry(d: Id, lifecycle: Lifecycle) returns (changed: bool)
      modifies `docs
      ensures Tables() == RetryTx(old(Tables()), d, lifecycle)
      ensures changed <==>
        d < |old(docs)| && old(docs)[d].lifecycle == lifecycle && old(docs)[d].status == Failed
      ensures docs == if changed then old(docs)[d := old(docs)[d].(attempts := 0)] else old(docs)
    {
      if d >= |docs| || docs[d].lifecycle != lifecycle || docs[d].status != Failed {
        return false;
      }
      docs := docs[d := docs[d].(attempts := 0)];
      return true;
    }

    /** The document and chunk rows execute_add writes. */
    method AddDocument(facts: Facts, chunks: seq<Chunk>) returns (d: Id)
      modifies `docs
      ensures Tables() == AddTx(old(Tables()), facts, chunks)
      ensures d == |old(docs)| && docs[..d] == old(docs) && |docs| == d + 1
      ensures docs[d].facts == facts && docs[d].chunks == chunks
      ensures docs[d].lifecycle == Active && docs[d].status == Pending && docs[d].attempts == 0
    {
      d := |docs|;
      docs := docs + [Doc(facts, chunks, Active, Pending, 0, 0)];
    }

    /** The document change of execute_remove: at once no longer searchable, whatever is in the store. */
    method RemoveDocument(d: Id) returns (found: bool)
      modifies `docs
      ensures Tables() == RemoveTx(old(Tables()), d)
      ensures !Searchable(Tables(), d)
      ensures found <==> d < |old(docs)|
      ensures docs == if found then old(docs)[d := old(docs)[d].(lifecycle := Removed)] else old(docs)
    {
      if d >= |docs| {
        return false;
      }
      if docs[d].lifecycle == Active {
        docs := docs[d := docs[d].(lifecycle := Removed)];
      }
      return true;
    }

    /** rebuild_index: None when the reset raises.  `fails` says for which documents embedding or
        upserting raises; a failing upsert writes nothing here. */
    method RebuildIndex(resetOk: bool, lost: set<ChunkId>, fails: Id -> bool) returns (summary: Option<Summary>)
      modifies this
      ensures var ids := ActiveDocs(old(docs));
        if !resetOk then
          summary == None && docs == PendingAll(old(docs), set d | d in ids) && store == old(store) - lost
        else
          var ready := Successful(ids, fails);
          && summary == Some(Summary(|ids|, |ready|, |ids| - |ready|, ChunkSum(old(docs), ids),
                                     ChunkSum(old(docs), ready), |ready| < |ids|))
          && RowsAfter(old(docs), docs, ids, |ids|, fails)
          && StoreAfter(old(docs), store, ids, |ids|, fails)
          && Agrees(Tables())
    {
      hide RowsAfter, StoreAfter, Agrees, Successful, ChunkSum, RecordsOf;
      var ids := ActiveDocs(docs);
      ghost var before := docs;
      docs := PendingAll(docs, set d | d in ids);
      if !resetOk {
        store := store - lost;
        return None;
      }
      store := map[];
      var totalChunks := ChunkSum(docs, ids);
      SameChunkSum(before, docs, ids);
      RebuildBegins(before, ids, fails);
      var ready, failed, upserted := 0, 0, 0;
      for n := 0 to |ids|
        invariant RowsAfter(before, docs, ids, n, fails) && StoreAfter(before, store, ids, n, fails)
        invariant ready == |Successful(ids[..n], fails)| && failed == n - ready
        invariant upserted == ChunkSum(before, Successful(ids[..n], fails))
      {
        var d := ids[n];
        assert d in ids && ids[..n + 1][..n] == ids[..n];
        RowsSame(before, docs, ids, n, fails, d);
        RowsStep(before, docs, ids, n, fails, if fails(d) then Failed else Ready);
        StoreStep(before, store, ids, n, fails);
        SuccessfulStep(before, ids, n, fails);
        if fails(d) {
          failed := failed + 1;
          docs := docs[d := docs[d].(status := Failed)];
          continue;
        }
        var records := RecordsOf(docs[d], d);
        store := store + records;
        ready := ready + 1;
        upserted := upserted + |docs[d].chunks|;
        docs := docs[d := docs[d].(status := Ready)];
      }
      assert ids[..|ids|] == ids;
      RebuiltAgrees(before, docs, store, fails);
      summary := Some(Summary(|ids|, ready, failed, totalChunks, upserted, failed > 0));
    }

    /** search, when nothing else runs between its two sessions. */
    method Search(user: string, filters: Filters, limit: nat, hits: seq<Hit>)
      returns (results: seq<SearchResult>, ghost picks: seq<nat>)
      ensures results == Validated(docs, Selected(docs, user, filters, limit), hits)
      ensures PickedExactly(docs, Selected(docs, user, filters, limit), hits, results, picks)
    {
      picks := ValidatedPicks(docs, Selected(docs, user, filters, limit), hits);
      var ids := Selected(docs, user, filters, limit);
      results := [];
      if ids == [] {
        NothingAccepted(docs, hits);
        return;
      }
      for i := 0 to |hits|
        invariant results == Validated(docs, ids, hits[..i])
      {
        assert hits[..i + 1][..i] == hits[..i];
        if !Accepted(docs, ids, hits[i]) {
          continue;
        }
        results := results + [ResultOf(docs, hits[i])];
      }
      assert hits[..|hits|] == hits;
    }
  }

  lemma {:induction false} NothingAccepted(docs: seq<Doc>, hits: seq<Hit>)
    ensures Validated(docs, [], hits) == []
  {
    if hits != [] {
      NothingAccepted(docs, hits[..|hits| - 1]);
    }
  }

  lemma {:induction false} SameChunkSum(before: seq<Doc>, docs: seq<Doc>, ids: seq<Id>)
    requires |docs| == |before| && forall i | 0 <= i < |docs| :: docs[i].chunks == before[i].chunks
    ensures ChunkSum(docs, ids) == ChunkSum(before, ids)
  {
    if ids != [] {
      SameChunkSum(before, docs, ids[..|ids| - 1]);
    }
  }

  lemma ChunkSumAppend(docs: seq<Doc>, ids: seq<Id>, d: Id)
    ensures ChunkSum(docs, ids + [d]) == ChunkSum(docs, ids) + ChunksOf(docs, d)
  {
    assert (ids + [d])[..|ids|] == ids;
  }

  lemma SuccessfulStep(docs: seq<Doc>, ids: seq<Id>, n: nat, fails: Id -> bool)
    requires n < |ids|
    ensures Successful(ids[..n + 1], fails) == Successful(ids[..n], fails) + if fails(ids[n]) then [] else [ids[n]]
    ensures ChunkSum(docs, Successful(ids[..n + 1], fails))
         == ChunkSum(docs, Successful(ids[..n], fails)) + if fails(ids[n]) then 0 else ChunksOf(docs, ids[n])
  {
    assert ids[..n + 1][..n] == ids[..n];
    var before := Successful(ids[..n], fails);
    assert Successful(ids[..n + 1], fails) == if fails(ids[n]) then before else before + [ids[n]];
    ChunkSumAppend(docs, before, ids[n]);
  }
}
