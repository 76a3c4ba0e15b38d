/** The vector index and the relational rows it must agree with.

    The service's document and chunk tables are `docs`; a document's id is its position and a chunk
    is named by its document and position (both stand for the service's generated ids).  `store` is
    the vector store without its vectors: what it can answer about a chunk id. */
module VectorIndex {
  import opened Wrappers

  type Id = nat
  type Time = int

  const MAX_AUTOMATIC_ATTEMPTS: nat := 3

  datatype Lifecycle = Active | Removed
  datatype IndexStatus = Pending | Indexing | Ready | Failed

  /** The document columns that no transaction changes. */
  datatype Facts = Facts(
    user: string, title: string, kind: string, company: Option<string>, department: Option<string>,
    position: Option<string>, domain: Option<string>, version: string)

  datatype Chunk = Chunk(content: string, section: Option<string>)

  datatype Doc = Doc(
    facts: Facts, chunks: seq<Chunk>, lifecycle: Lifecycle, status: IndexStatus, attempts: nat, startedAt: Time)

  datatype ChunkId = ChunkId(document: Id, index: nat)

  datatype Metadata = Metadata(
    user: string, document: Id, kind: string, company: string, department: string, position: string,
    domain: string, section: string, index: nat, version: string)

  datatype Record = Record(content: string, metadata: Metadata)

  type Store = map<ChunkId, Record>

  datatype Index = Index(docs: seq<Doc>, store: Store)

  const EMPTY := Index([], map[])

  function OrEmpty(s: Option<string>): string {
    if s.Some? then s.value else ""
  }

  /** An optional column as the metadata carry it. */
  predicate IsColumn(column: Option<string>, s: string) {
    match column
    case None => s == ""
    case Some(value) => s == value
  }

  /** The record says of the chunk what the document and chunk rows say, field by field. */
  predicate SaysRow(record: Record, facts: Facts, chunk: Chunk, id: ChunkId) {
    var data := record.metadata;
    && record.content == chunk.content && IsColumn(chunk.section, data.section)
    && data.user == facts.user && data.kind == facts.kind && data.version == facts.version
    && IsColumn(facts.company, data.company) && IsColumn(facts.department, data.department)
    && IsColumn(facts.position, data.position) && IsColumn(facts.domain, data.domain)
    && data.document == id.document && data.index == id.index
  }

  /** _metadata, with the chunk's content. */
  function RecordOf(facts: Facts, chunk: Chunk, id: ChunkId): (record: Record)
    ensures SaysRow(record, facts, chunk, id)
  {
    Record(chunk.content,
           Metadata(facts.user, id.document, facts.kind, OrEmpty(facts.company), OrEmpty(facts.department),
                    OrEmpty(facts.position), OrEmpty(facts.domain), OrEmpty(chunk.section), id.index, facts.version))
  }

  function RecordsOf(doc: Doc, d: Id): Store {
    map i | 0 <= i < |doc.chunks| :: ChunkId(d, i) := RecordOf(doc.facts, doc.chunks[i], ChunkId(d, i))
  }

  function KeysOf(doc: Doc, d: Id): set<ChunkId> {
    set i | 0 <= i < |doc.chunks| :: ChunkId(d, i)
  }

  function SetDoc(ix: Index, d: Id, doc: Doc): Index {
    if d < |ix.docs| then ix.(docs := ix.docs[d := doc]) else ix
  }

  // ---- Transactions and store calls ---------------------------------------------------------

  /** execute_add's rows. */
  function AddTx(ix: Index, facts: Facts, chunks: seq<Chunk>): Index {
    ix.(docs := ix.docs + [Doc(facts, chunks, Active, Pending, 0, 0)])
  }

  /** execute_remove's document change. */
  function RemoveTx(ix: Index, d: Id): Index {
    if d < |ix.docs| then SetDoc(ix, d, ix.docs[d].(lifecycle := Removed)) else ix
  }

  predicate Claimable(doc: Doc, now: Time, staleAfter: Time) {
    && doc.lifecycle == Active
    && (doc.status == Pending
        || (doc.status == Failed && doc.attempts < MAX_AUTOMATIC_ATTEMPTS)
        || (doc.status == Indexing && doc.startedAt < now - staleAfter))
  }

  /** A stale lease that used up its attempts is failed instead of claimed. */
  predicate Exhausted(doc: Doc) {
    doc.status == Indexing && doc.attempts >= MAX_AUTOMATIC_ATTEMPTS
  }

  function ClaimTx(ix: Index, d: Id, now: Time): Index {
    if d >= |ix.docs| then ix
    else
      var doc := ix.docs[d];
      SetDoc(ix, d, if Exhausted(doc) then doc.(status := Failed)
                    else doc.(status := Indexing, startedAt := now, attempts := doc.attempts + 1))
  }

  /** A failed upsert may have written any part of the batch. */
  function Upsert(ix: Index, d: Id, written: set<ChunkId>): Index {
    if d >= |ix.docs| then ix
    else
      var records := RecordsOf(ix.docs[d], d);
      ix.(store := ix.store + map k | k in records && k in written :: records[k])
  }

  function Delete(ix: Index, d: Id, deleted: set<ChunkId>): Index {
    if d >= |ix.docs| then ix else ix.(store := ix.store - (KeysOf(ix.docs[d], d) * deleted))
  }

  function StatusTx(ix: Index, d: Id, status: IndexStatus): Index {
    if d < |ix.docs| then SetDoc(ix, d, ix.docs[d].(status := status)) else ix
  }

  /** index_once marks a document READY only while it is ACTIVE. */
  function ReadyTx(ix: Index, d: Id): Index {
    if d < |ix.docs| && ix.docs[d].lifecycle == Active then StatusTx(ix, d, Ready) else ix
  }

  function Recovered(doc: Doc, now: Time, staleAfter: Time): Doc {
    if doc.lifecycle != Active || doc.status != Indexing || doc.startedAt >= now - staleAfter then doc
    else doc.(status := if doc.attempts >= MAX_AUTOMATIC_ATTEMPTS then Failed else Pending)
  }

  function RecoverAll(docs: seq<Doc>, now: Time, staleAfter: Time): (r: seq<Doc>)
    ensures |r| == |docs| && forall i | 0 <= i < |docs| :: r[i] == Recovered(docs[i], now, staleAfter)
  {
    if docs == [] then []
    else RecoverAll(docs[..|docs| - 1], now, staleAfter) + [Recovered(docs[|docs| - 1], now, staleAfter)]
  }

  predicate Cleanable(doc: Doc) {
    doc.lifecycle == Removed && doc.status != Pending && doc.attempts < MAX_AUTOMATIC_ATTEMPTS
  }

  function CleanFailedTx(ix: Index, d: Id): Index {
    if d < |ix.docs| then SetDoc(ix, d, ix.docs[d].(status := Failed, attempts := ix.docs[d].attempts + 1)) else ix
  }

  /** retry_index and retry_cleanup: a failed document of the right lifecycle gets a fresh count. */
  function RetryTx(ix: Index, d: Id, lifecycle: Lifecycle): Index {
    if d < |ix.docs| && ix.docs[d].lifecycle == lifecycle && ix.docs[d].status == Failed
    then SetDoc(ix, d, ix.docs[d].(attempts := 0)) else ix
  }

  /** The first transaction of rebuild_index: every listed document becomes PENDING. */
  function PendingAll(docs: seq<Doc>, listed: set<Id>): (r: seq<Doc>)
    ensures |r| == |docs|
    ensures forall i | 0 <= i < |docs| :: r[i] == if i in listed then docs[i].(status := Pending) else docs[i]
  {
    if docs == [] then []
    else
      var last := |docs| - 1;
      PendingAll(docs[..last], listed) + [if last in listed then docs[last].(status := Pending) else docs[last]]
  }

  function ActiveDocs(docs: seq<Doc>): (ids: seq<Id>)
    ensures forall i, j | 0 <= i < j < |ids| :: ids[i] < ids[j]
    ensures forall d: Id :: d in ids <==> d < |docs| && docs[d].lifecycle == Active
  {
    if docs == [] then []
    else
      var last := |docs| - 1;
      var before := ActiveDocs(docs[..last]);
      assert forall i | 0 <= i < |before| :: before[i] in before;
      if docs[last].lifecycle == Active then before + [last] else before
  }

  // ---- What each transaction leaves of its document -------------------------------------------

  /** A document can be claimed while it is active and new, failed with attempts left, or held by a
      stale lease; a claim takes one more attempt, unless the stale lease was the last one. */
  lemma ClaimMeans(ix: Index, d: Id, now: Time, staleAfter: Time)
    requires d < |ix.docs|
    ensures var doc := ix.docs[d];
      Claimable(doc, now, staleAfter) <==>
        doc.lifecycle == Active
        && match doc.status
           case Pending => true
           case Failed => doc.attempts < 3
           case Indexing => doc.startedAt < now - staleAfter
           case Ready => false
    ensures var doc, next := ix.docs[d], ClaimTx(ix, d, now);
      && next.store == ix.store && |next.docs| == |ix.docs|
      && (forall e | 0 <= e < |ix.docs| && e != d :: next.docs[e] == ix.docs[e])
      && if doc.status == Indexing && doc.attempts >= 3 then next.docs[d] == doc.(status := Failed)
         else next.docs[d] == doc.(status := Indexing, startedAt := now, attempts := doc.attempts + 1)
  {
  }

  /** A stale lease goes back to PENDING while attempts remain and fails afterwards; nothing else moves. */
  lemma RecoveryMeans(docs: seq<Doc>, now: Time, staleAfter: Time, d: Id)
    requires d < |docs|
    ensures var before, after := docs[d], RecoverAll(docs, now, staleAfter)[d];
      if before.lifecycle == Active && before.status == Indexing && before.startedAt < now - staleAfter
      then after == before.(status := if before.attempts >= 3 then Failed else Pending)
      else after == before
  {
  }

  /** Cleaning is for removed documents that are not cleaned yet and have attempts left. */
  lemma CleanableMeans(doc: Doc)
    ensures Cleanable(doc) <==> doc.lifecycle == Removed && doc.status in {Indexing, Ready, Failed} && doc.attempts < 3
  {
  }

  // ---- The system ---------------------------------------------------------------------------

  datatype Job =
    | Claimed(doc: Id)
    | Upserted(doc: Id)
    | UpsertFailed(doc: Id)
    | Cleaning(doc: Id)
    | Cleaned(doc: Id)
    | CleanFailed(doc: Id)

  datatype Rebuild =
    | NoRebuild
    | Listed(ids: seq<Id>)
    | Marked(ids: seq<Id>)
    | Filling(todo: seq<Id>)
    | Filled(doc: Id, ok: bool, todo: seq<Id>)

  /** Any number of workers; a rebuild runs only while all of them are stopped. */
  datatype System = System(ix: Index, jobs: map<nat, Job>, rebuild: Rebuild)

  const START := System(EMPTY, map[], NoRebuild)

  datatype Move =
    | Add(facts: Facts, chunks: seq<Chunk>)
    | Remove(doc: Id)
    | RetryIndex(doc: Id)
    | RetryCleanup(doc: Id)
    | RecoverStale(now: Time, staleAfter: Time)
    | Claim(worker: nat, doc: Id, now: Time, staleAfter: Time)
    | TryUpsert(worker: nat, ok: bool, written: set<ChunkId>)
    | StartClean(worker: nat, doc: Id)
    | TryDelete(worker: nat, ok: bool, deleted: set<ChunkId>)
    | Finish(worker: nat)
    | Stop(worker: nat)                                     // a crash, or the worker ends
    | StartRebuild
    | MarkPending
    | Reset(ok: bool, lost: set<ChunkId>)
    | RebuildUpsert(ok: bool, written: set<ChunkId>)
    | RebuildMark
    | StopRebuild

  function WithJob(s: System, ix: Index, worker: nat, job: Job): System {
    s.(ix := ix, jobs := s.jobs[worker := job])
  }

  function Do(s: System, move: Move): System {
    match move
    case Add(facts, chunks) => s.(ix := AddTx(s.ix, facts, chunks))
    case Remove(d) => s.(ix := RemoveTx(s.ix, d))
    case RetryIndex(d) => s.(ix := RetryTx(s.ix, d, Active))
    case RetryCleanup(d) => s.(ix := RetryTx(s.ix, d, Removed))
    case RecoverStale(now, staleAfter) => s.(ix := s.ix.(docs := RecoverAll(s.ix.docs, now, staleAfter)))
    case Claim(worker, d, now, staleAfter) =>
      if worker in s.jobs || !s.rebuild.NoRebuild? || d >= |s.ix.docs| ||
         !Claimable(s.ix.docs[d], now, staleAfter) then s
      else if Exhausted(s.ix.docs[d]) then s.(ix := ClaimTx(s.ix, d, now))
      else WithJob(s, ClaimTx(s.ix, d, now), worker, Claimed(d))
    case TryUpsert(worker, ok, written) =>
      if worker !in s.jobs || !s.jobs[worker].Claimed? then s
      else
        var d := s.jobs[worker].doc;
        if ok && d < |s.ix.docs| then WithJob(s, Upsert(s.ix, d, KeysOf(s.ix.docs[d], d)), worker, Upserted(d))
        else WithJob(s, Upsert(s.ix, d, written), worker, UpsertFailed(d))
    case StartClean(worker, d) =>
      if worker in s.jobs || !s.rebuild.NoRebuild? || d >= |s.ix.docs| || !Cleanable(s.ix.docs[d]) then s
      else WithJob(s, s.ix, worker, Cleaning(d))
    case TryDelete(worker, ok, deleted) =>
      if worker !in s.jobs || !s.jobs[worker].Cleaning? then s
      else
        var d := s.jobs[worker].doc;
        if ok && d < |s.ix.docs| then WithJob(s, Delete(s.ix, d, KeysOf(s.ix.docs[d], d)), worker, Cleaned(d))
        else WithJob(s, Delete(s.ix, d, deleted), worker, CleanFailed(d))
    case Finish(worker) =>
      if worker !in s.jobs then s
      else
        (match s.jobs[worker]
         case Upserted(d) => System(ReadyTx(s.ix, d), s.jobs - {worker}, s.rebuild)
         case UpsertFailed(d) => System(StatusTx(s.ix, d, Failed), s.jobs - {worker}, s.rebuild)
         case Cleaned(d) => System(StatusTx(s.ix, d, Pending), s.jobs - {worker}, s.rebuild)
         case CleanFailed(d) => System(CleanFailedTx(s.ix, d), s.jobs - {worker}, s.rebuild)
         case _ => s)
    case Stop(worker) => s.(jobs := s.jobs - {worker})
    case StartRebuild =>
      if s.jobs == map[] && s.rebuild.NoRebuild? then s.(rebuild := Listed(ActiveDocs(s.ix.docs))) else s
    case MarkPending =>
      if !s.rebuild.Listed? then s
      else
        var listed := set d | d in s.rebuild.ids;
        s.(ix := s.ix.(docs := PendingAll(s.ix.docs, listed)), rebuild := Marked(s.rebuild.ids))
    case Reset(ok, lost) =>
      if !s.rebuild.Marked? then s
      else if ok then s.(ix := s.ix.(store := map[]), rebuild := Filling(s.rebuild.ids))
      else s.(ix := s.ix.(store := s.ix.store - lost), rebuild := NoRebuild)
    case RebuildUpsert(ok, written) =>
      if !s.rebuild.Filling? || s.rebuild.todo == [] then s
      else
        var d, rest := s.rebuild.todo[0], s.rebuild.todo[1..];
        if ok && d < |s.ix.docs| then
          s.(ix := Upsert(s.ix, d, KeysOf(s.ix.docs[d], d)), rebuild := Filled(d, true, rest))
        else s.(ix := Upsert(s.ix, d, written), rebuild := Filled(d, false, rest))
    case RebuildMark =>
      if !s.rebuild.Filled? then s
      else
        s.(ix := StatusTx(s.ix, s.rebuild.doc, if s.rebuild.ok then Ready else Failed),
           rebuild := Filling(s.rebuild.todo))
    case StopRebuild => s.(rebuild := NoRebuild)
  }

  function DoAll(s: System, moves: seq<Move>): System {
    if moves == [] then s else Do(DoAll(s, moves[..|moves| - 1]), moves[|moves| - 1])
  }

  // ---- Agreement ----------------------------------------------------------------------------

  /** Every chunk of the document is in the store, as its rows say. */
  ghost predicate Complete(ix: Index, d: Id)
    requires d < |ix.docs|
  {
    forall i | 0 <= i < |ix.docs[d].chunks| ::
      ChunkId(d, i) in ix.store
      && SaysRow(ix.store[ChunkId(d, i)], ix.docs[d].facts, ix.docs[d].chunks[i], ChunkId(d, i))
  }

  predicate Searchable(ix: Index, d: Id) {
    d < |ix.docs| && ix.docs[d].lifecycle == Active && ix.docs[d].status == Ready
  }

  ghost predicate Agrees(ix: Index) {
    forall d: Id | Searchable(ix, d) :: Complete(ix, d)
  }

  ghost predicate JobOk(ix: Index, job: Job) {
    && job.doc < |ix.docs|
    && (job.Upserted? && ix.docs[job.doc].lifecycle == Active ==> Complete(ix, job.doc))
    && (job.Cleaning? || job.Cleaned? || job.CleanFailed? ==> ix.docs[job.doc].lifecycle == Removed)
  }

  ghost predicate JobsOk(ix: Index, jobs: map<nat, Job>) {
    forall w | w in jobs :: JobOk(ix, jobs[w])
  }

  ghost predicate Covers(ids: seq<Id>, docs: seq<Doc>) {
    forall d: Id | d < |docs| && docs[d].lifecycle == Active && docs[d].status == Ready :: d in ids
  }

  ghost predicate RebuildOk(s: System) {
    match s.rebuild
    case NoRebuild => true
    case Listed(ids) => Covers(ids, s.ix.docs)
    case Marked(_) => forall d: Id :: !Searchable(s.ix, d)
    case Filling(_) => true
    case Filled(d, ok, _) => ok ==> d < |s.ix.docs| && Complete(s.ix, d)
  }

  ghost predicate Inv(s: System) {
    && Agrees(s.ix) && JobsOk(s.ix, s.jobs) && RebuildOk(s)
    && (!s.rebuild.NoRebuild? ==> s.jobs == map[])
  }

  // -- transactions on rows

  /** Rows are only added, keep their facts and chunks, and never become active again. */
  ghost predicate RowsEvolve(docs: seq<Doc>, next: seq<Doc>) {
    && |docs| <= |next|
    && (forall d | 0 <= d < |docs| ::
          && next[d].facts == docs[d].facts && next[d].chunks == docs[d].chunks
          && (next[d].lifecycle == Active ==> docs[d].lifecycle == Active))
  }

  /** A document can only become searchable when all its records are in the store. */
  ghost predicate GainsOnlyComplete(ix: Index, next: seq<Doc>) {
    forall d: Id | Searchable(Index(next, ix.store), d) :: d < |ix.docs| && Complete(ix, d)
  }

  lemma RowsKeepAgreement(ix: Index, next: seq<Doc>, jobs: map<nat, Job>)
    requires RowsEvolve(ix.docs, next) && GainsOnlyComplete(ix, next) && JobsOk(ix, jobs)
    ensures Agrees(Index(next, ix.store)) && JobsOk(Index(next, ix.store), jobs)
  {
    var after := Index(next, ix.store);
    forall d: Id | d < |ix.docs| && Complete(ix, d) ensures Complete(after, d) {
    }
    forall w | w in jobs ensures JobOk(after, jobs[w]) {
      assert JobOk(ix, jobs[w]);
    }
  }

  /** Transactions that make no document READY. */
  ghost predicate GainsNone(docs: seq<Doc>, next: seq<Doc>) {
    forall d | 0 <= d < |next| && next[d].lifecycle == Active && next[d].status == Ready ::
      d < |docs| && docs[d].lifecycle == Active && docs[d].status == Ready
  }

  lemma GainsNoneIsComplete(ix: Index, next: seq<Doc>)
    requires Agrees(ix) && GainsNone(ix.docs, next)
    ensures GainsOnlyComplete(ix, next)
  {
    forall d: Id | Searchable(Index(next, ix.store), d) ensures d < |ix.docs| && Complete(ix, d) {
      assert Searchable(ix, d);
    }
  }

  lemma RowsKeepRebuild(s: System, next: seq<Doc>)
    requires RebuildOk(s) && RowsEvolve(s.ix.docs, next) && GainsNone(s.ix.docs, next)
    ensures RebuildOk(s.(ix := Index(next, s.ix.store)))
  {
    match s.rebuild
    case Marked(_) =>
      forall d: Id ensures !Searchable(Index(next, s.ix.store), d) {
        assert !Searchable(s.ix, d);
      }
    case _ =>
  }

  lemma PlainRowsKeepInv(s: System, next: seq<Doc>)
    requires Inv(s) && RowsEvolve(s.ix.docs, next) && GainsNone(s.ix.docs, next)
    ensures Inv(s.(ix := Index(next, s.ix.store)))
  {
    GainsNoneIsComplete(s.ix, next);
    RowsKeepAgreement(s.ix, next, s.jobs);
    RowsKeepRebuild(s, next);
  }

  // -- store calls

  /** The store keeps every record of the documents in question. */
  lemma UpsertKeepsComplete(ix: Index, d: Id, written: set<ChunkId>, e: Id)
    requires d < |ix.docs| && e < |ix.docs|
    requires Complete(ix, e) || (e == d && KeysOf(ix.docs[d], d) <= written)
    ensures Complete(Upsert(ix, d, written), e)
  {
    var records, next := RecordsOf(ix.docs[d], d), Upsert(ix, d, written);
    forall i | 0 <= i < |ix.docs[e].chunks|
      ensures ChunkId(e, i) in next.store
      ensures SaysRow(next.store[ChunkId(e, i)], ix.docs[e].facts, ix.docs[e].chunks[i], ChunkId(e, i))
    {
      if e == d {
        assert ChunkId(d, i) in records
          && records[ChunkId(d, i)] == RecordOf(ix.docs[d].facts, ix.docs[d].chunks[i], ChunkId(d, i));
        assert ChunkId(d, i) in KeysOf(ix.docs[d], d);
      } else {
        assert ChunkId(e, i) !in records;
      }
    }
  }

  lemma UpsertKeepsAgreement(ix: Index, d: Id, written: set<ChunkId>, jobs: map<nat, Job>)
    requires Agrees(ix) && JobsOk(ix, jobs)
    ensures Agrees(Upsert(ix, d, written)) && JobsOk(Upsert(ix, d, written), jobs)
  {
    if d < |ix.docs| {
      var next := Upsert(ix, d, written);
      forall e: Id | Searchable(next, e) ensures Complete(next, e) {
        assert Searchable(ix, e);
        UpsertKeepsComplete(ix, d, written, e);
      }
      forall w | w in jobs ensures JobOk(next, jobs[w]) {
        assert JobOk(ix, jobs[w]);
        if Complete(ix, jobs[w].doc) {
          UpsertKeepsComplete(ix, d, written, jobs[w].doc);
        }
      }
    }
  }

  lemma DeleteKeepsComplete(ix: Index, d: Id, deleted: set<ChunkId>, e: Id)
    requires d < |ix.docs| && e < |ix.docs| && e != d && Complete(ix, e)
    ensures Complete(Delete(ix, d, deleted), e)
  {
    forall i | 0 <= i < |ix.docs[e].chunks| ensures ChunkId(e, i) !in KeysOf(ix.docs[d], d) {
    }
  }

  lemma DeleteKeepsAgreement(ix: Index, d: Id, deleted: set<ChunkId>, jobs: map<nat, Job>)
    requires Agrees(ix) && JobsOk(ix, jobs) && d < |ix.docs| && ix.docs[d].lifecycle == Removed
    ensures Agrees(Delete(ix, d, deleted)) && JobsOk(Delete(ix, d, deleted), jobs)
  {
    var next := Delete(ix, d, deleted);
    forall e: Id | Searchable(next, e) ensures Complete(next, e) {
      assert Searchable(ix, e);
      DeleteKeepsComplete(ix, d, deleted, e);
    }
    forall w | w in jobs ensures JobOk(next, jobs[w]) {
      assert JobOk(ix, jobs[w]);
      if jobs[w].Upserted? && ix.docs[jobs[w].doc].lifecycle == Active {
        DeleteKeepsComplete(ix, d, deleted, jobs[w].doc);
      }
    }
  }

  // -- moves

  lemma ClaimKeepsInv(s: System, worker: nat, d: Id, now: Time, staleAfter: Time)
    requires Inv(s)
    ensures Inv(Do(s, Claim(worker, d, now, staleAfter)))
  {
    var next := Do(s, Claim(worker, d, now, staleAfter));
    if next != s {
      PlainRowsKeepInv(s, next.ix.docs);
      assert next.ix == Index(next.ix.docs, s.ix.store);
      assert forall w | w in next.jobs :: w == worker || next.jobs[w] == s.jobs[w];
    }
  }

  lemma TryUpsertKeepsInv(s: System, worker: nat, ok: bool, written: set<ChunkId>)
    requires Inv(s)
    ensures Inv(Do(s, TryUpsert(worker, ok, written)))
  {
    var next := Do(s, TryUpsert(worker, ok, written));
    if worker in s.jobs && s.jobs[worker].Claimed? {
      var d := s.jobs[worker].doc;
      assert JobOk(s.ix, s.jobs[worker]);
      var all := if ok then KeysOf(s.ix.docs[d], d) else written;
      UpsertKeepsAgreement(s.ix, d, all, s.jobs);
      if ok {
        UpsertKeepsComplete(s.ix, d, all, d);
      }
      assert forall w | w in next.jobs :: w == worker || next.jobs[w] == s.jobs[w];
    }
  }

  lemma StartCleanKeepsInv(s: System, worker: nat, d: Id)
    requires Inv(s)
    ensures Inv(Do(s, StartClean(worker, d)))
  {
    var next := Do(s, StartClean(worker, d));
    assert forall w | w in next.jobs :: w == worker || next.jobs[w] == s.jobs[w];
  }

  lemma TryDeleteKeepsInv(s: System, worker: nat, ok: bool, deleted: set<ChunkId>)
    requires Inv(s)
    ensures Inv(Do(s, TryDelete(worker, ok, deleted)))
  {
    var next := Do(s, TryDelete(worker, ok, deleted));
    if worker in s.jobs && s.jobs[worker].Cleaning? {
      var d := s.jobs[worker].doc;
      assert JobOk(s.ix, s.jobs[worker]);
      DeleteKeepsAgreement(s.ix, d, if ok then KeysOf(s.ix.docs[d], d) else deleted, s.jobs);
      assert forall w | w in next.jobs :: w == worker || next.jobs[w] == s.jobs[w];
    }
  }

  lemma FewerJobs(ix: Index, jobs: map<nat, Job>, worker: nat)
    requires JobsOk(ix, jobs)
    ensures JobsOk(ix, jobs - {worker})
  {
    forall w | w in jobs - {worker} ensures JobOk(ix, (jobs - {worker})[w]) {
      assert JobOk(ix, jobs[w]);
    }
  }

  lemma FinishKeepsInv(s: System, worker: nat)
    requires Inv(s)
    ensures Inv(Do(s, Finish(worker)))
  {
    if worker in s.jobs {
      var next := Do(s, Finish(worker));
      assert JobOk(s.ix, s.jobs[worker]);
      var after := next.ix.docs;
      assert next.ix == Index(after, s.ix.store) && RowsEvolve(s.ix.docs, after);
      assert GainsOnlyComplete(s.ix, after) by {
        forall d: Id | Searchable(next.ix, d) ensures Complete(s.ix, d) {
          assert Searchable(s.ix, d) || (s.jobs[worker].Upserted? && d == s.jobs[worker].doc);
        }
      }
      RowsKeepAgreement(s.ix, after, s.jobs);
      FewerJobs(next.ix, s.jobs, worker);
    }
  }

  lemma StopKeepsInv(s: System, worker: nat)
    requires Inv(s)
    ensures Inv(Do(s, Stop(worker)))
  {
    FewerJobs(s.ix, s.jobs, worker);
  }

  lemma MarkPendingKeepsInv(s: System)
    requires Inv(s)
    ensures Inv(Do(s, MarkPending))
  {
    if s.rebuild.Listed? {
      var next := Do(s, MarkPending);
      var listed := set d | d in s.rebuild.ids;
      PlainRowsKeepInv(s, PendingAll(s.ix.docs, listed));
      forall d: Id ensures !Searchable(next.ix, d) {
        if d < |s.ix.docs| && s.ix.docs[d].lifecycle == Active && s.ix.docs[d].status == Ready {
          assert d in s.rebuild.ids;
        }
      }
    }
  }

  /** PENDING is committed before the reset, so losing the whole store breaks no agreement. */
  lemma ResetKeepsInv(s: System, ok: bool, lost: set<ChunkId>)
    requires Inv(s)
    ensures Inv(Do(s, Reset(ok, lost)))
  {
    var next := Do(s, Reset(ok, lost));
    if s.rebuild.Marked? {
      forall d: Id ensures !Searchable(next.ix, d) {
        assert !Searchable(s.ix, d);
      }
    }
  }

  lemma RebuildUpsertKeepsInv(s: System, ok: bool, written: set<ChunkId>)
    requires Inv(s)
    ensures Inv(Do(s, RebuildUpsert(ok, written)))
  {
    if s.rebuild.Filling? && s.rebuild.todo != [] {
      var d := s.rebuild.todo[0];
      var all := if ok && d < |s.ix.docs| then KeysOf(s.ix.docs[d], d) else written;
      UpsertKeepsAgreement(s.ix, d, all, s.jobs);
      if ok && d < |s.ix.docs| {
        UpsertKeepsComplete(s.ix, d, all, d);
      }
    }
  }

  lemma RebuildMarkKeepsInv(s: System)
    requires Inv(s)
    ensures Inv(Do(s, RebuildMark))
  {
    if s.rebuild.Filled? {
      var next := Do(s, RebuildMark);
      assert next.ix == Index(next.ix.docs, s.ix.store) && RowsEvolve(s.ix.docs, next.ix.docs);
      assert GainsOnlyComplete(s.ix, next.ix.docs) by {
        forall d: Id | Searchable(next.ix, d) ensures Complete(s.ix, d) {
          assert Searchable(s.ix, d) || (s.rebuild.ok && d == s.rebuild.doc);
        }
      }
      RowsKeepAgreement(s.ix, next.ix.docs, s.jobs);
    }
  }

  lemma RowMoveKeepsInv(s: System, move: Move)
    requires Inv(s)
    requires move.Add? || move.Remove? || move.RetryIndex? || move.RetryCleanup? || move.RecoverStale?
    ensures Inv(Do(s, move))
  {
    var next := Do(s, move);
    assert next == s.(ix := Index(next.ix.docs, s.ix.store));
    PlainRowsKeepInv(s, next.ix.docs);
  }

  lemma MoveKeepsInv(s: System, move: Move)
    requires Inv(s)
    ensures Inv(Do(s, move))
  {
    match move
    case Claim(worker, d, now, staleAfter) => ClaimKeepsInv(s, worker, d, now, staleAfter);
    case TryUpsert(worker, ok, written) => TryUpsertKeepsInv(s, worker, ok, written);
    case StartClean(worker, d) => StartCleanKeepsInv(s, worker, d);
    case TryDelete(worker, ok, deleted) => TryDeleteKeepsInv(s, worker, ok, deleted);
    case Finish(worker) => FinishKeepsInv(s, worker);
    case Stop(worker) => StopKeepsInv(s, worker);
    case StartRebuild =>
    case MarkPending => MarkPendingKeepsInv(s);
    case Reset(ok, lost) => ResetKeepsInv(s, ok, lost);
    case RebuildUpsert(ok, written) => RebuildUpsertKeepsInv(s, ok, written);
    case RebuildMark => RebuildMarkKeepsInv(s);
    case StopRebuild =>
    case _ => RowMoveKeepsInv(s, move);
  }

  lemma {:induction false} MovesKeepInv(moves: seq<Move>)
    ensures Inv(DoAll(START, moves))
  {
    if moves != [] {
      MovesKeepInv(moves[..|moves| - 1]);
      MoveKeepsInv(DoAll(START, moves[..|moves| - 1]), moves[|moves| - 1]);
    }
  }

  /** In every reachable state, every active and ready document has all its records in the store,
      equal to its rows: whatever failed, crashed or was rebuilt half-way. */
  lemma IndexAgreement(moves: seq<Move>, d: Id, i: nat)
    ensures var ix := DoAll(START, moves).ix;
      Searchable(ix, d) && i < |ix.docs[d].chunks| ==>
        && ChunkId(d, i) in ix.store
        && SaysRow(ix.store[ChunkId(d, i)], ix.docs[d].facts, ix.docs[d].chunks[i], ChunkId(d, i))
  {
    MovesKeepInv(moves);
  }

  lemma MoveEvolves(s: System, move: Move)
    ensures RowsEvolve(s.ix.docs, Do(s, move).ix.docs)
  {
    hide RecordsOf, KeysOf, Claimable, ActiveDocs;
  }

  /** Removal is final: a removed document is never active, hence never searchable, again. */
  lemma {:induction false} RemovedStaysRemoved(s: System, moves: seq<Move>, d: Id)
    requires d < |s.ix.docs| && s.ix.docs[d].lifecycle == Removed
    ensures d < |DoAll(s, moves).ix.docs| && DoAll(s, moves).ix.docs[d].lifecycle == Removed
    ensures DoAll(s, moves).ix.docs[d].facts == s.ix.docs[d].facts
  {
    if moves != [] {
      RemovedStaysRemoved(s, moves[..|moves| - 1], d);
      MoveEvolves(DoAll(s, moves[..|moves| - 1]), moves[|moves| - 1]);
    }
  }
}
