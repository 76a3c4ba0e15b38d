/** The tool loop of one run as the service executes it, over the rows it changes. */
module ToolLoop {
  import opened Wrappers
  import opened ToolState
  import opened ToolRun
  import opened ToolMessages
  import opened ToolWorld

  datatype Response =
    | Final(text: string)
    | ToolCalls(requests: seq<Request>)
    | NoResponse(error: string, retryable: bool)     // a failed or timed out request

  datatype ToolReply = Done(data: Data, refs: Refs) | Raised(error: string)

  datatype Proposal = Proposal(data: Data, refs: Refs, prompt: string)

  /** The calls into other systems, and the run's limits. */
  datatype Services = Services(
    llm: seq<Message> -> Response, tools: Pending -> ToolReply, proposals: Pending -> Proposal,
    validator: Validator, maxToolCalls: nat)

  datatype Outcome =
    | Answered(answer: string)
    | Suspended
    | Failure(error: string, retryable: bool)
    | Continue

  /** The LLM invents a new call id for every call it asks for. */
  ghost predicate InventsIds(llm: seq<Message> -> Response) {
    forall messages: seq<Message>, i: nat, j: nat {:trigger llm(messages).requests[i], CallsIn(messages)[j]} |
      llm(messages).ToolCalls? && i < |llm(messages).requests| && j < |CallsIn(messages)| ::
      llm(messages).requests[i].providerId != CallsIn(messages)[j].id
  }

  lemma PreflightOfSuffix(pending: seq<Pending>, v: Validator)
    requires pending != [] && Preflight(pending, v) == None
    ensures Preflight(pending[1..], v) == None
  {
  }

  ghost predicate Ready(c: Context, v: Validator) {
    c.pending != [] && Preflight(c.pending, v) == None
  }

  function ResultRowOf(reply: ToolReply): ResultRow {
    match reply
    case Done(data, refs) => ResultRow(data, refs, None)
    case Raised(error) => ResultRow(Output(""), map[], Some(error))
  }

  // ---- What the rows owe the services -------------------------------------------------------

  /** The result says what the services said of the call: the tool's reply, or the proposal. */
  predicate SaysReply(row: ResultRow, p: Pending, services: Services) {
    if IsWrite(p.tool) then
      var proposal := services.proposals(p);
      row.data == proposal.data && row.refs == proposal.refs && row.error == None
    else
      match services.tools(p)
      case Done(data, refs) => row.data == data && row.refs == refs && row.error == None
      case Raised(error) => row.error == Some(error) && row.data == Output("") && row.refs == map[]
  }

  /** The answer of a recovery, which asks no service. */
  predicate IsRecovery(row: ResultRow) {
    row.error == None && !row.data.Output?
  }

  /** Every result that is not among the earlier ones says what the services said of its call; with
      `recovered`, it may be the answer of a recovery instead. */
  ghost predicate RepliesKept(
    rows: seq<CallRow>, before: map<Id, ResultRow>, results: map<Id, ResultRow>, services: Services, recovered: bool)
  {
    forall i | 0 <= i < |rows| && rows[i].id in results && rows[i].id !in before ::
      || SaysReply(results[rows[i].id], Pending(rows[i].id, rows[i].tool, rows[i].arguments), services)
      || (recovered && IsRecovery(results[rows[i].id]))
  }

  ghost predicate Keeps(before: map<Id, ResultRow>, after: map<Id, ResultRow>) {
    forall id | id in before :: id in after && after[id] == before[id]
  }

  lemma OneMoreReply(db: Db, before: map<Id, ResultRow>, c: Context, row: ResultRow, services: Services)
    requires Restarts(db, c) && DistinctIds(db.rows) && c.pending != []
    requires RepliesKept(db.rows, before, db.results, services, false) && SaysReply(row, c.pending[0], services)
    ensures c.pending[0].id !in db.results
    ensures RepliesKept(db.rows, before, db.results[c.pending[0].id := row], services, false)
  {
    HeadIsRow(db, c);
    hide Restarts, RepliesKept, SaysReply;
    ReplyAt(db.rows, before, db.results, |c.results|, row, services);
  }

  lemma ReplyAt(rows: seq<CallRow>, before: map<Id, ResultRow>, results: map<Id, ResultRow>, k: int, row: ResultRow,
                services: Services)
    requires 0 <= k < |rows| && DistinctIds(rows) && RepliesKept(rows, before, results, services, false)
    requires SaysReply(row, Pending(rows[k].id, rows[k].tool, rows[k].arguments), services)
    ensures RepliesKept(rows, before, results[rows[k].id := row], services, false)
  {
    hide SaysReply;
  }

  lemma MoreReplies(rows: seq<CallRow>, before: map<Id, ResultRow>, middle: map<Id, ResultRow>,
                    results: map<Id, ResultRow>, services: Services, recovered: bool)
    requires RepliesKept(rows, before, middle, services, false) && Keeps(middle, results)
    requires RepliesKept(rows, middle, results, services, recovered)
    ensures RepliesKept(rows, before, results, services, recovered)
  {
  }

  lemma NewRowsKeepReplies(db: Db, before: map<Id, ResultRow>, c: Context, requests: seq<Request>, services: Services)
    requires IdsOk(db) && RepliesKept(db.rows, before, db.results, services, false)
    ensures RepliesKept(PersistTx(db, c, requests).rows, before, db.results, services, false)
  {
    NewIdsUnused(db.results, requests, db.nextId, c.nextSequence, c.nextAssistant);
  }

  lemma RecoveredReplies(db: Db, c: Context, m: Malformed, services: Services)
    requires Restarts(db, c) && DistinctIds(db.rows)
    ensures var results := RecoveryTx(db, c.pending, m).results;
      Keeps(db.results, results) && RepliesKept(db.rows, db.results, results, services, true)
  {
    hide Keeps, RepliesKept, DistinctIds;
    RestartsAre(db, c);
    RecoveredAt(db, |c.results|, m, services);
  }

  lemma RecoveredAt(db: Db, k: int, m: Malformed, services: Services)
    requires DonePrefix(db.rows, db.results, k) && DistinctIds(db.rows)
    ensures var results := RecoveryResults(db.results, PendingOf(db.rows, db.results), m);
      Keeps(db.results, results) && RepliesKept(db.rows, db.results, results, services, true)
  {
    hide RecoveryResults, PendingOf, IsRecovery, SaysReply, DistinctIds;
    RecoveryKeys(db.results, PendingOf(db.rows, db.results), m);
    forall i | 0 <= i < |db.rows| && db.rows[i].id !in db.results
      ensures var results := RecoveryResults(db.results, PendingOf(db.rows, db.results), m);
        db.rows[i].id in results && IsRecovery(results[db.rows[i].id])
    {
      RecoveryIsAnswer(db, k, m, i);
    }
  }

  lemma RestartsAre(db: Db, c: Context)
    requires Restarts(db, c)
    ensures DonePrefix(db.rows, db.results, |c.results|) && c.pending == PendingOf(db.rows, db.results)
  {
  }

  lemma RecoveryIsAnswer(db: Db, k: int, m: Malformed, i: int)
    requires DonePrefix(db.rows, db.results, k) && DistinctIds(db.rows)
    requires 0 <= i < |db.rows| && db.rows[i].id !in db.results
    ensures var results := RecoveryResults(db.results, PendingOf(db.rows, db.results), m);
      db.rows[i].id in results && IsRecovery(results[db.rows[i].id])
  {
    var pending := PendingOf(db.rows, db.results);
    PendingAt(db.rows, db.results, k);
    PendingDistinct(db.rows, db.results, k);
    RecoveryAnswers(db.results, pending, m);
    assert pending[i - k].id == db.rows[i].id;
  }

  lemma PendingIsNew(db: Db, c: Context)
    requires Restarts(db, c) && DistinctIds(db.rows)
    ensures DistinctPending(c.pending) && NonePresent(c.pending, db.results)
  {
    PendingDistinct(db.rows, db.results, |c.results|);
  }

  /** The row carries what the LLM asked for, as the next call of the batch. */
  predicate AsRequested(row: CallRow, request: Request) {
    && row.tool == request.tool && row.arguments == request.arguments && row.json == Some(request.json)
    && row.providerId == Some(request.providerId) && row.providerType == Some("function")
  }

  /** The calls of a batch follow those of the prompt that the LLM answered with them. */
  ghost predicate AskedAfter(
    rows: seq<CallRow>, results: map<Id, ResultRow>, llm: seq<Message> -> Response, sent: seq<Message>, n: nat, i: nat)
  {
    && n <= i < |rows| && TellsTables(sent, rows[..n], results)
    && llm(sent).ToolCalls? && i - n < |llm(sent).requests| && AsRequested(rows[i], llm(sent).requests[i - n])
  }

  ghost predicate Asked(rows: seq<CallRow>, results: map<Id, ResultRow>, llm: seq<Message> -> Response, i: nat) {
    exists sent, n: nat :: AskedAfter(rows, results, llm, sent, n, i)
  }

  /** Every call from the first on was asked for by the LLM, in answer to all the calls before its
      batch with their results. */
  ghost predicate AllAsked(rows: seq<CallRow>, results: map<Id, ResultRow>, llm: seq<Message> -> Response, first: nat) {
    forall i: nat | first <= i < |rows| :: Asked(rows, results, llm, i)
  }

  lemma TellsStill(sent: seq<Message>, rows: seq<CallRow>, results: map<Id, ResultRow>, after: map<Id, ResultRow>)
    requires TellsTables(sent, rows, results) && Keeps(results, after)
    ensures TellsTables(sent, rows, after)
  {
  }

  lemma AskedStill(rows: seq<CallRow>, results: map<Id, ResultRow>, after: map<Id, ResultRow>,
                   llm: seq<Message> -> Response, first: nat)
    requires AllAsked(rows, results, llm, first) && Keeps(results, after)
    ensures AllAsked(rows, after, llm, first)
  {
    hide TellsTables, AsRequested;
    forall i: nat | first <= i < |rows| ensures Asked(rows, after, llm, i) {
      assert Asked(rows, results, llm, i);
      var sent, n: nat :| AskedAfter(rows, results, llm, sent, n, i);
      TellsStill(sent, rows[..n], results, after);
      assert AskedAfter(rows, after, llm, sent, n, i);
    }
  }

  lemma NewRowsAreAsked(db: Db, c: Context, sent: seq<Message>, services: Services, first: nat)
    requires AllAsked(db.rows, db.results, services.llm, first)
    requires services.llm(sent).ToolCalls? && TellsTables(sent, db.rows, db.results)
    ensures AllAsked(PersistTx(db, c, services.llm(sent).requests).rows, db.results, services.llm, first)
  {
    hide TellsTables;
    var rows := PersistTx(db, c, services.llm(sent).requests).rows;
    forall i: nat | first <= i < |rows| ensures Asked(rows, db.results, services.llm, i) {
      if i < |db.rows| {
        assert Asked(db.rows, db.results, services.llm, i);
        var prompt, n: nat :| AskedAfter(db.rows, db.results, services.llm, prompt, n, i);
        assert rows[..n] == db.rows[..n];
        assert AskedAfter(rows, db.results, services.llm, prompt, n, i);
      } else {
        assert rows[..|db.rows|] == db.rows;
        assert AskedAfter(rows, db.results, services.llm, sent, |db.rows|, i);
      }
    }
  }

  lemma HeadIsNew(db: Db, c: Context, v: Validator, max: nat)
    requires Inv(World(db, Some(c)), v, max) && c.pending != []
    ensures c.pending[0].id !in db.results
  {
    HeadIsRow(db, c);
  }

  lemma ToolSucceeds(db: Db, c: Context, data: Data, refs: Refs, v: Validator, max: nat)
    requires Inv(World(db, Some(c)), v, max) && Ready(c, v) && !IsWrite(c.pending[0].tool)
    ensures var id := c.pending[0].id;
      Inv(World(ResultTx(db, id, ResultRow(data, refs, None)), Some(AfterResult(c, Result(id, data, refs)))), v, max)
  {
    hide Inv;
    StepKeepsInv(World(db, Some(c)), ToolOk(data, refs), v, max);
  }

  lemma ToolRaises(db: Db, c: Context, error: string, v: Validator, max: nat)
    requires Inv(World(db, Some(c)), v, max) && Ready(c, v) && !IsWrite(c.pending[0].tool)
    ensures var next := ResultTx(db, c.pending[0].id, ResultRowOf(Raised(error)));
      Inv(World(next, None), v, max) && LoadToolState(next.rows, next.results) == LoadError(error)
  {
    hide Inv;
    RaisedIsLoaded(db, c, error, v, max);
    StepKeepsInv(World(db, Some(c)), ToolFails(error), v, max);
  }

  lemma RaisedIsLoaded(db: Db, c: Context, error: string, v: Validator, max: nat)
    requires Inv(World(db, Some(c)), v, max) && c.pending != []
    ensures var next := ResultTx(db, c.pending[0].id, ResultRowOf(Raised(error)));
      LoadToolState(next.rows, next.results) == LoadError(error)
  {
    hide Inv, Restarts, LoadToolState;
    LiveRestarts(db, c, v, max);
    FailureRestarts(db, c, ResultRowOf(Raised(error)));
  }

  function ProposeRows(db: Db, p: Pending, proposal: Proposal): Db {
    SuspendTx(db, p, ResultRow(proposal.data, proposal.refs, None), proposal.prompt)
  }

  lemma Proposes(db: Db, c: Context, proposal: Proposal, v: Validator, max: nat)
    requires Inv(World(db, Some(c)), v, max) && Ready(c, v) && IsWrite(c.pending[0].tool)
    ensures Inv(World(ProposeRows(db, c.pending[0], proposal), None), v, max)
  {
    hide Inv;
    StepKeepsInv(World(db, Some(c)), Suspend(proposal.data, proposal.refs, proposal.prompt), v, max);
  }

  /** The batch a fresh-id LLM asks for may be persisted. */
  lemma Persists(db: Db, c: Context, requests: seq<Request>, v: Validator, max: nat)
    requires Inv(World(db, Some(c)), v, max) && c.pending == [] && WellFormed(requests)
    requires NewProviderIds(requests, c.calls) && |c.calls| + |requests| <= max
    ensures var added := NewRows(requests, db.nextId, c.nextSequence, c.nextAssistant);
      AllComplete(added) && Inv(World(PersistTx(db, c, requests), Some(AfterPersist(c, added))), v, max)
  {
    hide Inv;
    PersistedIsComplete(db, c, requests, v, max);
    StepKeepsInv(World(db, Some(c)), Reply(requests), v, max);
  }

  lemma PersistedIsComplete(db: Db, c: Context, requests: seq<Request>, v: Validator, max: nat)
    requires Inv(World(db, Some(c)), v, max) && WellFormed(requests)
    ensures AllComplete(NewRows(requests, db.nextId, c.nextSequence, c.nextAssistant))
  {
    PersistConsistent(db.rows, c, requests, db.nextId);
  }

  /** An LLM that invents ids asks for calls that are new to the run. */
  lemma InventedIdsAreNew(llm: seq<Message> -> Response, sent: seq<Message>, calls: seq<Call>)
    requires InventsIds(llm) && llm(sent).ToolCalls? && CallsIn(sent) == WireCalls(calls)
    ensures NewProviderIds(llm(sent).requests, calls)
  {
    forall i, j | 0 <= i < |llm(sent).requests| && 0 <= j < |calls|
      ensures llm(sent).requests[i].providerId != calls[j].providerId
    {
      assert CallsIn(sent)[j] == Wire(calls[j]);
    }
  }

  lemma ContextFits(db: Db, c: Context, v: Validator, max: nat)
    requires Inv(World(db, Some(c)), v, max)
    ensures |c.calls| == |db.rows| <= max
  {
    CallsAreRows(db, c);
  }

  lemma Recovers(db: Db, c: Context, m: Malformed, v: Validator, max: nat)
    requires Inv(World(db, Some(c)), v, max) && Preflight(c.pending, v) == Some(m)
    ensures Inv(World(RecoveryTx(db, c.pending, m), None), v, max)
  {
    hide Inv;
    StepKeepsInv(World(db, Some(c)), Recover, v, max);
  }

  /** The call `id` is the one the live context executes next, and a restart would rebuild it. */
  ghost predicate Next(db: Db, c: Context, id: Id) {
    c.pending != [] && c.pending[0].id == id && DistinctIds(db.rows) && Restarts(db, c)
  }

  /** The call has its result, and it says what the services said. */
  predicate HasReply(p: Pending, results: map<Id, ResultRow>, services: Services) {
    p.id in results && SaysReply(results[p.id], p, services)
  }

  /** The first calls ran, in order: each was a tool that answered, and its answer is stored. */
  ghost predicate FirstAnswered(pending: seq<Pending>, done: nat, results: map<Id, ResultRow>, services: Services)
    requires done <= |pending|
  {
    forall j | 0 <= j < done ::
      !IsWrite(pending[j].tool) && services.tools(pending[j]).Done? && HasReply(pending[j], results, services)
  }

  lemma NothingNew(rows: seq<CallRow>, results: map<Id, ResultRow>, pending: seq<Pending>, services: Services)
    ensures RepliesKept(rows, results, results, services, false) && Keeps(results, results)
    ensures forall after :: FirstAnswered(pending, 0, after, services)
  {
  }

  lemma StoredKeeps(pending: seq<Pending>, done: nat, before: map<Id, ResultRow>, results: map<Id, ResultRow>,
                    id: Id, row: ResultRow, services: Services)
    requires done < |pending| && FirstAnswered(pending, done, results, services) && Keeps(before, results)
    requires id !in results && id == pending[done].id && SaysReply(row, pending[done], services)
    ensures Keeps(before, results[id := row]) && FirstAnswered(pending, done, results[id := row], services)
    ensures !IsWrite(pending[done].tool) && services.tools(pending[done]).Done? ==>
      FirstAnswered(pending, done + 1, results[id := row], services)
  {
    hide SaysReply;
  }

  /** Against the rows and results a run of the loop started from: earlier results stay, every new
      result is what its service said, and every new call is what the LLM asked for. */
  ghost predicate Faithful(rows: seq<CallRow>, before: map<Id, ResultRow>, results: map<Id, ResultRow>,
                           services: Services, first: nat, recovered: bool)
  {
    && Keeps(before, results) && RepliesKept(rows, before, results, services, recovered)
    && AllAsked(rows, results, services.llm, first)
  }

  lemma FaithfulStarts(rows: seq<CallRow>, before: map<Id, ResultRow>, results: map<Id, ResultRow>,
                       services: Services, recovered: bool)
    requires Keeps(before, results) && RepliesKept(rows, before, results, services, recovered)
    ensures Faithful(rows, before, results, services, |rows|, recovered)
  {
  }

  lemma FaithfulResumes(rows: seq<CallRow>, before: map<Id, ResultRow>, middle: map<Id, ResultRow>,
                        results: map<Id, ResultRow>, services: Services, first: nat, recovered: bool)
    requires Faithful(rows, before, middle, services, first, false)
    requires Keeps(middle, results) && RepliesKept(rows, middle, results, services, recovered)
    ensures Faithful(rows, before, results, services, first, recovered)
  {
    MoreReplies(rows, before, middle, results, services, recovered);
    AskedStill(rows, middle, results, services.llm, first);
  }

  lemma LiveIds(db: Db, c: Context, v: Validator, max: nat)
    requires Inv(World(db, Some(c)), v, max)
    ensures IdsOk(db)
  {
  }

  /** The result of the next tool call says what the tool said. */
  lemma ToolReplies(db: Db, before: map<Id, ResultRow>, c: Context, services: Services)
    requires Restarts(db, c) && DistinctIds(db.rows) && c.pending != [] && !IsWrite(c.pending[0].tool)
    requires RepliesKept(db.rows, before, db.results, services, false)
    ensures var row := ResultRowOf(services.tools(c.pending[0]));
      && c.pending[0].id !in db.results && SaysReply(row, c.pending[0], services)
      && RepliesKept(db.rows, before, ResultTx(db, c.pending[0].id, row).results, services, false)
  {
    hide Restarts, RepliesKept;
    OneMoreReply(db, before, c, ResultRowOf(services.tools(c.pending[0])), services);
  }

  lemma ProposalReplies(db: Db, before: map<Id, ResultRow>, c: Context, services: Services)
    requires Restarts(db, c) && DistinctIds(db.rows) && c.pending != [] && IsWrite(c.pending[0].tool)
    requires RepliesKept(db.rows, before, db.results, services, false)
    ensures var proposal := services.proposals(c.pending[0]);
      var row := ResultRow(proposal.data, proposal.refs, None);
      && c.pending[0].id !in db.results && SaysReply(row, c.pending[0], services)
      && RepliesKept(db.rows, before, ProposeRows(db, c.pending[0], proposal).results, services, false)
      && ProposeRows(db, c.pending[0], proposal).results == db.results[c.pending[0].id := row]
  {
    hide Restarts, RepliesKept;
    var proposal := services.proposals(c.pending[0]);
    OneMoreReply(db, before, c, ResultRow(proposal.data, proposal.refs, None), services);
  }

  /** Persisting what the LLM answered to the complete prompt. */
  lemma PersistsReplies(db: Db, before: map<Id, ResultRow>, c: Context, sent: seq<Message>, services: Services,
                        first: nat)
    requires IdsOk(db) && Faithful(db.rows, before, db.results, services, first, false)
    requires services.llm(sent).ToolCalls? && TellsTables(sent, db.rows, db.results)
    ensures Faithful(PersistTx(db, c, services.llm(sent).requests).rows, before, db.results, services, first, false)
  {
    NewRowsKeepReplies(db, before, c, services.llm(sent).requests, services);
    NewRowsAreAsked(db, c, sent, services, first);
  }

  class AgentRun {
    var rows: seq<CallRow>
    var results: map<Id, ResultRow>
    var state: RunState
    var messages: seq<string>
    var finalMessage: Option<nat>
    var proposals: set<Id>
    var nextId: Id

    ghost function Tables(): Db
      reads this
    {
      Db(rows, results, state, messages, finalMessage, proposals, nextId)
    }

    constructor ()
      ensures Tables() == NEW_RUN
    {
      rows, results, state, messages, finalMessage, proposals, nextId := [], map[], Running, [], None, {}, 0;
    }

    /** persist_tool_calls: one row per request, in one transaction. */
    method PersistToolCalls(c: Context, requests: seq<Request>) returns (added: seq<CallRow>)
      modifies `rows, `nextId
      ensures Tables() == PersistTx(old(Tables()), c, requests)
      ensures added == NewRows(requests, old(nextId), c.nextSequence, c.nextAssistant)
      ensures rows == old(rows) + added && |added| == |requests|
      ensures forall i | 0 <= i < |added| ::
        && AsRequested(added[i], requests[i]) && added[i].id == old(nextId) + i
        && added[i].assistant == Some(c.nextAssistant) && added[i].sequence == c.nextSequence + i
    {
      added := [];
      for offset := 0 to |requests|
        invariant added == NewRows(requests[..offset], old(nextId), c.nextSequence, c.nextAssistant)
        invariant rows == old(rows) + added && nextId == old(nextId) + offset
      {
        assert requests[..offset + 1][..offset] == requests[..offset];
        var row := NewRow(requests[offset], nextId, c.nextSequence + offset, c.nextAssistant);
        rows := rows + [row];
        added := added + [row];
        nextId := nextId + 1;
      }
      assert requests[..|requests|] == requests;
    }

    /** preflight_confirmation_writes: every write is looked at, the first malformed one is kept. */
    method PreflightConfirmationWrites(pending: seq<Pending>, v: Validator) returns (found: Option<Malformed>)
      ensures found == Preflight(pending, v)
    {
      found := None;
      for i := 0 to |pending|
        invariant Preflight(pending, v) == if found.Some? then found else Preflight(pending[i..], v)
      {
        var refusal := Refusal(pending[i], v);
        assert pending[i..][0] == pending[i] && pending[i..][1..] == pending[i + 1..];
        if found == None && refusal.Some? {
          found := Some(Malformed(pending[i].id, pending[i].tool, refusal.value));
        }
      }
    }

    /** persist_write_recovery */
    method PersistWriteRecovery(pending: seq<Pending>, m: Malformed) returns (answer: string)
      requires finalMessage.Some? ==> finalMessage.value < |messages|
      modifies this
      ensures Tables() == RecoveryTx(old(Tables()), pending, m)
      ensures answer == RecoveryAnswer(old(Tables()), m)
      ensures state == DeliveryPending && rows == old(rows)
      ensures proposals == old(proposals) && nextId == old(nextId)
      ensures finalMessage.Some? && finalMessage.value < |messages| && answer == messages[finalMessage.value]
      ensures if old(finalMessage).Some? then finalMessage == old(finalMessage) && messages == old(messages)
              else answer == m.reason && messages == old(messages) + [m.reason] && finalMessage.value == |old(messages)|
    {
      var persisted := results.Keys;
      for i := 0 to |pending|
        invariant results == RecoveryResults(old(results), pending[..i], m)
        invariant rows == old(rows) && state == old(state) && messages == old(messages)
        invariant finalMessage == old(finalMessage) && proposals == old(proposals) && nextId == old(nextId)
      {
        assert pending[..i + 1][..i] == pending[..i];
        if pending[i].id !in persisted {
          results := results[pending[i].id := ResultRow(RecoveryData(pending[i], m), map[], None)];
        }
      }
      assert pending[..|pending|] == pending;
      answer := ClarificationFor(m);
      if finalMessage == None {
        finalMessage := Some(|messages|);
        messages := messages + [answer];
      } else {
        answer := messages[finalMessage.value];
      }
      state := DeliveryPending;
    }

    /** The second half of execute_tool; `c` is the live context. */
    method StoreResult(id: Id, row: ResultRow, ghost c: Context)
      requires id !in results
      modifies `results
      ensures Tables() == ResultTx(old(Tables()), id, row)
      ensures id in results && results[id] == row && results - {id} == old(results)
      ensures Next(old(Tables()), c, id) ==>
        match row.error
        case None => Restarts(Tables(), AfterResult(c, Result(id, row.data, row.refs)))
        case Some(error) => LoadToolState(rows, results) == LoadError(error)
    {
      hide Restarts, LoadToolState;
      if Next(Tables(), c, id) {
        if row.error == None {
          ResultRestarts(Tables(), c, row);
        } else {
          FailureRestarts(Tables(), c, row);
        }
      }
      results := results[id := row];
    }

    /** propose_status_write and propose_knowledge_write. */
    method ProposeWrite(p: Pending, proposal: Proposal, ghost c: Context)
      modifies this
      ensures Tables() == ProposeRows(old(Tables()), p, proposal)
      ensures p.id in proposals && state == WaitingConfirmation && p.id in results
      ensures results ==
        if p.id in old(results) then old(results)
        else old(results)[p.id := ResultRow(proposal.data, proposal.refs, None)]
      ensures if old(finalMessage) == None && p.tool.UpdateApplicationStatus?
              then messages == old(messages) + [proposal.prompt] && finalMessage == Some(|old(messages)|)
              else messages == old(messages) && finalMessage == old(finalMessage)
      ensures rows == old(rows) && proposals == old(proposals) + {p.id}
      ensures Next(old(Tables()), c, p.id) ==>
        Restarts(Tables(), AfterResult(c, Result(p.id, proposal.data, proposal.refs)))
    {
      hide Restarts;
      if Next(Tables(), c, p.id) {
        var row := ResultRow(proposal.data, proposal.refs, None);
        ResultRestarts(Tables(), c, row);
        SameTables(ResultTx(Tables(), p.id, row), ProposeRows(Tables(), p, proposal),
                   AfterResult(c, Result(p.id, proposal.data, proposal.refs)));
      }
      proposals := proposals + {p.id};
      if p.id !in results {
        results := results[p.id := ResultRow(proposal.data, proposal.refs, None)];
      }
      state := WaitingConfirmation;
      if p.tool.UpdateApplicationStatus? && finalMessage == None {
        finalMessage := Some(|messages|);
        messages := messages + [proposal.prompt];
      }
    }

    predicate MessageStored()
      reads this
    {
      finalMessage.Some? ==> finalMessage.value < |messages|
    }

    /** _resume_pending_tools: preflight the whole batch, then run it call by call. */
    method ResumePendingTools(c: Context, services: Services)
      returns (outcome: Outcome, next: Context, ghost done: nat)
      requires Inv(World(Tables(), Some(c)), services.validator, services.maxToolCalls) && MessageStored()
      modifies this
      ensures MessageStored() && rows == old(rows) && nextId == old(nextId)
      ensures Inv(World(Tables(), if outcome.Continue? then Some(next) else None),
                  services.validator, services.maxToolCalls)
      ensures outcome.Continue? ==> next.pending == [] && next.calls == c.calls
      ensures outcome.Suspended? ==> state == WaitingConfirmation
      ensures outcome.Answered? <==> Preflight(c.pending, services.validator).Some?
      ensures outcome.Answered? ==>
        && state == DeliveryPending
        && Tables() == RecoveryTx(old(Tables()), c.pending, Preflight(c.pending, services.validator).value)
        && outcome.answer == RecoveryAnswer(old(Tables()), Preflight(c.pending, services.validator).value)
      ensures outcome.Failure? ==> !outcome.retryable && LoadToolState(rows, results) == LoadError(outcome.error)
      ensures Keeps(old(results), results)
      ensures RepliesKept(rows, old(results), results, services, outcome.Answered?)
      ensures done <= |c.pending| && FirstAnswered(c.pending, done, results, services)
      ensures match outcome
        case Continue => done == |c.pending|
        case Answered(_) => done == 0
        case Suspended =>
          done < |c.pending| && IsWrite(c.pending[done].tool) && HasReply(c.pending[done], results, services)
        case Failure(error, _) =>
          && done < |c.pending| && !IsWrite(c.pending[done].tool) && HasReply(c.pending[done], results, services)
          && services.tools(c.pending[done]) == Raised(error)
      ensures !outcome.Answered? ==> forall j | done < j < |c.pending| :: c.pending[j].id !in results
    {
      hide Inv, LoadToolState, Restarts, RepliesKept, DistinctIds, SaysReply, FirstAnswered, Keeps;
      hide RecoveryTx, RecoveryAnswer;
      next, done := c, 0;
      LiveRestarts(Tables(), c, services.validator, services.maxToolCalls);
      PendingIsNew(Tables(), c);
      NothingNew(rows, results, c.pending, services);
      var malformed := PreflightConfirmationWrites(c.pending, services.validator);
      if malformed.Some? {
        Recovers(Tables(), c, malformed.value, services.validator, services.maxToolCalls);
        RecoveredReplies(Tables(), c, malformed.value, services);
        var answer := PersistWriteRecovery(c.pending, malformed.value);
        return Answered(answer), c, 0;
      }
      for index := 0 to |c.pending|
        invariant Inv(World(Tables(), Some(next)), services.validator, services.maxToolCalls)
        invariant next.pending == c.pending[index..] && next.calls == c.calls
        invariant Preflight(next.pending, services.validator) == None
        invariant MessageStored() && rows == old(rows) && nextId == old(nextId)
        invariant done == index && FirstAnswered(c.pending, done, results, services) && Keeps(old(results), results)
        invariant RepliesKept(rows, old(results), results, services, false)
        invariant forall j | index <= j < |c.pending| :: c.pending[j].id !in results
      {
        var pending := c.pending[index];
        assert next.pending[0] == pending && next.pending[1..] == c.pending[index + 1..];
        LiveRestarts(Tables(), next, services.validator, services.maxToolCalls);
        if IsWrite(pending.tool) {
          var proposal := services.proposals(pending);
          Proposes(Tables(), next, proposal, services.validator, services.maxToolCalls);
          ProposalReplies(Tables(), old(results), next, services);
          StoredKeeps(c.pending, index, old(results), results, pending.id,
                      ResultRow(proposal.data, proposal.refs, None), services);
          ProposeWrite(pending, proposal, next);
          return Suspended, next, index;
        }
        HeadIsNew(Tables(), next, services.validator, services.maxToolCalls);
        match services.tools(pending)
        case Raised(error) =>
          ToolRaises(Tables(), next, error, services.validator, services.maxToolCalls);
          ToolReplies(Tables(), old(results), next, services);
          StoredKeeps(c.pending, index, old(results), results, pending.id, ResultRowOf(Raised(error)), services);
          StoreResult(pending.id, ResultRowOf(Raised(error)), next);
          return Failure(error, false), next, index;
        case Done(data, refs) =>
          ToolSucceeds(Tables(), next, data, refs, services.validator, services.maxToolCalls);
          PreflightOfSuffix(next.pending, services.validator);
          ToolReplies(Tables(), old(results), next, services);
          StoredKeeps(c.pending, index, old(results), results, pending.id, ResultRow(data, refs, None), services);
          StoreResult(pending.id, ResultRow(data, refs, None), next);
          next := AfterResult(next, Result(pending.id, data, refs));
          done := index + 1;
      }
      outcome := Continue;
    }

    /** _run_turns, from a context just loaded.  `live` is the context the caller goes on with, if
        the run still has one.  `requested` counts the LLM calls: each but the last adds at least
        one tool call, and tool calls never exceed the budget, so the loop ends. */
    method RunTurns(loaded: Context, services: Services)
      returns (outcome: Outcome, live: Option<Context>, requested: nat)
      requires Inv(World(Tables(), Some(loaded)), services.validator, services.maxToolCalls) && MessageStored()
      requires InventsIds(services.llm)
      modifies this
      ensures !outcome.Continue?
      ensures Inv(World(Tables(), live), services.validator, services.maxToolCalls)
      ensures requested <= services.maxToolCalls - |loaded.calls| + 1
      ensures old(rows) <= rows
      ensures outcome.Answered? && live.Some? ==>
        var sent := Continuation(live.value.calls, live.value.results);
        live.value.pending == [] && sent.Some? && services.llm(sent.value) == Final(outcome.answer)
      ensures outcome.Answered? && live.None? ==> state == DeliveryPending
      ensures outcome.Suspended? ==> live.None? && state == WaitingConfirmation
      ensures outcome.Failure? && live.None? ==> LoadToolState(rows, results) == LoadError(outcome.error)
      ensures outcome.Failure? && live.Some? ==>
        var sent := Continuation(live.value.calls, live.value.results);
        && live.value.pending == [] && sent.Some?
        && match services.llm(sent.value)
           case NoResponse(error, retryable) => outcome == Failure(error, retryable)
           case ToolCalls(requests) =>
             && !outcome.retryable
             && (!WellFormed(requests) || |live.value.calls| + |requests| > services.maxToolCalls)
           case Final(_) => false
      ensures Faithful(rows, old(results), results, services, |old(rows)|, outcome.Answered? && live.None?)
    {
      hide Inv, InventsIds, LoadToolState, Continuation, RecoveryTx, RecoveryAnswer, Preflight, WellShaped;
      hide RepliesKept, AllAsked, TellsTables, FirstAnswered, HasReply, Faithful, Keeps;
      requested := 0;
      ContextFits(Tables(), loaded, services.validator, services.maxToolCalls);
      var resumed, c, done := ResumePendingTools(loaded, services);
      FaithfulStarts(rows, old(results), results, services, resumed.Answered?);
      if !resumed.Continue? {
        return resumed, None, requested;
      }
      while true
        invariant Inv(World(Tables(), Some(c)), services.validator, services.maxToolCalls) && MessageStored()
        invariant c.pending == [] && |c.calls| == |rows| <= services.maxToolCalls && old(rows) <= rows
        invariant requested <= |c.calls| - |loaded.calls|
        invariant Faithful(rows, old(results), results, services, |old(rows)|, false)
        decreases services.maxToolCalls - |rows|
      {
        PromptIsAccepted(World(Tables(), Some(c)), services.validator, services.maxToolCalls);
        var sent := ContinuationMessages(c.calls, c.results);
        requested := requested + 1;
        match services.llm(sent.value)
        case NoResponse(error, retryable) => return Failure(error, retryable), Some(c), requested;
        case Final(text) => return Answered(text), Some(c), requested;
        case ToolCalls(requests) =>
          if !WellFormed(requests) {
            return Failure("conversation request failed", false), Some(c), requested;
          }
          if |c.calls| + |requests| > services.maxToolCalls {
            return Failure("agent run exceeded tool-call limit", false), Some(c), requested;
          }
          InventedIdsAreNew(services.llm, sent.value, c.calls);
          Persists(Tables(), c, requests, services.validator, services.maxToolCalls);
          LiveIds(Tables(), c, services.validator, services.maxToolCalls);
          PersistsReplies(Tables(), old(results), c, sent.value, services, |old(rows)|);
          var added := PersistToolCalls(c, requests);
          c := AfterPersist(c, added);
          ContextFits(Tables(), c, services.validator, services.maxToolCalls);
          ghost var middle := results;
          resumed, c, done := ResumePendingTools(c, services);
          FaithfulResumes(rows, old(results), middle, results, services, |old(rows)|, resumed.Answered?);
          if !resumed.Continue? {
            return resumed, None, requested;
          }
      }
    }
  }
}
