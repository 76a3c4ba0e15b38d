/** How the LLM adapter turns a run's calls and results into messages, and why it never refuses them. */
module ToolMessages {
  import opened Text
  import opened ToolRun
  import opened ToolState
  import opened Wrappers

  datatype WireCall = WireCall(id: string, tool: ToolName, text: string)

  datatype Message =
    | AssistantCalls(calls: seq<WireCall>)
    | ToolReply(callId: string, content: Data)

  function Wire(c: Call): WireCall {
    WireCall(c.providerId, c.tool, c.json.text)
  }

  function WireCalls(calls: seq<Call>): seq<WireCall> {
    seq(|calls|, i requires 0 <= i < |calls| => Wire(calls[i]))
  }

  // ---- What the adapter insists on ----------------------------------------------------------

  predicate CallIdsDistinct(calls: seq<Call>) {
    forall i, j | 0 <= i < j < |calls| :: calls[i].id != calls[j].id
  }

  predicate ResultIdsDistinct(results: seq<Result>) {
    forall i, j | 0 <= i < j < |results| :: results[i].call != results[j].call
  }

  predicate HasResult(results: seq<Result>, id: Id) {
    exists r :: r in results && r.call == id
  }

  predicate HasCall(calls: seq<Call>, id: Id) {
    exists c :: c in calls && c.id == id
  }

  predicate SameIds(calls: seq<Call>, results: seq<Result>) {
    && (forall i | 0 <= i < |calls| :: HasResult(results, calls[i].id))
    && (forall i | 0 <= i < |results| :: HasCall(calls, results[i].call))
  }

  /** Calls and results correspond one to one, numbered as a restart numbers them. */
  predicate Accepts(calls: seq<Call>, results: seq<Result>) {
    && CallIdsDistinct(calls) && ProviderIdsDistinct(calls) && ResultIdsDistinct(results)
    && SameIds(calls, results) && Numbered(calls)
    && Dedupe(Assistants(calls)) == UpTo(|Dedupe(Assistants(calls))|)
  }

  predicate CallOk(c: Call) {
    c.json.decoded.ObjectOf? && !c.tool.Unregistered? && !Blank(c.providerId)
  }

  predicate CallsOk(calls: seq<Call>) {
    forall i | 0 <= i < |calls| :: CallOk(calls[i])
  }

  // ---- The messages -------------------------------------------------------------------------

  function DataOf(results: seq<Result>, id: Id): Data {
    if results == [] then Output("")
    else if results[|results| - 1].call == id then results[|results| - 1].data
    else DataOf(results[..|results| - 1], id)
  }

  function Replies(batch: seq<Call>, results: seq<Result>): seq<Message> {
    seq(|batch|, i requires 0 <= i < |batch| => ToolReply(batch[i].providerId, DataOf(results, batch[i].id)))
  }

  /** _assistant_tool_messages */
  function BatchMessages(batch: seq<Call>, results: seq<Result>): seq<Message> {
    if batch == [] then [] else [AssistantCalls(WireCalls(batch))] + Replies(batch, results)
  }

  /** The batches of `group` followed by `rest`, when `group` is an unfinished batch. */
  function GroupFrom(group: seq<Call>, rest: seq<Call>): seq<seq<Call>>
    decreases |rest|
  {
    if rest == [] then if group == [] then [] else [group]
    else if group != [] && rest[0].assistant != group[|group| - 1].assistant
    then [group] + GroupFrom([rest[0]], rest[1..])
    else GroupFrom(group + [rest[0]], rest[1..])
  }

  /** Maximal stretches of calls with one assistant number. */
  function Batches(calls: seq<Call>): seq<seq<Call>> {
    GroupFrom([], calls)
  }

  function Transcript(batches: seq<seq<Call>>, results: seq<Result>): seq<Message> {
    if batches == [] then [] else BatchMessages(batches[0], results) + Transcript(batches[1..], results)
  }

  /** _continuation_messages; None is the contract error. */
  function Continuation(calls: seq<Call>, results: seq<Result>): Option<seq<Message>> {
    if calls == [] && results == [] then Some([])
    else if !Accepts(calls, results) || !CallsOk(calls) then None
    else Some(Transcript(Batches(calls), results))
  }

  lemma Associates<T>(a: seq<T>, b: seq<T>, c: seq<T>)
    ensures a + (b + c) == (a + b) + c
  {
  }

  /** What is done and what is to come make up the whole transcript. */
  ghost predicate SoFar(messages: seq<Message>, group: seq<Call>, calls: seq<Call>, i: int, results: seq<Result>)
    requires 0 <= i <= |calls|
  {
    messages + Transcript(GroupFrom(group, calls[i..]), results) == Transcript(Batches(calls), results)
  }

  lemma ClosingBatch(messages: seq<Message>, group: seq<Call>, calls: seq<Call>, i: int, results: seq<Result>)
    requires 0 <= i < |calls| && SoFar(messages, group, calls, i, results)
    requires group != [] && calls[i].assistant != group[|group| - 1].assistant
    ensures SoFar(messages + BatchMessages(group, results), [calls[i]], calls, i + 1, results)
  {
    var more := GroupFrom([calls[i]], calls[i + 1..]);
    assert calls[i..][0] == calls[i] && calls[i..][1..] == calls[i + 1..];
    assert ([group] + more)[1..] == more;
    Associates(messages, BatchMessages(group, results), Transcript(more, results));
  }

  lemma ExtendingBatch(messages: seq<Message>, group: seq<Call>, calls: seq<Call>, i: int, results: seq<Result>)
    requires 0 <= i < |calls| && SoFar(messages, group, calls, i, results)
    requires group == [] || calls[i].assistant == group[|group| - 1].assistant
    ensures SoFar(messages, group + [calls[i]], calls, i + 1, results)
  {
    assert calls[i..][0] == calls[i] && calls[i..][1..] == calls[i + 1..];
  }

  lemma LastBatch(messages: seq<Message>, group: seq<Call>, calls: seq<Call>, results: seq<Result>)
    requires SoFar(messages, group, calls, |calls|, results)
    ensures messages + BatchMessages(group, results) == Transcript(Batches(calls), results)
  {
    assert calls[|calls|..] == [];
    if group == [] {
      assert messages + [] == messages;
    } else {
      assert [group][1..] == [];
      assert Transcript([group], results) == BatchMessages(group, results) + [];
    }
  }

  /** The grouping loop of _continuation_messages. */
  method GroupCalls(calls: seq<Call>, results: seq<Result>) returns (r: Option<seq<Message>>)
    ensures r == if CallsOk(calls) then Some(Transcript(Batches(calls), results)) else None
  {
    var messages: seq<Message>, group: seq<Call> := [], [];
    assert calls[0..] == calls && SoFar([], [], calls, 0, results);
    for i := 0 to |calls|
      invariant forall j | 0 <= j < i :: CallOk(calls[j])
      invariant SoFar(messages, group, calls, i, results)
    {
      var call := calls[i];
      if !CallOk(call) {
        return None;
      }
      if group != [] && call.assistant != group[|group| - 1].assistant {
        ClosingBatch(messages, group, calls, i, results);
        messages := messages + BatchMessages(group, results);
        group := [call];
      } else {
        ExtendingBatch(messages, group, calls, i, results);
        group := group + [call];
      }
    }
    LastBatch(messages, group, calls, results);
    r := Some(messages + BatchMessages(group, results));
  }

  /** _continuation_messages */
  method ContinuationMessages(calls: seq<Call>, results: seq<Result>) returns (r: Option<seq<Message>>)
    ensures r == Continuation(calls, results)
  {
    if calls == [] && results == [] {
      return Some([]);
    }
    if !Accepts(calls, results) {
      return None;
    }
    r := GroupCalls(calls, results);
  }

  // ---- Why it never refuses the loop's calls ------------------------------------------------

  ghost predicate NonBlankIds(rows: seq<CallRow>) {
    forall i | 0 <= i < |rows| :: rows[i].providerId.Some? && !Blank(rows[i].providerId.value)
  }

  lemma ResultsMatchCalls(rows: seq<CallRow>, results: map<Id, ResultRow>, calls: seq<Call>)
    requires DonePrefix(rows, results, |rows|) && DistinctIds(rows) && |calls| == |rows|
    requires forall i | 0 <= i < |rows| :: calls[i].id == rows[i].id
    ensures CallIdsDistinct(calls) && ResultIdsDistinct(ResultsOf(rows, results))
    ensures SameIds(calls, ResultsOf(rows, results))
  {
    var r := ResultsOf(rows, results);
    ResultsAt(rows, results, |rows|);
    forall i | 0 <= i < |rows| ensures HasResult(r, calls[i].id) && HasCall(calls, r[i].call) {
      assert r[i] in r && calls[i] in calls;
    }
  }

  lemma ConsistentCallsOk(rows: seq<CallRow>)
    requires Consistent(rows) && NonBlankIds(rows)
    ensures CallsOk(Views(rows)) && Dedupe(Assistants(Views(rows))) == UpTo(|Dedupe(Assistants(Views(rows)))|)
    ensures Numbered(Views(rows)) && ProviderIdsDistinct(Views(rows))
  {
    forall i | 0 <= i < |rows| ensures CallOk(Views(rows)[i]) {
      assert Executable(rows[i]);
    }
  }

  /** Whenever the loop calls the LLM, nothing is pending and the adapter accepts what it is given. */
  lemma AdapterAccepts(db: Db, c: Context)
    requires Restarts(db, c) && DistinctIds(db.rows) && NonBlankIds(db.rows) && c.pending == []
    ensures Accepts(c.calls, c.results) && CallsOk(c.calls)
    ensures Continuation(c.calls, c.results) == Some(Transcript(Batches(c.calls), c.results))
  {
    AllDone(db.rows, db.results, |c.results|);
    ResultsMatchCalls(db.rows, db.results, c.calls);
    ConsistentCallsOk(db.rows);
  }

  // ---- What the messages say ----------------------------------------------------------------

  /** The assistant messages of a transcript, read back. */
  function CallsIn(messages: seq<Message>): seq<WireCall> {
    if messages == [] then []
    else (if messages[0].AssistantCalls? then messages[0].calls else []) + CallsIn(messages[1..])
  }

  function RepliesIn(messages: seq<Message>): seq<Message> {
    if messages == [] then []
    else (if messages[0].ToolReply? then [messages[0]] else []) + RepliesIn(messages[1..])
  }

  ghost predicate Answers(calls: seq<WireCall>, replies: seq<Message>) {
    |calls| <= |replies| && forall i | 0 <= i < |calls| :: replies[i].ToolReply? && replies[i].callId == calls[i].id
  }

  /** Each assistant message is followed by exactly one reply per call, in order, and then the next. */
  ghost predicate WellShaped(messages: seq<Message>)
    decreases |messages|
  {
    messages == [] ||
    (&& messages[0].AssistantCalls? && messages[0].calls != []
     && Answers(messages[0].calls, messages[1..])
     && WellShaped(messages[1..][|messages[0].calls|..]))
  }

  lemma {:induction false} CallsInConcat(a: seq<Message>, b: seq<Message>)
    ensures CallsIn(a + b) == CallsIn(a) + CallsIn(b)
  {
    if a == [] {
      assert a + b == b;
    } else {
      CallsInConcat(a[1..], b);
      assert (a + b)[1..] == a[1..] + b;
      Associates(if a[0].AssistantCalls? then a[0].calls else [], CallsIn(a[1..]), CallsIn(b));
    }
  }

  lemma {:induction false} RepliesInConcat(a: seq<Message>, b: seq<Message>)
    ensures RepliesIn(a + b) == RepliesIn(a) + RepliesIn(b)
  {
    if a == [] {
      assert a + b == b;
    } else {
      RepliesInConcat(a[1..], b);
      assert (a + b)[1..] == a[1..] + b;
      Associates(if a[0].ToolReply? then [a[0]] else [], RepliesIn(a[1..]), RepliesIn(b));
    }
  }

  lemma {:induction false} OnlyReplies(messages: seq<Message>)
    requires forall i | 0 <= i < |messages| :: messages[i].ToolReply?
    ensures CallsIn(messages) == [] && RepliesIn(messages) == messages
  {
    if messages != [] {
      OnlyReplies(messages[1..]);
    }
  }

  lemma AnswersPrefix(calls: seq<WireCall>, replies: seq<Message>, more: seq<Message>)
    requires Answers(calls, replies)
    ensures Answers(calls, replies + more) && (replies + more)[|calls|..] == replies[|calls|..] + more
  {
  }

  lemma {:induction false} WellShapedConcat(a: seq<Message>, b: seq<Message>)
    requires WellShaped(a) && WellShaped(b)
    ensures WellShaped(a + b)
    decreases |a|
  {
    if a == [] {
      assert a + b == b;
    } else {
      WellShapedConcat(a[1..][|a[0].calls|..], b);
      assert (a + b)[1..] == a[1..] + b && (a + b)[0] == a[0];
      AnswersPrefix(a[0].calls, a[1..], b);
    }
  }

  function Flatten(batches: seq<seq<Call>>): seq<Call> {
    if batches == [] then [] else batches[0] + Flatten(batches[1..])
  }

  predicate NoneEmpty(batches: seq<seq<Call>>) {
    forall i | 0 <= i < |batches| :: batches[i] != []
  }

  lemma {:induction false} GroupsPartition(group: seq<Call>, rest: seq<Call>)
    ensures Flatten(GroupFrom(group, rest)) == group + rest && NoneEmpty(GroupFrom(group, rest))
    decreases |rest|
  {
    if rest == [] {
      assert [group][1..] == [];
    } else if group != [] && rest[0].assistant != group[|group| - 1].assistant {
      GroupsPartition([rest[0]], rest[1..]);
      var more := GroupFrom([rest[0]], rest[1..]);
      assert ([group] + more)[1..] == more;
      assert [rest[0]] + rest[1..] == rest;
    } else {
      GroupsPartition(group + [rest[0]], rest[1..]);
      assert group + [rest[0]] + rest[1..] == group + rest;
    }
  }

  /** The batches are the calls, cut in order into non-empty pieces. */
  lemma BatchesPartition(calls: seq<Call>)
    ensures Flatten(Batches(calls)) == calls && NoneEmpty(Batches(calls))
  {
    GroupsPartition([], calls);
  }

  lemma BatchReads(batch: seq<Call>, results: seq<Result>)
    requires batch != []
    ensures CallsIn(BatchMessages(batch, results)) == WireCalls(batch)
    ensures RepliesIn(BatchMessages(batch, results)) == Replies(batch, results)
  {
    var m, replies := BatchMessages(batch, results), Replies(batch, results);
    OnlyReplies(replies);
    assert m[1..] == replies;
  }

  lemma BatchIsWellShaped(batch: seq<Call>, results: seq<Result>)
    requires batch != []
    ensures WellShaped(BatchMessages(batch, results))
  {
    var m, replies := BatchMessages(batch, results), Replies(batch, results);
    assert m[1..] == replies;
    assert Answers(WireCalls(batch), replies);
    assert replies[|batch|..] == [];
  }

  lemma {:induction false} TranscriptReads(batches: seq<seq<Call>>, results: seq<Result>)
    requires NoneEmpty(batches)
    ensures var t := Transcript(batches, results);
      && WellShaped(t) && CallsIn(t) == WireCalls(Flatten(batches))
      && RepliesIn(t) == Replies(Flatten(batches), results)
  {
    if batches != [] {
      var first, rest := batches[0], batches[1..];
      TranscriptReads(rest, results);
      BatchReads(first, results);
      BatchIsWellShaped(first, results);
      CallsInConcat(BatchMessages(first, results), Transcript(rest, results));
      RepliesInConcat(BatchMessages(first, results), Transcript(rest, results));
      WellShapedConcat(BatchMessages(first, results), Transcript(rest, results));
      WireConcat(first, Flatten(rest), results);
    }
  }

  lemma WireConcat(a: seq<Call>, b: seq<Call>, results: seq<Result>)
    ensures WireCalls(a + b) == WireCalls(a) + WireCalls(b)
    ensures Replies(a + b, results) == Replies(a, results) + Replies(b, results)
  {
  }

  lemma {:induction false} DataOfResult(results: seq<Result>, i: nat)
    requires i < |results| && ResultIdsDistinct(results)
    ensures DataOf(results, results[i].call) == results[i].data
  {
    if i < |results| - 1 {
      DataOfResult(results[..|results| - 1], i);
    }
  }

  /** One reply per call, in order: the call's provider id with the data stored under the call's id. */
  ghost predicate CarryData(replies: seq<Message>, calls: seq<Call>, results: seq<Result>) {
    && |replies| == |calls|
    && forall i, j | 0 <= i < |calls| && 0 <= j < |results| && results[j].call == calls[i].id ::
         replies[i] == ToolReply(calls[i].providerId, results[j].data)
  }

  lemma RepliesCarryData(calls: seq<Call>, results: seq<Result>)
    requires ResultIdsDistinct(results)
    ensures CarryData(Replies(calls, results), calls, results)
  {
    forall i, j | 0 <= i < |calls| && 0 <= j < |results| && results[j].call == calls[i].id
      ensures Replies(calls, results)[i] == ToolReply(calls[i].providerId, results[j].data)
    {
      DataOfResult(results, j);
    }
  }

  /** Reading the transcript back gives the original calls, each with its stored result; batch by
      batch, one assistant message precedes exactly its replies. */
  lemma TranscriptIsFaithful(calls: seq<Call>, results: seq<Result>)
    ensures var t := Transcript(Batches(calls), results);
      && WellShaped(t) && CallsIn(t) == WireCalls(calls) && |RepliesIn(t)| == |calls|
      && (ResultIdsDistinct(results) ==> CarryData(RepliesIn(t), calls, results))
  {
    BatchesPartition(calls);
    TranscriptReads(Batches(calls), results);
    if ResultIdsDistinct(results) {
      RepliesCarryData(calls, results);
    }
  }

  ghost predicate AllOf(batch: seq<Call>, assistant: int) {
    forall i | 0 <= i < |batch| :: batch[i].assistant == assistant
  }

  ghost predicate NumberedFrom(batches: seq<seq<Call>>, first: int) {
    forall k | 0 <= k < |batches| :: AllOf(batches[k], first + k)
  }

  ghost predicate StepsOn(calls: seq<Call>, before: int) {
    && (calls != [] ==> calls[0].assistant == before || calls[0].assistant == before + 1)
    && forall i | 0 < i < |calls| ::
         calls[i].assistant == calls[i - 1].assistant || calls[i].assistant == calls[i - 1].assistant + 1
  }

  lemma {:induction false} GroupsAreNumbered(group: seq<Call>, rest: seq<Call>, assistant: int)
    requires group != [] && AllOf(group, assistant) && StepsOn(rest, assistant)
    ensures NumberedFrom(GroupFrom(group, rest), assistant)
    decreases |rest|
  {
    if rest != [] {
      assert StepsOn(rest[1..], rest[0].assistant);
      if rest[0].assistant != assistant {
        GroupsAreNumbered([rest[0]], rest[1..], assistant + 1);
        var more := GroupFrom([rest[0]], rest[1..]);
        assert forall k | 0 < k < |[group] + more| :: ([group] + more)[k] == more[k - 1];
      } else {
        GroupsAreNumbered(group + [rest[0]], rest[1..], assistant);
      }
    }
  }

  /** With calls numbered as a restart insists, the k-th assistant message holds exactly batch k. */
  lemma BatchesAreNumbered(calls: seq<Call>)
    requires StepsByOne(Assistants(calls))
    ensures NumberedFrom(Batches(calls), 1)
  {
    if calls != [] {
      var a := Assistants(calls);
      assert calls[0].assistant == a[0] == 1;
      forall i | 0 < i < |calls|
        ensures calls[i].assistant == calls[i - 1].assistant || calls[i].assistant == calls[i - 1].assistant + 1
      {
        assert a[i] == a[i - 1] || a[i] == a[i - 1] + 1;
      }
      assert forall i | 0 < i < |calls| :: calls[1..][i - 1] == calls[i];
      GroupsAreNumbered([calls[0]], calls[1..], 1);
      assert [] + [calls[0]] == [calls[0]];
    }
  }
}
