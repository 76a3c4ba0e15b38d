/** The durable state of one run's tool calls, and what a restart rebuilds from it. */
module ToolState {
  import opened Wrappers

  type Id = nat

  /** An argument object, up to the equality of decoded JSON. */
  type Arguments = string

  datatype Decoded = ObjectOf(arguments: Arguments) | OtherValue | Unreadable

  /** The provider's argument text with what json.loads makes of it. */
  datatype ArgumentsJson = ArgumentsJson(text: string, decoded: Decoded)

  datatype ToolName =
    | SearchApplications | GetApplication | GetApplicationStatus | GetStatusHistory
    | SearchMails | GetRecentMails | GetMailAnalysis | GetMailContent
    | SearchKnowledge | ParseDocument
    | UpdateApplicationStatus | AddKnowledge | RemoveKnowledge
    | Unregistered(name: string)

  predicate IsWrite(name: ToolName) {
    name.UpdateApplicationStatus? || name.AddKnowledge? || name.RemoveKnowledge?
  }

  /** A row of tool_calls; the provider columns are nullable for rows older than continuations. */
  datatype CallRow = CallRow(
    id: Id, tool: ToolName, arguments: Arguments, providerId: Option<string>, providerType: Option<string>,
    json: Option<ArgumentsJson>, assistant: Option<int>, sequence: int)

  type Refs = map<string, Option<string>>

  /** What a result says: a tool's output, a frozen proposal, or the handling of a malformed batch. */
  datatype Data =
    | Output(text: string)
    | Clarification(malformed: ToolName, reason: string)
    | Cancelled(skipped: ToolName)

  datatype ResultRow = ResultRow(data: Data, refs: Refs, error: Option<string>)

  /** A call and a result as the prompt carries them, and a call still to be executed. */
  datatype Call = Call(id: Id, providerId: string, tool: ToolName, json: ArgumentsJson, assistant: int, sequence: int)

  datatype Result = Result(call: Id, data: Data, refs: Refs)

  datatype Pending = Pending(id: Id, tool: ToolName, arguments: Arguments)

  /** What one run's conversation with the LLM continues from. */
  datatype Context = Context(
    calls: seq<Call>, results: seq<Result>, pending: seq<Pending>, nextSequence: int, nextAssistant: int)

  datatype Load = Loaded(context: Context) | LoadError(error: string)

  const INCOMPLETE := "tool continuation metadata is incomplete"
  const INVALID := "tool continuation metadata is invalid"

  // ---- load_tool_state ----------------------------------------------------------------------

  /** The row passes the validation of PromptToolCall. */
  predicate Complete(row: CallRow) {
    && row.providerId.Some? && 1 <= |row.providerId.value| <= 255
    && row.providerType == Some("function")
    && (row.tool.Unregistered? ==> 1 <= |row.tool.name| <= 100)
    && row.json.Some? && 2 <= |row.json.value.text| <= 12000
    && row.assistant.Some? && row.assistant.value > 0
    && row.sequence > 0
  }

  function View(row: CallRow): Call
    requires Complete(row)
  {
    Call(row.id, row.providerId.value, row.tool, row.json.value, row.assistant.value, row.sequence)
  }

  predicate AllComplete(rows: seq<CallRow>) {
    forall i | 0 <= i < |rows| :: Complete(rows[i])
  }

  function Views(rows: seq<CallRow>): (calls: seq<Call>)
    requires AllComplete(rows)
    ensures |calls| == |rows| && forall i | 0 <= i < |rows| :: calls[i] == View(rows[i])
  {
    if rows == [] then [] else Views(rows[..|rows| - 1]) + [View(rows[|rows| - 1])]
  }

  function Assistants(calls: seq<Call>): (r: seq<int>)
    ensures |r| == |calls| && forall i | 0 <= i < |calls| :: r[i] == calls[i].assistant
  {
    if calls == [] then [] else Assistants(calls[..|calls| - 1]) + [calls[|calls| - 1].assistant]
  }

  predicate ProviderIdsDistinct(calls: seq<Call>) {
    forall i, j | 0 <= i < j < |calls| :: calls[i].providerId != calls[j].providerId
  }

  predicate Numbered(calls: seq<Call>) {
    forall i | 0 <= i < |calls| :: calls[i].sequence == i + 1
  }

  predicate Sorted(s: seq<int>) {
    forall i, j | 0 <= i < j < |s| :: s[i] <= s[j]
  }

  /** list(dict.fromkeys(s)) */
  function Dedupe(s: seq<int>): (r: seq<int>)
    ensures forall x :: x in r <==> x in s
  {
    if s == [] then []
    else
      var before, last := Dedupe(s[..|s| - 1]), s[|s| - 1];
      assert s == s[..|s| - 1] + [last];
      if last in before then before else before + [last]
  }

  /** list(range(1, n + 1)) */
  function UpTo(n: nat): (r: seq<int>)
    ensures |r| == n && forall i | 0 <= i < n :: r[i] == i + 1
  {
    if n == 0 then [] else UpTo(n - 1) + [n]
  }

  predicate BatchesNumbered(s: seq<int>) {
    Sorted(s) && Dedupe(s) == UpTo(|Dedupe(s)|)
  }

  /** The decoded provider text is the stored argument object of a registered tool. */
  predicate Executable(row: CallRow) {
    row.json.Some? && row.json.value.decoded == ObjectOf(row.arguments) && !row.tool.Unregistered?
  }

  function ResultsOf(rows: seq<CallRow>, results: map<Id, ResultRow>): seq<Result> {
    if rows == [] then []
    else
      var last := rows[|rows| - 1];
      ResultsOf(rows[..|rows| - 1], results)
      + if last.id in results then [Result(last.id, results[last.id].data, results[last.id].refs)] else []
  }

  function PendingOf(rows: seq<CallRow>, results: map<Id, ResultRow>): seq<Pending> {
    if rows == [] then []
    else
      var last := rows[|rows| - 1];
      PendingOf(rows[..|rows| - 1], results)
      + if last.id in results then [] else [Pending(last.id, last.tool, last.arguments)]
  }

  function FirstError(rows: seq<CallRow>, results: map<Id, ResultRow>): Option<string> {
    if rows == [] then None
    else
      var last := rows[|rows| - 1];
      match FirstError(rows[..|rows| - 1], results)
      case Some(error) => Some(error)
      case None => if last.id in results then results[last.id].error else None
  }

  function Greatest(s: seq<int>): int {
    if s == [] then 0
    else
      var before, last := Greatest(s[..|s| - 1]), s[|s| - 1];
      if last > before then last else before
  }

  predicate Consistent(rows: seq<CallRow>) {
    && AllComplete(rows)
    && ProviderIdsDistinct(Views(rows)) && Numbered(Views(rows)) && BatchesNumbered(Assistants(Views(rows)))
    && forall i | 0 <= i < |rows| :: Executable(rows[i])
  }

  /** load_tool_state over the rows of one run in sequence order. */
  function LoadToolState(rows: seq<CallRow>, results: map<Id, ResultRow>): Load {
    if !AllComplete(rows) then LoadError(INCOMPLETE)
    else if !Consistent(rows) then LoadError(INVALID)
    else
      match FirstError(rows, results)
      case Some(error) => LoadError(error)
      case None =>
        Loaded(Context(Views(rows), ResultsOf(rows, results), PendingOf(rows, results),
                       |rows| + 1, Greatest(Assistants(Views(rows))) + 1))
  }

  // ---- What the batch check means -----------------------------------------------------------

  /** Batches are numbered from one, and the number stays or grows by one from call to call. */
  predicate StepsByOne(s: seq<int>) {
    (s != [] ==> s[0] == 1) && forall i | 0 < i < |s| :: s[i] == s[i - 1] || s[i] == s[i - 1] + 1
  }

  lemma {:induction false} StepsAreSorted(s: seq<int>)
    requires StepsByOne(s)
    ensures Sorted(s) && forall i | 0 <= i < |s| :: 1 <= s[i] <= s[|s| - 1]
  {
    if |s| > 1 {
      StepsAreSorted(s[..|s| - 1]);
    }
  }

  function Top(s: seq<int>): nat {
    if s == [] || s[|s| - 1] < 0 then 0 else s[|s| - 1]
  }

  lemma {:induction false} StepsDedupe(s: seq<int>)
    requires StepsByOne(s)
    ensures Dedupe(s) == UpTo(Top(s))
    ensures s != [] ==> s[|s| - 1] == Top(s) > 0
  {
    if s != [] {
      var before, last := s[..|s| - 1], s[|s| - 1];
      StepsDedupe(before);
      assert last == Top(before) || last == Top(before) + 1 by {
        if before != [] {
          assert before[|before| - 1] == s[|s| - 2];
        }
      }
      TopOnly(Top(before), last);
    }
  }

  lemma TopOnly(top: nat, last: int)
    requires last == top || last == top + 1
    ensures last in UpTo(top) <==> last == top && top > 0
    ensures last == top + 1 ==> UpTo(last) == UpTo(top) + [last]
  {
    if top > 0 {
      assert UpTo(top)[top - 1] == top;
    }
  }

  lemma {:induction false} NumberedBatchesStep(s: seq<int>)
    requires BatchesNumbered(s)
    ensures StepsByOne(s)
  {
    if s != [] {
      var before, last := s[..|s| - 1], s[|s| - 1];
      var d := Dedupe(before);
      assert d == UpTo(|d|) by {
        assert forall i | 0 <= i < |d| :: d[i] == Dedupe(s)[i] == i + 1;
      }
      NumberedBatchesStep(before);
      StepsDedupe(before);
      if last in d {
        assert before != [];
        assert last <= before[|before| - 1];
      } else {
        assert Dedupe(s)[|d|] == last == |d| + 1;
      }
    }
  }

  /** The check of load_tool_state on assistant numbers, in plain terms. */
  lemma BatchCheckMeans(s: seq<int>)
    ensures BatchesNumbered(s) <==> StepsByOne(s)
  {
    if BatchesNumbered(s) {
      NumberedBatchesStep(s);
    }
    if StepsByOne(s) {
      StepsAreSorted(s);
      StepsDedupe(s);
    }
  }

  lemma {:induction false} GreatestIsLast(s: seq<int>)
    requires StepsByOne(s)
    ensures Greatest(s) == if s == [] then 0 else s[|s| - 1]
  {
    if s != [] {
      GreatestIsLast(s[..|s| - 1]);
    }
  }
}
