/** What the two structural checks on a run's calls mean: the one a restart makes on the rows, and
    the one the LLM adapter makes on calls and results. */
module ToolChecks {
  import opened Text
  import opened ToolMessages
  import opened ToolRun
  import opened ToolState
  import opened Wrappers

  // ---- A restart ----------------------------------------------------------------------------

  /** Every column that a continuation needs is there and within its bounds. */
  predicate HasColumns(row: CallRow) {
    && row.providerId.Some? && 0 < |row.providerId.value| < 256 && row.providerType == Some("function")
    && row.json.Some? && 2 <= |row.json.value.text| <= 12000
    && row.assistant.Some? && 0 < row.assistant.value && 0 < row.sequence
    && (row.tool.Unregistered? ==> 0 < |row.tool.name| <= 100)
  }

  predicate AllColumns(rows: seq<CallRow>) {
    forall i | 0 <= i < |rows| :: HasColumns(rows[i])
  }

  predicate BatchesStep(rows: seq<CallRow>)
    requires forall i | 0 <= i < |rows| :: rows[i].assistant.Some?
  {
    && (rows != [] ==> rows[0].assistant.value == 1)
    && forall i | 0 < i < |rows| ::
         || rows[i].assistant.value == rows[i - 1].assistant.value
         || rows[i].assistant.value == rows[i - 1].assistant.value + 1
  }

  /** The rows are calls of registered tools, one after another, in batches numbered without a gap,
      and the provider's text says what the stored arguments say. */
  predicate IsRun(rows: seq<CallRow>)
    requires AllColumns(rows)
  {
    && (forall i | 0 <= i < |rows| ::
          && rows[i].sequence == i + 1 && !rows[i].tool.Unregistered?
          && rows[i].json.value.decoded == ObjectOf(rows[i].arguments))
    && (forall i, j | 0 <= i < j < |rows| :: rows[i].providerId != rows[j].providerId)
    && BatchesStep(rows)
  }

  lemma NumberedIff(rows: seq<CallRow>)
    requires AllComplete(rows)
    ensures Numbered(Views(rows)) <==> forall i | 0 <= i < |rows| :: rows[i].sequence == i + 1
    ensures ProviderIdsDistinct(Views(rows)) <==>
      forall i, j | 0 <= i < j < |rows| :: rows[i].providerId != rows[j].providerId
  {
    hide Numbered, ProviderIdsDistinct;
    var calls := Views(rows);
    assert Shows(calls, rows);
    SequencesIff(rows, calls);
    DistinctIff(rows, calls);
  }

  ghost predicate Shows(calls: seq<Call>, rows: seq<CallRow>) {
    |calls| == |rows| && forall i | 0 <= i < |rows| ::
      rows[i].providerId == Some(calls[i].providerId) && rows[i].sequence == calls[i].sequence
  }

  lemma SequencesIff(rows: seq<CallRow>, calls: seq<Call>)
    requires Shows(calls, rows)
    ensures Numbered(calls) <==> forall i | 0 <= i < |rows| :: rows[i].sequence == i + 1
  {
    if Numbered(calls) {
      forall i | 0 <= i < |rows| ensures rows[i].sequence == i + 1 {
        assert calls[i].sequence == i + 1;
      }
    }
  }

  lemma DistinctIff(rows: seq<CallRow>, calls: seq<Call>)
    requires Shows(calls, rows)
    ensures ProviderIdsDistinct(calls) <==>
      forall i, j | 0 <= i < j < |rows| :: rows[i].providerId != rows[j].providerId
  {
    if ProviderIdsDistinct(calls) {
      forall i, j | 0 <= i < j < |rows| ensures rows[i].providerId != rows[j].providerId {
        assert calls[i].providerId != calls[j].providerId;
      }
    }
  }

  lemma BatchesIff(rows: seq<CallRow>)
    requires AllComplete(rows)
    ensures BatchesNumbered(Assistants(Views(rows))) <==> BatchesStep(rows)
  {
    hide BatchesNumbered, StepsByOne, BatchesStep, Assistants;
    var s := Assistants(Views(rows));
    BatchCheckMeans(s);
    if StepsByOne(s) {
      StepsOfRows(rows, s);
    }
    if BatchesStep(rows) {
      StepsOfNumbers(rows, s);
    }
  }

  predicate Lists(s: seq<int>, rows: seq<CallRow>)
    requires AllComplete(rows)
  {
    |s| == |rows| && forall i | 0 <= i < |rows| :: s[i] == rows[i].assistant.value
  }

  lemma StepsOfRows(rows: seq<CallRow>, s: seq<int>)
    requires AllComplete(rows) && Lists(s, rows) && StepsByOne(s)
    ensures BatchesStep(rows)
  {
    forall i | 0 < i < |rows|
      ensures rows[i].assistant.value == rows[i - 1].assistant.value
              || rows[i].assistant.value == rows[i - 1].assistant.value + 1
    {
      assert s[i] == s[i - 1] || s[i] == s[i - 1] + 1;
    }
  }

  lemma StepsOfNumbers(rows: seq<CallRow>, s: seq<int>)
    requires AllComplete(rows) && Lists(s, rows) && BatchesStep(rows)
    ensures StepsByOne(s)
  {
    forall i | 0 < i < |s| ensures s[i] == s[i - 1] || s[i] == s[i - 1] + 1 {
      assert s[i] == rows[i].assistant.value && s[i - 1] == rows[i - 1].assistant.value;
    }
  }

  lemma ConsistentIff(rows: seq<CallRow>)
    requires AllColumns(rows)
    ensures AllComplete(rows) && (Consistent(rows) <==> IsRun(rows))
  {
    hide BatchesNumbered, Numbered, ProviderIdsDistinct, BatchesStep;
    assert AllComplete(rows);
    NumberedIff(rows);
    BatchesIff(rows);
    if IsRun(rows) {
      assert forall i | 0 <= i < |rows| :: Executable(rows[i]);
    }
    if Consistent(rows) {
      assert forall i | 0 <= i < |rows| ::
        Executable(rows[i]) && rows[i].json.value.decoded == ObjectOf(rows[i].arguments);
    }
  }

  /** The first call, in order, whose result is a failure with this error. */
  ghost predicate FailsFirst(rows: seq<CallRow>, results: map<Id, ResultRow>, error: string) {
    exists i | 0 <= i < |rows| ::
      && rows[i].id in results && results[rows[i].id].error == Some(error)
      && forall j | 0 <= j < i && rows[j].id in results :: results[rows[j].id].error == None
  }

  lemma {:induction false} FirstErrorMeans(rows: seq<CallRow>, results: map<Id, ResultRow>)
    ensures match FirstError(rows, results)
      case None => forall i | 0 <= i < |rows| && rows[i].id in results :: results[rows[i].id].error == None
      case Some(error) => FailsFirst(rows, results, error)
  {
    if rows != [] {
      var before, last := rows[..|rows| - 1], |rows| - 1;
      FirstErrorMeans(before, results);
      match FirstError(before, results)
      case Some(error) =>
        var i :| 0 <= i < |before| && before[i].id in results && results[before[i].id].error == Some(error)
          && forall j | 0 <= j < i && before[j].id in results :: results[before[j].id].error == None;
        assert rows[i] == before[i] && forall j | 0 <= j < i :: rows[j] == before[j];
      case None =>
        assert forall i | 0 <= i < last :: rows[i] == before[i];
        if rows[last].id in results && results[rows[last].id].error.Some? {
          assert FirstError(rows, results) == results[rows[last].id].error;
        }
    }
  }

  /** A restart refuses the rows exactly when a column is missing or they are no run; otherwise it
      raises the error of the first failed call, and without one it loads the calls as stored. */
  lemma RestartMeans(rows: seq<CallRow>, results: map<Id, ResultRow>)
    ensures if !AllColumns(rows) then
        LoadToolState(rows, results) == LoadError(INCOMPLETE)
      else if !IsRun(rows) then LoadToolState(rows, results) == LoadError(INVALID)
      else
        match LoadToolState(rows, results)
        case LoadError(error) => FailsFirst(rows, results, error)
        case Loaded(c) =>
          && (forall i | 0 <= i < |rows| && rows[i].id in results :: results[rows[i].id].error == None)
          && |c.calls| == |rows| && c.nextSequence == |rows| + 1
          && c.nextAssistant == (if rows == [] then 1 else rows[|rows| - 1].assistant.value + 1)
          && forall i | 0 <= i < |rows| ::
               c.calls[i] == Call(rows[i].id, rows[i].providerId.value, rows[i].tool, rows[i].json.value,
                                  rows[i].assistant.value, rows[i].sequence)
  {
    hide IsRun, Consistent, FirstError, FailsFirst;
    if AllColumns(rows) {
      ConsistentIff(rows);
      FirstErrorMeans(rows, results);
      if IsRun(rows) {
        NextBatch(rows);
      }
    } else {
      var i :| 0 <= i < |rows| && !HasColumns(rows[i]);
      assert !Complete(rows[i]);
    }
  }

  lemma NextBatch(rows: seq<CallRow>)
    requires Consistent(rows)
    ensures Greatest(Assistants(Views(rows))) == if rows == [] then 0 else rows[|rows| - 1].assistant.value
  {
    var s := Assistants(Views(rows));
    BatchCheckMeans(s);
    GreatestIsLast(s);
  }

  // ---- The adapter --------------------------------------------------------------------------

  predicate OnlyResultOf(results: seq<Result>, id: Id, j: int) {
    0 <= j < |results| && results[j].call == id && forall k | 0 <= k < |results| && results[k].call == id :: k == j
  }

  predicate OnlyCallOf(calls: seq<Call>, id: Id, i: int) {
    0 <= i < |calls| && calls[i].id == id && forall k | 0 <= k < |calls| && calls[k].id == id :: k == i
  }

  ghost predicate HasOnlyResult(results: seq<Result>, id: Id) {
    exists j :: OnlyResultOf(results, id, j)
  }

  ghost predicate HasOnlyCall(calls: seq<Call>, id: Id) {
    exists i :: OnlyCallOf(calls, id, i)
  }

  /** Every call has exactly one result and every result exactly one call. */
  ghost predicate OneToOne(calls: seq<Call>, results: seq<Result>) {
    && (forall i | 0 <= i < |calls| :: HasOnlyResult(results, calls[i].id))
    && (forall j | 0 <= j < |results| :: HasOnlyCall(calls, results[j].call))
  }

  lemma OnlyResult(results: seq<Result>, id: Id)
    requires ResultIdsDistinct(results) && HasResult(results, id)
    ensures HasOnlyResult(results, id)
  {
    var r :| r in results && r.call == id;
    var j :| 0 <= j < |results| && results[j] == r;
    assert OnlyResultOf(results, id, j);
  }

  lemma OnlyCall(calls: seq<Call>, id: Id)
    requires CallIdsDistinct(calls) && HasCall(calls, id)
    ensures HasOnlyCall(calls, id)
  {
    var c :| c in calls && c.id == id;
    var i :| 0 <= i < |calls| && calls[i] == c;
    assert OnlyCallOf(calls, id, i);
  }

  lemma PairedIsOneToOne(calls: seq<Call>, results: seq<Result>)
    requires CallIdsDistinct(calls) && ResultIdsDistinct(results) && SameIds(calls, results)
    ensures OneToOne(calls, results)
  {
    forall i | 0 <= i < |calls| ensures HasOnlyResult(results, calls[i].id) {
      OnlyResult(results, calls[i].id);
    }
    forall j | 0 <= j < |results| ensures HasOnlyCall(calls, results[j].call) {
      OnlyCall(calls, results[j].call);
    }
  }

  lemma ResultOfOnly(results: seq<Result>, id: Id) returns (j: int)
    requires HasOnlyResult(results, id)
    ensures HasResult(results, id) && OnlyResultOf(results, id, j)
  {
    j :| OnlyResultOf(results, id, j);
    assert results[j] in results;
  }

  lemma CallOfOnly(calls: seq<Call>, id: Id) returns (i: int)
    requires HasOnlyCall(calls, id)
    ensures HasCall(calls, id) && OnlyCallOf(calls, id, i)
  {
    i :| OnlyCallOf(calls, id, i);
    assert calls[i] in calls;
  }

  lemma OneToOneIsPaired(calls: seq<Call>, results: seq<Result>)
    requires OneToOne(calls, results)
    ensures CallIdsDistinct(calls) && ResultIdsDistinct(results) && SameIds(calls, results)
  {
    hide HasOnlyResult, HasOnlyCall, HasResult, HasCall;
    forall i | 0 <= i < |calls|
      ensures HasResult(results, calls[i].id)
      ensures forall k | 0 <= k < |calls| && calls[k].id == calls[i].id :: k == i
    {
      var j := ResultOfOnly(results, calls[i].id);
      var only := CallOfOnly(calls, results[j].call);
    }
    forall j | 0 <= j < |results|
      ensures HasCall(calls, results[j].call)
      ensures forall k | 0 <= k < |results| && results[k].call == results[j].call :: k == j
    {
      var i := CallOfOnly(calls, results[j].call);
      var only := ResultOfOnly(results, calls[i].id);
    }
  }

  /** Each number is one, or its predecessor came before it: new numbers appear in counting order. */
  predicate InOrder(s: seq<int>) {
    forall i | 0 <= i < |s| :: s[i] == 1 || (s[i] > 1 && s[i] - 1 in s[..i])
  }

  lemma {:induction false} UpToHolds(n: nat, x: int)
    ensures x in UpTo(n) <==> 1 <= x <= n
  {
    if 1 <= x <= n {
      assert UpTo(n)[x - 1] == x;
    }
  }

  lemma {:induction false} FirstSeenInOrder(s: seq<int>)
    ensures Dedupe(s) == UpTo(|Dedupe(s)|) <==> InOrder(s)
  {
    if s != [] {
      var before, last := s[..|s| - 1], s[|s| - 1];
      FirstSeenInOrder(before);
      LastInOrder(s);
      LastCounted(Dedupe(before), last);
    }
  }

  lemma LastInOrder(s: seq<int>)
    requires s != []
    ensures var before, last := s[..|s| - 1], s[|s| - 1];
      InOrder(s) <==> InOrder(before) && (last == 1 || (last > 1 && last - 1 in before))
  {
    var before, last := s[..|s| - 1], |s| - 1;
    assert s[..last] == before;
    if InOrder(s) {
      forall i | 0 <= i < |before| ensures before[i] == 1 || (before[i] > 1 && before[i] - 1 in before[..i]) {
        assert before[..i] == s[..i] && before[i] == s[i];
      }
    }
    if InOrder(before) && (s[last] == 1 || (s[last] > 1 && s[last] - 1 in before)) {
      forall i | 0 <= i < |s| ensures s[i] == 1 || (s[i] > 1 && s[i] - 1 in s[..i]) {
        if i < last {
          assert before[..i] == s[..i] && before[i] == s[i];
        }
      }
    }
  }

  /** Counting goes on with a number that was counted already or with the next one. */
  lemma LastCounted(d: seq<int>, last: int)
    ensures var after := if last in d then d else d + [last];
      after == UpTo(|after|) <==> d == UpTo(|d|) && (last == 1 || (last > 1 && last - 1 in d))
  {
    UpToHolds(|d|, last);
    UpToHolds(|d|, last - 1);
    if last !in d {
      var after := d + [last];
      assert UpTo(|after|) == UpTo(|d|) + [|after|];
      if after == UpTo(|after|) {
        assert d == after[..|d|] == UpTo(|d|);
        assert last == after[|d|];
      }
    }
  }

  /** What the adapter sends: nothing for no call and no result, and otherwise a transcript exactly
      when calls and results pair off, the calls are numbered and in batches that start in counting
      order, and every call is usable. */
  lemma AdapterSendsIff(calls: seq<Call>, results: seq<Result>)
    ensures Continuation(calls, results).Some? <==>
      || (calls == [] && results == [])
      || (&& OneToOne(calls, results) && InOrder(Assistants(calls))
          && (forall i, j | 0 <= i < j < |calls| :: calls[i].providerId != calls[j].providerId)
          && forall i | 0 <= i < |calls| ::
               && calls[i].sequence == i + 1 && !calls[i].tool.Unregistered?
               && calls[i].json.decoded.ObjectOf? && !Blank(calls[i].providerId))
  {
    hide Dedupe, UpTo, OneToOne, CallsOk, CallOk, InOrder, SameIds, Blank, Transcript;
    hide CallIdsDistinct, ResultIdsDistinct;
    FirstSeenInOrder(Assistants(calls));
    if CallIdsDistinct(calls) && ResultIdsDistinct(results) && SameIds(calls, results) {
      PairedIsOneToOne(calls, results);
    }
    if OneToOne(calls, results) {
      OneToOneIsPaired(calls, results);
    }
    UsableCalls(calls);
  }

  lemma UsableCalls(calls: seq<Call>)
    ensures CallsOk(calls) <==>
      forall i | 0 <= i < |calls| ::
        calls[i].json.decoded.ObjectOf? && !calls[i].tool.Unregistered? && !Blank(calls[i].providerId)
  {
    hide Blank;
    if CallsOk(calls) {
      assert forall i | 0 <= i < |calls| :: CallOk(calls[i]);
    }
  }

  // ---- A resolved proposal ------------------------------------------------------------------

  lemma ReplacedResult(rows: seq<CallRow>, results: map<Id, ResultRow>, k: int, j: int, row: ResultRow)
    requires DonePrefix(rows, results, k) && 0 <= j < k && DistinctIds(rows)
    ensures var next := results[rows[j].id := row];
      && DonePrefix(rows, next, k) && PendingOf(rows, next) == PendingOf(rows, results)
      && |ResultsOf(rows, results)| == k
      && ResultsOf(rows, next) == ResultsOf(rows, results)[j := Result(rows[j].id, row.data, row.refs)]
  {
    var next := results[rows[j].id := row];
    assert DonePrefix(rows, next, k);
    ResultsAt(rows, results, k);
    ResultsAt(rows, next, k);
    PendingIsSuffix(rows, results, k);
    PendingIsSuffix(rows, next, k);
  }

  lemma ReplacedSucceeds(rows: seq<CallRow>, results: map<Id, ResultRow>, id: Id, row: ResultRow)
    requires FirstError(rows, results) == None && row.error == None
    ensures FirstError(rows, results[id := row]) == None
  {
    NoErrorMeans(rows, results);
    NoErrorMeans(rows, results[id := row]);
  }

  /** When the user confirms or rejects a proposal, a restart finds the resolution's data in place of
      the proposal's result, and everything else as it was. */
  lemma ResolutionRestarts(db: Db, c: Context, j: nat, data: Data, refs: Refs, confirmed: bool)
    requires Restarts(db, c) && DistinctIds(db.rows) && j < |c.results|
    ensures var after := ResolveTx(db, db.rows[j].id, data, refs, confirmed);
      && Restarts(after, c.(results := c.results[j := Result(db.rows[j].id, data, refs)]))
      && c.results[j].call == db.rows[j].id
      && if confirmed && db.state != WaitingConfirmation
         then after.state == db.state && after.finalMessage == db.finalMessage
         else after.state == Running && after.finalMessage == None
  {
    hide Consistent;
    var row := ResultRow(data, refs, None);
    ReplacedResult(db.rows, db.results, |c.results|, j, row);
    ReplacedSucceeds(db.rows, db.results, db.rows[j].id, row);
    ResultsAt(db.rows, db.results, |c.results|);
  }
}
