/** The text that chunk_text cuts: the lines of a document without trailing white space, stripped as
    a whole.  Nothing but white space is lost on the way. */
module Normalizing {
  import opened Text

  predicate IsLineBreak(c: char) {
    var n := c as int;
    0x0A <= n <= 0x0D || 0x1C <= n <= 0x1E || n == 0x85 || n == 0x2028 || n == 0x2029
  }

  /** The ten characters str.splitlines breaks at, all of them white space. */
  lemma LineBreaks(c: char)
    ensures IsLineBreak(c) <==>
      c as int in {0x0A, 0x0B, 0x0C, 0x0D, 0x1C, 0x1D, 0x1E, 0x85, 0x2028, 0x2029}
    ensures IsLineBreak(c) ==> IsSpace(c)
  {
  }

  function LineLength(s: string): (n: nat)
    ensures n <= |s| && (forall i | 0 <= i < n :: !IsLineBreak(s[i])) && (n < |s| ==> IsLineBreak(s[n]))
  {
    if s == [] || IsLineBreak(s[0]) then 0 else 1 + LineLength(s[1..])
  }

  /** Where the second line starts; a carriage return and line feed end one line together. */
  function AfterLine(s: string): (next: nat)
    requires s != []
    ensures 0 < next <= |s| && LineLength(s) <= next
  {
    var n := LineLength(s);
    if n == |s| then n else if s[n] == '\r' && n + 1 < |s| && s[n + 1] == '\n' then n + 2 else n + 1
  }

  /** str.splitlines() */
  function Lines(s: string): seq<string>
    decreases |s|
  {
    if s == [] then [] else [s[..LineLength(s)]] + Lines(s[AfterLine(s)..])
  }

  function RightStripped(lines: seq<string>): seq<string> {
    seq(|lines|, i requires 0 <= i < |lines| => StripRight(lines[i]))
  }

  function Normalized(content: string): string {
    Strip(Join(RightStripped(Lines(content)), "\n"))
  }

  // ---- Lines --------------------------------------------------------------------------------

  /** Each line followed by its end. */
  function Glued(lines: seq<string>, ends: seq<string>): string
    requires |lines| == |ends|
  {
    if lines == [] then "" else lines[0] + ends[0] + Glued(lines[1..], ends[1..])
  }

  predicate IsEnd(end: string) {
    || (|end| == 1 && IsLineBreak(end[0]))
    || (|end| == 2 && end[0] == '\r' && end[1] == '\n')
  }

  predicate IsReturn(end: string) {
    |end| == 1 && end[0] == '\r'
  }

  predicate NoBreak(line: string) {
    forall i | 0 <= i < |line| :: !IsLineBreak(line[i])
  }

  /** Lines without breaks, with their ends between them; only the last may have none, and then it is
      not empty. */
  ghost predicate Cut(lines: seq<string>, ends: seq<string>) {
    && |lines| == |ends|
    && (forall i | 0 <= i < |lines| :: NoBreak(lines[i]))
    && (forall i | 0 <= i < |lines| :: IsEnd(ends[i]) || (ends[i] == "" && i == |lines| - 1 && lines[i] != ""))
    && (forall i | 0 <= i < |lines| - 1 && IsReturn(ends[i]) && lines[i + 1] == "" :: !StartsFeed(ends[i + 1]))
  }

  predicate StartsFeed(end: string) {
    end != "" && end[0] == '\n'
  }

  lemma FirstEnd(s: string)
    requires s != []
    ensures var n, next := LineLength(s), AfterLine(s);
      && n <= next <= |s| && 0 < next && NoBreak(s[..n])
      && (if n == |s| then n == next else IsEnd(s[n..next]))
      && (IsReturn(s[n..next]) && next < |s| ==> s[next] != '\n')
  {
    var n, next := LineLength(s), AfterLine(s);
    var end := s[n..next];
    assert |end| == next - n && (|end| > 0 ==> end[0] == s[n]) && (|end| > 1 ==> end[1] == s[n + 1]);
    assert forall i | 0 <= i < n :: s[..n][i] == s[i];
  }

  lemma CutFront(line: string, end: string, lines: seq<string>, ends: seq<string>)
    requires Cut(lines, ends) && NoBreak(line)
    requires IsEnd(end) || (end == "" && lines == [] && line != "")
    requires IsReturn(end) && lines != [] && lines[0] == "" ==> !StartsFeed(ends[0])
    ensures Cut([line] + lines, [end] + ends)
  {
    var allLines, allEnds := [line] + lines, [end] + ends;
    assert forall i | 0 < i < |allLines| :: allLines[i] == lines[i - 1] && allEnds[i] == ends[i - 1];
  }

  lemma GluedFront(line: string, end: string, lines: seq<string>, ends: seq<string>)
    requires |lines| == |ends|
    ensures Glued([line] + lines, [end] + ends) == line + end + Glued(lines, ends)
  {
    assert ([line] + lines)[1..] == lines && ([end] + ends)[1..] == ends;
  }

  lemma FeedStarts(lines: seq<string>, ends: seq<string>)
    requires |lines| == |ends| && lines != [] && lines[0] == "" && StartsFeed(ends[0])
    ensures StartsFeed(Glued(lines, ends))
  {
  }

  lemma ThreeParts(s: string, n: nat, next: nat)
    requires n <= next <= |s|
    ensures s == s[..n] + s[n..next] + s[next..]
  {
  }

  lemma CutStep(s: string, lines: seq<string>, ends: seq<string>)
    requires s != [] && Cut(lines, ends) && Glued(lines, ends) == s[AfterLine(s)..]
    ensures var n, next := LineLength(s), AfterLine(s);
      Cut([s[..n]] + lines, [s[n..next]] + ends) && Glued([s[..n]] + lines, [s[n..next]] + ends) == s
  {
    FirstEnd(s);
    hide Cut, IsEnd, NoBreak, Glued, LineLength, AfterLine, IsReturn, StartsFeed;
    var n, next := LineLength(s), AfterLine(s);
    EndOfText(s[next..], lines, ends);
    CutFront(s[..n], s[n..next], lines, ends);
    GluedFront(s[..n], s[n..next], lines, ends);
    ThreeParts(s, n, next);
  }

  lemma EndOfText(s: string, lines: seq<string>, ends: seq<string>)
    requires Cut(lines, ends) && Glued(lines, ends) == s
    ensures lines == [] <==> s == []
    ensures lines != [] && lines[0] == "" && s[0] != '\n' ==> !StartsFeed(ends[0])
  {
    if lines != [] {
      assert IsEnd(ends[0]) || lines[0] != "";
      if lines[0] == "" && StartsFeed(ends[0]) {
        FeedStarts(lines, ends);
      }
    }
  }

  /** The lines of a text are the text cut at its line ends. */
  lemma {:induction false} LinesAreCut(s: string) returns (ends: seq<string>)
    ensures Cut(Lines(s), ends) && Glued(Lines(s), ends) == s
    decreases |s|
  {
    ends := [];
    if s != [] {
      ends := LinesAreCut(s[AfterLine(s)..]);
      hide Cut, Glued, LineLength, AfterLine;
      CutStep(s, Lines(s[AfterLine(s)..]), ends);
      ends := [s[LineLength(s)..AfterLine(s)]] + ends;
    }
  }

  // ---- Nothing but white space is lost --------------------------------------------------------

  /** The characters that are not white space, in order. */
  function SolidChars(s: string): string {
    if s == [] then [] else (if IsSpace(s[0]) then [] else [s[0]]) + SolidChars(s[1..])
  }

  function SolidOfAll(lines: seq<string>): string {
    if lines == [] then [] else SolidChars(lines[0]) + SolidOfAll(lines[1..])
  }

  lemma {:induction false} SolidConcat(a: string, b: string)
    ensures SolidChars(a + b) == SolidChars(a) + SolidChars(b)
  {
    if a == [] {
      assert a + b == b;
    } else {
      assert (a + b)[1..] == a[1..] + b;
      SolidConcat(a[1..], b);
    }
  }

  lemma {:induction false} SolidBlank(s: string)
    requires Blank(s)
    ensures SolidChars(s) == []
  {
    if s != [] {
      SolidBlank(s[1..]);
    }
  }

  lemma StripRightKeeps(s: string)
    ensures SolidChars(StripRight(s)) == SolidChars(s)
  {
    var n := Trailing(s);
    assert s == s[..n] + s[n..];
    SolidConcat(s[..n], s[n..]);
    SolidBlank(s[n..]);
  }

  lemma StripKeeps(s: string)
    ensures SolidChars(Strip(s)) == SolidChars(s)
  {
    var n := Leading(s);
    assert s == s[..n] + s[n..];
    SolidConcat(s[..n], s[n..]);
    SolidBlank(s[..n]);
    StripRightKeeps(s[n..]);
  }

  lemma {:induction false} JoinKeeps(lines: seq<string>)
    ensures SolidChars(Join(lines, "\n")) == SolidOfAll(lines)
  {
    if |lines| == 1 {
      assert SolidOfAll(lines[1..]) == [];
    } else if |lines| > 1 {
      JoinKeeps(lines[1..]);
      SolidConcat(lines[0] + "\n", Join(lines[1..], "\n"));
      SolidConcat(lines[0], "\n");
      SolidBlank("\n");
    }
  }

  lemma {:induction false} GluedKeeps(lines: seq<string>, ends: seq<string>)
    requires |lines| == |ends| && forall i | 0 <= i < |ends| :: Blank(ends[i])
    ensures SolidChars(Glued(lines, ends)) == SolidOfAll(lines)
  {
    if lines != [] {
      GluedKeeps(lines[1..], ends[1..]);
      SolidConcat(lines[0] + ends[0], Glued(lines[1..], ends[1..]));
      SolidConcat(lines[0], ends[0]);
      SolidBlank(ends[0]);
    }
  }

  lemma {:induction false} RightStrippedKeeps(lines: seq<string>)
    ensures SolidOfAll(RightStripped(lines)) == SolidOfAll(lines)
  {
    if lines != [] {
      StripRightKeeps(lines[0]);
      RightStrippedKeeps(lines[1..]);
      assert RightStripped(lines)[1..] == RightStripped(lines[1..]);
    }
  }

  /** The characters of a document that are not white space are, in order, those of its normalised
      text. */
  lemma NormalizedKeepsText(content: string)
    ensures SolidChars(Normalized(content)) == SolidChars(content)
  {
    var lines := Lines(content);
    var ends := LinesAreCut(content);
    forall i | 0 <= i < |ends| ensures Blank(ends[i]) {
    }
    GluedKeeps(lines, ends);
    RightStrippedKeeps(lines);
    JoinKeeps(RightStripped(lines));
    StripKeeps(Join(RightStripped(lines), "\n"));
  }

  // ---- The lines of the text ------------------------------------------------------------------

  /** No white space at the end. */
  predicate Trimmed(s: string) {
    s != [] ==> !IsSpace(s[|s| - 1])
  }

  ghost predicate AllTrimmed(lines: seq<string>) {
    forall i | 0 <= i < |lines| :: Trimmed(lines[i])
  }

  /** What right-stripping makes of each line: it cuts the white space at the end, and no more. */
  lemma StrippedLines(lines: seq<string>, i: nat)
    requires i < |lines|
    ensures |RightStripped(lines)| == |lines| && AllTrimmed(RightStripped(lines))
    ensures var line := RightStripped(lines)[i]; line <= lines[i] && Blank(lines[i][|line|..])
  {
  }

  lemma {:induction false} LeadingPast(blank: string, s: string)
    requires Blank(blank)
    ensures Leading(blank + s) == |blank| + Leading(s)
  {
    if blank == [] {
      assert blank + s == s;
    } else {
      assert (blank + s)[1..] == blank[1..] + s;
      LeadingPast(blank[1..], s);
    }
  }

  lemma StripFront(s: string)
    ensures Strip("\n" + s) == Strip(s)
  {
    LeadingPast("\n", s);
    assert ("\n" + s)[1 + Leading(s)..] == s[Leading(s)..];
  }

  lemma {:induction false} LeadingWithin(s: string, more: string)
    requires Leading(s) < |s|
    ensures Leading(s + more) == Leading(s)
  {
    assert (s + more)[0] == s[0];
    if IsSpace(s[0]) {
      assert (s + more)[1..] == s[1..] + more;
      LeadingWithin(s[1..], more);
    }
  }

  lemma TrailingNone(s: string)
    requires Trimmed(s)
    ensures StripRight(s) == s
  {
    assert Trailing(s) == |s|;
    assert s[..|s|] == s;
  }

  lemma JoinFirst(lines: seq<string>)
    requires lines != []
    ensures Join(lines, "\n") == lines[0] + Behind(lines[1..])
  {
  }

  /** What follows the first line of a text. */
  function Behind(lines: seq<string>): string {
    if lines == [] then "" else "\n" + Join(lines, "\n")
  }

  lemma StripFirst(first: string, more: string)
    requires Leading(first) < |first| && Trimmed(first + more)
    ensures Strip(first + more) == first[Leading(first)..] + more
  {
    hide Leading, Trailing, StripRight, Trimmed;
    var n := Leading(first);
    LeadingWithin(first, more);
    DropWithin(first, more, n);
    TrimmedSuffix(first + more, n);
    TrailingNone((first + more)[n..]);
  }

  lemma DropWithin(a: string, b: string, n: nat)
    requires n <= |a|
    ensures (a + b)[n..] == a[n..] + b
  {
  }

  lemma TrimmedSuffix(s: string, n: nat)
    requires Trimmed(s) && n <= |s|
    ensures Trimmed(s[n..])
  {
  }

  /** A text of trimmed lines whose first and last are not blank loses only its first indentation. */
  lemma StripSolidEnds(lines: seq<string>)
    requires lines != [] && AllTrimmed(lines) && lines[0] != "" && lines[|lines| - 1] != ""
    ensures Strip(Join(lines, "\n")) == Join([lines[0][Leading(lines[0])..]] + lines[1..], "\n")
  {
    JoinEnds(lines);
    FirstIsSolid(lines[0]);
    JoinFirst(lines);
    hide Join, Strip, Leading;
    StripFirst(lines[0], Behind(lines[1..]));
    var cut := [lines[0][Leading(lines[0])..]] + lines[1..];
    JoinFirst(cut);
    assert cut[1..] == lines[1..];
  }

  lemma FirstIsSolid(line: string)
    requires line != "" && Trimmed(line)
    ensures Leading(line) < |line|
  {
  }

  /** A joined text ends like its last line. */
  lemma {:induction false} JoinEnds(lines: seq<string>)
    requires lines != [] && lines[|lines| - 1] != ""
    ensures var text, last := Join(lines, "\n"), lines[|lines| - 1]; text != "" && text[|text| - 1] == last[|last| - 1]
  {
    if |lines| > 1 {
      JoinEnds(lines[1..]);
    }
  }

  lemma {:induction false} JoinAppend(lines: seq<string>, line: string)
    requires lines != []
    ensures Join(lines + [line], "\n") == Join(lines, "\n") + "\n" + line
  {
    if |lines| == 1 {
      assert (lines + [line])[1..] == [line];
    } else {
      assert (lines + [line])[1..] == lines[1..] + [line];
      JoinAppend(lines[1..], line);
      assert Join(lines + [line], "\n") == lines[0] + "\n" + Join(lines[1..] + [line], "\n");
    }
  }

  lemma StripRightBack(s: string)
    ensures StripRight(s + "\n") == StripRight(s)
  {
    assert (s + "\n")[..|s|] == s;
    assert Trailing(s + "\n") == Trailing(s);
    assert (s + "\n")[..Trailing(s)] == s[..Trailing(s)];
  }

  lemma StripBack(s: string)
    ensures Strip(s + "\n") == Strip(s)
  {
    hide Leading, Trailing, StripRight;
    var n := Leading(s);
    if n == |s| {
      LeadingPast(s, "\n");
      LeadingPast("\n", "");
      NothingLeads();
      assert (s + "\n")[n + 1..] == "" && s[n..] == "";
    } else {
      LeadingWithin(s, "\n");
      assert (s + "\n")[n..] == s[n..] + "\n";
      StripRightBack(s[n..]);
    }
  }

  lemma NothingLeads()
    ensures Leading("") == 0 && "\n" + "" == "\n"
  {
  }

  /** The text is the lines from `first` on, `count` of them, without the indentation of the first;
      the lines before and behind are blank. */
  ghost predicate IsTextOf(lines: seq<string>, first: nat, count: nat, text: string) {
    && first + count <= |lines|
    && (forall i | 0 <= i < |lines| && !(first <= i < first + count) :: lines[i] == "")
    && if count == 0 then text == ""
       else
         && lines[first] != "" && lines[first + count - 1] != ""
         && text == Join([lines[first][Leading(lines[first])..]] + lines[first + 1..first + count], "\n")
  }

  lemma BlankInFront(lines: seq<string>, first: nat, count: nat, text: string)
    requires IsTextOf(lines, first, count, text)
    ensures IsTextOf([""] + lines, first + 1, count, text)
  {
    hide Join, Leading;
    var all := [""] + lines;
    assert forall i | 0 < i < |all| :: all[i] == lines[i - 1];
    if count > 0 {
      assert all[first + 2..first + 1 + count] == lines[first + 1..first + count];
    }
  }

  lemma BlankBehind(lines: seq<string>, first: nat, count: nat, text: string)
    requires IsTextOf(lines, first, count, text)
    ensures IsTextOf(lines + [""], first, count, text)
  {
    hide Join, Leading;
    if count > 0 {
      assert (lines + [""])[first + 1..first + count] == lines[first + 1..first + count];
    }
  }

  lemma AllTrimmedWithin(lines: seq<string>)
    requires AllTrimmed(lines) && lines != []
    ensures AllTrimmed(lines[1..]) && AllTrimmed(lines[..|lines| - 1])
  {
  }

  lemma {:induction false} JoinedLines(lines: seq<string>) returns (first: nat, count: nat)
    requires AllTrimmed(lines)
    ensures IsTextOf(lines, first, count, Strip(Join(lines, "\n")))
    decreases |lines|
  {
    hide IsTextOf, AllTrimmed, Strip, Join, Leading;
    if lines == [] {
      first, count := 0, 0;
      NoLines();
    } else if lines[0] == "" {
      AllTrimmedWithin(lines);
      first, count := JoinedLines(lines[1..]);
      JoinFirst(lines);
      StripBehind(lines[1..]);
      BlankInFront(lines[1..], first, count, Strip(Join(lines[1..], "\n")));
      assert [""] + lines[1..] == lines;
      first := first + 1;
    } else if lines[|lines| - 1] == "" {
      AllTrimmedWithin(lines);
      var init := lines[..|lines| - 1];
      first, count := JoinedLines(init);
      assert lines == init + [""];
      JoinAppend(init, "");
      StripBack(Join(init, "\n"));
      assert Join(init, "\n") + "\n" + "" == Join(init, "\n") + "\n";
      BlankBehind(init, first, count, Strip(Join(init, "\n")));
    } else {
      first, count := 0, |lines|;
      StripSolidEnds(lines);
      WholeText(lines);
    }
  }

  lemma NoLines()
    ensures IsTextOf([], 0, 0, Strip(Join([], "\n")))
  {
  }

  lemma StripBehind(lines: seq<string>)
    ensures Strip("" + Behind(lines)) == Strip(Join(lines, "\n"))
  {
    if lines != [] {
      StripFront(Join(lines, "\n"));
    }
    assert "" + Behind(lines) == Behind(lines);
  }

  lemma WholeText(lines: seq<string>)
    requires lines != [] && lines[0] != "" && lines[|lines| - 1] != ""
    ensures IsTextOf(lines, 0, |lines|, Join([lines[0][Leading(lines[0])..]] + lines[1..], "\n"))
  {
    assert lines[1..|lines|] == lines[1..];
  }

  /** The normalised text is the right-stripped lines of the document, without the blank ones at both
      ends and the indentation of the first. */
  lemma NormalizedLines(content: string) returns (first: nat, count: nat)
    ensures IsTextOf(RightStripped(Lines(content)), first, count, Normalized(content))
  {
    first, count := JoinedLines(RightStripped(Lines(content)));
  }

  /** The text neither starts nor ends with white space. */
  lemma NormalizedIsStripped(content: string)
    ensures var text := Normalized(content);
      text != "" ==> !IsSpace(text[0]) && !IsSpace(text[|text| - 1])
  {
    var lo, hi := StripIsSlice(Join(RightStripped(Lines(content)), "\n"));
  }

  ghost predicate LinesTrimmed(text: string) {
    forall i | 0 < i < |text| && text[i] == '\n' :: text[i - 1] == '\n' || !IsSpace(text[i - 1])
  }

  lemma {:induction false} JoinTrims(lines: seq<string>)
    requires AllTrimmed(lines) && forall i | 0 <= i < |lines| :: NoBreak(lines[i])
    ensures LinesTrimmed(Join(lines, "\n"))
  {
    if |lines| > 1 {
      var rest := Join(lines[1..], "\n");
      JoinTrims(lines[1..]);
      var text := lines[0] + "\n" + rest;
      forall i | 0 < i < |text| && text[i] == '\n' ensures text[i - 1] == '\n' || !IsSpace(text[i - 1]) {
        if i > |lines[0]| + 1 {
          assert text[i] == rest[i - |lines[0]| - 1] && text[i - 1] == rest[i - |lines[0]| - 2];
        }
      }
    }
  }

  lemma SliceTrims(text: string, lo: nat, hi: nat)
    requires lo <= hi <= |text| && LinesTrimmed(text)
    ensures LinesTrimmed(text[lo..hi])
  {
    var slice := text[lo..hi];
    forall i | 0 < i < |slice| && slice[i] == '\n' ensures slice[i - 1] == '\n' || !IsSpace(slice[i - 1]) {
      assert text[lo + i] == slice[i] && text[lo + i - 1] == slice[i - 1];
    }
  }

  lemma StrippedHaveNoBreak(content: string)
    ensures forall i | 0 <= i < |RightStripped(Lines(content))| :: NoBreak(RightStripped(Lines(content))[i])
  {
    var ends := LinesAreCut(content);
    forall i | 0 <= i < |Lines(content)| ensures NoBreak(StripRight(Lines(content)[i])) {
      assert NoBreak(Lines(content)[i]);
    }
  }

  /** No line of the text ends in white space. */
  lemma NormalizedLinesAreTrimmed(content: string)
    ensures LinesTrimmed(Normalized(content))
  {
    hide Lines, Strip, Join, LinesTrimmed, NoBreak;
    var lines := RightStripped(Lines(content));
    StrippedHaveNoBreak(content);
    JoinTrims(lines);
    var text := Join(lines, "\n");
    var lo, hi := StripIsSlice(text);
    SliceTrims(text, lo, hi);
  }

  // ---- Characters, counted --------------------------------------------------------------------

  /** How many characters that are not white space stand before position i. */
  function Rank(s: string, i: nat): nat
    requires i <= |s|
  {
    |SolidChars(s[..i])|
  }

  lemma SolidAt(s: string, i: nat)
    requires i < |s| && !IsSpace(s[i])
    ensures Rank(s, i) < |SolidChars(s)| && SolidChars(s)[Rank(s, i)] == s[i]
  {
    assert s == s[..i] + s[i..];
    SolidConcat(s[..i], s[i..]);
    assert s[i..][0] == s[i];
  }

  lemma {:induction false} SolidFind(s: string, n: nat) returns (i: nat)
    requires n < |SolidChars(s)|
    ensures i < |s| && !IsSpace(s[i]) && Rank(s, i) == n && s[i] == SolidChars(s)[n]
  {
    if IsSpace(s[0]) {
      i := SolidFind(s[1..], n);
      i := i + 1;
      assert s[..i] == [s[0]] + s[1..][..i - 1];
    } else if n == 0 {
      i := 0;
      assert s[..0] == [];
    } else {
      i := SolidFind(s[1..], n - 1);
      i := i + 1;
      assert s[..i] == [s[0]] + s[1..][..i - 1];
    }
  }

  /** The position of the text where a character of the document ends up. */
  lemma NormalizedPosition(content: string, i: nat) returns (j: nat)
    requires i < |content| && !IsSpace(content[i])
    ensures var text := Normalized(content);
      j < |text| && text[j] == content[i] && Rank(text, j) == Rank(content, i)
  {
    NormalizedKeepsText(content);
    SolidAt(content, i);
    j := SolidFind(Normalized(content), Rank(content, i));
  }
}
