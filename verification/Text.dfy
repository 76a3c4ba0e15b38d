/** The string operations the service takes from Python: white space, stripping and splitting. */
module Text {
  predicate IsSpace(c: char) {
    var n := c as int;
    || 0x09 <= n <= 0x0D || 0x1C <= n <= 0x20 || n == 0x85 || n == 0xA0 || n == 0x1680
    || 0x2000 <= n <= 0x200A || n == 0x2028 || n == 0x2029 || n == 0x202F || n == 0x205F || n == 0x3000
  }

  /** The twenty-nine characters str.isspace accepts. */
  lemma SpaceCharacters(c: char)
    ensures IsSpace(c) <==>
      c as int in {0x09, 0x0A, 0x0B, 0x0C, 0x0D, 0x1C, 0x1D, 0x1E, 0x1F, 0x20, 0x85, 0xA0, 0x1680,
                   0x2000, 0x2001, 0x2002, 0x2003, 0x2004, 0x2005, 0x2006, 0x2007, 0x2008, 0x2009, 0x200A,
                   0x2028, 0x2029, 0x202F, 0x205F, 0x3000}
  {
  }

  predicate Blank(s: string) {
    forall i | 0 <= i < |s| :: IsSpace(s[i])
  }

  predicate Solid(s: string) {
    forall i | 0 <= i < |s| :: !IsSpace(s[i])
  }

  /** The number of white space characters a text starts with. */
  function Leading(s: string): (n: nat)
    ensures n <= |s| && (forall i | 0 <= i < n :: IsSpace(s[i])) && (n < |s| ==> !IsSpace(s[n]))
  {
    if s == [] || !IsSpace(s[0]) then 0 else 1 + Leading(s[1..])
  }

  /** The length of a text without its trailing white space. */
  function Trailing(s: string): (n: nat)
    ensures n <= |s| && (forall i | n <= i < |s| :: IsSpace(s[i])) && (n > 0 ==> !IsSpace(s[n - 1]))
  {
    if s == [] || !IsSpace(s[|s| - 1]) then |s| else Trailing(s[..|s| - 1])
  }

  /** str.rstrip */
  function StripRight(s: string): string {
    s[..Trailing(s)]
  }

  /** str.strip */
  function Strip(s: string): string {
    StripRight(s[Leading(s)..])
  }

  /** Stripping keeps a slice that holds every character that is not white space. */
  lemma StripIsSlice(s: string) returns (lo: nat, hi: nat)
    ensures lo <= hi <= |s| && Strip(s) == s[lo..hi]
    ensures forall i | 0 <= i < |s| && !IsSpace(s[i]) :: lo <= i < hi
    ensures lo < hi ==> !IsSpace(s[lo]) && !IsSpace(s[hi - 1])
  {
    lo := Leading(s);
    var rest := s[lo..];
    hi := lo + Trailing(rest);
    assert Strip(s) == rest[..hi - lo] == s[lo..hi];
    assert forall i | hi <= i < |s| :: s[i] == rest[i - lo];
  }

  /** The length of the first run of characters that are not white space. */
  function WordLength(s: string): (n: nat)
    ensures n <= |s| && (forall i | 0 <= i < n :: !IsSpace(s[i])) && (n < |s| ==> IsSpace(s[n]))
  {
    if s == [] || IsSpace(s[0]) then 0 else 1 + WordLength(s[1..])
  }

  /** str.split() without arguments */
  function Words(s: string): seq<string>
    decreases |s|
  {
    var start := Leading(s);
    if start == |s| then []
    else
      var end := start + WordLength(s[start..]);
      assert s[start..][0] == s[start];
      [s[start..end]] + Words(s[end..])
  }

  function Join(words: seq<string>, separator: string): string {
    if words == [] then ""
    else if |words| == 1 then words[0]
    else words[0] + separator + Join(words[1..], separator)
  }

  lemma {:induction false} LeadingOf(blank: string, s: string)
    requires Blank(blank) && (s != [] ==> !IsSpace(s[0]))
    ensures Leading(blank + s) == |blank|
  {
    if blank == [] {
      assert blank + s == s;
    } else {
      assert (blank + s)[1..] == blank[1..] + s;
      LeadingOf(blank[1..], s);
    }
  }

  lemma {:induction false} WordLengthOf(word: string, s: string)
    requires Solid(word) && (s != [] ==> IsSpace(s[0]))
    ensures WordLength(word + s) == |word|
  {
    if word == [] {
      assert word + s == s;
    } else {
      assert (word + s)[1..] == word[1..] + s;
      WordLengthOf(word[1..], s);
    }
  }

  /** The first word of a text is the one that stands between the first white spaces. */
  lemma FirstWord(blank: string, word: string, s: string)
    requires Blank(blank) && Solid(word) && word != [] && (s != [] ==> IsSpace(s[0]))
    ensures Words(blank + word + s) == [word] + Words(s)
  {
    var text := blank + word + s;
    assert text == blank + (word + s);
    LeadingOf(blank, word + s);
    WordLengthOf(word, s);
    assert text[|blank|..] == word + s;
    assert text[|blank|..|blank| + |word|] == word && text[|blank| + |word|..] == s;
  }

  lemma NoWords(blank: string)
    requires Blank(blank)
    ensures Words(blank) == []
  {
    LeadingOf(blank, "");
    assert blank + "" == blank;
  }
}
