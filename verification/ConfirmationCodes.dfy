/** Confirmation codes and the command router that reads them back. */
module ConfirmationCodes {
  import opened Domain
  import opened Wrappers
  import opened Text

  datatype Command = NotACommand | Resolved(resolution: Resolution, code: Option<string>)

  const ALPHABET := "ABCDEFGHJKLMNPQRSTUVWXYZ23456789"
  const CODES: nat := 32 * 32 * 32 * 32

  /** The digit a letter of the alphabet stands for; the alphabet leaves out I, O, 0 and 1. */
  function DigitOf(c: char): Option<nat> {
    if 'A' <= c <= 'H' then Some(c as int - 'A' as int)
    else if 'J' <= c <= 'N' then Some(c as int - 'J' as int + 8)
    else if 'P' <= c <= 'Z' then Some(c as int - 'P' as int + 13)
    else if '2' <= c <= '9' then Some(c as int - '2' as int + 24)
    else None
  }

  lemma AlphabetReadsBack(d: nat)
    requires d < 32
    ensures |ALPHABET| == 32 && DigitOf(ALPHABET[d]) == Some(d)
  {
    if d < 8 {
      assert ALPHABET[..8] == "ABCDEFGH";
    } else if d < 16 {
      assert ALPHABET[8] == 'J' && ALPHABET[9] == 'K' && ALPHABET[10] == 'L' && ALPHABET[11] == 'M';
      assert ALPHABET[12] == 'N' && ALPHABET[13] == 'P' && ALPHABET[14] == 'Q' && ALPHABET[15] == 'R';
    } else if d < 24 {
      assert ALPHABET[16] == 'S' && ALPHABET[17] == 'T' && ALPHABET[18] == 'U' && ALPHABET[19] == 'V';
      assert ALPHABET[20] == 'W' && ALPHABET[21] == 'X' && ALPHABET[22] == 'Y' && ALPHABET[23] == 'Z';
    } else {
      assert ALPHABET[24] == '2' && ALPHABET[25] == '3' && ALPHABET[26] == '4' && ALPHABET[27] == '5';
      assert ALPHABET[28] == '6' && ALPHABET[29] == '7' && ALPHABET[30] == '8' && ALPHABET[31] == '9';
    }
  }

  /** The number the letters of a code spell in base 32, most significant first. */
  function Spelled(letters: string): Option<nat> {
    if letters == [] then Some(0)
    else
      match (Spelled(letters[..|letters| - 1]), DigitOf(letters[|letters| - 1]))
      case (Some(high), Some(low)) => Some(high * 32 + low)
      case _ => None
  }

  function Reversed(s: string): string {
    if s == [] then [] else Reversed(s[1..]) + [s[0]]
  }

  /** The letters _confirmation_code collects, least significant first. */
  function Letters(value: nat, k: nat): (r: string)
    ensures |r| == k
  {
    if k == 0 then [] else [Letter(value % 32)] + Letters(value / 32, k - 1)
  }

  function Letter(d: nat): char
    requires d < 32
  {
    AlphabetReadsBack(d);
    ALPHABET[d]
  }

  function Code(value: nat): string {
    "PA-" + Reversed(Letters(value, 4))
  }

  /** The k-th base 32 digit of a number, counted from the least significant. */
  function Digit(value: nat, k: nat): (d: nat)
    ensures d < 32
  {
    if k == 0 then value % 32 else Digit(value / 32, k - 1)
  }

  /** The four letters, written out. */
  lemma FourLetters(value: nat)
    ensures Letters(value, 4) ==
            [Letter(Digit(value, 0)), Letter(Digit(value, 1)), Letter(Digit(value, 2)), Letter(Digit(value, 3))]
  {
    var q1 := value / 32;
    var q2 := q1 / 32;
    var q3 := q2 / 32;
    assert Letters(q3, 1) == [Letter(q3 % 32)] + Letters(q3 / 32, 0);
    assert Letters(q2, 2) == [Letter(q2 % 32)] + Letters(q3, 1);
    assert Letters(q1, 3) == [Letter(q1 % 32)] + Letters(q2, 2);
    assert Digit(value, 1) == Digit(q1, 0) && Digit(value, 2) == Digit(q1, 1) == Digit(q2, 0);
    assert Digit(value, 3) == Digit(q1, 2) == Digit(q2, 1) == Digit(q3, 0);
  }

  lemma DigitsAreResidue(value: nat)
    ensures ((Digit(value, 3) * 32 + Digit(value, 2)) * 32 + Digit(value, 1)) * 32 + Digit(value, 0) == value % CODES
  {
    var q1 := value / 32;
    var q2 := q1 / 32;
    var q3 := q2 / 32;
    assert Digit(value, 1) == Digit(q1, 0) && Digit(value, 2) == Digit(q1, 1) == Digit(q2, 0);
    assert Digit(value, 3) == Digit(q1, 2) == Digit(q2, 1) == Digit(q3, 0);
    Residue(value, q1, q2, q3, q3 / 32);
  }

  lemma Residue(v: nat, q1: nat, q2: nat, q3: nat, q4: nat)
    requires q1 == v / 32 && q2 == q1 / 32 && q3 == q2 / 32 && q4 == q3 / 32
    ensures ((q3 % 32 * 32 + q2 % 32) * 32 + q1 % 32) * 32 + v % 32 == v % 1048576
  {
    var low := ((q3 % 32 * 32 + q2 % 32) * 32 + q1 % 32) * 32 + v % 32;
    assert v == 32 * q1 + v % 32 && q1 == 32 * q2 + q1 % 32 && q2 == 32 * q3 + q2 % 32 && q3 == 32 * q4 + q3 % 32;
    assert v == 1048576 * q4 + low;
  }

  lemma ReversedFour(s: string)
    requires |s| == 4
    ensures Reversed(s) == [s[3], s[2], s[1], s[0]]
  {
    assert s[1..][1..] == s[2..] && s[2..][1..] == s[3..];
    assert Reversed(s[3..]) == [s[3]];
    assert Reversed(s[2..]) == [s[3], s[2]];
    assert Reversed(s[1..]) == [s[3], s[2], s[1]];
  }

  lemma SpelledFour(a: nat, b: nat, c: nat, d: nat)
    requires a < 32 && b < 32 && c < 32 && d < 32
    ensures Spelled([Letter(a), Letter(b), Letter(c), Letter(d)]) == Some(((a * 32 + b) * 32 + c) * 32 + d)
  {
    AlphabetReadsBack(a);
    AlphabetReadsBack(b);
    AlphabetReadsBack(c);
    AlphabetReadsBack(d);
    var s := [Letter(a), Letter(b), Letter(c), Letter(d)];
    assert s[..3] == [Letter(a), Letter(b), Letter(c)] && s[..3][..2] == [Letter(a), Letter(b)];
    assert s[..3][..2][..1] == [Letter(a)] && s[..3][..2][..1][..0] == [];
    assert Spelled([Letter(a)]) == Some(a);
    assert Spelled([Letter(a), Letter(b)]) == Some(a * 32 + b);
    assert Spelled([Letter(a), Letter(b), Letter(c)]) == Some((a * 32 + b) * 32 + c);
  }

  lemma LettersSpell(hash: nat)
    ensures |Reversed(Letters(hash, 4))| == 4
    ensures Spelled(Reversed(Letters(hash, 4))) == Some(hash % CODES)
  {
    hide Digit, Letter, Spelled, Letters;
    FourLetters(hash);
    ReversedFour(Letters(hash, 4));
    SpelledFour(Digit(hash, 3), Digit(hash, 2), Digit(hash, 1), Digit(hash, 0));
    DigitsAreResidue(hash);
  }

  /** The letters of a code read back to the hash modulo 32^4. */
  lemma CodeSpells(hash: nat)
    ensures |Code(hash)| == 7 && Code(hash)[..3] == "PA-"
    ensures Spelled(Code(hash)[3..]) == Some(hash % CODES)
  {
    LettersSpell(hash);
    var letters := Reversed(Letters(hash, 4));
    assert ("PA-" + letters)[3..] == letters;
  }

  /** The digit loop of _confirmation_code. */
  method ConfirmationCode(hash: nat) returns (code: string)
    ensures code == Code(hash)
    ensures |code| == 7 && code[..3] == "PA-" && Spelled(code[3..]) == Some(hash % CODES)
  {
    var value := hash;
    var digits: string := [];
    for i := 0 to 4
      invariant |digits| == i
      invariant Letters(hash, 4) == digits + Letters(value, 4 - i)
    {
      digits := digits + [Letter(value % 32)];
      value := value / 32;
    }
    assert digits == Letters(hash, 4);
    var reversed := Reverse(digits);
    code := "PA-" + reversed;
    CodeSpells(hash);
  }

  method Reverse(s: string) returns (r: string)
    ensures r == Reversed(s) && |r| == |s|
  {
    r := [];
    for i := 0 to |s|
      invariant Reversed(s) == Reversed(s[i..]) + r && |r| == i
    {
      assert s[i..][1..] == s[i + 1..];
      r := [s[i]] + r;
    }
  }

  lemma {:induction false} ReversedLength(s: string)
    ensures |Reversed(s)| == |s|
    ensures forall c | c in Reversed(s) :: c in s
  {
    if s != [] {
      ReversedLength(s[1..]);
    }
  }

  /** Two actions get the same code exactly when their hashes agree modulo 32^4. */
  lemma EqualCodesAreEqualResidues(a: nat, b: nat)
    ensures Code(a) == Code(b) <==> a % CODES == b % CODES
  {
    CodeSpells(a);
    CodeSpells(b);
    if a % CODES == b % CODES {
      LettersDependOnResidue(a, b);
    }
  }

  lemma LettersDependOnResidue(a: nat, b: nat)
    requires a % CODES == b % CODES
    ensures Letters(a, 4) == Letters(b, 4)
  {
    DigitsAreResidue(a);
    DigitsAreResidue(b);
    FourLetters(a);
    FourLetters(b);
    SameDigits(Digit(a, 3), Digit(a, 2), Digit(a, 1), Digit(a, 0), Digit(b, 3), Digit(b, 2), Digit(b, 1), Digit(b, 0));
  }

  lemma SameDigits(a3: nat, a2: nat, a1: nat, a0: nat, b3: nat, b2: nat, b1: nat, b0: nat)
    requires a0 < 32 && a1 < 32 && a2 < 32 && a3 < 32 && b0 < 32 && b1 < 32 && b2 < 32 && b3 < 32
    requires ((a3 * 32 + a2) * 32 + a1) * 32 + a0 == ((b3 * 32 + b2) * 32 + b1) * 32 + b0
    ensures a3 == b3 && a2 == b2 && a1 == b1 && a0 == b0
  {
  }

  // ---- The router ---------------------------------------------------------------------------

  function Upper(s: string): string {
    seq(|s|, i requires 0 <= i < |s| =>
      if 'a' <= s[i] <= 'z' then (s[i] as int - 'a' as int + 'A' as int) as char else s[i])
  }

  predicate IsCode(s: string) {
    |s| == 7 && s[..3] == "PA-"
    && forall i | 3 <= i < 7 :: 'A' <= s[i] <= 'Z' || '0' <= s[i] <= '9'
  }

  function Verb(s: string): Option<Resolution> {
    if s == "确认" then Some(Confirm) else if s == "拒绝" then Some(Reject) else None
  }

  /** route_command: normalise white space, upper-case, match the whole text. */
  function Route(text: string): Command {
    var command := Upper(Join(Words(text), " "));
    if |command| == 2 && Verb(command).Some? then Resolved(Verb(command).value, None)
    else if |command| == 10 && Verb(command[..2]).Some? && command[2] == ' ' && IsCode(command[3..]) then
      Resolved(Verb(command[..2]).value, Some(command[3..]))
    else NotACommand
  }

  lemma CodeIsCode(hash: nat)
    ensures IsCode(Code(hash)) && Solid(Code(hash)) && Upper(Code(hash)) == Code(hash)
  {
    var code, letters := Code(hash), Letters(hash, 4);
    ReversedLength(letters);
    LettersAreCodeLetters(hash, 4);
    forall i | 3 <= i < 7 ensures 'A' <= code[i] <= 'Z' || '0' <= code[i] <= '9' {
      assert code[i] == Reversed(letters)[i - 3];
      assert code[i] in letters;
    }
  }

  lemma {:induction false} LettersAreCodeLetters(value: nat, k: nat)
    ensures forall c | c in Letters(value, k) :: 'A' <= c <= 'Z' || '0' <= c <= '9'
  {
    if k > 0 {
      LettersAreCodeLetters(value / 32, k - 1);
      AlphabetReadsBack(value % 32);
    }
  }

  /** A verb and a generated code, with any white space around and between them, is routed to that
      verb's resolution and exactly that code. */
  lemma RouteReadsGeneratedCode(hash: nat, resolution: Resolution, before: string, between: string, after: string)
    requires Blank(before) && Blank(between) && between != [] && Blank(after)
    ensures var verb := if resolution == Confirm then "确认" else "拒绝";
      Route(before + verb + between + Code(hash) + after) == Resolved(resolution, Some(Code(hash)))
  {
    var verb := if resolution == Confirm then "确认" else "拒绝";
    CodeIsCode(hash);
    TwoWords(before, verb, between, Code(hash), after);
    RouteOfTwoWords(before + verb + between + Code(hash) + after, verb, Code(hash));
  }

  lemma TwoWords(before: string, first: string, between: string, second: string, after: string)
    requires Blank(before) && Blank(between) && between != [] && Blank(after)
    requires Solid(first) && first != [] && Solid(second) && second != []
    ensures Words(before + first + between + second + after) == [first, second]
  {
    var tail := between + second + after;
    OneWord(between, second, after);
    assert tail[0] == between[0];
    FirstWord(before, first, tail);
    Regroup(before + first, between, second, after);
  }

  lemma Regroup(a: string, b: string, c: string, d: string)
    ensures a + (b + c + d) == a + b + c + d
  {
  }

  lemma OneWord(before: string, word: string, after: string)
    requires Blank(before) && Blank(after) && Solid(word) && word != []
    ensures Words(before + word + after) == [word]
  {
    NoWords(after);
    FirstWord(before, word, after);
  }

  lemma UpperConcat(s: string, t: string)
    ensures Upper(s + t) == Upper(s) + Upper(t)
  {
  }

  lemma VerbKept(verb: string)
    requires Verb(verb).Some?
    ensures Upper(verb + " ") == verb + " "
  {
  }

  lemma RouteOfTwoWords(text: string, verb: string, word: string)
    requires Words(text) == [verb, word] && Verb(verb).Some? && IsCode(Upper(word))
    ensures Route(text) == Resolved(Verb(verb).value, Some(Upper(word)))
  {
    hide Words;
    var command := verb + " " + Upper(word);
    assert [verb, word][1..] == [word];
    assert Join([verb, word], " ") == verb + " " + word;
    UpperConcat(verb + " ", word);
    VerbKept(verb);
    assert command[..2] == verb && command[3..] == Upper(word);
  }

  /** Without a code the router still resolves the bare verb. */
  lemma RouteReadsBareVerb(resolution: Resolution, before: string, after: string)
    requires Blank(before) && Blank(after)
    ensures var verb := if resolution == Confirm then "确认" else "拒绝";
      Route(before + verb + after) == Resolved(resolution, None)
  {
    var verb := if resolution == Confirm then "确认" else "拒绝";
    OneWord(before, verb, after);
    RouteOfOneWord(before + verb + after, verb);
  }

  lemma RouteOfOneWord(text: string, verb: string)
    requires Words(text) == [verb] && Verb(verb).Some?
    ensures Route(text) == Resolved(Verb(verb).value, None)
  {
    assert Upper(verb) == verb;
  }

  // ---- Nothing else is a command ------------------------------------------------------------

  function VerbOf(resolution: Resolution): string {
    match resolution
    case Confirm => "确认"
    case Reject => "拒绝"
  }

  /** `upper` is the word with its small Latin letters made capitals. */
  predicate EqualButCase(word: string, upper: string) {
    && |word| == |upper|
    && forall i | 0 <= i < |word| ::
         if 'a' <= word[i] <= 'z' then upper[i] as int == word[i] as int - 32 else upper[i] == word[i]
  }

  lemma UpperIs(word: string, upper: string)
    ensures Upper(word) == upper <==> EqualButCase(word, upper)
  {
    if EqualButCase(word, upper) {
      forall i | 0 <= i < |word| ensures Upper(word)[i] == upper[i] {
        assert 'a' as int - 'A' as int == 32;
      }
    }
  }

  /** The text is the verb alone, or the verb and a word that is a code once it is upper-cased. */
  predicate Says(text: string, resolution: Resolution, code: Option<string>) {
    match code
    case None => Words(text) == [VerbOf(resolution)]
    case Some(c) =>
      && |Words(text)| == 2 && Words(text)[0] == VerbOf(resolution)
      && EqualButCase(Words(text)[1], c)
      && |c| == 7 && c[0] == 'P' && c[1] == 'A' && c[2] == '-'
      && forall i | 3 <= i < 7 :: 'A' <= c[i] <= 'Z' || '0' <= c[i] <= '9'
  }

  predicate AllSolid(words: seq<string>) {
    forall i | 0 <= i < |words| :: words[i] != [] && Solid(words[i])
  }

  lemma WordsUnfold(s: string) returns (word: string, rest: string)
    requires Leading(s) < |s|
    ensures |rest| < |s| && word != [] && Solid(word) && Words(s) == [word] + Words(rest)
  {
    hide Leading, WordLength;
    var start := Leading(s);
    var end := start + WordLength(s[start..]);
    WordIsSolid(s, start, end);
    word, rest := s[start..end], s[end..];
  }

  lemma NothingLeft(s: string)
    requires Leading(s) == |s|
    ensures Words(s) == []
  {
  }

  lemma SolidFirst(word: string, words: seq<string>)
    requires word != [] && Solid(word) && AllSolid(words)
    ensures AllSolid([word] + words)
  {
  }

  lemma {:induction false} WordsAreSolid(s: string)
    ensures AllSolid(Words(s))
    decreases |s|
  {
    hide Words, Leading, Solid;
    if Leading(s) < |s| {
      var word, rest := WordsUnfold(s);
      WordsAreSolid(rest);
      SolidFirst(word, Words(rest));
    } else {
      NothingLeft(s);
    }
  }

  lemma WordIsSolid(s: string, start: nat, end: nat)
    requires start == Leading(s) < |s| && end == start + WordLength(s[start..])
    ensures start < end <= |s| && Solid(s[start..end])
  {
    hide Leading, WordLength;
    var rest := s[start..];
    assert rest[0] == s[start];
    assert s[start..end] == rest[..end - start];
  }

  lemma JoinOfSolid(words: seq<string>, text: string)
    requires AllSolid(words) && Join(words, " ") == text && Solid(text) && text != []
    ensures words == [text]
  {
    if |words| > 1 {
      JoinHasSpace(words);
    }
  }

  lemma JoinHasSpace(words: seq<string>)
    requires |words| > 1
    ensures !Solid(Join(words, " "))
  {
    var text := Join(words, " ");
    assert text[|words[0]|] == ' ';
  }

  /** A text has one first space. */
  lemma FirstSpace(a: string, x: string, b: string, y: string)
    requires Solid(a) && Solid(b) && a + " " + x == b + " " + y
    ensures a == b && x == y
  {
    var text := a + " " + x;
    assert text == a + (" " + x) && text == b + (" " + y);
    WordLengthOf(a, " " + x);
    WordLengthOf(b, " " + y);
    assert text[..|a|] == a && text[..|b|] == b;
    assert text[|a| + 1..] == x && text[|b| + 1..] == y;
  }

  lemma JoinOfTwo(words: seq<string>, first: string, second: string)
    requires AllSolid(words) && Join(words, " ") == first + " " + second
    requires Solid(first) && Solid(second) && second != []
    ensures words == [first, second]
  {
    var text := first + " " + second;
    assert text[|first|] == ' ';
    if |words| > 1 {
      FirstSpace(first, second, words[0], Join(words[1..], " "));
      JoinOfSolid(words[1..], second);
    }
  }

  /** Upper-casing neither makes nor removes a character outside the Latin letters. */
  lemma UpperOf(s: string, i: nat)
    requires i < |s|
    ensures !('A' <= Upper(s)[i] <= 'Z') ==> s[i] == Upper(s)[i]
    ensures !IsSpace(Upper(s)[i]) ==> !IsSpace(s[i])
  {
  }

  lemma VerbIsSelf(s: string, resolution: Resolution)
    requires Upper(s) == VerbOf(resolution)
    ensures s == VerbOf(resolution) && Solid(s)
  {
    UpperOf(s, 0);
    UpperOf(s, 1);
  }

  lemma CommandOfTwo(joined: string, resolution: Resolution, code: string)
    requires |joined| == 10 && Upper(joined)[..2] == VerbOf(resolution) && Upper(joined)[2] == ' '
    requires Upper(joined)[3..] == code && IsCode(code)
    ensures joined == VerbOf(resolution) + " " + joined[3..] && Solid(joined[3..]) && Upper(joined[3..]) == code
  {
    var first, second := joined[..2], joined[3..];
    assert joined == first + [joined[2]] + second;
    UpperConcat(first + [joined[2]], second);
    UpperConcat(first, [joined[2]]);
    assert Upper(first) == Upper(joined)[..2] && Upper(second) == Upper(joined)[3..];
    VerbIsSelf(first, resolution);
    UpperOf(joined, 2);
    assert forall i | 0 <= i < 7 :: code[i] == 'P' || code[i] == 'A' || code[i] == '-' || 3 <= i by {
      assert code[0] == code[..3][0] && code[1] == code[..3][1] && code[2] == code[..3][2];
    }
    forall i | 0 <= i < |second| ensures !IsSpace(second[i]) {
      UpperOf(second, i);
    }
  }

  lemma RoutedSays(text: string, resolution: Resolution, code: Option<string>)
    requires Route(text) == Resolved(resolution, code)
    ensures Says(text, resolution, code)
  {
    hide Words, Join, Leading, WordLength;
    var words := Words(text);
    var joined := Join(words, " ");
    WordsAreSolid(text);
    if code == None {
      VerbIsSelf(joined, resolution);
      JoinOfSolid(words, joined);
    } else {
      CommandOfTwo(joined, resolution, code.value);
      JoinOfTwo(words, VerbOf(resolution), joined[3..]);
      UpperIs(joined[3..], code.value);
      assert code.value[0] == code.value[..3][0] && code.value[1] == code.value[..3][1];
      assert code.value[2] == code.value[..3][2];
    }
  }

  lemma SaidIsRouted(text: string, resolution: Resolution, code: Option<string>)
    requires Says(text, resolution, code)
    ensures Route(text) == Resolved(resolution, code)
  {
    var verb := VerbOf(resolution);
    if code == None {
      RouteOfOneWord(text, verb);
    } else {
      assert code.value[..3] == "PA-";
      UpperIs(Words(text)[1], code.value);
      RouteOfTwoWords(text, verb, Words(text)[1]);
    }
  }

  /** The router takes a text for a command exactly when it is a verb alone or a verb and a code, with
      any white space around them and the code in any case; every other text is no command. */
  lemma RouteMeans(text: string)
    ensures forall resolution, code :: Route(text) == Resolved(resolution, code) <==> Says(text, resolution, code)
    ensures Route(text) == NotACommand <==> forall resolution, code :: !Says(text, resolution, code)
  {
    hide Says, Route;
    forall resolution, code ensures Route(text) == Resolved(resolution, code) <==> Says(text, resolution, code) {
      if Route(text) == Resolved(resolution, code) {
        RoutedSays(text, resolution, code);
      }
      if Says(text, resolution, code) {
        SaidIsRouted(text, resolution, code);
      }
    }
    if Route(text) != NotACommand {
      assert Route(text) == Resolved(Route(text).resolution, Route(text).code);
    }
  }
}
