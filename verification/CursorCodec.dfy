/** The persisted IMAP cursor: canonical JSON inside unpadded base64url (section 5 of RFC 4648). */
module CursorCodec {
  import opened Wrappers

  datatype Cursor = Cursor(uidvalidity: nat, uid: nat)

  const PREFIX := "imap-v1."
  const MAX_BYTES: nat := 255

  // ---- Decimal numbers ----------------------------------------------------------------------

  predicate IsDigit(c: char) {
    '0' <= c <= '9'
  }

  predicate Digits(s: string) {
    forall i | 0 <= i < |s| :: IsDigit(s[i])
  }

  /** A number as JSON writes it: no sign, no leading zero. */
  function Decimal(n: nat): (s: string)
    ensures s != [] && Digits(s)
  {
    var digit := ('0' as int + n % 10) as char;
    if n < 10 then [digit] else Decimal(n / 10) + [digit]
  }

  function Number(s: string): nat
    requires Digits(s)
  {
    if s == [] then 0 else 10 * Number(s[..|s| - 1]) + (s[|s| - 1] as int - '0' as int)
  }

  lemma {:induction false} NumberOfDecimal(n: nat)
    ensures Number(Decimal(n)) == n
  {
    var s := Decimal(n);
    if n < 10 {
      assert s[..|s| - 1] == [];
    } else {
      assert s[..|s| - 1] == Decimal(n / 10);
      NumberOfDecimal(n / 10);
    }
  }

  lemma {:induction false} DecimalLength(n: nat, k: nat)
    requires n < Power10(k) && k > 0
    ensures |Decimal(n)| <= k
  {
    if n >= 10 {
      assert k > 1 by {
        assert Power10(1) == 10;
      }
      DecimalLength(n / 10, k - 1);
    }
  }

  function Power10(k: nat): nat {
    if k == 0 then 1 else 10 * Power10(k - 1)
  }

  // ---- Canonical JSON -----------------------------------------------------------------------

  const HEAD := "{\"v\":1,\"uidvalidity\":"
  const MIDDLE := ",\"uid\":"

  function Json(c: Cursor): string {
    HEAD + Decimal(c.uidvalidity) + MIDDLE + Decimal(c.uid) + "}"
  }

  predicate StartsWith(s: string, prefix: string) {
    |prefix| <= |s| && s[..|prefix|] == prefix
  }

  function DigitRun(s: string): (n: nat)
    ensures n <= |s| && Digits(s[..n])
  {
    if s == [] || !IsDigit(s[0]) then 0 else 1 + DigitRun(s[1..])
  }

  /** A parser for the canonical grammar; anything else is rejected. */
  function ParseJson(s: string): Option<Cursor> {
    if !StartsWith(s, HEAD) then None
    else
      var rest := s[|HEAD|..];
      var n := DigitRun(rest);
      var tail := rest[n..];
      if n == 0 || !StartsWith(tail, MIDDLE) then None
      else
        var last := tail[|MIDDLE|..];
        var m := DigitRun(last);
        if m == 0 || last[m..] != "}" then None
        else Some(Cursor(Number(rest[..n]), Number(last[..m])))
  }

  lemma {:induction false} DigitRunOf(digits: string, s: string)
    requires Digits(digits) && (s != [] ==> !IsDigit(s[0]))
    ensures DigitRun(digits + s) == |digits|
  {
    if digits == [] {
      assert digits + s == s;
    } else {
      assert (digits + s)[1..] == digits[1..] + s;
      DigitRunOf(digits[1..], s);
    }
  }

  lemma Split(a: string, b: string)
    ensures (a + b)[..|a|] == a && (a + b)[|a|..] == b
  {
  }

  lemma ParseJsonReads(c: Cursor)
    ensures ParseJson(Json(c)) == Some(c)
  {
    var v, u := Decimal(c.uidvalidity), Decimal(c.uid);
    var last := u + "}";
    var tail := MIDDLE + last;
    var rest := v + tail;
    assert Json(c) == HEAD + rest;
    Split(HEAD, rest);
    Split(v, tail);
    Split(MIDDLE, last);
    Split(u, "}");
    DigitRunOf(v, tail);
    DigitRunOf(u, "}");
    NumberOfDecimal(c.uidvalidity);
    NumberOfDecimal(c.uid);
  }

  // ---- Base64url ----------------------------------------------------------------------------

  type Byte = b: nat | b < 256

  predicate Ascii(s: string) {
    forall i | 0 <= i < |s| :: s[i] as int < 128
  }

  function Bytes(s: string): seq<Byte>
    requires Ascii(s)
  {
    seq(|s|, i requires 0 <= i < |s| => s[i] as int)
  }

  /** ASCII decoding fails on a byte above 127. */
  function FromBytes(bytes: seq<Byte>): Option<string> {
    if forall i | 0 <= i < |bytes| :: bytes[i] < 128
    then Some(seq(|bytes|, i requires 0 <= i < |bytes| => bytes[i] as char))
    else None
  }

  function Sextet(n: nat): char
    requires n < 64
  {
    if n < 26 then ('A' as int + n) as char
    else if n < 52 then ('a' as int + n - 26) as char
    else if n < 62 then ('0' as int + n - 52) as char
    else if n == 62 then '-' else '_'
  }

  function SextetValue(c: char): Option<nat> {
    if 'A' <= c <= 'Z' then Some(c as int - 'A' as int)
    else if 'a' <= c <= 'z' then Some(c as int - 'a' as int + 26)
    else if '0' <= c <= '9' then Some(c as int - '0' as int + 52)
    else if c == '-' then Some(62) else if c == '_' then Some(63) else None
  }

  predicate InAlphabet(s: string) {
    forall i | 0 <= i < |s| :: SextetValue(s[i]).Some?
  }

  function Value(c: char): (n: nat)
    requires SextetValue(c).Some?
    ensures n < 64
  {
    SextetValue(c).value
  }

  /** Three bytes as four letters of six bits. */
  function Group(a: Byte, b: Byte, c: Byte): (s: string)
    ensures |s| == 4
  {
    [Sextet(a / 4), Sextet(a % 4 * 16 + b / 16), Sextet(b % 16 * 4 + c / 64), Sextet(c % 64)]
  }

  function Ungroup(s: string): (bytes: seq<Byte>)
    requires |s| == 4 && InAlphabet(s)
    ensures |bytes| == 3
  {
    [Value(s[0]) * 4 + Value(s[1]) / 16,
     Value(s[1]) % 16 * 16 + Value(s[2]) / 4,
     Value(s[2]) % 4 * 64 + Value(s[3])]
  }

  /** urlsafe_b64encode without its padding */
  function Base64(bytes: seq<Byte>): string {
    if bytes == [] then ""
    else if |bytes| == 1 then Group(bytes[0], 0, 0)[..2]
    else if |bytes| == 2 then Group(bytes[0], bytes[1], 0)[..3]
    else Group(bytes[0], bytes[1], bytes[2]) + Base64(bytes[3..])
  }

  /** urlsafe_b64decode after padding: only a lone last letter is an error; spare low bits of the
      last letter are ignored. */
  function Unbase64(s: string): Option<seq<Byte>>
    requires InAlphabet(s)
  {
    if s == [] then Some([])
    else if |s| == 1 then None
    else if |s| == 2 then Some(Ungroup(s + "AA")[..1])
    else if |s| == 3 then Some(Ungroup(s + "A")[..2])
    else
      match Unbase64(s[4..])
      case None => None
      case Some(rest) => Some(Ungroup(s[..4]) + rest)
  }

  lemma SextetReadsBack(n: nat)
    requires n < 64
    ensures SextetValue(Sextet(n)) == Some(n)
  {
  }

  /** Three bytes survive being cut into four sextets. */
  lemma CutIsLossless(a: Byte, b: Byte, c: Byte)
    ensures var w, x, y, z := a / 4, a % 4 * 16 + b / 16, b % 16 * 4 + c / 64, c % 64;
      && w < 64 && x < 64 && y < 64
      && w * 4 + x / 16 == a && x % 16 * 16 + y / 4 == b && y % 4 * 64 + z == c
  {
  }

  lemma GroupReadsBack(a: Byte, b: Byte, c: Byte)
    ensures InAlphabet(Group(a, b, c)) && Ungroup(Group(a, b, c)) == [a, b, c]
  {
    CutIsLossless(a, b, c);
    var w, x, y, z := a / 4, a % 4 * 16 + b / 16, b % 16 * 4 + c / 64, c % 64;
    SextetReadsBack(w);
    SextetReadsBack(x);
    SextetReadsBack(y);
    SextetReadsBack(z);
    UngroupOf(w, x, y, z);
  }

  lemma UngroupOf(w: nat, x: nat, y: nat, z: nat)
    requires w < 64 && x < 64 && y < 64 && z < 64
    ensures var s := [Sextet(w), Sextet(x), Sextet(y), Sextet(z)];
      InAlphabet(s) && Ungroup(s) == [w * 4 + x / 16, x % 16 * 16 + y / 4, y % 4 * 64 + z]
  {
    SextetReadsBack(w);
    SextetReadsBack(x);
    SextetReadsBack(y);
    SextetReadsBack(z);
  }

  lemma OneByte(a: Byte)
    ensures InAlphabet(Base64([a])) && Unbase64(Base64([a])) == Some([a])
  {
    GroupReadsBack(a, 0, 0);
    var group := Group(a, 0, 0);
    assert group[2] == 'A' && group[3] == 'A';
    assert group[..2] + "AA" == group;
    assert [a, 0, 0][..1] == [a];
  }

  lemma TwoBytes(a: Byte, b: Byte)
    ensures InAlphabet(Base64([a, b])) && Unbase64(Base64([a, b])) == Some([a, b])
  {
    GroupReadsBack(a, b, 0);
    var group := Group(a, b, 0);
    assert group[3] == 'A';
    assert group[..3] + "A" == group;
    assert [a, b, 0][..2] == [a, b];
  }

  lemma {:induction false} Base64RoundTrip(bytes: seq<Byte>)
    ensures InAlphabet(Base64(bytes)) && Unbase64(Base64(bytes)) == Some(bytes)
    ensures |Base64(bytes)| == (4 * |bytes| + 2) / 3
  {
    if bytes == [] {
    } else if |bytes| == 1 {
      OneByte(bytes[0]);
      assert bytes == [bytes[0]];
    } else if |bytes| == 2 {
      TwoBytes(bytes[0], bytes[1]);
      assert bytes == [bytes[0], bytes[1]];
    } else {
      Base64RoundTrip(bytes[3..]);
      GroupReadsBack(bytes[0], bytes[1], bytes[2]);
      var s := Base64(bytes);
      assert s[..4] == Group(bytes[0], bytes[1], bytes[2]) && s[4..] == Base64(bytes[3..]);
      assert bytes == [bytes[0], bytes[1], bytes[2]] + bytes[3..];
    }
  }

  // ---- The codec ----------------------------------------------------------------------------

  lemma {:induction false} DecimalIsAscii(n: nat)
    ensures Ascii(Decimal(n))
  {
    assert Digits(Decimal(n));
  }

  lemma JsonIsAscii(c: Cursor)
    ensures Ascii(Json(c))
  {
    DecimalIsAscii(c.uidvalidity);
    DecimalIsAscii(c.uid);
  }

  function Text(c: Cursor): string {
    JsonIsAscii(c);
    PREFIX + Base64(Bytes(Json(c)))
  }

  /** encode_cursor: fails only when the text would exceed the column. */
  function Encode(c: Cursor): Option<string> {
    if |Text(c)| > MAX_BYTES then None else Some(Text(c))
  }

  /** decode_cursor: parse, then insist that encoding the result gives the input back. */
  function Decode(value: string): Option<Cursor> {
    if !StartsWith(value, PREFIX) then None
    else
      var encoded := value[|PREFIX|..];
      if encoded == [] || !InAlphabet(encoded) then None
      else
        match Unbase64(encoded)
        case None => None
        case Some(raw) =>
          match FromBytes(raw)
          case None => None
          case Some(text) =>
            match ParseJson(text)
            case None => None
            case Some(c) => if Encode(c) == Some(value) then Some(c) else None
  }

  lemma AsciiRoundTrip(s: string)
    requires Ascii(s)
    ensures FromBytes(Bytes(s)) == Some(s)
  {
    var bytes := Bytes(s);
    assert forall i | 0 <= i < |bytes| :: bytes[i] == s[i] as int && bytes[i] < 128;
    assert FromBytes(bytes).Some?;
    assert FromBytes(bytes).value == s;
  }

  lemma DecodeReadsEncode(c: Cursor)
    ensures Encode(c).Some? ==> Decode(Encode(c).value) == Some(c)
  {
    JsonIsAscii(c);
    var bytes := Bytes(Json(c));
    Base64RoundTrip(bytes);
    AsciiRoundTrip(Json(c));
    ParseJsonReads(c);
    Split(PREFIX, Base64(bytes));
    assert Base64(bytes) != [] by {
      assert bytes != [];
    }
  }

  /** The accepted strings are exactly the image of the encoder. */
  lemma AcceptsExactlyEncodings(value: string, c: Cursor)
    ensures Decode(value) == Some(c) <==> Encode(c) == Some(value)
  {
    if Encode(c) == Some(value) {
      DecodeReadsEncode(c);
    }
  }

  /** Cursors of 32-bit IMAP numbers always fit: at most 74 characters. */
  lemma ProtocolCursorsFit(c: Cursor)
    requires c.uidvalidity < 0x1_0000_0000 && c.uid < 0x1_0000_0000
    ensures |Text(c)| <= 74 && Encode(c).Some?
  {
    assert Power10(10) == 10000000000 by {
      assert Power10(3) == 1000 && Power10(6) == 1000000;
    }
    DecimalLength(c.uidvalidity, 10);
    DecimalLength(c.uid, 10);
    JsonIsAscii(c);
    Base64RoundTrip(Bytes(Json(c)));
  }

  // ---- Classifying a stored cursor ----------------------------------------------------------

  datatype Reason = Initial | Legacy | Invalid | UidValidityChanged | UidRegression

  datatype Classification = Resume(cursor: Cursor) | Reset(cursor: Cursor, reason: Reason)

  /** classify_cursor: where the next poll starts, given what the server reports. */
  function Classify(value: Option<string>, uidvalidity: nat, maxUid: nat): Classification {
    var baseline := Cursor(uidvalidity, maxUid);
    if value == None then Reset(baseline, Initial)
    else if !StartsWith(value.value, PREFIX) then Reset(baseline, Legacy)
    else
      match Decode(value.value)
      case None => Reset(baseline, Invalid)
      case Some(c) =>
        if c.uidvalidity != uidvalidity then Reset(baseline, UidValidityChanged)
        else if c.uid > maxUid then Reset(baseline, UidRegression)
        else Resume(c)
  }

  /** A poll resumes exactly from an encoding of a cursor of this mailbox that is not ahead of it;
      every other stored value starts over at the current end of the mailbox. */
  lemma ResumesExactlyOwnCursors(value: Option<string>, uidvalidity: nat, maxUid: nat)
    ensures var r := Classify(value, uidvalidity, maxUid);
      && (forall c: Cursor :: r == Resume(c) <==>
            value.Some? && Encode(c) == value && c.uidvalidity == uidvalidity && c.uid <= maxUid)
      && (r.Reset? ==> r.cursor == Cursor(uidvalidity, maxUid))
  {
    forall c: Cursor ensures value.Some? && Encode(c) == value ==>
      StartsWith(value.value, PREFIX) && Decode(value.value) == Some(c)
    {
      if value.Some? && Encode(c) == value {
        AcceptsExactlyEncodings(value.value, c);
      }
    }
    if value.Some? && Decode(value.value).Some? {
      AcceptsExactlyEncodings(value.value, Decode(value.value).value);
    }
  }

  /** Why a stored value is not resumed: there is none, it is of an older format, it is no cursor, it
      is of another mailbox, or it is ahead of this one. */
  lemma ReasonMeans(value: Option<string>, uidvalidity: nat, maxUid: nat)
    requires Classify(value, uidvalidity, maxUid).Reset?
    ensures match Classify(value, uidvalidity, maxUid).reason
      case Initial => value == None
      case Legacy => value.Some? && !(PREFIX <= value.value)
      case Invalid => value.Some? && PREFIX <= value.value && forall c: Cursor :: Encode(c) != value
      case UidValidityChanged => exists c: Cursor :: Encode(c) == value && c.uidvalidity != uidvalidity
      case UidRegression => exists c: Cursor :: Encode(c) == value && c.uidvalidity == uidvalidity && c.uid > maxUid
  {
    if value.Some? {
      match Decode(value.value)
      case Some(c) => AcceptsExactlyEncodings(value.value, c);
      case None =>
        forall c: Cursor ensures Encode(c) != value {
          if Encode(c) == value {
            AcceptsExactlyEncodings(value.value, c);
          }
        }
    }
  }

  /** A cursor is refused exactly when its text is longer than the column's 255 characters. */
  lemma RefusesLongText(c: Cursor)
    ensures Encode(c) == None <==> |PREFIX| + |Base64(Bytes(Json(c)))| >= 256
  {
  }
}
