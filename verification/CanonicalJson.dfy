/** The policy verifier's canonical form: printed JSON is UTF-8, the publisher's form is ASCII with lowercase \uXXXX
    escapes. Masks and shifts are written as the remainders and quotients they compute. */
module CanonicalJson {
  import opened Octets
  import opened Wrappers

  /** Unicode scalar values: every code point except the surrogates. */
  type Scalar = n: nat | n <= 0x10FFFF && !(0xD800 <= n <= 0xDFFF)

  const HEX := "0123456789abcdef"

  // ----- the two standard forms -----

  /** Section 3 of RFC 3629. */
  function Utf8(c: Scalar): seq<Byte> {
    if c < 0x80 then [c]
    else if c < 0x800 then [0xC0 + c / 64, 0x80 + c % 64]
    else if c < 0x10000 then [0xE0 + c / 4096, 0x80 + c / 64 % 64, 0x80 + c % 64]
    else [0xF0 + c / 262144, 0x80 + c / 4096 % 64, 0x80 + c / 64 % 64, 0x80 + c % 64]
  }

  function Hex4(v: nat): string {
    [HEX[v / 4096 % 16], HEX[v / 256 % 16], HEX[v / 16 % 16], HEX[v % 16]]
  }

  /** Section 7 of RFC 8259, for characters outside ASCII: one escape, or a surrogate pair. */
  function Escape(c: Scalar): string {
    if c < 0x80 then [c as char]
    else if c < 0x10000 then "\\u" + Hex4(c)
    else "\\u" + Hex4(0xD800 + (c - 0x10000) / 1024) + "\\u" + Hex4(0xDC00 + (c - 0x10000) % 1024)
  }

  function Utf8All(text: seq<Scalar>): seq<Byte> {
    if text == [] then [] else Utf8(text[0]) + Utf8All(text[1..])
  }

  function EscapeAll(text: seq<Scalar>): string {
    if text == [] then [] else Escape(text[0]) + EscapeAll(text[1..])
  }

  // ----- what a string literal means -----

  /** The value of a hexadecimal digit in either case, -1 for any other code. */
  function HexDigit(c: nat): int {
    if 0x30 <= c <= 0x39 then c - 0x30
    else if 0x61 <= c <= 0x66 then c - 0x61 + 10
    else if 0x41 <= c <= 0x46 then c - 0x41 + 10
    else -1
  }

  /** Four digits at the head, most significant first; -1 if they are not all digits. */
  function HexValue(codes: seq<nat>): int
    requires 4 <= |codes|
  {
    var a, b, c, d := HexDigit(codes[0]), HexDigit(codes[1]), HexDigit(codes[2]), HexDigit(codes[3]);
    if a < 0 || b < 0 || c < 0 || d < 0 then -1 else ((a * 16 + b) * 16 + c) * 16 + d
  }

  /** Section 3 of RFC 2781: a scalar value in 16-bit units. */
  function Utf16(c: nat): seq<nat> {
    if c < 0x10000 then [c] else [0xD800 + (c - 0x10000) / 0x400, 0xDC00 + (c - 0x10000) % 0x400]
  }

  /** What the inside of a string literal means, in 16-bit units (section 7 of RFC 8259); an escaped letter stands for
      itself, marked. Nothing, when a backslash is followed by neither a letter of ASCII nor four digits. */
  function Meaning(codes: seq<nat>): Option<seq<nat>> {
    if codes == [] then Some([])
    else if codes[0] != 0x5C then Before(Utf16(codes[0]), Meaning(codes[1..]))
    else if |codes| < 2 || 0x80 <= codes[1] then None
    else if codes[1] != 0x75 then Before([0x110000 + codes[1]], Meaning(codes[2..]))
    else if |codes| < 6 || HexValue(codes[2..6]) < 0 then None
    else Before([HexValue(codes[2..6])], Meaning(codes[6..]))
  }

  function Before(units: seq<nat>, later: Option<seq<nat>>): Option<seq<nat>> {
    match later case None => None case Some(more) => Some(units + more)
  }

  function Codes(s: string): seq<nat> { seq(|s|, i requires 0 <= i < |s| => s[i] as nat) }

  lemma PairReadsBack(c: Scalar)
    ensures forall k :: 0 <= k < |Utf16(c)| ==> Utf16(c)[k] < 0x10000
    ensures 0x10000 <= c ==>
              var high, low := Utf16(c)[0], Utf16(c)[1];
              && 0xD800 <= high < 0xDC00 <= low < 0xE000
              && 0x10000 + (high - 0xD800) * 0x400 + (low - 0xDC00) == c
  {
  }

  /** The four digits are lowercase hexadecimal, most significant first. */
  lemma Hex4ReadsBack(v: nat)
    requires v < 0x10000
    ensures |Hex4(v)| == 4 && HexValue(Codes(Hex4(v))) == v
    ensures forall k :: 0 <= k < 4 ==> '0' <= Hex4(v)[k] <= '9' || 'a' <= Hex4(v)[k] <= 'f'
  {
    var a, b, c, d := v / 4096 % 16, v / 256 % 16, v / 16 % 16, v % 16;
    DigitReadsBack(a);
    DigitReadsBack(b);
    DigitReadsBack(c);
    DigitReadsBack(d);
    Nibbles(v);
  }

  lemma DigitReadsBack(d: nat)
    requires d < 16
    ensures HexDigit(HEX[d] as nat) == d && ('0' <= HEX[d] <= '9' || 'a' <= HEX[d] <= 'f')
  {
    assert HEX[d] == if d < 10 then ('0' as nat + d) as char else ('a' as nat + d - 10) as char;
  }

  lemma Nibbles(v: nat)
    requires v < 0x10000
    ensures ((v / 4096 % 16 * 16 + v / 256 % 16) * 16 + v / 16 % 16) * 16 + v % 16 == v
  {
    var a := v / 16;
    var b := a / 16;
    assert v / 256 == b && v / 4096 == b / 16;
  }

  lemma CodesOf(a: string, b: string)
    ensures Codes(a + b) == Codes(a) + Codes(b)
  {
  }

  /** One escape, whatever follows, means its unit. */
  lemma EscapeMeans(v: nat, later: string)
    requires v < 0x10000
    ensures Meaning(Codes("\\u" + Hex4(v) + later)) == Before([v], Meaning(Codes(later)))
  {
    var all := "\\u" + Hex4(v) + later;
    var codes := Codes(all);
    Hex4ReadsBack(v);
    assert codes[0] == 0x5C && codes[1] == 0x75;
    assert codes[2..6] == Codes(Hex4(v));
    assert codes[6..] == Codes(later);
  }

  /** A character outside ASCII means the same written out and escaped. */
  lemma CharacterMeans(c: Scalar, later: string)
    requires 0x80 <= c
    ensures Meaning(Codes(Escape(c) + later)) == Before(Utf16(c), Meaning(Codes(later)))
  {
    hide Meaning, Hex4;
    if c < 0x10000 {
      EscapeMeans(c, later);
    } else {
      var high, low := 0xD800 + (c - 0x10000) / 0x400, 0xDC00 + (c - 0x10000) % 0x400;
      EscapeMeans(low, later);
      EscapeMeans(high, "\\u" + Hex4(low) + later);
      assert Escape(c) + later == "\\u" + Hex4(high) + ("\\u" + Hex4(low) + later);
      assert [high] + [low] == Utf16(c);
      if Meaning(Codes(later)).Some? {
        assert [high] + ([low] + Meaning(Codes(later)).value) == Utf16(c) + Meaning(Codes(later)).value;
      }
    }
  }

  lemma {:induction false} AsciiEscapes(text: seq<Scalar>, n: nat)
    requires n <= |text| && forall k :: 0 <= k < n ==> text[k] < 0x80
    ensures Codes(EscapeAll(text)) == text[..n] + Codes(EscapeAll(text[n..]))
  {
    hide Escape, Codes;
    if n == 0 {
      assert text[0..] == text;
      assert text[..0] + Codes(EscapeAll(text)) == Codes(EscapeAll(text));
    } else {
      var rest, later := text[1..], text[n..];
      AsciiEscapes(rest, n - 1);
      CodesOf(Escape(text[0]), EscapeAll(rest));
      AsciiCode(text[0]);
      assert rest[n - 1..] == later;
      Prepended(text, n);
      assert [text[0]] + (rest[..n - 1] + Codes(EscapeAll(later))) == text[..n] + Codes(EscapeAll(later));
    }
  }

  lemma AsciiCode(c: Scalar)
    requires c < 0x80
    ensures Codes(Escape(c)) == [c]
  {
  }

  lemma Prepended(text: seq<Scalar>, n: nat)
    requires 1 <= n <= |text|
    ensures [text[0]] + text[1..][..n - 1] == text[..n]
  {
  }

  /** The escaped form is ASCII throughout. */
  lemma {:induction false} EscapedIsAscii(text: seq<Scalar>)
    ensures forall k :: 0 <= k < |EscapeAll(text)| ==> EscapeAll(text)[k] as nat < 0x80
  {
    hide Escape;
    if text != [] {
      EscapeIsAscii(text[0]);
      EscapedIsAscii(text[1..]);
    }
  }

  lemma EscapeIsAscii(c: Scalar)
    ensures forall k :: 0 <= k < |Escape(c)| ==> Escape(c)[k] as nat < 0x80
  {
    hide Hex4;
    if 0x10000 <= c {
      Hex4ReadsBack(0xD800 + (c - 0x10000) / 1024);
      Hex4ReadsBack(0xDC00 + (c - 0x10000) % 1024);
    } else if 0x80 <= c {
      Hex4ReadsBack(c);
    }
  }

  /** Escaping keeps the meaning of every string literal that has one. */
  lemma {:induction false} EscapingKeepsMeaning(text: seq<Scalar>)
    requires Meaning(text).Some?
    ensures Meaning(Codes(EscapeAll(text))) == Meaning(text)
    decreases |text|
  {
    if text == [] {
    } else if 0x80 <= text[0] {
      EscapingKeepsMeaning(text[1..]);
      CharacterMeans(text[0], EscapeAll(text[1..]));
    } else {
      var n := if text[0] != 0x5C then 1 else if text[1] != 0x75 then 2 else 6;
      if n == 6 {
        assert forall k :: 2 <= k < 6 ==> 0 <= HexDigit(text[k]) by {
          assert forall k :: 0 <= k < 4 ==> text[2..6][k] == text[2 + k];
        }
      }
      AsciiEscapes(text, n);
      EscapingKeepsMeaning(text[n..]);
      var codes := Codes(EscapeAll(text));
      assert codes[n..] == Codes(EscapeAll(text[n..]));
      if n == 6 {
        assert codes[2..6] == text[2..6];
      }
    }
  }

  // ----- one character as the verifier reads it -----

  predicate Tail(b: Byte) { 0x80 <= b < 0xC0 }

  function Trailing(c: Byte): nat { if 0xF0 <= c then 3 else if 0xE0 <= c then 2 else if 0xC2 <= c then 1 else 0 }

  function LeadBits(c: Byte): nat
    requires 0x80 <= c
  {
    match Trailing(c)
    case 1 => c % 32
    case 2 => c % 16
    case _ => c % 8
  }

  function Fold(start: nat, tail: seq<Byte>): nat {
    if tail == [] then start else Fold(start, tail[..|tail| - 1]) * 64 + tail[|tail| - 1] % 64
  }

  predicate InRange(point: nat, count: nat) {
    point <= 0x10FFFF && !(0xD800 <= point <= 0xDFFF) &&
    (if count == 1 then 0x80 else if count == 2 then 0x800 else 0x10000) <= point
  }

  /** The first character and how many bytes it takes. */
  function Head(utf8: seq<Byte>): Option<(Scalar, nat)>
    requires utf8 != []
  {
    var c := utf8[0];
    var count := Trailing(c);
    if c < 0x80 then Some((c, 1))
    else if count == 0 || 0xF4 < c || |utf8| < 1 + count then None
    else if exists k :: 1 <= k <= count && !Tail(utf8[k]) then None
    else
      var point := Fold(LeadBits(c), utf8[1..1 + count]);
      if InRange(point, count) then Some((point, 1 + count)) else None
  }

  function Transcoded(utf8: seq<Byte>): Option<string> {
    if utf8 == [] then Some([])
    else
      match Head(utf8)
      case None => None
      case Some((c, length)) =>
        if |utf8| < length || length == 0 then None
        else
          match Transcoded(utf8[length..])
          case None => None
          case Some(later) => Some(Escape(c) + later)
  }

  lemma FoldOne(start: nat, a: Byte)
    ensures Fold(start, [a]) == start * 64 + a % 64
  {
    assert [a][..0] == [];
  }

  lemma FoldTwo(start: nat, a: Byte, b: Byte)
    ensures Fold(start, [a, b]) == (start * 64 + a % 64) * 64 + b % 64
  {
    assert [a, b][..1] == [a];
    FoldOne(start, a);
  }

  lemma FoldThree(start: nat, a: Byte, b: Byte, c: Byte)
    ensures Fold(start, [a, b, c]) == ((start * 64 + a % 64) * 64 + b % 64) * 64 + c % 64
  {
    assert [a, b, c][..2] == [a, b];
    FoldTwo(start, a, b);
  }

  lemma TailBits(d: nat)
    requires d < 64
    ensures (0x80 + d) % 64 == d
  {
  }

  lemma Digits(c: nat)
    ensures c / 4096 == c / 64 / 64 && c / 262144 == c / 4096 / 64
    ensures c / 64 * 64 + c % 64 == c
    ensures (c / 4096 * 64 + c / 64 % 64) * 64 + c % 64 == c
    ensures ((c / 262144 * 64 + c / 4096 % 64) * 64 + c / 64 % 64) * 64 + c % 64 == c
  {
  }

  /** Base 64 digits determine the number, and the number its digits. */
  lemma Undigits(h: nat, a: nat, b: nat, d: nat)
    requires a < 64 && b < 64 && d < 64
    ensures var c := ((h * 64 + a) * 64 + b) * 64 + d;
            c / 262144 == h && c / 4096 % 64 == a && c / 64 % 64 == b && c % 64 == d
            && c / 64 == (h * 64 + a) * 64 + b && c / 4096 == h * 64 + a
  {
    var c := ((h * 64 + a) * 64 + b) * 64 + d;
    assert c / 64 == (h * 64 + a) * 64 + b;
    assert c / 64 / 64 == h * 64 + a;
    Digits(c);
  }

  lemma HeadTwo(utf8: seq<Byte>, c: Scalar)
    requires 2 <= |utf8| && 0x80 <= c < 0x800 && utf8[0] == 0xC0 + c / 64 && utf8[1] == 0x80 + c % 64
    ensures Head(utf8) == Some((c, 2))
  {
    assert utf8[1..2] == [utf8[1]];
    FoldOne(LeadBits(utf8[0]), utf8[1]);
    TailBits(c % 64);
    Digits(c);
  }

  lemma HeadThree(utf8: seq<Byte>, c: Scalar)
    requires 3 <= |utf8| && 0x800 <= c < 0x10000
    requires utf8[0] == 0xE0 + c / 4096 && utf8[1] == 0x80 + c / 64 % 64 && utf8[2] == 0x80 + c % 64
    ensures Head(utf8) == Some((c, 3))
  {
    assert utf8[1..3] == [utf8[1], utf8[2]];
    PointOfThree(c);
  }

  lemma PointOfThree(c: Scalar)
    requires 0x800 <= c < 0x10000
    ensures var u := Utf8(c); Trailing(u[0]) == 2 && Fold(LeadBits(u[0]), [u[1], u[2]]) == c
  {
    var u := Utf8(c);
    FoldTwo(LeadBits(u[0]), u[1], u[2]);
    LeadIsOffset(u[0]);
    TailBits(c % 64);
    TailBits(c / 64 % 64);
    Digits(c);
  }

  lemma HeadFour(utf8: seq<Byte>, c: Scalar)
    requires 4 <= |utf8| && 0x10000 <= c
    requires utf8[0] == 0xF0 + c / 262144 && utf8[1] == 0x80 + c / 4096 % 64
    requires utf8[2] == 0x80 + c / 64 % 64 && utf8[3] == 0x80 + c % 64
    ensures Head(utf8) == Some((c, 4))
  {
    assert utf8[1..4] == [utf8[1], utf8[2], utf8[3]];
    PointOfFour(c);
  }

  lemma PointOfFour(c: Scalar)
    requires 0x10000 <= c
    ensures var u := Utf8(c); Trailing(u[0]) == 3 && Fold(LeadBits(u[0]), [u[1], u[2], u[3]]) == c
  {
    var u := Utf8(c);
    FoldThree(LeadBits(u[0]), u[1], u[2], u[3]);
    LeadIsOffset(u[0]);
    TailBits(c % 64);
    TailBits(c / 64 % 64);
    TailBits(c / 4096 % 64);
    Digits(c);
  }

  /** Reading undoes encoding. */
  lemma HeadOfUtf8(c: Scalar, rest: seq<Byte>)
    ensures Head(Utf8(c) + rest) == Some((c, |Utf8(c)|))
  {
    hide Head;
    var all := Utf8(c) + rest;
    if c < 0x80 {
      HeadOne(all);
    } else if c < 0x800 {
      HeadTwo(all, c);
    } else if c < 0x10000 {
      HeadThree(all, c);
    } else {
      HeadFour(all, c);
    }
  }

  lemma HeadOne(utf8: seq<Byte>)
    requires utf8 != [] && utf8[0] < 0x80
    ensures Head(utf8) == Some((utf8[0], 1))
  {
  }

  lemma LeadIsOffset(c: Byte)
    requires 0xC2 <= c <= 0xF4
    ensures Trailing(c) == 1 ==> LeadBits(c) == c as int - 0xC0
    ensures Trailing(c) == 2 ==> LeadBits(c) == c as int - 0xE0
    ensures Trailing(c) == 3 ==> LeadBits(c) == c as int - 0xF0
  {
  }

  lemma TailIsOffset(b: Byte)
    requires Tail(b)
    ensures b % 64 == b as int - 0x80 < 64
  {
  }

  /** Encoding undoes reading: no character is accepted in any but its one encoding. */
  lemma HeadIsUtf8(utf8: seq<Byte>)
    requires utf8 != [] && Head(utf8).Some?
    ensures var (c, length) := Head(utf8).value; 1 <= length <= |utf8| && utf8[..length] == Utf8(c)
  {
    hide Fold, LeadBits, InRange, Utf8;
    HeadShape(utf8);
    var (c, length) := Head(utf8).value;
    if length == 4 {
      ReadFour(utf8[0], utf8[1], utf8[2], utf8[3]);
      FourIsUtf8(utf8[..4], c);
    } else if length == 3 {
      ReadThree(utf8[0], utf8[1], utf8[2]);
      ThreeIsUtf8(utf8[..3], c);
    } else if length == 2 {
      ReadTwo(utf8[0], utf8[1]);
      TwoIsUtf8(utf8[..2], c);
    } else {
      OneIsUtf8(utf8[..1], c);
    }
  }

  /** What an accepted character looks like, length by length. */
  lemma HeadShape(utf8: seq<Byte>)
    requires utf8 != [] && Head(utf8).Some?
    ensures var (c, length) := Head(utf8).value;
            && 1 <= length <= 4 && length <= |utf8| && (forall k :: 1 <= k < length ==> Tail(utf8[k]))
            && (length == 1 ==> utf8[0] < 0x80 && c == utf8[0])
            && (length == 2 ==> 0xC2 <= utf8[0] <= 0xDF && 0x80 <= c < 0x800 && c == Fold(LeadBits(utf8[0]), [utf8[1]]))
            && (length == 3 ==> 0xE0 <= utf8[0] <= 0xEF && 0x800 <= c < 0x10000
                                && c == Fold(LeadBits(utf8[0]), [utf8[1], utf8[2]]))
            && (length == 4 ==> 0xF0 <= utf8[0] <= 0xF4 && 0x10000 <= c
                                && c == Fold(LeadBits(utf8[0]), [utf8[1], utf8[2], utf8[3]]))
  {
    var (c, length) := Head(utf8).value;
    if length == 2 {
      assert utf8[1..2] == [utf8[1]];
      TwoBound(utf8[0], utf8[1]);
    } else if length == 3 {
      assert utf8[1..3] == [utf8[1], utf8[2]];
      ThreeBound(utf8[0], utf8[1], utf8[2]);
    } else if length == 4 {
      assert utf8[1..4] == [utf8[1], utf8[2], utf8[3]];
    }
  }

  lemma TwoBound(b0: Byte, b1: Byte)
    requires 0xC2 <= b0 <= 0xDF && Tail(b1)
    ensures Fold(LeadBits(b0), [b1]) < 0x800
  {
    LeadIsOffset(b0);
    FoldOne(LeadBits(b0), b1);
  }

  lemma ThreeBound(b0: Byte, b1: Byte, b2: Byte)
    requires 0xE0 <= b0 <= 0xEF && Tail(b1) && Tail(b2)
    ensures Fold(LeadBits(b0), [b1, b2]) < 0x10000
  {
    LeadIsOffset(b0);
    FoldTwo(LeadBits(b0), b1, b2);
  }

  lemma OneIsUtf8(bytes: seq<Byte>, c: Scalar)
    requires |bytes| == 1 && bytes[0] == c < 0x80
    ensures bytes == Utf8(c)
  {
  }

  lemma TwoIsUtf8(bytes: seq<Byte>, c: Scalar)
    requires |bytes| == 2 && 0x80 <= c < 0x800 && bytes[0] == 0xC0 + c / 64 && bytes[1] == 0x80 + c % 64
    ensures bytes == Utf8(c)
  {
  }

  lemma ThreeIsUtf8(bytes: seq<Byte>, c: Scalar)
    requires |bytes| == 3 && 0x800 <= c < 0x10000
    requires bytes[0] == 0xE0 + c / 4096 && bytes[1] == 0x80 + c / 64 % 64 && bytes[2] == 0x80 + c % 64
    ensures bytes == Utf8(c)
  {
  }

  lemma FourIsUtf8(bytes: seq<Byte>, c: Scalar)
    requires |bytes| == 4 && 0x10000 <= c
    requires bytes[0] == 0xF0 + c / 262144 && bytes[1] == 0x80 + c / 4096 % 64
    requires bytes[2] == 0x80 + c / 64 % 64 && bytes[3] == 0x80 + c % 64
    ensures bytes == Utf8(c)
  {
  }

  lemma ReadTwo(b0: Byte, b1: Byte)
    requires 0xC2 <= b0 <= 0xDF && Tail(b1)
    ensures var c := Fold(LeadBits(b0), [b1]); c < 0x800 && b0 == 0xC0 + c / 64 && b1 == 0x80 + c % 64
  {
    LeadIsOffset(b0);
    TailIsOffset(b1);
    FoldOne(LeadBits(b0), b1);
    Undigits(0, 0, LeadBits(b0), b1 % 64);
  }

  lemma ReadThree(b0: Byte, b1: Byte, b2: Byte)
    requires 0xE0 <= b0 <= 0xEF && Tail(b1) && Tail(b2)
    ensures var c := Fold(LeadBits(b0), [b1, b2]);
            c < 0x10000 && b0 == 0xE0 + c / 4096 && b1 == 0x80 + c / 64 % 64 && b2 == 0x80 + c % 64
  {
    LeadIsOffset(b0);
    TailIsOffset(b1);
    TailIsOffset(b2);
    FoldTwo(LeadBits(b0), b1, b2);
    Undigits(0, LeadBits(b0), b1 % 64, b2 % 64);
  }

  lemma ReadFour(b0: Byte, b1: Byte, b2: Byte, b3: Byte)
    requires 0xF0 <= b0 <= 0xF4 && Tail(b1) && Tail(b2) && Tail(b3)
    ensures var c := Fold(LeadBits(b0), [b1, b2, b3]);
            b0 == 0xF0 + c / 262144 && b1 == 0x80 + c / 4096 % 64 && b2 == 0x80 + c / 64 % 64 && b3 == 0x80 + c % 64
  {
    LeadIsOffset(b0);
    TailIsOffset(b1);
    TailIsOffset(b2);
    TailIsOffset(b3);
    FoldThree(LeadBits(b0), b1, b2, b3);
    Undigits(LeadBits(b0), b1 % 64, b2 % 64, b3 % 64);
  }

  /** Section 4 of RFC 3629: the byte patterns of one character. */
  predicate Utf8Char(s: seq<Byte>) {
    if |s| == 1 then s[0] < 0x80
    else if |s| == 2 then 0xC2 <= s[0] <= 0xDF && Tail(s[1])
    else if |s| == 3 then
      && Tail(s[1]) && Tail(s[2])
      && ((s[0] == 0xE0 && 0xA0 <= s[1]) || 0xE1 <= s[0] <= 0xEC || (s[0] == 0xED && s[1] <= 0x9F) ||
         0xEE <= s[0] <= 0xEF)
    else
      && |s| == 4 && Tail(s[1]) && Tail(s[2]) && Tail(s[3])
      && ((s[0] == 0xF0 && 0x90 <= s[1]) || 0xF1 <= s[0] <= 0xF3 || (s[0] == 0xF4 && s[1] <= 0x8F))
  }

  ghost predicate Utf8Octets(s: seq<Byte>) {
    s == [] || exists n :: 1 <= n <= |s| && Utf8Char(s[..n]) && Utf8Octets(s[n..])
  }

  lemma Utf8MatchesGrammar(c: Scalar)
    ensures Utf8Char(Utf8(c))
  {
    hide Utf8Char;
    Digits(c);
    if c < 0x80 {
      OneMatches(c);
    } else if c < 0x800 {
      TwoMatches(c / 64, c % 64);
    } else if c < 0x10000 {
      ThreeMatches(c / 4096, c / 64 % 64, c % 64);
    } else {
      FourMatches(c / 262144, c / 4096 % 64, c / 64 % 64, c % 64);
    }
  }

  lemma OneMatches(c: Byte)
    requires c < 0x80
    ensures Utf8Char([c])
  {
  }

  lemma TwoMatches(h: nat, d: nat)
    requires 2 <= h < 32 && d < 64
    ensures Utf8Char([0xC0 + h, 0x80 + d])
  {
  }

  lemma ThreeMatches(h: nat, a: nat, d: nat)
    requires h < 16 && a < 64 && d < 64
    requires 0x800 <= (h * 64 + a) * 64 + d && !(0xD800 <= (h * 64 + a) * 64 + d <= 0xDFFF)
    ensures Utf8Char([0xE0 + h, 0x80 + a, 0x80 + d])
  {
  }

  lemma FourMatches(h: nat, a: nat, b: nat, d: nat)
    requires h < 5 && a < 64 && b < 64 && d < 64
    requires 0x10000 <= ((h * 64 + a) * 64 + b) * 64 + d <= 0x10FFFF
    ensures Utf8Char([0xF0 + h, 0x80 + a, 0x80 + b, 0x80 + d])
  {
  }

  lemma RangeTwo(b0: Byte, b1: Byte)
    requires Utf8Char([b0, b1])
    ensures InRange(Fold(LeadBits(b0), [b1]), 1)
  {
    LeadIsOffset(b0);
    TailIsOffset(b1);
    FoldOne(LeadBits(b0), b1);
  }

  lemma RangeThree(b0: Byte, b1: Byte, b2: Byte)
    requires Utf8Char([b0, b1, b2])
    ensures InRange(Fold(LeadBits(b0), [b1, b2]), 2)
  {
    LeadIsOffset(b0);
    TailIsOffset(b1);
    TailIsOffset(b2);
    FoldTwo(LeadBits(b0), b1, b2);
  }

  lemma RangeFour(b0: Byte, b1: Byte, b2: Byte, b3: Byte)
    requires Utf8Char([b0, b1, b2, b3])
    ensures InRange(Fold(LeadBits(b0), [b1, b2, b3]), 3)
  {
    LeadIsOffset(b0);
    TailIsOffset(b1);
    TailIsOffset(b2);
    TailIsOffset(b3);
    FoldThree(LeadBits(b0), b1, b2, b3);
  }

  lemma GrammarIsRead(utf8: seq<Byte>, n: nat)
    requires 1 <= n <= |utf8| && Utf8Char(utf8[..n])
    ensures Head(utf8).Some? && Head(utf8).value.1 == n
  {
    hide Fold, LeadBits, InRange;
    var s := utf8[..n];
    assert forall k :: 0 <= k < n ==> s[k] == utf8[k];
    if n == 4 {
      assert s == [utf8[0], utf8[1], utf8[2], utf8[3]] && utf8[1..4] == [utf8[1], utf8[2], utf8[3]];
      RangeFour(utf8[0], utf8[1], utf8[2], utf8[3]);
    } else if n == 3 {
      assert s == [utf8[0], utf8[1], utf8[2]] && utf8[1..3] == [utf8[1], utf8[2]];
      RangeThree(utf8[0], utf8[1], utf8[2]);
    } else if n == 2 {
      assert s == [utf8[0], utf8[1]] && utf8[1..2] == [utf8[1]];
      RangeTwo(utf8[0], utf8[1]);
    }
  }

  // ----- whole strings -----

  /** The UTF-8 form of any text becomes exactly its escaped form. */
  lemma {:induction false} TextTranscodes(text: seq<Scalar>)
    ensures Transcoded(Utf8All(text)) == Some(EscapeAll(text))
  {
    if text != [] {
      var rest := Utf8All(text[1..]);
      HeadOfUtf8(text[0], rest);
      assert (Utf8(text[0]) + rest)[|Utf8(text[0])|..] == rest;
      TextTranscodes(text[1..]);
    }
  }

  /** What the verifier signs off means what the device received. */
  lemma TranscodingKeepsMeaning(text: seq<Scalar>)
    requires Meaning(text).Some?
    ensures var form := Transcoded(Utf8All(text));
            form.Some? && Meaning(Codes(form.value)) == Meaning(text)
  {
    TextTranscodes(text);
    EscapingKeepsMeaning(text);
  }

  /** Nothing else is accepted. */
  lemma {:induction false} OnlyTextTranscodes(utf8: seq<Byte>) returns (text: seq<Scalar>)
    requires Transcoded(utf8).Some?
    ensures utf8 == Utf8All(text) && Transcoded(utf8) == Some(EscapeAll(text))
    decreases |utf8|
  {
    hide Head, Utf8, Escape;
    if utf8 == [] {
      text := [];
    } else {
      HeadIsUtf8(utf8);
      var (c, length) := Head(utf8).value;
      var later := OnlyTextTranscodes(utf8[length..]);
      text := [c] + later;
      assert utf8 == utf8[..length] + utf8[length..];
      assert text[1..] == later;
    }
  }

  /** Accepted exactly when the bytes match the standard's grammar. */
  lemma {:induction false} AcceptsExactlyTheGrammar(utf8: seq<Byte>)
    ensures Transcoded(utf8).Some? <==> Utf8Octets(utf8)
    decreases |utf8|
  {
    if utf8 != [] {
      if Transcoded(utf8).Some? {
        HeadIsUtf8(utf8);
        var (c, n) := Head(utf8).value;
        Utf8MatchesGrammar(c);
        AcceptsExactlyTheGrammar(utf8[n..]);
        assert Utf8Char(utf8[..n]) && Utf8Octets(utf8[n..]);
      }
      if Utf8Octets(utf8) {
        var n :| 1 <= n <= |utf8| && Utf8Char(utf8[..n]) && Utf8Octets(utf8[n..]);
        GrammarIsRead(utf8, n);
        AcceptsExactlyTheGrammar(utf8[n..]);
      }
    }
  }

  // ----- the pass itself -----

  method AppendEscape(ascii: string, value: nat) returns (result: string)
    requires value < 65536
    ensures result == ascii + "\\u" + Hex4(value)
  {
    result := ascii + "\\u";
    var shifts := [4096, 256, 16, 1];
    for k := 0 to 4
      invariant result == ascii + "\\u" + Hex4(value)[..k]
    {
      result := result + [HEX[value / shifts[k] % 16]];
      assert Hex4(value)[..k + 1] == Hex4(value)[..k] + [Hex4(value)[k]];
    }
    assert Hex4(value)[..4] == Hex4(value);
  }

  lemma FoldNothing(lead: nat, ahead: seq<Byte>)
    requires ahead != []
    ensures Fold(lead, ahead[1..1]) == lead
  {
  }

  lemma FoldStep(lead: nat, ahead: seq<Byte>, n: nat)
    requires n + 1 < |ahead|
    ensures Fold(lead, ahead[1..2 + n]) == Fold(lead, ahead[1..1 + n]) * 64 + ahead[1 + n] % 64
  {
    var longer, shorter := ahead[1..2 + n], ahead[1..1 + n];
    assert forall k :: 0 <= k < n ==> longer[..n][k] == shorter[k];
    assert longer[..n] == shorter;
  }

  /** One character at `start`. */
  method ReadChar(utf8: seq<Byte>, start: nat) returns (result: Option<(Scalar, nat)>)
    requires start < |utf8|
    ensures result == Head(utf8[start..])
  {
    hide Fold;
    var i := start;
    var c := utf8[i];
    i := i + 1;
    ghost var ahead := utf8[start..];
    if c < 128 {
      return Some((c, 1));
    }
    var count := Trailing(c);
    if count == 0 || 0xF4 < c || |utf8| < i + count {
      return None;
    }
    var point: nat := LeadBits(c);
    FoldNothing(point, ahead);
    for n := 0 to count
      invariant i == start + 1 + n
      invariant forall k :: 1 <= k <= n ==> Tail(ahead[k])
      invariant point == Fold(LeadBits(c), ahead[1..1 + n])
    {
      var next := utf8[i];
      i := i + 1;
      assert next == ahead[n + 1];
      if !Tail(next) {
        return None;
      }
      FoldStep(LeadBits(c), ahead, n);
      point := point * 64 + next % 64;
    }
    if !InRange(point, count) {
      return None;
    }
    return Some((point, 1 + count));
  }

  method AppendChar(ascii: string, point: Scalar) returns (result: string)
    ensures result == ascii + Escape(point)
  {
    hide Hex4;
    if point < 128 {
      result := ascii + [point as char];
    } else if point <= 0xFFFF {
      result := AppendEscape(ascii, point);
    } else {
      result := AppendEscape(ascii, 0xD800 + (point - 0x10000) / 1024);
      result := AppendEscape(result, 0xDC00 + (point - 0x10000) % 1024);
      var high, low := Hex4(0xD800 + (point - 0x10000) / 1024), Hex4(0xDC00 + (point - 0x10000) % 1024);
      assert ascii + "\\u" + high + "\\u" + low == ascii + ("\\u" + high + "\\u" + low);
    }
  }

  /** The whole pass: the escaped form of the text, or nothing when the bytes are not UTF-8. */
  method Transcode(utf8: seq<Byte>) returns (result: Option<string>)
    ensures result == Transcoded(utf8)
    ensures result.Some? <==> Utf8Octets(utf8)
    ensures forall text: seq<Scalar> :: utf8 == Utf8All(text) ==> result == Some(EscapeAll(text))
  {
    hide Head, Escape, Utf8Char, Utf8;
    AcceptsExactlyTheGrammar(utf8);
    forall text: seq<Scalar> | utf8 == Utf8All(text)
      ensures Transcoded(utf8) == Some(EscapeAll(text))
    {
      TextTranscodes(text);
    }
    var ascii: string := "";
    var i := 0;
    assert utf8[0..] == utf8;
    PrefixedJoin("", "", Transcoded(utf8));
    while i < |utf8|
      invariant 0 <= i <= |utf8|
      invariant Transcoded(utf8) == Prefixed(ascii, Transcoded(utf8[i..]))
    {
      var head := ReadChar(utf8, i);
      if head.None? {
        return None;
      }
      HeadIsUtf8(utf8[i..]);
      var (point, length) := head.value;
      assert utf8[i..][length..] == utf8[i + length..];
      PrefixedJoin(ascii, Escape(point), Transcoded(utf8[i + length..]));
      ascii := AppendChar(ascii, point);
      i := i + length;
    }
    assert ascii + "" == ascii;
    return Some(ascii);
  }

  lemma PrefixedJoin(a: string, b: string, later: Option<string>)
    ensures Prefixed(a, Prefixed(b, later)) == Prefixed(a + b, later)
    ensures Prefixed("", later) == later
  {
    if later.Some? {
      assert a + (b + later.value) == a + b + later.value;
      assert "" + later.value == later.value;
    }
  }

  function Prefixed(ascii: string, later: Option<string>): Option<string> {
    if later.Some? then Some(ascii + later.value) else None
  }
}
