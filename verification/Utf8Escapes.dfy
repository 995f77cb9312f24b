/**
 * What percent-decoding undoes: the escapes of the UTF-8 encodings of scalar values, as
 * section 3 of RFC 3629 defines them, and nothing else.
 */
module Utf8Escapes {
  import opened Wrappers
  import opened AuthReturn

  predicate IsScalar(v: int) { 0 <= v < 0xD800 || 0xE000 <= v <= 0x10FFFF }

  function Octets(v: int): (octets: seq<int>)
    requires IsScalar(v)
    ensures forall i :: 0 <= i < |octets| ==> 0 <= octets[i] < 256
  {
    if v < 0x80 then [v]
    else if v < 0x800 then [0xC0 + v / 0x40, 0x80 + v % 0x40]
    else if v < 0x1_0000 then [0xE0 + v / 0x1000, 0x80 + v / 0x40 % 0x40, 0x80 + v % 0x40]
    else [0xF0 + v / 0x4_0000, 0x80 + v / 0x1000 % 0x40, 0x80 + v / 0x40 % 0x40, 0x80 + v % 0x40]
  }

  const UPPER := "0123456789ABCDEF"
  const LOWER := "0123456789abcdef"

  predicate IsDigit(u: CodeUnit, v: int) { 0 <= v < 16 && (u == UPPER[v] as int || u == LOWER[v] as int) }

  /** `%` and two hexadecimal digits, in either case. */
  predicate IsEscapeOf(s: JsString, i: int, octet: int) {
    && 0 <= i && i + 3 <= |s| && s[i] == '%' as int
    && 0 <= octet < 256 && IsDigit(s[i + 1], octet / 16) && IsDigit(s[i + 2], octet % 16)
  }

  predicate StartsWithEscapes(s: JsString, octets: seq<int>) {
    forall i :: 0 <= i < |octets| ==> IsEscapeOf(s, 3 * i, octets[i])
  }

  lemma DigitIff(u: CodeUnit, v: int)
    ensures IsDigit(u, v) <==> IsHex(u) && HexValue(u) == v
  {
  }

  lemma EscapeIff(s: JsString, i: nat, octet: int)
    ensures IsEscapeOf(s, i, octet) <==> IsEscapeAt(s, i) && OctetAt(s, i) == octet
  {
    if i + 3 <= |s| {
      DigitIff(s[i + 1], octet / 16);
      DigitIff(s[i + 2], octet % 16);
    }
  }

  /** The octets that stand as escapes at the start of `s`. */
  predicate StartsWithOctets(s: JsString, octets: seq<int>) {
    forall i :: 0 <= i < |octets| ==> IsEscapeAt(s, 3 * i) && OctetAt(s, 3 * i) == octets[i]
  }

  lemma StartsIff(s: JsString, octets: seq<int>)
    ensures StartsWithEscapes(s, octets) <==> StartsWithOctets(s, octets)
  {
    forall i | 0 <= i < |octets|
      ensures IsEscapeOf(s, 3 * i, octets[i]) <==> IsEscapeAt(s, 3 * i) && OctetAt(s, 3 * i) == octets[i]
    {
      EscapeIff(s, 3 * i, octets[i]);
    }
  }

  lemma OctetsAnnounceTheirNumber(v: int)
    requires IsScalar(v)
    ensures |Octets(v)| == OctetCount(Octets(v)[0])
    ensures forall i :: 1 <= i < |Octets(v)| ==> 0x80 <= Octets(v)[i] < 0xC0
  {
  }

  lemma TwoOctets(lead: int, b: int, v: int)
    requires 0xC0 <= lead < 0xE0 && 0x80 <= b < 0xC0 && 0 <= v
    ensures v == (lead - 0xC0) * 0x40 + (b - 0x80) <==> lead == 0xC0 + v / 0x40 && b == 0x80 + v % 0x40
  {
  }

  lemma ThreeOctets(lead: int, b: int, c: int, v: int)
    requires 0xE0 <= lead < 0xF0 && 0x80 <= b < 0xC0 && 0x80 <= c < 0xC0 && 0 <= v
    ensures v == ((lead - 0xE0) * 0x40 + (b - 0x80)) * 0x40 + (c - 0x80) <==>
      lead == 0xE0 + v / 0x1000 && b == 0x80 + v / 0x40 % 0x40 && c == 0x80 + v % 0x40
  {
    assert v / 0x1000 == v / 0x40 / 0x40;
  }

  lemma FourOctets(lead: int, b: int, c: int, d: int, v: int)
    requires 0xF0 <= lead < 0xF8 && 0x80 <= b < 0xC0 && 0x80 <= c < 0xC0 && 0x80 <= d < 0xC0 && 0 <= v
    ensures v == (((lead - 0xF0) * 0x40 + (b - 0x80)) * 0x40 + (c - 0x80)) * 0x40 + (d - 0x80) <==>
      && lead == 0xF0 + v / 0x4_0000 && b == 0x80 + v / 0x1000 % 0x40 && c == 0x80 + v / 0x40 % 0x40
      && d == 0x80 + v % 0x40
  {
    assert v / 0x1000 == v / 0x40 / 0x40 && v / 0x4_0000 == v / 0x40 / 0x40 / 0x40;
  }

  lemma LeadOfOne(s: JsString, v: int)
    requires IsEscapeAt(s, 0) && OctetCount(OctetAt(s, 0)) == 1 && 0 <= v < 0x80
    ensures LeadingCodePoint(s) == Some(v) <==> StartsWithOctets(s, Octets(v))
  {
    assert StartsWithOctets(s, [v]) <==> IsEscapeAt(s, 3 * 0) && OctetAt(s, 3 * 0) == v;
  }

  lemma LeadOfTwo(s: JsString, v: int)
    requires IsEscapeAt(s, 0) && OctetCount(OctetAt(s, 0)) == 2 && 0x80 <= v < 0x800
    ensures LeadingCodePoint(s) == Some(v) <==> StartsWithOctets(s, Octets(v))
  {
    var octets := Octets(v);
    assert StartsWithOctets(s, octets) <==>
      && IsEscapeAt(s, 3 * 0) && OctetAt(s, 3 * 0) == octets[0] && IsEscapeAt(s, 3 * 1) && OctetAt(s, 3 * 1) == octets[1];
    if IsContinuation(s, 3) { TwoOctets(OctetAt(s, 0), OctetAt(s, 3), v); }
    hide HexValue, IsEscapeAt, StartsWithOctets, OctetAt;
  }

  lemma LeadOfThree(s: JsString, v: int)
    requires IsEscapeAt(s, 0) && OctetCount(OctetAt(s, 0)) == 3 && 0x800 <= v < 0x1_0000 && IsScalar(v)
    ensures LeadingCodePoint(s) == Some(v) <==> StartsWithOctets(s, Octets(v))
  {
    var octets := Octets(v);
    assert StartsWithOctets(s, octets) <==>
      && IsEscapeAt(s, 3 * 0) && OctetAt(s, 3 * 0) == octets[0] && IsEscapeAt(s, 3 * 1) && OctetAt(s, 3 * 1) == octets[1]
      && IsEscapeAt(s, 3 * 2) && OctetAt(s, 3 * 2) == octets[2];
    if IsContinuation(s, 3) && IsContinuation(s, 6) { ThreeOctets(OctetAt(s, 0), OctetAt(s, 3), OctetAt(s, 6), v); }
    hide HexValue, IsEscapeAt, StartsWithOctets, OctetAt;
  }

  lemma LeadOfFour(s: JsString, v: int)
    requires IsEscapeAt(s, 0) && OctetCount(OctetAt(s, 0)) == 4 && 0x1_0000 <= v <= 0x10FFFF
    ensures LeadingCodePoint(s) == Some(v) <==> StartsWithOctets(s, Octets(v))
  {
    var octets := Octets(v);
    assert StartsWithOctets(s, octets) <==>
      && IsEscapeAt(s, 3 * 0) && OctetAt(s, 3 * 0) == octets[0] && IsEscapeAt(s, 3 * 1) && OctetAt(s, 3 * 1) == octets[1]
      && IsEscapeAt(s, 3 * 2) && OctetAt(s, 3 * 2) == octets[2] && IsEscapeAt(s, 3 * 3) && OctetAt(s, 3 * 3) == octets[3];
    if IsContinuation(s, 3) && IsContinuation(s, 6) && IsContinuation(s, 9) {
      FourOctets(OctetAt(s, 0), OctetAt(s, 3), OctetAt(s, 6), OctetAt(s, 9), v);
    }
    hide HexValue, IsEscapeAt, StartsWithOctets, OctetAt;
  }

  /** What is read has as many octets as announced. */
  lemma LeadingCodePointIsScalar(s: JsString)
    requires IsEscapeAt(s, 0) && LeadingCodePoint(s).Some?
    ensures var v := LeadingCodePoint(s).value;
      IsScalar(v) && |Octets(v)| == OctetCount(OctetAt(s, 0)) && OctetCount(OctetAt(s, 0)) > 0
  {
    hide HexValue, IsEscapeAt, OctetAt;
  }

  /** Decoding reads a value exactly where the escapes of its encoding stand, in any of the four lengths. */
  lemma LeadingCodePointIff(s: JsString, v: int)
    requires IsEscapeAt(s, 0)
    ensures LeadingCodePoint(s) == Some(v) <==> IsScalar(v) && StartsWithEscapes(s, Octets(v))
  {
    if LeadingCodePoint(s).Some? { LeadingCodePointIsScalar(s); }
    if IsScalar(v) {
      StartsIff(s, Octets(v));
      OctetsAnnounceTheirNumber(v);
      hide LeadingCodePoint, HexValue, StartsWithEscapes;
      var count := OctetCount(OctetAt(s, 0));
      if StartsWithOctets(s, Octets(v)) { assert OctetAt(s, 3 * 0) == Octets(v)[0]; }
      if |Octets(v)| == count {
        match count
        case 1 => LeadOfOne(s, v);
        case 2 => LeadOfTwo(s, v);
        case 3 => LeadOfThree(s, v);
        case _ => LeadOfFour(s, v);
      }
    }
  }

  /** The UTF-16 code units of a scalar value, by section 2 of RFC 2781: itself, or a surrogate pair. */
  predicate AreUnits(units: JsString, v: int) {
    if v < 0x1_0000 then |units| == 1 && units[0] == v
    else
      && |units| == 2 && 0xD800 <= units[0] < 0xDC00 && 0xDC00 <= units[1] < 0xE000
      && v == 0x1_0000 + (units[0] as int - 0xD800) * 0x400 + (units[1] as int - 0xDC00)
  }

  lemma UnitsIff(units: JsString, v: int)
    requires IsScalar(v)
    ensures AreUnits(units, v) <==> units == Utf16(v)
  {
  }

  // ----- Whole texts -----

  /** A unit that is written as it is, or a scalar value written as the escapes of its encoding. */
  datatype Piece = Plain(unit: CodeUnit) | Escaped(v: int, written: JsString, units: JsString)

  predicate IsWellWritten(p: Piece) {
    match p
    case Plain(u) => u != '%' as int
    case Escaped(v, written, units) =>
      && IsScalar(v) && |written| == 3 * |Octets(v)| && StartsWithEscapes(written, Octets(v)) && AreUnits(units, v)
  }

  predicate AreWellWritten(pieces: seq<Piece>) { forall p :: p in pieces ==> IsWellWritten(p) }

  function Written(pieces: seq<Piece>): JsString {
    if pieces == [] then []
    else (match pieces[0] case Plain(u) => [u] case Escaped(_, written, _) => written) + Written(pieces[1..])
  }

  function Meant(pieces: seq<Piece>): JsString {
    if pieces == [] then []
    else (match pieces[0] case Plain(u) => [u] case Escaped(_, _, units) => units) + Meant(pieces[1..])
  }

  lemma EscapesInFront(written: JsString, rest: JsString, octets: seq<int>)
    requires |written| == 3 * |octets|
    ensures StartsWithEscapes(written + rest, octets) <==> StartsWithEscapes(written, octets)
  {
    forall i | 0 <= i < |octets|
      ensures IsEscapeOf(written + rest, 3 * i, octets[i]) <==> IsEscapeOf(written, 3 * i, octets[i])
    {
    }
  }

  lemma DecodeEscaped(v: int, written: JsString, rest: JsString)
    requires IsScalar(v) && |written| == 3 * |Octets(v)| && StartsWithEscapes(written, Octets(v))
    ensures Decode(written + rest) == match Decode(rest)
      case None => None
      case Some(t) => Some(Utf16(v) + t)
  {
    var s := written + rest;
    EscapesInFront(written, rest, Octets(v));
    assert IsEscapeOf(s, 3 * 0, Octets(v)[0]);
    EscapeIff(s, 0, Octets(v)[0]);
    LeadingCodePointIff(s, v);
    OctetsAnnounceTheirNumber(v);
    hide LeadingCodePoint, Octets, StartsWithEscapes, Utf16, HexValue, IsHex;
    assert s[3 * OctetCount(OctetAt(s, 0))..] == rest;
  }

  /** Any text written in plain units and escapes is decoded to what it means. */
  lemma {:induction false} WrittenIsDecoded(pieces: seq<Piece>)
    requires AreWellWritten(pieces)
    ensures Decode(Written(pieces)) == Some(Meant(pieces))
  {
    if pieces != [] {
      var p, rest := pieces[0], Written(pieces[1..]);
      WrittenIsDecoded(pieces[1..]);
      assert IsWellWritten(p);
      hide Octets, Utf16, IsEscapeAt, StartsWithEscapes;
      match p
      case Plain(u) =>
        assert ([u] + rest)[1..] == rest;
      case Escaped(v, written, units) =>
        UnitsIff(units, v);
        DecodeEscaped(v, written, rest);
    }
  }

  /** Whatever is decoded was written that way. */
  lemma {:induction false} DecodedWasWritten(s: JsString) returns (pieces: seq<Piece>)
    requires Decode(s).Some?
    ensures AreWellWritten(pieces) && Written(pieces) == s && Meant(pieces) == Decode(s).value
  {
    pieces := [];
    if s != [] {
      var p, n := FirstPiece(s);
      var rest := DecodedWasWritten(s[n..]);
      pieces := [p] + rest;
      assert pieces[1..] == rest && s == s[..n] + s[n..];
      assert forall q :: q in pieces ==> q == p || q in rest;
    }
  }

  lemma FirstPiece(s: JsString) returns (p: Piece, n: nat)
    requires s != [] && Decode(s).Some?
    ensures 0 < n <= |s| && IsWellWritten(p) && Decode(s[n..]).Some?
    ensures Decode(s).value == (match p case Plain(u) => [u] case Escaped(_, _, units) => units) + Decode(s[n..]).value
    ensures s[..n] == match p case Plain(u) => [u] case Escaped(_, written, _) => written
  {
    if s[0] != PERCENT {
      p, n := Plain(s[0]), 1;
    } else {
      var v := LeadingCodePoint(s).value;
      LeadingCodePointIff(s, v);
      LeadingCodePointIsScalar(s);
      hide LeadingCodePoint, Octets, StartsWithEscapes, Utf16, HexValue, IsHex;
      n := 3 * OctetCount(OctetAt(s, 0));
      UnitsIff(Utf16(v), v);
      p := Escaped(v, s[..n], Utf16(v));
      assert s == s[..n] + s[n..];
      EscapesInFront(s[..n], s[n..], Octets(v));
    }
  }

  /**
   * Decoding gives a text exactly when the input is written in plain units and in escapes of
   * UTF-8 encodings that mean it; overlong forms, surrogates and stray octets are all refused.
   */
  lemma DecodeIff(s: JsString, t: JsString)
    ensures Decode(s) == Some(t) <==>
      exists pieces :: AreWellWritten(pieces) && Written(pieces) == s && Meant(pieces) == t
  {
    if Decode(s) == Some(t) {
      var pieces := DecodedWasWritten(s);
    }
    forall pieces | AreWellWritten(pieces) && Written(pieces) == s && Meant(pieces) == t ensures Decode(s) == Some(t) {
      WrittenIsDecoded(pieces);
    }
  }

  /** A text has no invalid escape exactly when two hexadecimal digits follow every percent sign. */
  lemma ValidEscapesIff(s: JsString)
    ensures !HasInvalidEscape(s) <==>
      forall i :: 0 <= i < |s| && s[i] == '%' as int ==> exists octet :: IsEscapeOf(s, i, octet)
  {
    forall i | 0 <= i < |s| && s[i] == '%' as int
      ensures IsEscapeAt(s, i) <==> exists octet :: IsEscapeOf(s, i, octet)
    {
      if IsEscapeAt(s, i) { EscapeIff(s, i, OctetAt(s, i)); }
      forall octet | IsEscapeOf(s, i, octet) ensures IsEscapeAt(s, i) { EscapeIff(s, i, octet); }
    }
  }
}
