/**
 Text as the program holds it: UTF-8, with WTF-8 for lone surrogates, read as UTF-16 units.
 `Encode` is generalised UTF-8 (section 3 of RFC 3629, with surrogates allowed); `Decode`
 is Go's utf8.DecodeRune, which answers U+FFFD of width one on malformed input.
 */
module Utf8 {
  import opened Common

  type unit = u: int | 0 <= u < 0x10000
  type point = p: int | 0 <= p <= 0x10FFFF

  const REPLACEMENT: point := 0xFFFD

  predicate High(u: int) { 0xD800 <= u <= 0xDBFF }

  predicate Low(u: int) { 0xDC00 <= u <= 0xDFFF }

  predicate Surrogate(u: int) { 0xD800 <= u <= 0xDFFF }

  function Combine(high: unit, low: unit): (p: point)
    requires High(high) && Low(low)
    ensures p >= 0x10000 && UnitsOf(p) == [high, low]
  {
    0x10000 + (high - 0xD800) * 0x400 + (low - 0xDC00)
  }

  function UnitsOf(p: point): (units: seq<unit>)
    ensures units == [p] || (|units| == 2 && High(units[0]) && Low(units[1]))
  {
    if p < 0x10000 then [p] else [0xD800 + (p - 0x10000) / 0x400, 0xDC00 + (p - 0x10000) % 0x400]
  }

  function Encode(p: point): (bytes: seq<byte>)
    ensures 1 <= |bytes| <= 4
    ensures p < 0x80 <==> bytes[0] < 0x80
    ensures p < 0x80 <==> |bytes| == 1
    ensures p < 0x80 ==> bytes[0] == p
  {
    if p < 0x80 then [p]
    else if p < 0x800 then [0xC0 + p / 64, 0x80 + p % 64]
    else if p < 0x10000 then [0xE0 + p / 64 / 64, 0x80 + p / 64 % 64, 0x80 + p % 64]
    else [0xF0 + p / 64 / 64 / 64, 0x80 + p / 64 / 64 % 64, 0x80 + p / 64 % 64, 0x80 + p % 64]
  }

  predicate Continues(b: byte) { 0x80 <= b <= 0xBF }

  /** How many bytes the lead byte announces; 1 for ASCII and for bytes that lead nothing. */
  function Width(b: byte): (n: nat)
    ensures 1 <= n <= 4
  {
    if 0xC2 <= b <= 0xDF then 2 else if 0xE0 <= b <= 0xEF then 3 else if 0xF0 <= b <= 0xF4 then 4 else 1
  }

  /** The second byte's range narrows for overlong forms, surrogates and points past U+10FFFF. */
  predicate Second(lead: byte, b: byte) {
    && Continues(b)
    && (lead == 0xE0 ==> b >= 0xA0) && (lead == 0xED ==> b < 0xA0)
    && (lead == 0xF0 ==> b >= 0x90) && (lead == 0xF4 ==> b < 0x90)
  }

  predicate WellFormed(s: seq<byte>)
    requires s != []
  {
    || s[0] < 0x80
    || (Width(s[0]) == 2 && |s| >= 2 && Second(s[0], s[1]))
    || (Width(s[0]) == 3 && |s| >= 3 && Second(s[0], s[1]) && Continues(s[2]))
    || (Width(s[0]) == 4 && |s| >= 4 && Second(s[0], s[1]) && Continues(s[2]) && Continues(s[3]))
  }

  /** Six more bits. */
  function Join(high: int, b: byte): (r: int)
    ensures Continues(b) ==> r / 64 == high && r % 64 == b - 0x80
  {
    high * 64 + (b - 0x80)
  }

  datatype Rune = Rune(point: point, size: nat)

  function Decode(s: seq<byte>): (r: Rune)
    requires s != []
    ensures 1 <= r.size <= |s|
    ensures !Surrogate(r.point)
    ensures WellFormed(s) ==> Encode(r.point) == s[..r.size]
    ensures !WellFormed(s) ==> r == Rune(REPLACEMENT, 1)
  {
    if !WellFormed(s) then Rune(REPLACEMENT, 1)
    else if s[0] < 0x80 then Rune(s[0], 1)
    else if Width(s[0]) == 2 then Rune(Join(s[0] - 0xC0, s[1]), 2)
    else if Width(s[0]) == 3 then Rune(Join(Join(s[0] - 0xE0, s[1]), s[2]), 3)
    else Rune(Join(Join(Join(s[0] - 0xF0, s[1]), s[2]), s[3]), 4)
  }

  lemma EncodeWellFormed(p: point, rest: seq<byte>)
    requires !Surrogate(p)
    ensures WellFormed(Encode(p) + rest) && (p >= 0x80 ==> Width(Encode(p)[0]) == |Encode(p)|)
  {
    var s, e := Encode(p) + rest, Encode(p);
    assert forall i :: 0 <= i < |e| ==> s[i] == e[i];
  }

  /** Two encodings never overlap: the text after an encoded point does not change how it reads. */
  lemma DecodeEncode(p: point, rest: seq<byte>)
    requires !Surrogate(p)
    ensures Decode(Encode(p) + rest) == Rune(p, |Encode(p)|)
  {
    var s, e := Encode(p) + rest, Encode(p);
    EncodeWellFormed(p, rest);
    assert forall i :: 0 <= i < |e| ==> s[i] == e[i];
    assert Decode(s).size == |e|;
    assert s[..|e|] == e;
    EncodeInjective(Decode(s).point, p);
  }

  lemma EncodeInjective(p: point, q: point)
    requires Encode(p) == Encode(q)
    ensures p == q
  {
    assert Encode(p)[0] == Encode(q)[0];
    if |Encode(p)| >= 2 { assert Encode(p)[1] == Encode(q)[1]; }
    if |Encode(p)| >= 3 { assert Encode(p)[2] == Encode(q)[2]; }
    if |Encode(p)| >= 4 { assert Encode(p)[3] == Encode(q)[3]; }
  }

  /** A surrogate written in three bytes at the front. */
  function SurrogateAt(s: seq<byte>): (u: Option<unit>)
    ensures u.Some? ==> |s| >= 3 && Surrogate(u.value) && s[..3] == Encode(u.value) && !WellFormed(s)
  {
    if |s| < 3 || s[0] != 0xED || s[1] < 0xA0 || s[1] > 0xBF || !Continues(s[2]) then None
    else
      var u: unit := Join(Join(0xD, s[1]), s[2]);
      assert u / 64 % 64 == s[1] - 0x80 && u % 64 == s[2] - 0x80;
      Some(u)
  }

  lemma SurrogateAtEncode(p: point, rest: seq<byte>)
    ensures SurrogateAt(Encode(p) + rest) == if Surrogate(p) then Some(p) else None
  {
    var s := Encode(p) + rest;
    if 0x800 <= p < 0x10000 {
      assert s[0] == 0xE0 + p / 64 / 64 && s[1] == 0x80 + p / 64 % 64 && s[2] == 0x80 + p % 64;
    } else if p < 0x80 {
      assert s[0] == p;
    } else {
      assert s[0] == Encode(p)[0];
    }
  }

  // ----- units -----

  /** One step of reading text: the units it stands for and the bytes it takes. */
  datatype Piece = Piece(units: seq<unit>, size: nat)

  function Take(s: seq<byte>): (piece: Piece)
    requires s != []
    ensures 1 <= piece.size <= |s|
    ensures 1 <= |piece.units| <= 2
    ensures |piece.units| == 2 <==> High(piece.units[0]) && |piece.units| > 1
    ensures |piece.units| == 2 ==> Low(piece.units[1])
  {
    var u := SurrogateAt(s);
    if u.Some? then
      var low := SurrogateAt(s[3..]);
      if High(u.value) && low.Some? && Low(low.value) then Piece([u.value, low.value], 6)
      else Piece([u.value], 3)
    else
      var r := Decode(s);
      Piece(UnitsOf(r.point), r.size)
  }

  /** Any byte string as UTF-16 units. */
  function Units(s: seq<byte>): seq<unit> {
    if s == [] then [] else Take(s).units + Units(s[Take(s).size..])
  }

  /** The program's own form of a unit sequence. */
  function Wtf8(units: seq<unit>): seq<byte> {
    if units == [] then []
    else if |units| >= 2 && High(units[0]) && Low(units[1]) then Encode(Combine(units[0], units[1])) + Wtf8(units[2..])
    else Encode(units[0]) + Wtf8(units[1..])
  }

  /** The first unit of a text is a low surrogate only if one is written there. */
  lemma StartsLow(s: seq<byte>)
    ensures Units(s) != [] && Low(Units(s)[0]) <==> SurrogateAt(s).Some? && Low(SurrogateAt(s).value)
  {
  }

  lemma {:induction false} UnitsOfWtf8(units: seq<unit>)
    ensures Units(Wtf8(units)) == units
    decreases |units|
  {
    if units == [] {
    } else if |units| >= 2 && High(units[0]) && Low(units[1]) {
      PairReads(units[0], units[1], Wtf8(units[2..]));
      UnitsOfWtf8(units[2..]);
    } else {
      var rest := Wtf8(units[1..]);
      UnitsOfWtf8(units[1..]);
      assert |units| >= 2 ==> units[1..][0] == units[1];
      StartsLow(rest);
      SingleReads(units[0], rest);
    }
  }

  lemma PairReads(high: unit, low: unit, rest: seq<byte>)
    requires High(high) && Low(low)
    ensures Units(Encode(Combine(high, low)) + rest) == [high, low] + Units(rest)
  {
    var p := Combine(high, low);
    DecodeEncode(p, rest);
    SurrogateAtEncode(p, rest);
    assert (Encode(p) + rest)[|Encode(p)|..] == rest;
  }

  lemma SingleReads(u: unit, rest: seq<byte>)
    requires High(u) ==> !(SurrogateAt(rest).Some? && Low(SurrogateAt(rest).value))
    ensures Units(Encode(u) + rest) == [u] + Units(rest)
  {
    var s := Encode(u) + rest;
    SurrogateAtEncode(u, rest);
    assert s[|Encode(u)|..] == rest;
    if !Surrogate(u) { DecodeEncode(u, rest); }
  }

  /** Two unit sequences with the same bytes are the same. */
  lemma Wtf8Injective(a: seq<unit>, b: seq<unit>)
    requires Wtf8(a) == Wtf8(b)
    ensures a == b
  {
    UnitsOfWtf8(a);
    UnitsOfWtf8(b);
  }
}
