/** JSON text that keeps lone surrogates (section 7 of RFC 8259): how it is printed and how it is read. */
module NativeText {
  import opened Common
  import opened Concatenation
  import opened Utf8

  const MAX_RETAINED := 64 * 1024 * 1024

  const QUOTE: byte := 34
  const BACKSLASH: byte := 92

  // ----- printing -----

  function HexDigit(n: nat): byte
    requires n < 16
  {
    if n < 10 then 48 + n else 87 + n
  }

  function UnicodeEscape(u: unit): seq<byte> {
    [BACKSLASH, 117, HexDigit(u / 16 / 16 / 16), HexDigit(u / 16 / 16 % 16), HexDigit(u / 16 % 16), HexDigit(u % 16)]
  }

  /** The letter of a two-character escape. */
  function Letter(u: unit): Option<byte> {
    if u == 34 || u == 92 then Some(u)
    else if u == 8 then Some(98) else if u == 12 then Some(102) else if u == 10 then Some(110)
    else if u == 13 then Some(114) else if u == 9 then Some(116) else None
  }

  /** What json.Marshal also escapes, inside the values of an object or array. */
  predicate Html(u: unit) { u == 60 || u == 62 || u == 38 || u == 0x2028 || u == 0x2029 }

  function Escape(u: unit, html: bool): seq<byte> {
    if Letter(u).Some? then [BACKSLASH, Letter(u).value]
    else if u < 0x20 || Surrogate(u) || (html && Html(u)) then UnicodeEscape(u)
    else Encode(u)
  }

  predicate Paired(units: seq<unit>) {
    |units| >= 2 && High(units[0]) && Low(units[1])
  }

  function Body(units: seq<unit>, html: bool): seq<byte>
    decreases |units|
  {
    if units == [] then []
    else if Paired(units) then Encode(Combine(units[0], units[1])) + Body(units[2..], html)
    else Escape(units[0], html) + Body(units[1..], html)
  }

  function Quote(units: seq<unit>, html: bool): seq<byte> {
    [QUOTE] + Body(units, html) + [QUOTE]
  }

  function PieceText(piece: Piece): seq<byte>
    requires 1 <= |piece.units| <= 2 && (|piece.units| == 2 ==> Paired(piece.units))
  {
    if |piece.units| == 2 then Encode(Combine(piece.units[0], piece.units[1])) else Escape(piece.units[0], false)
  }

  /** The byte loop and the unit recursion cut a text at the same places. */
  lemma BodyStep(s: seq<byte>)
    requires s != []
    ensures Body(Units(s), false) == PieceText(Take(s)) + Body(Units(s[Take(s).size..]), false)
  {
    var piece := Take(s);
    var rest := s[piece.size..];
    assert Units(s) == piece.units + Units(rest);
    if |piece.units| == 2 {
      assert Units(s)[2..] == Units(rest);
    } else {
      assert Units(s)[1..] == Units(rest);
      StartsLow(rest);
    }
  }

  /** One turn of the MarshalJSON loop. */
  method MarshalPiece(s: seq<byte>) returns (text: seq<byte>, size: nat)
    requires s != []
    ensures text == PieceText(Take(s)) && size == Take(s).size
  {
    var u := SurrogateAt(s);
    if u.Some? {
      var low := SurrogateAt(s[3..]);
      if u.value <= 0xDBFF && low.Some? && low.value >= 0xDC00 { return Encode(Combine(u.value, low.value)), 6; }
      return UnicodeEscape(u.value), 3;
    }
    var r := Decode(s);
    CombineUnits(r.point);
    if r.point < 0x10000 && Letter(r.point).Some? {
      text := [BACKSLASH, Letter(r.point).value];
    } else if r.point < 0x20 {
      text := UnicodeEscape(r.point);
    } else {
      text := Encode(r.point);
    }
    size := r.size;
  }

  ghost predicate Printed(body: seq<byte>, left: seq<byte>, plain: seq<byte>) {
    body + Body(Units(left), false) == Body(Units(plain), false)
  }

  lemma PrintedStep(body: seq<byte>, left: seq<byte>, plain: seq<byte>)
    requires left != [] && Printed(body, left, plain)
    ensures Printed(body + PieceText(Take(left)), left[Take(left).size..], plain)
  {
    BodyStep(left);
    Assoc(body, PieceText(Take(left)), Body(Units(left[Take(left).size..]), false));
  }

  /** MarshalJSON prints the units of any byte string, well formed or not. */
  method MarshalText(plain: seq<byte>) returns (result: seq<byte>)
    ensures result == Quote(Units(plain), false)
  {
    var body, i := [], 0;
    assert plain[0..] == plain;
    while i < |plain|
      invariant 0 <= i <= |plain|
      invariant Printed(body, plain[i..], plain)
    {
      PrintedStep(body, plain[i..], plain);
      var text, size := MarshalPiece(plain[i..]);
      assert plain[i..][size..] == plain[i + size..];
      body, i := body + text, i + size;
    }
    result := [QUOTE] + body + [QUOTE];
  }

  lemma CombineUnits(p: point)
    ensures p >= 0x10000 ==> Combine(UnitsOf(p)[0], UnitsOf(p)[1]) == p
  {
  }

  // ----- reading -----

  function HexValue(b: byte): Option<nat> {
    if 48 <= b <= 57 then Some(b - 48)
    else if 97 <= b <= 102 then Some(b - 87)
    else if 65 <= b <= 70 then Some(b - 55)
    else None
  }

  function ReadHex(s: seq<byte>, digits: nat, unit: int): (r: Result<int>)
    requires digits <= 4 && 0 <= unit && (digits == 4 ==> unit == 0) && (digits == 3 ==> unit < 16)
    requires (digits == 2 ==> unit < 16 * 16) && (digits == 1 ==> unit < 16 * 16 * 16) && (digits == 0 ==> unit < 0x10000)
    ensures r.Ok? ==> 0 <= r.value < 0x10000 && digits <= |s|
  {
    if digits == 0 then Ok(unit)
    else if s == [] then Err("incomplete desktop JSON Unicode escape")
    else if HexValue(s[0]).None? then Err("invalid desktop JSON Unicode escape")
    else ReadHex(s[1..], digits - 1, unit * 16 + HexValue(s[0]).value)
  }

  function Unescaped(b: byte): Option<unit> {
    if b == 34 || b == 92 || b == 47 then Some(b)
    else if b == 98 then Some(8) else if b == 102 then Some(12) else if b == 110 then Some(10)
    else if b == 114 then Some(13) else if b == 116 then Some(9) else None
  }

  /** One escape, one ASCII character or one rune of a string. */
  function ReadChar(s: seq<byte>): (r: Result<Piece>)
    requires s != []
    ensures r.Ok? ==> 1 <= r.value.size <= |s| && 1 <= |r.value.units| <= 2
  {
    if s[0] < 0x20 then Err("invalid desktop JSON control character")
    else if s[0] == BACKSLASH then
      if |s| < 2 then Err("incomplete desktop JSON escape")
      else if Unescaped(s[1]).Some? then Ok(Piece([Unescaped(s[1]).value], 2))
      else if s[1] == 117 then
        match ReadHex(s[2..], 4, 0)
        case Ok(u) => Ok(Piece([u], 6))
        case Err(e) => Err(e)
      else Err("invalid desktop JSON escape")
    else if s[0] < 0x80 then Ok(Piece([s[0]], 1))
    else Ok(Piece(UnitsOf(Decode(s).point), Decode(s).size))
  }

  /** What a reader has: a value, the bytes not read yet and the memory charged so far. */
  datatype Read<+T> = Got(value: T, rest: seq<byte>, retained: nat) | Stop(error: string)

  datatype Kept = Kept(units: seq<unit>, retained: nat)

  /** Keys over the limit are refused; text over a limit is dropped. */
  function Emit(kept: Kept, u: unit, limit: int, key: bool): Result<Kept> {
    if limit >= 0 && |kept.units| >= limit then
      if key then Err("desktop JSON key/number limit") else Ok(kept)
    else if kept.retained + 2 > MAX_RETAINED then Err("desktop retained state limit")
    else Ok(Kept(kept.units + [u], kept.retained + 2))
  }

  function EmitAll(kept: Kept, units: seq<unit>, limit: int, key: bool): Result<Kept>
    decreases |units|
  {
    if units == [] then Ok(kept)
    else match Emit(kept, units[0], limit, key)
      case Err(e) => Err(e)
      case Ok(next) => EmitAll(next, units[1..], limit, key)
  }

  /** The string loop, after the opening quote. */
  function ReadText(s: seq<byte>, limit: int, key: bool, kept: Kept): (r: Read<seq<unit>>)
    ensures r.Got? ==> |r.rest| < |s|
    decreases |s|
  {
    if s == [] then Stop("incomplete desktop JSON string")
    else if s[0] == QUOTE then Got(kept.units, s[1..], kept.retained)
    else match ReadChar(s)
      case Err(e) => Stop(e)
      case Ok(piece) =>
        match EmitAll(kept, piece.units, limit, key)
        case Err(e) => Stop(e)
        case Ok(next) => ReadText(s[piece.size..], limit, key, next)
  }

  // ----- reading what was printed -----

  lemma HexReads(n: nat)
    requires n < 16
    ensures HexValue(HexDigit(n)) == Some(n)
  {
  }

  lemma UnicodeEscapeReads(u: unit, rest: seq<byte>)
    ensures ReadChar(UnicodeEscape(u) + rest) == Ok(Piece([u], 6))
  {
    var a, b, c, d := u / 16 / 16 / 16, u / 16 / 16 % 16, u / 16 % 16, u % 16;
    var s := UnicodeEscape(u) + rest;
    HexReads(a); HexReads(b); HexReads(c); HexReads(d);
    assert s[2..] == [HexDigit(a)] + ([HexDigit(b)] + ([HexDigit(c)] + ([HexDigit(d)] + rest)));
    HexStep([HexDigit(d)] + rest, 1, a * 256 + b * 16 + c, d);
    HexStep([HexDigit(c)] + ([HexDigit(d)] + rest), 2, a * 16 + b, c);
    HexStep([HexDigit(b)] + ([HexDigit(c)] + ([HexDigit(d)] + rest)), 3, a, b);
    HexStep(s[2..], 4, 0, a);
  }

  lemma HexStep(s: seq<byte>, digits: nat, unit: int, n: nat)
    requires 1 <= digits <= 4 && 0 <= unit && (digits == 4 ==> unit == 0) && (digits == 3 ==> unit < 16)
    requires (digits == 2 ==> unit < 16 * 16) && (digits == 1 ==> unit < 16 * 16 * 16)
    requires n < 16 && s != [] && s[0] == HexDigit(n)
    ensures ReadHex(s, digits, unit) == ReadHex(s[1..], digits - 1, unit * 16 + n)
  {
    HexReads(n);
  }

  /** Every printed unit reads back as itself, whatever follows. */
  lemma EscapeReads(u: unit, html: bool, rest: seq<byte>)
    ensures var e := Escape(u, html);
      e != [] && e[0] != QUOTE && ReadChar(e + rest) == Ok(Piece([u], |e|))
  {
    var e := Escape(u, html);
    if Letter(u).Some? {
      assert (e + rest)[0] == BACKSLASH && (e + rest)[1] == Letter(u).value;
    } else if u < 0x20 || Surrogate(u) || (html && Html(u)) {
      UnicodeEscapeReads(u, rest);
    } else {
      assert (e + rest)[0] == e[0];
      DecodeEncode(u, rest);
    }
  }

  lemma PairEscapeReads(high: unit, low: unit, rest: seq<byte>)
    requires High(high) && Low(low)
    ensures var e := Encode(Combine(high, low)); e[0] != QUOTE && ReadChar(e + rest) == Ok(Piece([high, low], |e|))
  {
    var p := Combine(high, low);
    DecodeEncode(p, rest);
    assert (Encode(p) + rest)[0] == Encode(p)[0];
  }

  lemma {:induction false} EmitAllSplit(kept: Kept, a: seq<unit>, b: seq<unit>, limit: int, key: bool)
    ensures EmitAll(kept, a + b, limit, key) ==
            var first := EmitAll(kept, a, limit, key); if first.Err? then first else EmitAll(first.value, b, limit, key)
    decreases |a|
  {
    if a == [] {
      assert a + b == b;
    } else {
      assert (a + b)[1..] == a[1..] + b;
      var next := Emit(kept, a[0], limit, key);
      if next.Ok? { EmitAllSplit(next.value, a[1..], b, limit, key); }
    }
  }

  /** Reading a printed text is emitting its units. */
  lemma {:induction false} BodyReads(units: seq<unit>, html: bool, rest: seq<byte>, limit: int, key: bool, kept: Kept)
    ensures ReadText(Body(units, html) + [QUOTE] + rest, limit, key, kept) ==
            var all := EmitAll(kept, units, limit, key);
            if all.Err? then Stop(all.error) else Got(all.value.units, rest, all.value.retained)
    decreases |units|
  {
    if units == [] {
      var s := Body(units, html) + [QUOTE] + rest;
      assert s[0] == QUOTE && s[1..] == rest;
    } else {
      var n := if Paired(units) then 2 else 1;
      var e := if n == 2 then Encode(Combine(units[0], units[1])) else Escape(units[0], html);
      var tail := Body(units[n..], html) + [QUOTE] + rest;
      assert Body(units, html) + [QUOTE] + rest == e + tail;
      if n == 2 { PairEscapeReads(units[0], units[1], tail); } else { EscapeReads(units[0], html, tail); }
      assert units == units[..n] + units[n..] && units[..n] == if n == 2 then [units[0], units[1]] else [units[0]];
      EmitAllSplit(kept, units[..n], units[n..], limit, key);
      StepReads(e, tail, units[..n], limit, key, kept);
      var next := EmitAll(kept, units[..n], limit, key);
      if next.Ok? { BodyReads(units[n..], html, rest, limit, key, next.value); }
    }
  }

  lemma StepReads(e: seq<byte>, tail: seq<byte>, units: seq<unit>, limit: int, key: bool, kept: Kept)
    requires e != [] && e[0] != QUOTE && ReadChar(e + tail) == Ok(Piece(units, |e|))
    ensures ReadText(e + tail, limit, key, kept) ==
            var next := EmitAll(kept, units, limit, key);
            if next.Err? then Stop(next.error) else ReadText(tail, limit, key, next.value)
  {
    assert (e + tail)[0] == e[0] && (e + tail)[|e|..] == tail;
  }

  /** Emitting without a limit, or within it: everything is kept exactly when the memory bound allows. */
  lemma {:induction false} EmitWithin(kept: Kept, units: seq<unit>, limit: int, key: bool)
    requires limit < 0 || |kept.units| + |units| <= limit
    ensures var r := EmitAll(kept, units, limit, key);
      if units == [] || kept.retained + 2 * |units| <= MAX_RETAINED
      then r == Ok(Kept(kept.units + units, kept.retained + 2 * |units|)) else r.Err?
    decreases |units|
  {
    if units != [] {
      assert [units[0]] + units[1..] == units;
      if kept.retained + 2 <= MAX_RETAINED {
        EmitWithin(Kept(kept.units + [units[0]], kept.retained + 2), units[1..], limit, key);
        assert kept.units + [units[0]] + units[1..] == kept.units + units;
      }
    } else {
      assert kept.units + units == kept.units;
    }
  }

  lemma {:induction false} KeyTooLong(kept: Kept, units: seq<unit>, limit: int)
    requires 0 <= |kept.units| <= limit < |kept.units| + |units|
    ensures EmitAll(kept, units, limit, true).Err?
    decreases |units|
  {
    if |kept.units| < limit && kept.retained + 2 <= MAX_RETAINED {
      KeyTooLong(Kept(kept.units + [units[0]], kept.retained + 2), units[1..], limit);
    }
  }

  lemma {:induction false} EmitNothing(kept: Kept, units: seq<unit>)
    ensures EmitAll(kept, units, 0, false) == Ok(kept)
    decreases |units|
  {
    if units != [] { EmitNothing(kept, units[1..]); }
  }

  /** Every unit sequence, lone surrogates included, is read back from its printed form. */
  lemma TextRoundTrip(units: seq<unit>, html: bool, rest: seq<byte>, limit: int, key: bool, kept: Kept)
    requires kept.units == [] && (limit < 0 || |units| <= limit)
    ensures var r := ReadText(Body(units, html) + [QUOTE] + rest, limit, key, kept);
      if units == [] || kept.retained + 2 * |units| <= MAX_RETAINED
      then r == Got(units, rest, kept.retained + 2 * |units|) else r.Stop?
  {
    BodyReads(units, html, rest, limit, key, kept);
    EmitWithin(kept, units, limit, key);
    assert [] + units == units;
  }
}

/** The string reader's builder: bytes written so far and a high surrogate held back. */
module NativeBuilder {
  import opened Common
  import opened Concatenation
  import opened Utf8
  import opened NativeText

  predicate LastHigh(units: seq<unit>) { units != [] && High(units[|units| - 1]) }

  /** Some surrogate of the text has no partner. */
  predicate HasLone(units: seq<unit>) {
    if units == [] then false
    else if Paired(units) then HasLone(units[2..])
    else Surrogate(units[0]) || HasLone(units[1..])
  }

  /** No pair straddles the boundary. */
  predicate Cut(a: seq<unit>, b: seq<unit>) { LastHigh(a) && b != [] ==> !Low(b[0]) }

  lemma CutTail(a: seq<unit>, b: seq<unit>, n: nat)
    requires Cut(a, b) && n <= |a|
    ensures Cut(a[n..], b) && (a + b)[n..] == a[n..] + b
  {
  }

  lemma {:induction false} Wtf8Append(a: seq<unit>, b: seq<unit>)
    requires Cut(a, b)
    ensures Wtf8(a + b) == Wtf8(a) + Wtf8(b)
    decreases |a|
  {
    if a == [] {
      assert a + b == b;
    } else {
      var n := if Paired(a) then 2 else 1;
      CutTail(a, b, n);
      Wtf8Append(a[n..], b);
      var e := if n == 2 then Encode(Combine(a[0], a[1])) else Encode(a[0]);
      assert Wtf8(a) == e + Wtf8(a[n..]) && Wtf8(a + b) == e + Wtf8(a[n..] + b);
      Assoc(e, Wtf8(a[n..]), Wtf8(b));
    }
  }

  lemma {:induction false} LoneAppend(a: seq<unit>, b: seq<unit>)
    requires Cut(a, b)
    ensures HasLone(a + b) == (HasLone(a) || HasLone(b))
    decreases |a|
  {
    if a == [] {
      assert a + b == b;
    } else {
      var n := if Paired(a) then 2 else 1;
      CutTail(a, b, n);
      LoneAppend(a[n..], b);
    }
  }

  /** The builder after these units: a trailing high surrogate is held back, all else is written. */
  predicate Built(out: seq<byte>, pending: unit, unpaired: bool, units: seq<unit>) {
    if LastHigh(units)
    then pending == units[|units| - 1] && out == Wtf8(units[..|units| - 1]) && unpaired == HasLone(units[..|units| - 1])
    else pending == 0 && out == Wtf8(units) && unpaired == HasLone(units)
  }

  lemma OneUnit(u: unit)
    ensures Wtf8([u]) == Encode(u) && HasLone([u]) == Surrogate(u)
  {
    assert [u][1..] == [];
    assert Wtf8([]) == [];
  }

  lemma TwoUnits(high: unit, low: unit)
    requires High(high) && Low(low)
    ensures Wtf8([high, low]) == Encode(Combine(high, low)) && !HasLone([high, low])
  {
    assert [high, low][2..] == [];
    assert Wtf8([]) == [];
  }

  lemma WriteOne(units: seq<unit>, u: unit)
    requires !(LastHigh(units) && Low(u))
    ensures Wtf8(units + [u]) == Wtf8(units) + Encode(u) && HasLone(units + [u]) == (HasLone(units) || Surrogate(u))
  {
    Wtf8Append(units, [u]);
    LoneAppend(units, [u]);
    OneUnit(u);
  }

  /** emit, once the unit is charged */
  method WriteUnit(out: seq<byte>, pending: unit, unpaired: bool, u: unit, ghost units: seq<unit>)
    returns (out': seq<byte>, pending': unit, unpaired': bool)
    requires Built(out, pending, unpaired, units)
    ensures Built(out', pending', unpaired', units + [u])
  {
    out', pending', unpaired' := out, pending, unpaired;
    ghost var all := units + [u];
    assert all[..|units|] == units;
    if pending != 0 {
      ghost var front := units[..|units| - 1];
      assert units == front + [pending];
      if 0xDC00 <= u <= 0xDFFF {
        TwoUnits(pending, u);
        assert all == front + [pending, u];
        Wtf8Append(front, [pending, u]);
        LoneAppend(front, [pending, u]);
        out' := out' + Encode(Combine(pending, u));
        pending' := 0;
        return;
      }
      WriteOne(front, pending);
      out' := out' + Encode(pending);
      unpaired' := true;
      pending' := 0;
    }
    if 0xD800 <= u <= 0xDBFF {
      pending' := u;
    } else {
      WriteOne(units, u);
      out' := out' + Encode(u);
      if 0xDC00 <= u <= 0xDFFF { unpaired' := true; }
    }
  }

  /** After the closing quote: the held surrogate stands alone. */
  method FinishText(out: seq<byte>, pending: unit, unpaired: bool, ghost units: seq<unit>)
    returns (text: seq<byte>, surrogate: bool)
    requires Built(out, pending, unpaired, units)
    ensures text == Wtf8(units) && Units(text) == units
    ensures surrogate <==> HasLone(units)
  {
    text, surrogate := out, unpaired;
    if pending != 0 {
      WriteOne(units[..|units| - 1], pending);
      assert units == units[..|units| - 1] + [pending];
      text, surrogate := text + Encode(pending), true;
    }
    UnitsOfWtf8(units);
  }
}
