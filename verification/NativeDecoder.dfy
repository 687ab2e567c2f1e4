/** The decoder itself: a reader position and the memory charged, changed step by step. */
module NativeDecoder {
  import opened Common
  import opened Utf8
  import opened NativeText
  import opened NativeBuilder
  import opened NativeKeys
  import opened NativeValue

  /** The decoder did what the specification says. */
  ghost predicate Ends(spec: Read<Value>, r: Result<Value>, rest: seq<byte>, retained: nat) {
    if spec.Got? then r == Ok(spec.value) && rest == spec.rest && retained == spec.retained else r == Result<Value>.Err(spec.error)
  }

  /** A text under construction: bytes written, a high surrogate held back, units counted. */
  datatype Builder = Builder(out: seq<byte>, pending: unit, unpaired: bool, units: nat)

  ghost predicate Holds(b: Builder, kept: seq<unit>) {
    Built(b.out, b.pending, b.unpaired, kept) && b.units == |kept|
  }

  lemma EmitOne(kept: Kept, u: unit, limit: int, key: bool)
    ensures EmitAll(kept, [u], limit, key) == Emit(kept, u, limit, key)
  {
    assert [u][1..] == [];
  }

  lemma EmitTwo(kept: Kept, a: unit, b: unit, limit: int, key: bool)
    ensures var first := Emit(kept, a, limit, key);
      EmitAll(kept, [a, b], limit, key) == if first.Err? then first else Emit(first.value, b, limit, key)
  {
    assert [a, b] == [a] + [b];
    EmitAllSplit(kept, [a], [b], limit, key);
    EmitOne(kept, a, limit, key);
    if Emit(kept, a, limit, key).Ok? { EmitOne(Emit(kept, a, limit, key).value, b, limit, key); }
  }

  class Decoder {
    var rest: seq<byte>
    var retained: nat
    const mode: Mode

    constructor (data: seq<byte>, setting: Mode)
      ensures rest == data && retained == 0 && mode == setting
    {
      rest, retained, mode := data, 0, setting;
    }

    method Charge(n: nat) returns (ok: bool)
      modifies this`retained
      ensures retained == old(retained) + n && (ok <==> retained <= MAX_RETAINED)
    {
      retained := retained + n;
      ok := retained <= MAX_RETAINED;
    }

    /** The next byte that is not white space. */
    method Next() returns (b: Option<byte>)
      modifies this`rest
      ensures var t := Skip(old(rest));
        if t == [] then b == None && rest == [] else b == Some(t[0]) && rest == t[1..]
    {
      while rest != []
        invariant Skip(rest) == Skip(old(rest))
        decreases |rest|
      {
        var head := rest[0];
        rest := rest[1..];
        if !Space(head) { return Some(head); }
      }
      b := None;
    }

    /** One unit: over the limit it is refused or dropped, else charged and written. */
    method EmitUnit(b: Builder, u: unit, limit: int, key: bool, ghost kept: seq<unit>) returns (r: Result<Builder>)
      requires Holds(b, kept)
      modifies this`retained
      ensures var spec := Emit(Kept(kept, old(retained)), u, limit, key);
        if spec.Err? then r == Result<Builder>.Err(spec.error) else r.Ok? && Holds(r.value, spec.value.units) && retained == spec.value.retained
    {
      if limit >= 0 && b.units >= limit {
        if key { return Result<Builder>.Err("desktop JSON key/number limit"); }
        return Ok(b);
      }
      var ok := Charge(2);
      if !ok { return Result<Builder>.Err("desktop retained state limit"); }
      var out, pending, unpaired := WriteUnit(b.out, b.pending, b.unpaired, u, kept);
      r := Ok(Builder(out, pending, unpaired, b.units + 1));
    }

    method EmitPiece(b: Builder, units: seq<unit>, limit: int, key: bool, ghost kept: seq<unit>) returns (r: Result<Builder>)
      requires Holds(b, kept) && 1 <= |units| <= 2
      modifies this`retained
      ensures var spec := EmitAll(Kept(kept, old(retained)), units, limit, key);
        if spec.Err? then r == Result<Builder>.Err(spec.error) else r.Ok? && Holds(r.value, spec.value.units) && retained == spec.value.retained
    {
      ghost var first := Emit(Kept(kept, retained), units[0], limit, key);
      r := EmitUnit(b, units[0], limit, key, kept);
      if |units| == 1 {
        EmitOne(Kept(kept, old(retained)), units[0], limit, key);
        assert units == [units[0]];
      } else {
        EmitTwo(Kept(kept, old(retained)), units[0], units[1], limit, key);
        assert units == [units[0], units[1]];
        if r.Ok? { r := EmitUnit(r.value, units[1], limit, key, first.value.units); }
      }
    }

    /** A string after its opening quote: the reader keeps bytes and a count, never the unit sequence. */
    method ReadString(limit: int, key: bool) returns (r: Result<seq<byte>>, unpaired: bool)
      modifies this
      ensures var spec := ReadText(old(rest), limit, key, Kept([], old(retained)));
        if spec.Stop? then r == Result<seq<byte>>.Err(spec.error)
        else r.Ok? && r.value == Wtf8(spec.value) && Units(r.value) == spec.value && unpaired == HasLone(spec.value)
             && rest == spec.rest && retained == spec.retained
    {
      var b := Builder([], 0, false, 0);
      ghost var kept: seq<unit> := [];
      ghost var spec := ReadText(rest, limit, key, Kept([], retained));
      while rest != [] && rest[0] != QUOTE
        invariant Holds(b, kept) && ReadText(rest, limit, key, Kept(kept, retained)) == spec
        decreases |rest|
      {
        var piece := ReadChar(rest);
        if piece.Err? { return Result<seq<byte>>.Err(piece.error), false; }
        ghost var all := EmitAll(Kept(kept, retained), piece.value.units, limit, key);
        var next := EmitPiece(b, piece.value.units, limit, key, kept);
        if next.Err? { return Result<seq<byte>>.Err(next.error), false; }
        b, kept := next.value, all.value.units;
        rest := rest[piece.value.size..];
      }
      if rest == [] { return Result<seq<byte>>.Err("incomplete desktop JSON string"), false; }
      rest := rest[1..];
      var text, surrogate := FinishText(b.out, b.pending, b.unpaired, kept);
      r, unpaired := Ok(text), surrogate;
    }

    method ReadDigits(first: byte) returns (r: Result<Value>)
      requires NumberByte(first)
      modifies this
      ensures Ends(ReadNumber([first] + old(rest), old(retained), mode), r, rest, retained)
    {
      var data: seq<byte> := [first];
      ghost var whole := [first] + rest;
      ghost var spec := ReadNumber(whole, retained, mode);
      assert whole[1..] == rest;
      while rest != [] && NumberByte(rest[0])
        invariant data + rest == whole && 1 <= |data| <= MAX_NUMBER && retained == old(retained)
        invariant NumberRun(whole) == |data| + NumberRun(rest)
        decreases |rest|
      {
        var b := rest[0];
        assert data + rest == (data + [b]) + rest[1..];
        data, rest := data + [b], rest[1..];
        if |data| > MAX_NUMBER { return Result<Value>.Err("desktop JSON key/number limit"); }
      }
      assert whole[..|data|] == data && whole[|data|..] == rest;
      if !Numeric(data) { return Result<Value>.Err("invalid desktop JSON number"); }
      var ok := Charge(2 * |data|);
      if !ok { return Result<Value>.Err(RETAINED_LIMIT); }
      var printed := mode.float(data);
      r := if printed.Some? then Ok(Num(printed.value)) else Result<Value>.Err(OUT_OF_RANGE);
    }

    method Literal(text: seq<byte>, value: Value) returns (r: Result<Value>)
      requires text != []
      modifies this`rest
      ensures Ends(ReadLiteral([text[0]] + old(rest), text, value, retained), r, rest, retained)
    {
      var i := 1;
      ghost var whole := [text[0]] + rest;
      while i < |text|
        invariant 1 <= i <= |text| && i <= |whole| && whole[..i] == text[..i] && rest == whole[i..]
      {
        if rest == [] || rest[0] != text[i] {
          assert i < |whole| ==> whole[i] == rest[0];
          assert |text| <= |whole| ==> whole[..|text|][i] == whole[i];
          return Result<Value>.Err("invalid desktop JSON literal");
        }
        assert whole[i] == rest[0];
        rest, i := rest[1..], i + 1;
      }
      r := Ok(value);
    }

    method ReadAny(p: Path, depth: nat) returns (r: Result<Value>)
      modifies this
      ensures Ends(ReadValue(old(rest), p, depth, old(retained), mode), r, rest, retained)
      decreases |rest|, 2
    {
      hide ReadFields; hide ReadItems; hide ReadText; hide ReadNumber; hide ReadLiteral; hide Limit;
      ghost var t := Skip(rest);
      var ok := Charge(32);
      if !ok { return Result<Value>.Err(RETAINED_LIMIT); }
      var b := Next();
      if b.None? { return Result<Value>.Err("incomplete desktop JSON"); }
      assert t == [b.value] + rest;
      if b.value == 123 || b.value == 91 {
        if depth >= MAX_DEPTH { return Result<Value>.Err("desktop JSON nesting limit"); }
        if b.value == 123 { r := ReadObject(p, depth + 1); } else { r := ReadArray(p, depth + 1); }
      } else if b.value == QUOTE {
        var limit := StringPolicy(p);
        var text, _ := ReadString(limit, false);
        r := if text.Err? then Result<Value>.Err(text.error) else Ok(Str(Units(text.value)));
      } else if b.value == 116 {
        r := Literal(TRUE, Bool(true));
      } else if b.value == 102 {
        r := Literal(FALSE, Bool(false));
      } else if b.value == 110 {
        r := Literal(NULL, Null);
      } else if b.value == 45 || Digit(b.value) {
        r := ReadDigits(b.value);
      } else {
        r := Result<Value>.Err("invalid desktop JSON value");
      }
    }

    method ReadArray(p: Path, depth: nat) returns (r: Result<Value>)
      modifies this
      ensures Ends(ArrayFrom(old(rest), p, depth, old(retained), mode), r, rest, retained)
      decreases |rest|, 3
    {
      hide ReadValue; hide Skip;
      ghost var inside := Skip(rest);
      ghost var before := |rest|;
      var b := Next();
      if b.None? { return Result<Value>.Err("EOF"); }
      if b.value == 93 { return Ok(Arr([])); }
      rest := [b.value] + rest;
      assert rest == inside;
      var items: seq<Value> := [];
      ghost var spec := ReadItems(rest, p, depth, retained, [], mode);
      while true
        invariant |rest| <= before && ReadItems(rest, p, depth, retained, items, mode) == spec
        decreases |rest|
      {
        ghost var start := rest;
        var v := ReadAny(p + [At(|items|)], depth);
        if v.Err? { return v; }
        assert |rest| < |start|;
        b := Next();
        if b.None? { return Result<Value>.Err("EOF"); }
        items := items + [v.value];
        if b.value == 93 { return Ok(Arr(items)); }
        if b.value != 44 { return Result<Value>.Err("invalid desktop JSON array delimiter"); }
      }
    }

    /** One member, from its first byte: key, separator, value and the charge for a new key. */
    method ReadMember(first: byte, p: Path, depth: nat, before: seq<Field<Value>>) returns (r: Result<seq<Field<Value>>>)
      modifies this
      ensures var spec := MemberFrom([first] + old(rest), p, depth, old(retained), before, mode);
        if spec.Got? then r == Ok(spec.value) && rest == spec.rest && retained == spec.retained
        else r == Result<seq<Field<Value>>>.Err(spec.error)
      decreases |rest|, 3
    {
      hide ReadValue; hide Skip; hide ReadText; hide ChildPath; hide Put; hide Wtf8; hide HasLone;
      assert ([first] + rest)[1..] == rest;
      if first != QUOTE { return Result<seq<Field<Value>>>.Err("invalid desktop JSON object key"); }
      var text, _ := ReadString(MAX_KEY, true);
      if text.Err? { return Result<seq<Field<Value>>>.Err(text.error); }
      var key := Units(text.value);
      var b := Next();
      if b.None? || b.value != 58 { return Result<seq<Field<Value>>>.Err("invalid desktop JSON object separator"); }
      var v := ReadAny(ChildPath(p, key, before, mode), depth);
      if v.Err? { return Result<seq<Field<Value>>>.Err(v.error); }
      if Find(before, key).None? {
        var ok := Charge(16);
        if !ok { return Result<seq<Field<Value>>>.Err(RETAINED_LIMIT); }
      }
      r := Ok(Put(before, key, v.value));
    }

    method ReadObject(p: Path, depth: nat) returns (r: Result<Value>)
      modifies this
      ensures Ends(ObjectFrom(old(rest), p, depth, old(retained), mode), r, rest, retained)
      decreases |rest|, 4
    {
      hide ReadFields; hide Skip; hide MemberFrom;
      ghost var inside := Skip(rest);
      ghost var before := |rest|;
      var b := Next();
      if b.None? { return Result<Value>.Err("EOF"); }
      if b.value == 125 { return Ok(Obj([])); }
      var fields: seq<Field<Value>> := [];
      assert inside == [b.value] + rest;
      ghost var spec := ReadFields(inside, p, depth, retained, [], mode);
      while true
        invariant |rest| < before && b.Some? && ReadFields([b.value] + rest, p, depth, retained, fields, mode) == spec
        decreases |rest|
      {
        ghost var left := |rest|;
        ReadFieldsStep([b.value] + rest, p, depth, retained, fields, mode);
        var all := ReadMember(b.value, p, depth, fields);
        if all.Err? { return Result<Value>.Err(all.error); }
        fields := all.value;
        assert |rest| < left + 1;
        b := Next();
        if b.None? { return Result<Value>.Err("EOF"); }
        if b.value == 125 { return Ok(Obj(fields)); }
        if b.value != 44 { return Result<Value>.Err("invalid desktop JSON object delimiter"); }
        ghost var k := Skip(rest);
        b := Next();
        if b.None? { return Result<Value>.Err("EOF"); }
        assert k == [b.value] + rest;
      }
    }

    /** Read: one document and nothing after it. */
    method ReadAll() returns (r: Result<Value>)
      requires retained == 0
      modifies this
      ensures var spec := ReadDocument(old(rest), mode);
        if spec.Ok? then r == Ok(spec.value.0) && retained == spec.value.1 else r == Result<Value>.Err(spec.error)
    {
      hide ReadValue; hide Skip;
      r := ReadAny([], 0);
      if r.Ok? {
        var tail := Next();
        if tail.Some? { r := Result<Value>.Err("invalid trailing desktop JSON"); }
      }
    }
  }

  /** After the opening bracket. */
  ghost function ArrayFrom(s: seq<byte>, p: Path, depth: nat, retained: nat, mode: Mode): Read<Value> {
    var inside := Skip(s);
    if inside == [] then Stop("EOF")
    else if inside[0] == 93 then Got(Arr([]), inside[1..], retained)
    else ReadItems(inside, p, depth, retained, [], mode)
  }

  /** One member: the fields with it, and what is left. */
  ghost function MemberFrom(s: seq<byte>, p: Path, depth: nat, retained: nat, before: seq<Field<Value>>, mode: Mode): (r: Read<seq<Field<Value>>>)
    requires s != []
    ensures r.Got? ==> |r.rest| < |s|
  {
    if s[0] != QUOTE then Stop("invalid desktop JSON object key")
    else match ReadText(s[1..], MAX_KEY, true, Kept([], retained))
      case Stop(e) => Stop(e)
      case Got(key, colon, charged) =>
        var c := Skip(colon);
        if c == [] || c[0] != 58 then Stop("invalid desktop JSON object separator")
        else match ReadValue(c[1..], ChildPath(p, key, before, mode), depth, charged, mode)
          case Stop(e) => Stop(e)
          case Got(v, after, now) =>
            var all := if Find(before, key).None? then now + 16 else now;
            if Find(before, key).None? && all > MAX_RETAINED then Stop(RETAINED_LIMIT) else Got(Put(before, key, v), after, all)
  }

  lemma ReadFieldsStep(s: seq<byte>, p: Path, depth: nat, retained: nat, before: seq<Field<Value>>, mode: Mode)
    requires s != []
    ensures var r := MemberFrom(s, p, depth, retained, before, mode);
      ReadFields(s, p, depth, retained, before, mode) ==
      if r.Stop? then Stop(r.error)
      else
        var t := Skip(r.rest);
        if t == [] then Stop("EOF")
        else if t[0] == 125 then Got(Obj(r.value), t[1..], r.retained)
        else if t[0] != 44 then Stop("invalid desktop JSON object delimiter")
        else
          var k := Skip(t[1..]);
          if k == [] then Stop("EOF") else ReadFields(k, p, depth, r.retained, r.value, mode)
  {
    hide ReadValue; hide ReadText; hide ChildPath; hide Put; hide Skip;
  }

  ghost function ObjectFrom(s: seq<byte>, p: Path, depth: nat, retained: nat, mode: Mode): Read<Value> {
    var inside := Skip(s);
    if inside == [] then Stop("EOF")
    else if inside[0] == 125 then Got(Obj([]), inside[1..], retained)
    else ReadFields(inside, p, depth, retained, [], mode)
  }
}
