/** What the decoder returns for an arbitrary document. */
module NativeSound {
  import opened Distinctness
  import opened Utf8
  import opened NativeText
  import opened NativeKeys
  import opened NativeValue
  import opened NativeRoundTrip
  import opened NativeCanon
  import opened Common

  /** A value as the decoder makes them: well formed, its numbers as printed, within the depth, key and number bounds. */
  ghost predicate Good(v: Value, depth: nat, mode: Mode) { Formed(v) && Floats(v, mode) && Fits(v, depth) }

  ghost predicate GoodItems(items: seq<Value>, depth: nat, mode: Mode) { forall i :: 0 <= i < |items| ==> Good(items[i], depth, mode) }

  ghost predicate GoodFields(fields: seq<Field<Value>>, depth: nat, mode: Mode) {
    Distinct(Names(fields)) && forall i :: 0 <= i < |fields| ==> |fields[i].key| <= MAX_KEY && Good(fields[i].value, depth, mode)
  }

  lemma GoodArr(items: seq<Value>, depth: nat, mode: Mode)
    requires GoodItems(items, depth + 1, mode) && depth < MAX_DEPTH
    ensures Good(Arr(items), depth, mode)
  {
    FitItemsAll(items, depth + 1);
    assert forall i :: 0 <= i < |items| ==> Good(items[i], depth + 1, mode);
  }

  lemma GoodObj(fields: seq<Field<Value>>, depth: nat, mode: Mode)
    requires GoodFields(fields, depth + 1, mode) && depth < MAX_DEPTH
    ensures Good(Obj(fields), depth, mode)
  {
    FitFieldsAll(fields, depth + 1);
    assert forall i :: 0 <= i < |fields| ==> Good(fields[i].value, depth + 1, mode);
  }

  /** No number is printed longer than it may be written. */
  ghost predicate NoLonger(mode: Mode) {
    forall text :: Numeric(text) && mode.float(text).Some? ==> |mode.float(text).value| <= |text|
  }

  /** The charge covers the value. */
  ghost predicate Covers(cost: int, before: nat, after: nat, mode: Mode) {
    after <= MAX_RETAINED && (NoLonger(mode) ==> before + cost <= after)
  }

  // ----- text -----

  lemma {:induction false} EmitAllGot(kept: Kept, units: seq<unit>, limit: int, key: bool)
    requires EmitAll(kept, units, limit, key).Ok?
    ensures var r := EmitAll(kept, units, limit, key).value;
      && |r.units| >= |kept.units| && r.retained == kept.retained + 2 * (|r.units| - |kept.units|)
      && (|kept.units| <= limit ==> |r.units| <= limit) && (kept.retained <= MAX_RETAINED ==> r.retained <= MAX_RETAINED)
    decreases |units|
  {
    if units != [] { EmitAllGot(Emit(kept, units[0], limit, key).value, units[1..], limit, key); }
  }

  lemma {:induction false} TextGot(s: seq<byte>, limit: int, key: bool, kept: Kept)
    requires ReadText(s, limit, key, kept).Got?
    ensures var r := ReadText(s, limit, key, kept);
      && |r.value| >= |kept.units| && r.retained == kept.retained + 2 * (|r.value| - |kept.units|)
      && (|kept.units| <= limit ==> |r.value| <= limit) && (kept.retained <= MAX_RETAINED ==> r.retained <= MAX_RETAINED)
    decreases |s|
  {
    hide ReadChar; hide EmitAll;
    if s[0] != QUOTE {
      var piece := ReadChar(s).value;
      EmitAllGot(kept, piece.units, limit, key);
      TextGot(s[piece.size..], limit, key, EmitAll(kept, piece.units, limit, key).value);
    }
  }

  // ----- members -----

  lemma {:induction false} PutCost(before: seq<Field<Value>>, key: Text, v: Value)
    ensures CostFields(Put(before, key, v)) <= CostFields(before) + 2 * |key| + Cost(v) + if Find(before, key).None? then 16 else 0
  {
    if before == [] {
      assert CostFields([Field(key, v)]) == 2 * |key| + Cost(v) + 16 + CostFields([Field(key, v)][1..]);
    } else if before[0].key == key {
      assert ([Field(key, v)] + before[1..])[1..] == before[1..];
    } else {
      PutCost(before[1..], key, v);
      assert ([before[0]] + Put(before[1..], key, v))[1..] == Put(before[1..], key, v);
    }
  }

  lemma {:induction false} PutAt(before: seq<Field<Value>>, key: Text, v: Value)
    ensures var r := Put(before, key, v);
      && Names(r) == (if key in Names(before) then Names(before) else Names(before) + [key])
      && forall i :: 0 <= i < |r| ==> r[i] == Field(key, v) || (i < |before| && r[i] == before[i])
  {
    if before != [] && before[0].key != key {
      PutAt(before[1..], key, v);
      var rest, r := Put(before[1..], key, v), Put(before, key, v);
      assert r == [before[0]] + rest;
      assert Names(before)[0] != key && Names(before) == [before[0].key] + Names(before[1..]);
      assert forall i :: 1 <= i < |r| ==> r[i] == rest[i - 1];
    }
  }

  lemma PutGood(before: seq<Field<Value>>, key: Text, v: Value, depth: nat, mode: Mode)
    requires GoodFields(before, depth, mode) && |key| <= MAX_KEY && Good(v, depth, mode)
    ensures GoodFields(Put(before, key, v), depth, mode)
  {
    hide Good; hide Put; hide Names;
    PutAt(before, key, v);
  }

  // ----- values -----

  lemma NumberGot(s: seq<byte>, retained: nat, depth: nat, mode: Mode)
    requires s != [] && NumberByte(s[0]) && Codec(mode) && ReadNumber(s, retained, mode).Got?
    ensures var r := ReadNumber(s, retained, mode);
      Good(r.value, depth, mode) && Covers(Cost(r.value) - 32, retained, r.retained, mode)
  {
    hide Numeric;
    var text := s[..NumberRun(s)];
    assert mode.float(text).Some?;
  }

  /** Whatever the decoder returns is well formed, holds printed numbers, is within the bounds and was paid for. */
  lemma {:induction false} ValueGot(s: seq<byte>, p: Path, depth: nat, retained: nat, mode: Mode)
    requires Codec(mode) && ReadValue(s, p, depth, retained, mode).Got?
    ensures var r := ReadValue(s, p, depth, retained, mode);
      Good(r.value, depth, mode) && Covers(Cost(r.value), retained, r.retained, mode)
    decreases |s|, 0
  {
    hide ReadItems; hide ReadFields; hide ReadText; hide ReadNumber; hide Limit; hide Codec; hide Good; hide Names; hide NoLonger;
    var t, now := Skip(s), retained + 32;
    var rest := t[1..];
    if t[0] == 123 || t[0] == 91 {
      var inside := Skip(rest);
      if t[0] == 123 && inside[0] == 125 {
        GoodObj([], depth, mode);
      } else if t[0] == 123 {
        FieldsGot(inside, p, depth + 1, now, [], mode);
        GoodObj(ReadFields(inside, p, depth + 1, now, [], mode).value.fields, depth, mode);
      } else if inside[0] == 93 {
        GoodArr([], depth, mode);
      } else {
        ItemsGot(inside, p, depth + 1, now, [], mode);
        GoodArr(ReadItems(inside, p, depth + 1, now, [], mode).value.items, depth, mode);
      }
    } else if t[0] == QUOTE {
      TextGot(rest, Limit(p), false, Kept([], now));
      StrGood(ReadText(rest, Limit(p), false, Kept([], now)).value, depth, mode);
    } else if t[0] == 45 || Digit(t[0]) {
      NumberGot(t, now, depth, mode);
    } else {
      LiteralGood(depth, mode);
    }
  }

  lemma StrGood(units: Text, depth: nat, mode: Mode)
    ensures Good(Str(units), depth, mode)
  {
  }

  lemma LiteralGood(depth: nat, mode: Mode)
    ensures Good(Null, depth, mode) && Good(Bool(true), depth, mode) && Good(Bool(false), depth, mode)
  {
  }

  lemma {:induction false} CostItemsSnoc(items: seq<Value>, v: Value)
    ensures CostItems(items + [v]) == CostItems(items) + Cost(v)
  {
    if items == [] {
      assert items + [v] == [v] && [v][1..] == [];
    } else {
      CostItemsSnoc(items[1..], v);
      assert (items + [v])[1..] == items[1..] + [v];
    }
  }

  lemma {:induction false} ItemsGot(s: seq<byte>, p: Path, depth: nat, retained: nat, before: seq<Value>, mode: Mode)
    requires Codec(mode) && GoodItems(before, depth, mode) && ReadItems(s, p, depth, retained, before, mode).Got?
    ensures var r := ReadItems(s, p, depth, retained, before, mode);
      && r.value.Arr? && GoodItems(r.value.items, depth, mode)
      && Covers(CostItems(r.value.items) - CostItems(before), retained, r.retained, mode)
    decreases |s|, 1
  {
    hide ReadValue; hide Good; hide Codec; hide Cost; hide NoLonger;
    var path := p + [At(|before|)];
    ValueGot(s, path, depth, retained, mode);
    var r := ReadValue(s, path, depth, retained, mode);
    CostItemsSnoc(before, r.value);
    var t := Skip(r.rest);
    if t[0] == 44 { ItemsGot(t[1..], p, depth, r.retained, before + [r.value], mode); }
  }

  lemma {:induction false} FieldsGot(s: seq<byte>, p: Path, depth: nat, retained: nat, before: seq<Field<Value>>, mode: Mode)
    requires s != [] && Codec(mode) && GoodFields(before, depth, mode) && ReadFields(s, p, depth, retained, before, mode).Got?
    ensures var r := ReadFields(s, p, depth, retained, before, mode);
      && r.value.Obj? && GoodFields(r.value.fields, depth, mode)
      && Covers(CostFields(r.value.fields) - CostFields(before), retained, r.retained, mode)
    decreases |s|, 1
  {
    hide ReadValue; hide Good; hide Codec; hide Cost; hide CostFields; hide NoLonger; hide ReadText; hide ChildPath; hide Put; hide GoodFields; hide Names;
    var k := ReadText(s[1..], MAX_KEY, true, Kept([], retained));
    TextGot(s[1..], MAX_KEY, true, Kept([], retained));
    var c := Skip(k.rest);
    var path := ChildPath(p, k.value, before, mode);
    ValueGot(c[1..], path, depth, k.retained, mode);
    var r := ReadValue(c[1..], path, depth, k.retained, mode);
    PutGood(before, k.value, r.value, depth, mode);
    PutCost(before, k.value, r.value);
    var all := if Find(before, k.value).None? then r.retained + 16 else r.retained;
    var t := Skip(r.rest);
    if t[0] == 44 { FieldsGot(Skip(t[1..]), p, depth, all, Put(before, k.value, r.value), mode); }
  }
}

/** A document that is read although its print is not. */
module NativeLimits {
  import opened Common
  import opened Concatenation
  import opened NativeText
  import opened NativeValue
  import opened NativeRoundTrip
  import opened NativeCanon
  import opened NativeLaws

  /** A number read as its float64, whose printed text may be another. */
  lemma NumberBecomes(text: seq<byte>, printed: seq<byte>, p: Path, depth: nat, retained: nat, rest: seq<byte>, mode: Mode)
    requires Numeric(text) && |text| <= MAX_NUMBER && mode.float(text) == Some(printed) && Stops(rest)
    requires retained + 32 + 2 * |text| <= MAX_RETAINED
    ensures ReadValue(text + rest, p, depth, retained, mode) == Got(Num(printed), rest, retained + 32 + 2 * |text|)
  {
    hide ReadItems; hide ReadFields; hide ReadText; hide ReadLiteral;
    var s := text + rest;
    assert s[0] == text[0];
    SkipNothing(s);
    NumberRuns(text, rest);
    DropPrefix(text, rest);
  }

  /** The rest of an array of n times this number. */
  function Copies(text: seq<byte>, n: nat): seq<byte>
    requires n > 0
  {
    if n == 1 then text + [93] else text + ([44] + Copies(text, n - 1))
  }

  function Numbers(printed: seq<byte>, n: nat): (r: seq<Value>)
    ensures |r| == n && forall i :: 0 <= i < n ==> r[i] == Num(printed)
  {
    if n == 0 then [] else [Num(printed)] + Numbers(printed, n - 1)
  }

  lemma {:induction false} CopiesRead(text: seq<byte>, printed: seq<byte>, n: nat, p: Path, retained: nat, before: seq<Value>, mode: Mode)
    requires n > 0 && Numeric(text) && |text| <= MAX_NUMBER && mode.float(text) == Some(printed)
    requires retained + n * (32 + 2 * |text|) <= MAX_RETAINED
    ensures ReadItems(Copies(text, n), p, 1, retained, before, mode)
            == Got(Arr(before + Numbers(printed, n)), [], retained + n * (32 + 2 * |text|))
    decreases n
  {
    hide ReadValue; hide ReadItems; hide Numeric;
    var tail := if n == 1 then [93] else [44] + Copies(text, n - 1);
    var now, v := retained + (32 + 2 * |text|), Num(printed);
    assert n * (32 + 2 * |text|) == (32 + 2 * |text|) + (n - 1) * (32 + 2 * |text|);
    NumberBecomes(text, printed, p + [At(|before|)], 1, retained, tail, mode);
    ItemStep(text + tail, p, 1, retained, before, mode);
    if n == 1 {
      assert Numbers(printed, 1) == [v];
    } else {
      assert tail[1..] == Copies(text, n - 1);
      CopiesRead(text, printed, n - 1, p, now, before + [v], mode);
      Assoc(before, [v], Numbers(printed, n - 1));
    }
  }

  lemma {:induction false} NumbersCost(printed: seq<byte>, n: nat)
    ensures CostItems(Numbers(printed, n)) == n * (32 + 2 * |printed|)
  {
    if n > 0 {
      NumbersCost(printed, n - 1);
      CostCons(Num(printed), Numbers(printed, n - 1));
      assert n * (32 + 2 * |printed|) == (32 + 2 * |printed|) + (n - 1) * (32 + 2 * |printed|);
    }
  }

  lemma {:induction false} NumbersUntouched(printed: seq<byte>, n: nat, p: Path, k: nat, mode: Mode)
    ensures UntouchedItems(Numbers(printed, n), p, k, mode)
    decreases n
  {
    if n > 0 {
      NumbersUntouched(printed, n - 1, p, k + 1, mode);
      assert Numbers(printed, n)[1..] == Numbers(printed, n - 1);
    }
  }

  const MANY := 1000000
  const SHORT: seq<byte> := [49, 101, 50, 48]

  /** A million times `1e20`, which is printed with 21 digits: the document is within memory, its print is not. */
  lemma PrintOutgrowsMemory(printed: seq<byte>, mode: Mode) returns (s: seq<byte>)
    requires Codec(mode) && mode.float(SHORT) == Some(printed) && |printed| == 21
    ensures ReadDocument(s, mode) == Ok((Arr(Numbers(printed, MANY)), 32 + MANY * 40))
    ensures Formed(Arr(Numbers(printed, MANY))) && ReadDocument(Print(Arr(Numbers(printed, MANY)), true), mode).Err?
  {
    hide ReadItems; hide Copies; hide Numbers; hide Print; hide Codec; hide Numeric;
    var v := Arr(Numbers(printed, MANY));
    ShortNumber();
    s := [91] + Copies(SHORT, MANY);
    CopiesStart(SHORT, MANY);
    CopiesRead(SHORT, printed, MANY, [], 32, [], mode);
    assert s[1..] == Copies(SHORT, MANY) && [] + Numbers(printed, MANY) == Numbers(printed, MANY);
    OpensContainer(s, [], 0, 0, mode);
    assert ReadDocument(s, mode) == Ok((v, 32 + MANY * 40)) by { hide ReadValue; SkipNothing([]); }
    hide ReadDocument; hide ReadValue;
    ReadIsStable(s, true, true, mode);
    CanonFixed(v);
    NumbersUntouched(printed, MANY, [], 0, mode);
    SeenUntouched(v, [], mode);
    NumbersCost(printed, MANY);
  }

  lemma CopiesStart(text: seq<byte>, n: nat)
    requires n > 0 && text != [] && !Space(text[0]) && text[0] != 93
    ensures Copies(text, n) != [] && !Space(Copies(text, n)[0]) && Copies(text, n)[0] != 93
  {
  }

  lemma ShortNumber()
    ensures Numeric(SHORT)
  {
    assert SHORT[1..] == [101, 50, 48] && SHORT[1..][1..] == [50, 48];
    assert [50, 48][1..] == [48];
    assert Digits([48]) == 1 && Digits([50, 48]) == 2;
    assert Exponent(SHORT[1..]);
    assert Digits(SHORT) == 1;
  }
}
