/** The value a printed document stands for: every object in enumeration order. */
module NativeCanon {
  import opened Common
  import opened Distinctness
  import opened NativeKeys
  import opened NativeValue
  import opened NativeRoundTrip

  /** The same value with every object's fields in enumeration order. */
  ghost function Canon(v: Value): (c: Value)
    requires Formed(v)
    ensures (c.Obj? <==> v.Obj?) && (c.Arr? <==> v.Arr?) && (!v.Obj? && !v.Arr? ==> c == v)
    decreases v, 0
  {
    match v
    case Arr(items) => Arr(CanonItems(items))
    case Obj(fields) =>
      KeysAreNames(Names(fields));
      Obj(Arrange(CanonFields(fields), Keys(Names(fields))))
    case _ => v
  }

  ghost function CanonItems(items: seq<Value>): (r: seq<Value>)
    requires forall i :: 0 <= i < |items| ==> Formed(items[i])
    ensures |r| == |items|
    decreases items, 1
  {
    if items == [] then [] else [Canon(items[0])] + CanonItems(items[1..])
  }

  ghost function CanonFields(fields: seq<Field<Value>>): (r: seq<Field<Value>>)
    requires forall i :: 0 <= i < |fields| ==> Formed(fields[i].value)
    ensures Names(r) == Names(fields)
    decreases fields, 1
  {
    if fields == [] then [] else [Field(fields[0].key, Canon(fields[0].value))] + CanonFields(fields[1..])
  }

  // ----- arranging fields -----

  lemma {:induction false} FindAt<T>(fields: seq<Field<T>>, key: Text) returns (i: nat)
    requires key in Names(fields)
    ensures i < |fields| && fields[i] == Field(key, Find(fields, key).value)
  {
    if fields[0].key == key {
      i := 0;
    } else {
      i := FindAt(fields[1..], key);
      i := i + 1;
    }
  }

  lemma {:induction false} ArrangeAt<T>(fields: seq<Field<T>>, names: seq<Text>)
    requires forall i :: 0 <= i < |names| ==> names[i] in Names(fields)
    ensures var r := Arrange(fields, names); |r| == |names| && forall i :: 0 <= i < |names| ==> r[i] == Field(names[i], Find(fields, names[i]).value)
  {
    if names != [] { ArrangeAt(fields, names[1..]); }
  }

  lemma ArrangeNames<T>(fields: seq<Field<T>>, names: seq<Text>)
    requires forall i :: 0 <= i < |names| ==> names[i] in Names(fields)
    ensures Names(Arrange(fields, names)) == names
  {
    ArrangeAt(fields, names);
  }

  lemma {:induction false} FindDistinct<T>(fields: seq<Field<T>>, i: nat)
    requires Distinct(Names(fields)) && i < |fields|
    ensures Find(fields, fields[i].key) == Some(fields[i].value)
  {
    if i > 0 {
      assert Names(fields)[0] != Names(fields)[i];
      assert Names(fields)[1..] == Names(fields[1..]);
      FindDistinct(fields[1..], i - 1);
    }
  }

  /** Fields already in these names' order stay as they are. */
  lemma ArrangeSame<T>(fields: seq<Field<T>>)
    requires Distinct(Names(fields))
    ensures Arrange(fields, Names(fields)) == fields
  {
    ArrangeAt(fields, Names(fields));
    forall i | 0 <= i < |fields| ensures Arrange(fields, Names(fields))[i] == fields[i] { FindDistinct(fields, i); }
  }

  // ----- printing -----

  lemma {:induction false} WriteFieldsFind(fields: seq<Field<Value>>, key: Text)
    requires key in Names(fields)
    ensures Names(WriteFields(fields)) == Names(fields)
    ensures Find(WriteFields(fields), key) == Some(Write(Find(fields, key).value, true))
  {
    if fields[0].key == key {
      if |fields| > 1 { WriteFieldsFind(fields[1..], fields[1].key); }
    } else {
      WriteFieldsFind(fields[1..], key);
    }
  }

  lemma {:induction false} ArrangeWrite(fields: seq<Field<Value>>, names: seq<Text>)
    requires forall i :: 0 <= i < |names| ==> names[i] in Names(fields)
    ensures names != [] ==> Names(WriteFields(fields)) == Names(fields)
    ensures names != [] ==> WriteFields(Arrange(fields, names)) == Arrange(WriteFields(fields), names)
  {
    hide Write;
    if names != [] {
      WriteFieldsFind(fields, names[0]);
      ArrangeWrite(fields, names[1..]);
      var rest := Arrange(fields, names[1..]);
      assert Arrange(fields, names) == [Field(names[0], Find(fields, names[0]).value)] + rest;
      assert Arrange(fields, names)[1..] == rest;
    }
  }

  /** Printing an object is writing it in enumeration order. */
  lemma {:induction false} PrintCanon(v: Value, html: bool)
    requires Formed(v)
    ensures Print(v, html) == Write(Canon(v), html)
    decreases v, 0
  {
    match v
    case Arr(items) => PrintItemsCanon(items);
    case Obj(fields) =>
      var names := Keys(Names(fields));
      KeysAreNames(Names(fields));
      KeysOrder(Names(fields));
      PrintFieldsCanon(fields);
      ArrangeWrite(CanonFields(fields), names);
    case _ =>
  }

  lemma {:induction false} PrintItemsCanon(items: seq<Value>)
    requires forall i :: 0 <= i < |items| ==> Formed(items[i])
    ensures PrintItems(items) == WriteItems(CanonItems(items))
    decreases items, 1
  {
    if items != [] {
      PrintCanon(items[0], true);
      PrintItemsCanon(items[1..]);
      assert CanonItems(items)[1..] == CanonItems(items[1..]);
    }
  }

  lemma {:induction false} PrintFieldsCanon(fields: seq<Field<Value>>)
    requires forall i :: 0 <= i < |fields| ==> Formed(fields[i].value)
    ensures PrintFields(fields) == WriteFields(CanonFields(fields))
    decreases fields, 1
  {
    if fields != [] {
      PrintCanon(fields[0].value, true);
      PrintFieldsCanon(fields[1..]);
      assert CanonFields(fields)[1..] == CanonFields(fields[1..]);
    }
  }

  // ----- the canonical value -----

  lemma {:induction false} CanonFieldsAt(fields: seq<Field<Value>>, i: nat)
    requires (forall j :: 0 <= j < |fields| ==> Formed(fields[j].value)) && i < |fields|
    ensures |CanonFields(fields)| == |fields| && CanonFields(fields)[i] == Field(fields[i].key, Canon(fields[i].value))
  {
    if i > 0 { CanonFieldsAt(fields[1..], i - 1); }
  }

  lemma {:induction false} CanonItemsAt(items: seq<Value>, i: nat)
    requires (forall j :: 0 <= j < |items| ==> Formed(items[j])) && i < |items|
    ensures CanonItems(items)[i] == Canon(items[i])
  {
    if i > 0 { CanonItemsAt(items[1..], i - 1); }
  }

  /** Every object's fields are in enumeration order. */
  ghost predicate Ordered(v: Value) {
    match v
    case Arr(items) => forall i :: 0 <= i < |items| ==> Ordered(items[i])
    case Obj(fields) => Keys(Names(fields)) == Names(fields) && forall i :: 0 <= i < |fields| ==> Ordered(fields[i].value)
    case _ => true
  }

  lemma CanonNames(fields: seq<Field<Value>>)
    requires Formed(Obj(fields))
    ensures var names := Names(Canon(Obj(fields)).fields);
      names == Keys(Names(fields)) && Distinct(names) && Keys(names) == names && multiset(names) == multiset(Names(fields))
  {
    hide Keys; hide Index;
    KeysAreNames(Names(fields));
    KeysOrder(Names(fields));
    KeysIdempotent(Names(fields));
    ArrangeNames(CanonFields(fields), Keys(Names(fields)));
  }

  /** Field k of a canonical object is the canonical form of some field of the object. */
  lemma CanonField(fields: seq<Field<Value>>, k: nat) returns (i: nat)
    requires Formed(Obj(fields)) && k < |Canon(Obj(fields)).fields|
    ensures i < |fields| && Canon(Obj(fields)).fields[k] == Field(fields[i].key, Canon(fields[i].value))
  {
    hide Keys; hide Index;
    var names := Keys(Names(fields));
    KeysAreNames(Names(fields));
    ArrangeAt(CanonFields(fields), names);
    i := FindAt(CanonFields(fields), names[k]);
    CanonFieldsAt(fields, i);
  }

  lemma {:induction false} CanonOrdered(v: Value)
    requires Formed(v)
    ensures Formed(Canon(v)) && Ordered(Canon(v))
    decreases v, 0
  {
    hide Keys; hide Index;
    if v.Arr? {
      hide Names;
      ItemsOrdered(v.items);
    } else if v.Obj? {
      hide Canon;
      CanonNames(v.fields);
      FieldsOrdered(v.fields);
    }
  }

  lemma {:induction false} ItemsOrdered(items: seq<Value>)
    requires forall i :: 0 <= i < |items| ==> Formed(items[i])
    ensures forall i :: 0 <= i < |items| ==> Formed(CanonItems(items)[i]) && Ordered(CanonItems(items)[i])
    decreases items, 1
  {
    forall i | 0 <= i < |items| ensures Formed(CanonItems(items)[i]) && Ordered(CanonItems(items)[i]) {
      CanonItemsAt(items, i);
      CanonOrdered(items[i]);
    }
  }

  lemma {:induction false} FieldsOrdered(fields: seq<Field<Value>>)
    requires Formed(Obj(fields))
    ensures var c := Canon(Obj(fields)).fields; forall k :: 0 <= k < |c| ==> Formed(c[k].value) && Ordered(c[k].value)
    decreases fields, 1
  {
    hide Canon; hide Keys; hide Index;
    var c := Canon(Obj(fields)).fields;
    forall k | 0 <= k < |c| ensures Formed(c[k].value) && Ordered(c[k].value) {
      var i := CanonField(fields, k);
      CanonOrdered(fields[i].value);
    }
  }

  lemma {:induction false} CanonFloats(v: Value, mode: Mode)
    requires Formed(v) && Floats(v, mode)
    ensures Floats(Canon(v), mode)
    decreases v
  {
    hide Keys; hide Index;
    match v
    case Arr(items) =>
      forall i | 0 <= i < |items| ensures Floats(CanonItems(items)[i], mode) {
        CanonItemsAt(items, i);
        CanonFloats(items[i], mode);
      }
    case Obj(fields) =>
      hide Canon;
      var c := Canon(v).fields;
      forall k | 0 <= k < |c| ensures Floats(c[k].value, mode) {
        var i := CanonField(fields, k);
        CanonFloats(fields[i].value, mode);
      }
    case _ =>
  }

  lemma {:induction false} CanonFixed(v: Value)
    requires Formed(v) && Ordered(v)
    ensures Canon(v) == v
  {
    match v
    case Arr(items) =>
      forall i | 0 <= i < |items| ensures Canon(v).items[i] == items[i] {
        CanonItemsAt(items, i);
        CanonFixed(items[i]);
      }
    case Obj(fields) =>
      assert CanonFields(fields) == fields by {
        assert |CanonFields(fields)| == |Names(fields)|;
        forall i | 0 <= i < |fields| ensures CanonFields(fields)[i] == fields[i] {
          CanonFieldsAt(fields, i);
          CanonFixed(fields[i].value);
        }
      }
      ArrangeSame(fields);
    case _ =>
  }

  /** Nothing is lost: the same names hold the canonical forms of the same values. */
  lemma CanonKeepsFields(fields: seq<Field<Value>>, key: Text)
    requires Formed(Obj(fields))
    ensures key in Names(fields) <==> key in Names(Canon(Obj(fields)).fields)
    ensures key in Names(fields) ==>
      Formed(Find(fields, key).value) && Find(Canon(Obj(fields)).fields, key) == Some(Canon(Find(fields, key).value))
  {
    hide Keys; hide Index; hide Canon;
    var c := Canon(Obj(fields)).fields;
    CanonNames(fields);
    assert key in multiset(Names(fields)) <==> key in multiset(Names(c));
    if key in Names(fields) {
      var i := FindAt(fields, key);
      var k := FindAt(c, key);
      var j := CanonField(fields, k);
      assert Names(fields)[i] == Names(fields)[j];
    }
  }

  // ----- the bounds do not depend on the order -----

  lemma {:induction false} FitFieldsAll(fields: seq<Field<Value>>, depth: nat)
    ensures FitFields(fields, depth) <==> forall i :: 0 <= i < |fields| ==> |fields[i].key| <= MAX_KEY && Fits(fields[i].value, depth)
  {
    if fields != [] {
      FitFieldsAll(fields[1..], depth);
      assert forall i :: 1 <= i < |fields| ==> fields[i] == fields[1..][i - 1];
      assert forall i :: 0 <= i < |fields[1..]| ==> fields[1..][i] == fields[i + 1];
    }
  }

  lemma {:induction false} FitItemsAll(items: seq<Value>, depth: nat)
    ensures FitItems(items, depth) <==> forall i :: 0 <= i < |items| ==> Fits(items[i], depth)
  {
    if items != [] {
      FitItemsAll(items[1..], depth);
      assert forall i :: 1 <= i < |items| ==> items[i] == items[1..][i - 1];
      assert forall i :: 0 <= i < |items[1..]| ==> items[1..][i] == items[i + 1];
    }
  }

  lemma {:induction false} FitsCanon(v: Value, depth: nat)
    requires Formed(v)
    ensures Fits(Canon(v), depth) == Fits(v, depth)
  {
    match v
    case Arr(items) =>
      FitItemsAll(items, depth + 1);
      FitItemsAll(CanonItems(items), depth + 1);
      forall i | 0 <= i < |items| ensures Fits(CanonItems(items)[i], depth + 1) == Fits(items[i], depth + 1) {
        CanonItemsAt(items, i);
        FitsCanon(items[i], depth + 1);
      }
    case Obj(fields) => FitsCanonFields(fields, depth + 1);
    case _ =>
  }

  lemma {:induction false} FitsCanonFields(fields: seq<Field<Value>>, depth: nat)
    requires Formed(Obj(fields))
    ensures FitFields(Canon(Obj(fields)).fields, depth) == FitFields(fields, depth)
  {
    var c := Canon(Obj(fields)).fields;
    FitFieldsAll(fields, depth);
    FitFieldsAll(c, depth);
    forall i | 0 <= i < |fields| ensures Fits(Canon(fields[i].value), depth) == Fits(fields[i].value, depth) {
      FitsCanon(fields[i].value, depth);
    }
    forall k | 0 <= k < |c| ensures exists i :: 0 <= i < |fields| && c[k] == Field(fields[i].key, Canon(fields[i].value)) {
      var i := CanonField(fields, k);
    }
    forall i | 0 <= i < |fields| ensures exists k :: 0 <= k < |c| && c[k] == Field(fields[i].key, Canon(fields[i].value)) {
      CanonKeepsFields(fields, fields[i].key);
      assert Names(fields)[i] == fields[i].key;
      FindDistinct(fields, i);
      var k := FindAt(c, fields[i].key);
    }
  }

  // ----- nor does the cost -----

  lemma {:induction false} FindRest(fields: seq<Field<Value>>, i: nat, key: Text)
    requires i < |fields| && fields[i].key != key
    ensures Find(fields[..i] + fields[i + 1..], key) == Find(fields, key)
  {
    if i == 0 {
      assert fields[..0] + fields[1..] == fields[1..];
    } else {
      FindRest(fields[1..], i - 1, key);
      assert (fields[..i] + fields[i + 1..])[1..] == fields[1..][..i - 1] + fields[1..][i..];
    }
  }

  lemma CostRest(fields: seq<Field<Value>>, i: nat)
    requires i < |fields|
    ensures CostFields(fields) == CostFields(fields[..i] + fields[i + 1..]) + 2 * |fields[i].key| + Cost(fields[i].value) + 16
  {
    hide CostFields; hide Cost;
    CostAppend(fields[..i], fields[i + 1..]);
    CostSnoc(fields[..i], fields[i]);
    CostAppend(fields[..i] + [fields[i]], fields[i + 1..]);
    assert fields[..i] + [fields[i]] + fields[i + 1..] == fields;
  }

  lemma {:induction false} ArrangeSmaller(fields: seq<Field<Value>>, names: seq<Text>, i: nat)
    requires i < |fields| && fields[i].key !in names && forall k :: 0 <= k < |names| ==> names[k] in Names(fields)
    ensures var rest := fields[..i] + fields[i + 1..];
      (forall k :: 0 <= k < |names| ==> names[k] in Names(rest)) && Arrange(rest, names) == Arrange(fields, names)
  {
    var rest := fields[..i] + fields[i + 1..];
    forall k | 0 <= k < |names| ensures names[k] in Names(rest) {
      assert names[k] in names;
      FindRest(fields, i, names[k]);
    }
    if names != [] {
      assert names[0] in names && forall n :: n in names[1..] ==> n in names;
      FindRest(fields, i, names[0]);
      ArrangeSmaller(fields, names[1..], i);
    }
  }

  lemma {:induction false} ArrangeCost(fields: seq<Field<Value>>, names: seq<Text>)
    requires Distinct(names) && forall k :: 0 <= k < |names| ==> names[k] in Names(fields)
    ensures CostFields(Arrange(fields, names)) <= CostFields(fields)
    decreases |names|
  {
    hide Cost;
    if names != [] {
      DistinctTail(names);
      var i := FindAt(fields, names[0]);
      var rest := fields[..i] + fields[i + 1..];
      ArrangeSmaller(fields, names[1..], i);
      ArrangeCost(rest, names[1..]);
      CostRest(fields, i);
      assert Arrange(fields, names)[1..] == Arrange(fields, names[1..]);
    }
  }

  /** Ordering the fields makes nothing dearer. */
  lemma {:induction false} CanonCost(v: Value)
    requires Formed(v)
    ensures Cost(Canon(v)) <= Cost(v)
    decreases v, 0
  {
    hide Keys; hide Index;
    match v
    case Arr(items) => CanonCostItems(items);
    case Obj(fields) =>
      KeysAreNames(Names(fields));
      KeysOrder(Names(fields));
      CanonCostFields(fields);
      ArrangeCost(CanonFields(fields), Keys(Names(fields)));
    case _ =>
  }

  lemma {:induction false} CanonCostItems(items: seq<Value>)
    requires forall i :: 0 <= i < |items| ==> Formed(items[i])
    ensures CostItems(CanonItems(items)) <= CostItems(items)
    decreases items, 1
  {
    if items != [] {
      CanonCost(items[0]);
      CanonCostItems(items[1..]);
      assert CanonItems(items)[1..] == CanonItems(items[1..]);
    }
  }

  lemma {:induction false} CanonCostFields(fields: seq<Field<Value>>)
    requires forall i :: 0 <= i < |fields| ==> Formed(fields[i].value)
    ensures CostFields(CanonFields(fields)) <= CostFields(fields)
    decreases fields, 1
  {
    if fields != [] {
      CanonCost(fields[0].value);
      CanonCostFields(fields[1..]);
      assert CanonFields(fields)[1..] == CanonFields(fields[1..]);
    }
  }
}

/** Reading back what was printed. */
module NativeLaws {
  import opened Common
  import opened Concatenation
  import opened Distinctness
  import opened NativeText
  import opened NativeKeys
  import opened NativeValue
  import opened NativeRoundTrip
  import opened NativeCanon
  import opened NativeSound

  // ----- what the path policy changes -----

  /** No string at a dropped path holds anything. */
  ghost predicate Untouched(v: Value, p: Path, mode: Mode)
    decreases v, 0
  {
    match v
    case Str(units) => Limit(p) == 0 ==> units == []
    case Arr(items) => UntouchedItems(items, p, 0, mode)
    case Obj(fields) => UntouchedFields(fields, p, [], mode)
    case _ => true
  }

  ghost predicate UntouchedItems(items: seq<Value>, p: Path, n: nat, mode: Mode)
    decreases items, 1
  {
    items != [] ==> Untouched(items[0], p + [At(n)], mode) && UntouchedItems(items[1..], p, n + 1, mode)
  }

  ghost predicate UntouchedFields(fields: seq<Field<Value>>, p: Path, before: seq<Field<Value>>, mode: Mode)
    decreases fields, 1
  {
    fields != [] ==>
      && Untouched(fields[0].value, ChildPath(p, fields[0].key, before, mode), mode)
      && UntouchedFields(fields[1..], p, before + [fields[0]], mode)
  }

  lemma {:induction false} SeenUntouched(v: Value, p: Path, mode: Mode)
    ensures Seen(v, p, mode) == v <==> Untouched(v, p, mode)
    decreases v, 0
  {
    hide Limit;
    match v
    case Arr(items) => SeenUntouchedItems(items, p, 0, mode);
    case Obj(fields) =>
      SeenUntouchedFields(fields, p, [], mode);
      assert [] + fields == fields;
    case _ =>
  }

  lemma {:induction false} SeenUntouchedItems(items: seq<Value>, p: Path, n: nat, mode: Mode)
    ensures SeenItems(items, p, n, mode) == items <==> UntouchedItems(items, p, n, mode)
    decreases items, 1
  {
    if items != [] {
      SeenUntouched(items[0], p + [At(n)], mode);
      SeenUntouchedItems(items[1..], p, n + 1, mode);
      assert items == [items[0]] + items[1..];
      assert SeenItems(items, p, n, mode)[1..] == SeenItems(items[1..], p, n + 1, mode);
    }
  }

  lemma {:induction false} SeenUntouchedFields(fields: seq<Field<Value>>, p: Path, before: seq<Field<Value>>, mode: Mode)
    ensures SeenFields(fields, p, before, mode) == before + fields <==> UntouchedFields(fields, p, before, mode)
    decreases fields, 1
  {
    hide ChildPath;
    if fields != [] {
      var f := fields[0];
      var v := Seen(f.value, ChildPath(p, f.key, before, mode), mode);
      var next := before + [Field(f.key, v)];
      SeenUntouched(f.value, ChildPath(p, f.key, before, mode), mode);
      SeenFieldsPrefix(fields[1..], p, next, mode);
      Assoc(before, [f], fields[1..]);
      assert fields == [f] + fields[1..];
      if v == f.value {
        assert Field(f.key, v) == f;
        SeenUntouchedFields(fields[1..], p, next, mode);
      } else {
        assert SeenFields(fields, p, before, mode)[|before|] == next[|before|] == Field(f.key, v);
        assert (before + fields)[|before|] == f;
      }
    } else {
      assert before + fields == before;
    }
  }

  /** Every value as it was read stays as it is. */
  lemma {:induction false} SeenTwice(v: Value, p: Path, mode: Mode)
    ensures Untouched(Seen(v, p, mode), p, mode)
    decreases v, 0
  {
    match v
    case Arr(items) => SeenTwiceItems(items, p, 0, mode);
    case Obj(fields) => SeenTwiceFields(fields, p, [], mode);
    case _ =>
  }

  lemma {:induction false} SeenTwiceItems(items: seq<Value>, p: Path, n: nat, mode: Mode)
    ensures UntouchedItems(SeenItems(items, p, n, mode), p, n, mode)
    decreases items, 1
  {
    if items != [] {
      SeenTwice(items[0], p + [At(n)], mode);
      SeenTwiceItems(items[1..], p, n + 1, mode);
      assert SeenItems(items, p, n, mode)[1..] == SeenItems(items[1..], p, n + 1, mode);
    }
  }

  lemma {:induction false} SeenTwiceFields(fields: seq<Field<Value>>, p: Path, before: seq<Field<Value>>, mode: Mode)
    ensures var all := SeenFields(fields, p, before, mode);
      before <= all && UntouchedFields(all[|before|..], p, before, mode)
    decreases fields, 1
  {
    hide ChildPath; hide Limit;
    if fields != [] {
      var f := fields[0];
      var v := Seen(f.value, ChildPath(p, f.key, before, mode), mode);
      var next := before + [Field(f.key, v)];
      SeenTwice(f.value, ChildPath(p, f.key, before, mode), mode);
      SeenTwiceFields(fields[1..], p, next, mode);
      var all := SeenFields(fields[1..], p, next, mode);
      assert all[|before|..][0] == next[|before|] == Field(f.key, v);
      assert all[|before|..][1..] == all[|next|..];
    } else {
      assert before[|before|..] == [];
    }
  }

  lemma {:induction false} SeenNames(fields: seq<Field<Value>>, p: Path, before: seq<Field<Value>>, mode: Mode)
    ensures Names(SeenFields(fields, p, before, mode)) == Names(before) + Names(fields)
    decreases fields
  {
    hide ChildPath;
    if fields != [] {
      var f := fields[0];
      var next := before + [Field(f.key, Seen(f.value, ChildPath(p, f.key, before, mode), mode))];
      SeenNames(fields[1..], p, next, mode);
      NamesSnoc(before, next[|before|]);
      Assoc(Names(before), [f.key], Names(fields[1..]));
    } else {
      assert Names(before) + Names(fields) == Names(before);
    }
  }

  ghost predicate Well(v: Value, mode: Mode) { Formed(v) && Ordered(v) && Floats(v, mode) }

  ghost predicate WellItems(items: seq<Value>, mode: Mode) { forall i :: 0 <= i < |items| ==> Well(items[i], mode) }

  ghost predicate WellFields(fields: seq<Field<Value>>, mode: Mode) { forall i :: 0 <= i < |fields| ==> Well(fields[i].value, mode) }

  lemma WellArr(items: seq<Value>, mode: Mode)
    ensures Well(Arr(items), mode) <==> WellItems(items, mode)
  {
  }

  lemma WellObj(fields: seq<Field<Value>>, mode: Mode)
    ensures Well(Obj(fields), mode) <==> WellFields(fields, mode) && Distinct(Names(fields)) && Keys(Names(fields)) == Names(fields)
  {
    hide Keys;
    if WellFields(fields, mode) { assert forall i :: 0 <= i < |fields| ==> Well(fields[i].value, mode); }
  }

  /** Dropping text keeps the shape and the bounds. */
  lemma {:induction false} SeenShape(v: Value, p: Path, mode: Mode)
    requires Well(v, mode)
    ensures Well(Seen(v, p, mode), mode)
    decreases v, 0
  {
    hide Keys; hide Index; hide Limit;
    match v
    case Arr(items) =>
      hide Well;
      WellArr(items, mode);
      SeenShapeItems(items, p, 0, mode);
      WellArr(SeenItems(items, p, 0, mode), mode);
    case Obj(fields) =>
      hide Well;
      WellObj(fields, mode);
      SeenNames(fields, p, [], mode);
      assert Names<Value>([]) + Names(fields) == Names(fields);
      SeenShapeFields(fields, p, [], mode);
      WellObj(SeenFields(fields, p, [], mode), mode);
    case _ =>
  }

  lemma {:induction false} SeenShapeItems(items: seq<Value>, p: Path, n: nat, mode: Mode)
    requires WellItems(items, mode)
    ensures WellItems(SeenItems(items, p, n, mode), mode)
    decreases items, 1
  {
    hide Well;
    if items != [] {
      SeenShape(items[0], p + [At(n)], mode);
      SeenShapeItems(items[1..], p, n + 1, mode);
    }
  }

  lemma {:induction false} SeenShapeFields(fields: seq<Field<Value>>, p: Path, before: seq<Field<Value>>, mode: Mode)
    requires WellFields(fields, mode) && WellFields(before, mode)
    ensures WellFields(SeenFields(fields, p, before, mode), mode)
    decreases fields, 1
  {
    hide ChildPath; hide Well;
    if fields != [] {
      var f := fields[0];
      SeenShape(f.value, ChildPath(p, f.key, before, mode), mode);
      SeenShapeFields(fields[1..], p, before + [Field(f.key, Seen(f.value, ChildPath(p, f.key, before, mode), mode))], mode);
    }
  }

  lemma {:induction false} SeenFits(v: Value, p: Path, depth: nat, mode: Mode)
    ensures Fits(Seen(v, p, mode), depth) == Fits(v, depth)
    decreases v, 0
  {
    match v
    case Arr(items) => SeenFitsItems(items, p, 0, depth + 1, mode);
    case Obj(fields) => SeenFitsFields(fields, p, [], depth + 1, mode);
    case _ =>
  }

  lemma {:induction false} SeenFitsItems(items: seq<Value>, p: Path, n: nat, depth: nat, mode: Mode)
    ensures FitItems(SeenItems(items, p, n, mode), depth) == FitItems(items, depth)
    decreases items, 1
  {
    if items != [] {
      SeenFits(items[0], p + [At(n)], depth, mode);
      SeenFitsItems(items[1..], p, n + 1, depth, mode);
      assert SeenItems(items, p, n, mode)[1..] == SeenItems(items[1..], p, n + 1, mode);
    }
  }

  lemma {:induction false} FitAppend(a: seq<Field<Value>>, b: seq<Field<Value>>, depth: nat)
    ensures FitFields(a + b, depth) == (FitFields(a, depth) && FitFields(b, depth))
  {
    if a == [] {
      assert a + b == b;
    } else {
      assert (a + b)[1..] == a[1..] + b;
      FitAppend(a[1..], b, depth);
    }
  }

  lemma FitSnoc(a: seq<Field<Value>>, f: Field<Value>, depth: nat)
    ensures FitFields(a + [f], depth) == (FitFields(a, depth) && |f.key| <= MAX_KEY && Fits(f.value, depth))
  {
    FitAppend(a, [f], depth);
    assert [f][1..] == [];
  }

  lemma {:induction false} SeenFitsFields(fields: seq<Field<Value>>, p: Path, before: seq<Field<Value>>, depth: nat, mode: Mode)
    ensures FitFields(SeenFields(fields, p, before, mode), depth) == (FitFields(before, depth) && FitFields(fields, depth))
    decreases fields, 1
  {
    hide ChildPath;
    if fields != [] {
      var f := fields[0];
      var v := Seen(f.value, ChildPath(p, f.key, before, mode), mode);
      SeenFits(f.value, ChildPath(p, f.key, before, mode), depth, mode);
      SeenFitsFields(fields[1..], p, before + [Field(f.key, v)], depth, mode);
      FitSnoc(before, Field(f.key, v), depth);
    }
  }

  // ----- the laws -----

  /** A printed document is read back exactly when it is within the depth, key, number and memory bounds;
      what is read is its canonical form without the dropped text, and what is charged is its cost. */
  lemma ReadsPrinted(v: Value, html: bool, mode: Mode)
    requires Formed(v) && Floats(v, mode)
    ensures var c := Seen(Canon(v), [], mode);
      if Fits(v, 0) && Cost(c) <= MAX_RETAINED
      then ReadDocument(Print(v, html), mode) == Ok((c, Cost(c))) else ReadDocument(Print(v, html), mode).Err?
  {
    hide ReadValue; hide Write; hide Canon; hide Seen; hide Cost; hide Print; hide Fits; hide Floats;
    PrintCanon(v, html);
    CanonOrdered(v);
    CanonFloats(v, mode);
    FitsCanon(v, 0);
    ValueReads(Canon(v), html, [], 0, 0, [], mode);
    assert Write(Canon(v), html) + [] == Write(Canon(v), html);
    SkipNothing([]);
  }

  /** The same value comes back if and only if nothing sits at a dropped path. */
  lemma RoundTrip(v: Value, html: bool, mode: Mode)
    requires Formed(v) && Floats(v, mode) && Fits(v, 0) && Cost(Canon(v)) <= MAX_RETAINED
    ensures ReadDocument(Print(v, html), mode) == Ok((Canon(v), Cost(Canon(v)))) <==> Untouched(Canon(v), [], mode)
  {
    hide ReadValue; hide Write; hide Canon; hide Seen; hide Cost; hide Print; hide Fits; hide ReadDocument; hide Untouched; hide Floats;
    ReadsPrinted(v, html, mode);
    SeenUntouched(Canon(v), [], mode);
  }

  /** What a value is read back as is read back unchanged, in the same key order, ever after. */
  lemma SeenIsStable(v: Value, again: bool, mode: Mode)
    requires Formed(v) && Floats(v, mode) && Fits(v, 0) && Cost(Seen(Canon(v), [], mode)) <= MAX_RETAINED
    ensures var c := Seen(Canon(v), [], mode);
      Well(c, mode) && ReadDocument(Print(c, again), mode) == Ok((c, Cost(c)))
  {
    hide ReadValue; hide Write; hide Canon; hide Seen; hide Cost; hide Print; hide Fits; hide ReadDocument; hide Untouched; hide Floats;
    CanonOrdered(v);
    CanonFloats(v, mode);
    var c := Seen(Canon(v), [], mode);
    SeenShape(Canon(v), [], mode);
    SeenFits(Canon(v), [], 0, mode);
    FitsCanon(v, 0);
    CanonFixed(c);
    SeenTwice(Canon(v), [], mode);
    SeenUntouched(c, [], mode);
    ReadsPrinted(c, again, mode);
  }

  /** Whatever document is once read: its value is within every bound but memory, its print is read exactly
      when its canonical form is within memory too, and what is read then stays the same ever after. */
  lemma ReadIsStable(s: seq<byte>, html: bool, again: bool, mode: Mode)
    requires Codec(mode) && ReadDocument(s, mode).Ok?
    ensures var v := ReadDocument(s, mode).value.0;
      && Good(v, 0, mode)
      && var c := Seen(Canon(v), [], mode);
        && (ReadDocument(Print(v, html), mode).Ok? <==> Cost(c) <= MAX_RETAINED)
        && (Cost(c) <= MAX_RETAINED ==>
              && Well(c, mode) && ReadDocument(Print(v, html), mode) == Ok((c, Cost(c)))
              && ReadDocument(Print(c, again), mode) == Ok((c, Cost(c))))
  {
    hide ReadValue; hide Write; hide Canon; hide Seen; hide Cost; hide Print; hide Fits; hide Floats; hide Codec; hide Well;
    ValueGot(s, [], 0, 0, mode);
    hide ReadDocument;
    var v := ReadDocument(s, mode).value.0;
    ReadsPrinted(v, html, mode);
    if Cost(Seen(Canon(v), [], mode)) <= MAX_RETAINED { SeenIsStable(v, again, mode); }
  }

  /** Unless some number is printed longer than it was written, memory is never the obstacle: the value costs
      no more than was charged for the document. */
  lemma ReadComesBack(s: seq<byte>, html: bool, mode: Mode)
    requires Codec(mode) && NoLonger(mode) && ReadDocument(s, mode).Ok?
    ensures var v := ReadDocument(s, mode).value.0;
      && Good(v, 0, mode) && Cost(v) <= ReadDocument(s, mode).value.1
      && var c := Seen(Canon(v), [], mode);
        Cost(c) <= Cost(v) && ReadDocument(Print(v, html), mode) == Ok((c, Cost(c)))
  {
    hide ReadValue; hide Write; hide Canon; hide Seen; hide Cost; hide Print; hide Fits; hide Floats; hide Codec; hide NoLonger;
    ValueGot(s, [], 0, 0, mode);
    hide ReadDocument;
    var v := ReadDocument(s, mode).value.0;
    CanonCost(v);
    SeenCost(Canon(v), [], mode);
    ReadsPrinted(v, html, mode);
  }

  // ----- what dropping text saves -----

  lemma {:induction false} SeenCost(v: Value, p: Path, mode: Mode)
    ensures Cost(Seen(v, p, mode)) <= Cost(v)
    decreases v, 0
  {
    hide Limit;
    match v
    case Arr(items) => SeenCostItems(items, p, 0, mode);
    case Obj(fields) => SeenCostFields(fields, p, [], mode);
    case _ =>
  }

  lemma {:induction false} SeenCostItems(items: seq<Value>, p: Path, n: nat, mode: Mode)
    ensures CostItems(SeenItems(items, p, n, mode)) <= CostItems(items)
    decreases items, 1
  {
    if items != [] {
      SeenCost(items[0], p + [At(n)], mode);
      SeenCostItems(items[1..], p, n + 1, mode);
      assert SeenItems(items, p, n, mode)[1..] == SeenItems(items[1..], p, n + 1, mode);
    }
  }

  lemma {:induction false} SeenCostFields(fields: seq<Field<Value>>, p: Path, before: seq<Field<Value>>, mode: Mode)
    ensures CostFields(SeenFields(fields, p, before, mode)) <= CostFields(before) + CostFields(fields)
    decreases fields, 1
  {
    hide ChildPath;
    if fields != [] {
      var f := fields[0];
      var v := Seen(f.value, ChildPath(p, f.key, before, mode), mode);
      SeenCost(f.value, ChildPath(p, f.key, before, mode), mode);
      SeenCostFields(fields[1..], p, before + [Field(f.key, v)], mode);
      CostSnoc(before, Field(f.key, v));
    }
  }

  // ----- text that does not come back -----

  ghost function Message(): Value {
    Obj([Field(Ascii("items"), Arr([Obj([Field(Ascii("restoreMessage"), Str([120]))])]))])
  }

  lemma OneKey(key: Text)
    ensures Keys([key]) == [key]
  {
    var keys := [key];
    PartitionOnly(keys);
    SortSorted(keys);
    if Index(key).Some? {
      assert AllIndices(keys);
      assert Keys(keys) == keys + [];
    } else {
      assert NoIndices(keys);
      assert Keys(keys) == Sort([]) + keys;
    }
  }

  lemma OneField(key: Text, v: Value, mode: Mode)
    requires Well(v, mode) && |key| <= MAX_KEY
    ensures Well(Obj([Field(key, v)]), mode) && Cost(Obj([Field(key, v)])) == 48 + 2 * |key| + Cost(v)
    ensures forall depth: nat :: depth < MAX_DEPTH ==> (Fits(Obj([Field(key, v)]), depth) <==> Fits(v, depth + 1))
  {
    var f := Field(key, v);
    assert Names([f]) == [key];
    OneKey(key);
    WellObj([f], mode);
    assert [] + [f] == [f];
    CostSnoc([], f);
    forall depth: nat | depth < MAX_DEPTH ensures Fits(Obj([f]), depth) <==> Fits(v, depth + 1) { FitSnoc([], f, depth + 1); }
  }

  lemma OneItem(v: Value, mode: Mode)
    requires Well(v, mode)
    ensures Well(Arr([v]), mode) && Cost(Arr([v])) == 32 + Cost(v)
    ensures forall depth: nat :: depth < MAX_DEPTH ==> (Fits(Arr([v]), depth) <==> Fits(v, depth + 1))
  {
    WellArr([v], mode);
    assert [v] + [] == [v];
    CostCons(v, []);
    forall depth: nat | depth < MAX_DEPTH ensures Fits(Arr([v]), depth) <==> Fits(v, depth + 1) { FitItemsAll([v], depth + 1); }
  }

  /** `{"items":[{"restoreMessage":"x"}]}` is within every bound and does not come back. */
  lemma DroppedText(mode: Mode)
    ensures var v := Message();
      && Well(v, mode) && Canon(v) == v && Fits(v, 0) && Cost(v) <= MAX_RETAINED
      && ReadDocument(Print(v, true), mode) != Ok((v, Cost(v)))
  {
    hide ReadDocument; hide Print; hide ReadValue;
    var text := Str([120]);
    var inner := Obj([Field(Ascii("restoreMessage"), text)]);
    var v := Message();
    OneField(Ascii("restoreMessage"), text, mode);
    OneItem(inner, mode);
    OneField(Ascii("items"), Arr([inner]), mode);
    CanonFixed(v);
    assert !Untouched(v, [], mode) by { Dropped(text, inner, mode); }
    RoundTrip(v, true, mode);
  }

  lemma Dropped(text: Value, inner: Value, mode: Mode)
    requires text == Str([120]) && inner == Obj([Field(Ascii("restoreMessage"), text)])
    ensures !Untouched(Obj([Field(Ascii("items"), Arr([inner]))]), [], mode)
  {
    var p: Path := [Key(Ascii("items"))];
    assert [] + [Key(Ascii("items"))] == p;
    assert ChildPath([], Ascii("items"), [], mode) == p;
    var q := p + [At(0)];
    var r := q + [Key(Ascii("restoreMessage"))];
    assert ChildPath(q, Ascii("restoreMessage"), [], mode) == r;
    assert r[2..] == [Key(Ascii("restoreMessage"))];
    assert Limit(r) == 0;
    assert !Untouched(text, r, mode);
    assert !Untouched(inner, q, mode);
    assert !Untouched(Arr([inner]), p, mode);
  }
}
