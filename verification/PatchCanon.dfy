/** Undoing a patch up to the order in which an object is enumerated and printed. */
module PatchCanon {
  import opened Search
  import opened Common
  import opened Distinctness
  import opened NativeKeys
  import opened NativeValue
  import opened NativeCanon
  import opened Patches
  import opened PatchLaws

  // ----- moving a key to the end -----

  /** No key that is not an array index is stored after this one, or this one is an index itself. */
  predicate MovesFreely(names: seq<Text>, key: Text) {
    Index(key).Some? || (Others(names) != [] && Others(names)[|Others(names)| - 1] == key)
  }

  /** Both start with the least index. */
  lemma SameHead(a: seq<Text>, b: seq<Text>)
    requires a != [] && Ascending(a) && Ascending(b) && AllIndices(a) && multiset(a) == multiset(b)
    ensures b != [] && a[0] == b[0]
  {
    hide Index; hide Ascending;
    SameMembers(a, b);
    SameMembers(b, a);
    var i :| 0 <= i < |a| && a[i] == b[0];
    var j :| 0 <= j < |b| && b[j] == a[0];
    if i > 0 { AscendingPairs(a, 0, i); }
    if j > 0 { AscendingPairs(b, 0, j); }
    IndexInjective(a[0], b[0]);
  }

  lemma {:induction false} SortedUnique(a: seq<Text>, b: seq<Text>)
    requires Ascending(a) && Ascending(b) && AllIndices(a) && multiset(a) == multiset(b)
    ensures a == b
    decreases |a|
  {
    SameMembers(a, b);
    if a != [] {
      SameHead(a, b);
      MultisetSplit(a);
      MultisetSplit(b);
      assert multiset(a[1..]) == multiset(a) - multiset{a[0]};
      assert multiset(b[1..]) == multiset(b) - multiset{a[0]};
      SortedUnique(a[1..], b[1..]);
    }
  }

  lemma SortMoved(a: seq<Text>, key: Text, b: seq<Text>)
    requires AllIndices(a + [key] + b)
    ensures Sort(a + [key] + b) == Sort(a + b + [key])
  {
    var x, y := a + [key] + b, a + b + [key];
    assert multiset(x) == multiset(y);
    SortSorts(x);
    SortSorts(y);
    SameMembers(Sort(x), x);
    forall i | 0 <= i < |Sort(x)| ensures Index(Sort(x)[i]).Some? {
      var k :| 0 <= k < |x| && x[k] == Sort(x)[i];
    }
    SortedUnique(Sort(x), Sort(y));
  }

  lemma {:induction false} OthersMembers(keys: seq<Text>)
    ensures forall i :: 0 <= i < |Others(keys)| ==> Others(keys)[i] in keys
  {
    if keys != [] { OthersMembers(keys[1..]); }
  }

  lemma ThreeParts(a: seq<Text>, key: Text, b: seq<Text>)
    ensures var one := if Index(key).Some? then [key] else []; var other := if Index(key).Some? then [] else [key];
      && Indices(a + [key] + b) == Indices(a) + one + Indices(b) && Others(a + [key] + b) == Others(a) + other + Others(b)
      && Indices(a + b + [key]) == Indices(a) + Indices(b) + one && Others(a + b + [key]) == Others(a) + Others(b) + other
  {
    hide Index;
    PartitionAppend(a + [key], b);
    PartitionAppend(a, [key]);
    PartitionAppend(a + b, [key]);
    PartitionAppend(a, b);
    OnePart(key);
  }

  lemma OnePart(key: Text)
    ensures Indices([key]) == (if Index(key).Some? then [key] else []) && Others([key]) == if Index(key).Some? then [] else [key]
  {
    assert [key][1..] == [];
  }

  lemma MovedLast(front: seq<Text>, a: seq<Text>, key: Text, b: seq<Text>)
    requires forall i :: 0 <= i < |b| ==> b[i] != key
    ensures front + (a + b + [key]) == front + (a + [key] + b) <==> b == []
    ensures (a + [key] + b)[|a| + |b|] == key <==> b == []
  {
    if b == [] {
      assert a + [key] + b == a + b + [key];
    } else {
      assert (front + (a + [key] + b))[|front| + |a|] == key;
      assert (front + (a + b + [key]))[|front| + |a|] == b[0];
      assert (a + [key] + b)[|a| + |b|] == b[|b| - 1];
    }
  }

  /** Storing a key last changes the enumeration exactly if the key is no index and another such key follows it. */
  lemma KeysMoved(a: seq<Text>, key: Text, b: seq<Text>)
    requires Distinct(a + [key] + b)
    ensures Keys(a + b + [key]) == Keys(a + [key] + b) <==> MovesFreely(a + [key] + b, key)
  {
    hide Sort; hide Index; hide Distinct; hide Indices; hide Others; hide AllIndices;
    ThreeParts(a, key, b);
    var oa, ob := Others(a), Others(b);
    if Index(key).Some? {
      IndexMoved(a, key, b);
      assert oa + [] + ob == oa + ob + [];
    } else {
      assert Indices(a) + [] + Indices(b) == Indices(a) + Indices(b) == Indices(a) + Indices(b) + [];
      LaterKeys(a, key, b);
      MovedLast(Sort(Indices(a) + Indices(b)), oa, key, ob);
    }
  }

  lemma IndexMoved(a: seq<Text>, key: Text, b: seq<Text>)
    requires Index(key).Some?
    ensures Sort(Indices(a) + [key] + Indices(b)) == Sort(Indices(a) + Indices(b) + [key])
  {
    hide Sort; hide Index; hide Indices;
    PartitionKinds(a);
    PartitionKinds(b);
    SortMoved(Indices(a), key, Indices(b));
  }

  lemma LaterKeys(a: seq<Text>, key: Text, b: seq<Text>)
    requires Distinct(a + [key] + b)
    ensures forall i :: 0 <= i < |Others(b)| ==> Others(b)[i] != key
  {
    OthersMembers(b);
    var all := a + [key] + b;
    assert all[|a|] == key;
    assert forall i :: 0 <= i < |b| ==> all[|a| + 1 + i] == b[i];
    assert key !in b;
  }

  // ----- fields -----

  lemma NamesCons(f: Field<Value>, fields: seq<Field<Value>>)
    ensures Names([f] + fields) == [f.key] + Names(fields)
  {
    assert ([f] + fields)[1..] == fields;
  }

  lemma SpliceCons<T>(x: T, s: seq<T>, i: nat)
    requires 0 < i <= |s|
    ensures ([x] + s)[..i] + ([x] + s)[i + 1..] == [x] + (s[..i - 1] + s[i..])
  {
  }

  lemma {:induction false} NamesWithout(fields: seq<Field<Value>>, i: nat)
    requires Distinct(Names(fields)) && i < |fields|
    ensures Names(Without(fields, FieldKey, fields[i].key)) == Names(fields)[..i] + Names(fields)[i + 1..]
  {
    hide Without; hide Find; hide Distinct; hide Names;
    var key, rest := fields[i].key, fields[1..];
    NamesTail(fields);
    assert fields == [fields[0]] + rest;
    NamesCons(fields[0], rest);
    ConsWithout(fields[0], rest, key);
    if i == 0 {
      NotFound(rest, key);
      WithoutUnknown(rest, key);
      assert [] + rest == rest && Names(fields)[..0] + Names(fields)[1..] == Names(rest);
    } else {
      NamesWithout(rest, i - 1);
      KeyBelow(fields, i);
      SpliceCons(fields[0].key, Names(rest), i);
      NamesCons(fields[0], Without(rest, FieldKey, key));
    }
  }

  lemma KeyBelow(fields: seq<Field<Value>>, i: nat)
    requires 0 < i < |fields| && fields[0].key !in Names(fields[1..])
    ensures fields[0].key != fields[i].key
  {
    assert Names(fields[1..])[i - 1] == fields[1..][i - 1].key;
  }

  lemma NotFound(fields: seq<Field<Value>>, key: Text)
    requires key !in Names(fields)
    ensures Find(fields, key).None?
  {
  }

  lemma {:induction false} FindCanon(fields: seq<Field<Value>>, key: Text)
    requires forall i :: 0 <= i < |fields| ==> Formed(fields[i].value)
    requires Find(fields, key).Some?
    ensures Formed(Find(fields, key).value) && Find(CanonFields(fields), key) == Some(Canon(Find(fields, key).value))
  {
    hide Canon;
    if fields[0].key != key { FindCanon(fields[1..], key); }
  }

  lemma CanonIs(fields: seq<Field<Value>>)
    requires Formed(Obj(fields))
    ensures (forall i :: 0 <= i < |Keys(Names(fields))| ==> Keys(Names(fields))[i] in Names(fields))
    ensures Canon(Obj(fields)) == Obj(Arrange(CanonFields(fields), Keys(Names(fields))))
  {
    hide Keys;
    KeysAreNames(Names(fields));
  }

  /** Two objects with the same members have the same canonical form exactly if they enumerate the same. */
  lemma SameMembersCanon(f: seq<Field<Value>>, g: seq<Field<Value>>)
    requires Formed(Obj(f)) && Formed(Obj(g))
    requires forall key :: Find(f, key) == Find(g, key)
    ensures Canon(Obj(f)) == Canon(Obj(g)) <==> Keys(Names(f)) == Keys(Names(g))
  {
    hide Keys; hide Find; hide Canon; hide Names;
    CanonNames(f);
    CanonNames(g);
    if Keys(Names(g)) == Keys(Names(f)) { SameOrderCanon(f, g); }
  }

  lemma SameOrderCanon(f: seq<Field<Value>>, g: seq<Field<Value>>)
    requires Formed(Obj(f)) && Formed(Obj(g)) && Keys(Names(f)) == Keys(Names(g))
    requires forall key :: Find(f, key) == Find(g, key)
    ensures Canon(Obj(f)) == Canon(Obj(g))
  {
    hide Keys; hide Find; hide Canon; hide Names;
    var names := Keys(Names(f));
    CanonIs(f);
    CanonIs(g);
    ArrangeAt(CanonFields(f), names);
    ArrangeAt(CanonFields(g), names);
    forall i | 0 <= i < |names| ensures Find(CanonFields(f), names[i]) == Find(CanonFields(g), names[i]) {
      Known(f, names[i]);
      FindCanon(f, names[i]);
      FindCanon(g, names[i]);
    }
    assert Arrange(CanonFields(f), names) == Arrange(CanonFields(g), names);
  }

  lemma Known(fields: seq<Field<Value>>, key: Text)
    requires key in Names(fields)
    ensures Find(fields, key).Some?
  {
  }

  /** What removing a member and adding it again stores. */
  lemma Readded(fields: seq<Field<Value>>, key: Text) returns (i: nat)
    requires Formed(Obj(fields)) && Find(fields, key).Some?
    ensures var after := Put(Without(fields, FieldKey, key), key, Find(fields, key).value); var names := Names(fields);
      && i < |names| && names == names[..i] + [key] + names[i + 1..] && Names(after) == names[..i] + names[i + 1..] + [key]
      && (forall k :: 0 <= k < |after| ==> Formed(after[k].value))
  {
    hide Without; hide Put; hide Find; hide Distinct; hide Names;
    var old', rest := Find(fields, key).value, Without(fields, FieldKey, key);
    Named(fields, key);
    i := FindAt(fields, key);
    NamesWithout(fields, i);
    FindWithout(fields, key, key);
    PutAbsent(rest, key, old');
    NamesAppend(rest, key, old');
    FindFormed(fields, key);
    WithoutFormed(fields, key);
  }

  lemma ReaddedFind(fields: seq<Field<Value>>, key: Text, other: Text)
    requires Find(fields, key).Some?
    ensures Find(Put(Without(fields, FieldKey, key), key, Find(fields, key).value), other) == Find(fields, other)
  {
    hide Without; hide Put; hide Find; hide Names;
    FindPut(Without(fields, FieldKey, key), key, Find(fields, key).value, other);
    FindWithout(fields, key, other);
  }

  lemma ReaddedCanon(fields: seq<Field<Value>>, key: Text)
    requires Formed(Obj(fields)) && Find(fields, key).Some?
    ensures var after := Put(Without(fields, FieldKey, key), key, Find(fields, key).value);
      Formed(Obj(after)) && (Canon(Obj(after)) == Canon(Obj(fields)) <==> MovesFreely(Names(fields), key))
  {
    hide Without; hide Put; hide Find; hide Keys; hide Canon; hide MovesFreely; hide Names; hide Distinct;
    var i := Readded(fields, key);
    var names, after := Names(fields), Put(Without(fields, FieldKey, key), key, Find(fields, key).value);
    DistinctMoved(names[..i], key, names[i + 1..]);
    forall other ensures Find(after, other) == Find(fields, other) { ReaddedFind(fields, key, other); }
    SameMembersCanon(after, fields);
    KeysMoved(names[..i], key, names[i + 1..]);
  }

  lemma NamesAppend(fields: seq<Field<Value>>, key: Text, v: Value)
    ensures Names(fields + [Field(key, v)]) == Names(fields) + [key]
  {
    NativeRoundTrip.NamesSnoc(fields, Field(key, v));
  }

  lemma {:induction false} WithoutFormed(fields: seq<Field<Value>>, key: Text)
    requires forall i :: 0 <= i < |fields| ==> Formed(fields[i].value)
    ensures forall i :: 0 <= i < |Without(fields, FieldKey, key)| ==> Formed(Without(fields, FieldKey, key)[i].value)
  {
    if fields != [] { WithoutFormed(fields[1..], key); }
  }

  lemma DistinctMoved(a: seq<Text>, key: Text, b: seq<Text>)
    requires Distinct(a + [key] + b)
    ensures Distinct(a + b + [key])
  {
    assert multiset(a + [key] + b) == multiset(a + b + [key]);
    DistinctRearranged(a + [key] + b, a + b + [key]);
  }

  lemma {:induction false} PutCanonFields(fields: seq<Field<Value>>, name: Text, v: Value)
    requires (forall i :: 0 <= i < |fields| ==> Formed(fields[i].value)) && Formed(v) && Find(fields, name).Some?
    ensures Names(Put(fields, name, v)) == Names(fields)
    ensures forall i :: 0 <= i < |Put(fields, name, v)| ==> Formed(Put(fields, name, v)[i].value)
    ensures CanonFields(Put(fields, name, v)) == Put(CanonFields(fields), name, Canon(v))
  {
    hide Canon;
    if fields[0].key != name {
      PutCanonFields(fields[1..], name, v);
      assert Put(fields, name, v)[1..] == Put(fields[1..], name, v);
    } else {
      assert Put(fields, name, v)[1..] == fields[1..];
    }
  }

  /** A known member changes the canonical form of its object exactly if its own changes. */
  lemma PutCanon(fields: seq<Field<Value>>, name: Text, v: Value)
    requires Formed(Obj(fields)) && Find(fields, name).Some? && Formed(v)
    ensures Formed(Find(fields, name).value) && Formed(Obj(Put(fields, name, v)))
    ensures Canon(Obj(Put(fields, name, v))) == Canon(Obj(fields)) <==> Canon(v) == Canon(Find(fields, name).value)
  {
    hide Keys; hide Find; hide Put; hide Canon; hide Names; hide Distinct;
    FindFormed(fields, name);
    PutCanonFields(fields, name, v);
    if Canon(v) == Canon(Find(fields, name).value) { PutSameCanon(fields, name, v); } else { PutOtherCanon(fields, name, v); }
  }

  lemma PutSameCanon(fields: seq<Field<Value>>, name: Text, v: Value)
    requires Formed(Obj(fields)) && Find(fields, name).Some? && Formed(v) && Formed(Find(fields, name).value)
    requires Formed(Obj(Put(fields, name, v))) && Canon(v) == Canon(Find(fields, name).value)
    ensures Canon(Obj(Put(fields, name, v))) == Canon(Obj(fields))
  {
    hide Keys; hide Find; hide Put; hide Canon; hide Names; hide Distinct;
    PutCanonFields(fields, name, v);
    PutCanonFields(fields, name, Find(fields, name).value);
    PutSame(fields, name);
    CanonIs(fields);
    CanonIs(Put(fields, name, v));
  }

  lemma PutOtherCanon(fields: seq<Field<Value>>, name: Text, v: Value)
    requires Formed(Obj(fields)) && Find(fields, name).Some? && Formed(v) && Formed(Find(fields, name).value)
    requires Formed(Obj(Put(fields, name, v))) && Canon(v) != Canon(Find(fields, name).value)
    ensures Canon(Obj(Put(fields, name, v))) != Canon(Obj(fields))
  {
    hide Keys; hide Find; hide Put; hide Canon; hide Names; hide Distinct;
    FindPut(fields, name, v, name);
    Named(fields, name);
    Named(Put(fields, name, v), name);
    CanonKeepsFields(fields, name);
    CanonKeepsFields(Put(fields, name, v), name);
  }

  lemma Named(fields: seq<Field<Value>>, name: Text)
    requires Find(fields, name).Some?
    ensures name in Names(fields)
  {
  }

  lemma ItemCanon(items: seq<Value>, i: nat, v: Value)
    requires Formed(Arr(items)) && i < |items| && Formed(v)
    ensures Formed(Arr(items[i := v]))
    ensures Canon(Arr(items[i := v])) == Canon(Arr(items)) <==> Canon(v) == Canon(items[i])
  {
    var next := items[i := v];
    CanonItemsAt(items, i);
    CanonItemsAt(next, i);
    if Canon(v) == Canon(items[i]) {
      forall k | 0 <= k < |items| ensures CanonItems(next)[k] == CanonItems(items)[k] {
        CanonItemsAt(items, k);
        CanonItemsAt(next, k);
      }
      assert CanonItems(next) == CanonItems(items);
    }
  }

  // ----- the inverse -----

  /** Removing a member that is no array index and is followed by another such member. */
  predicate Shuffles(p: Patch, path: seq<PathKey>, node: Value)
    decreases |path|
  {
    path != [] &&
    match node
    case Obj(fields) =>
      var child := Find(fields, path[0].name);
      child.Some? && if |path| == 1 then p.op == Remove && !MovesFreely(Names(fields), path[0].name) else Shuffles(p, path[1..], child.value)
    case Arr(items) =>
      var i := ArrayIndex(path[0], |items|);
      |path| > 1 && i.Some? && Shuffles(p, path[1..], items[i.value])
    case _ => false
  }

  /** At any depth, the inverse gives back a value that enumerates and prints the same, unless it re-adds a member
      that is no array index and was followed by another such member. */
  lemma {:induction false} InverseRestoresCanon(p: Patch, path: seq<PathKey>, node: Value)
    requires Formed(node) && Patched(p, path, node).Ok? && Inverse(p, path, node).Some?
    ensures var q := Inverse(p, path, node).value; var back := Patched(q, path, Patched(p, path, node).value);
      back.Ok? && Formed(back.value) && (Canon(back.value) == Canon(node) <==> !Shuffles(p, path, node))
    decreases |path|, 1
  {
    hide Find; hide Put; hide Without; hide LastInObject; hide LastInArray; hide Canon; hide MovesFreely; hide Formed;
    InverseRestores(p, path, node);
    if |path| == 1 {
      assert path == [path[0]];
      if node.Obj? {
        LastIsObject(p, path[0], node.fields);
        LastCanon(p, path[0], node.fields);
      }
    } else if path != [] && node.Obj? {
      ThroughObject(p, path, node.fields);
    } else if path != [] {
      ThroughArray(p, path, node.items);
    }
  }

  lemma {:induction false} ThroughObject(p: Patch, path: seq<PathKey>, fields: seq<Field<Value>>)
    requires |path| > 1 && Formed(Obj(fields)) && Patched(p, path, Obj(fields)).Ok? && Inverse(p, path, Obj(fields)).Some?
    ensures var q := Inverse(p, path, Obj(fields)).value; var back := Patched(q, path, Patched(p, path, Obj(fields)).value);
      back.Ok? && Formed(back.value) && (Canon(back.value) == Canon(Obj(fields)) <==> !Shuffles(p, path, Obj(fields)))
    decreases |path|, 0
  {
    hide Find; hide Put; hide Without; hide LastInObject; hide LastInArray; hide Canon; hide MovesFreely;
    var name, rest := path[0].name, path[1..];
    var child := Find(fields, name).value;
    FindFormed(fields, name);
    InverseRestoresCanon(p, rest, child);
    var q := Inverse(p, rest, child).value;
    var changed := Patched(p, rest, child).value;
    var back := Patched(q, rest, changed).value;
    FindPut(fields, name, changed, name);
    PutPut(fields, name, changed, back);
    PutCanon(fields, name, back);
  }

  lemma {:induction false} ThroughArray(p: Patch, path: seq<PathKey>, items: seq<Value>)
    requires |path| > 1 && Formed(Arr(items)) && Patched(p, path, Arr(items)).Ok? && Inverse(p, path, Arr(items)).Some?
    ensures var q := Inverse(p, path, Arr(items)).value; var back := Patched(q, path, Patched(p, path, Arr(items)).value);
      back.Ok? && Formed(back.value) && (Canon(back.value) == Canon(Arr(items)) <==> !Shuffles(p, path, Arr(items)))
    decreases |path|, 0
  {
    hide Find; hide Put; hide Without; hide LastInObject; hide LastInArray; hide Canon; hide MovesFreely;
    var i, rest := ArrayIndex(path[0], |items|).value, path[1..];
    InverseRestoresCanon(p, rest, items[i]);
    var q := Inverse(p, rest, items[i]).value;
    var changed := Patched(p, rest, items[i]).value;
    var back := Patched(q, rest, changed).value;
    assert items[i := changed][i := back] == items[i := back];
    ItemCanon(items, i, back);
  }

  lemma LastCanon(p: Patch, key: PathKey, fields: seq<Field<Value>>)
    requires Formed(Obj(fields)) && LastInObject(p, key, fields).Ok?
    ensures var q := Inverse(p, [key], Obj(fields)); var after := LastInObject(p, key, fields).value.fields;
      && q.Some? && LastInObject(q.value, key, after).Ok? && Formed(LastInObject(q.value, key, after).value)
      && (Canon(LastInObject(q.value, key, after).value) == Canon(Obj(fields)) <==> !Shuffles(p, [key], Obj(fields)))
  {
    hide Find; hide Put; hide Without; hide Canon; hide MovesFreely; hide LastKey;
    InverseInObject(p, key, fields);
    if p.op == Remove && Find(fields, key.name).Some? { ReaddedCanon(fields, key.name); }
  }

  /** In `{"a":null,"b":null}` the key "a" cannot be stored last without printing elsewhere; in `{"1":null,"b":null}`
      the key "1" can, although it is then stored elsewhere. */
  lemma OnlyIndexMovesFreely()
    ensures !MovesFreely([Ascii("a"), Ascii("b")], Ascii("a"))
    ensures MovesFreely([Ascii("1"), Ascii("b")], Ascii("1"))
  {
    Letters();
    var a, b := Ascii("a"), Ascii("b");
    OnePart(a);
    OnePart(b);
    PartitionAppend([a], [b]);
    assert [a] + [b] == [a, b];
  }

  lemma Letters()
    ensures Index(Ascii("a")).None? && Index(Ascii("b")).None? && Index(Ascii("1")).Some? && Ascii("a") != Ascii("b")
  {
    var a, b, one := Ascii("a"), Ascii("b"), Ascii("1");
    assert a[0] == 97 && b[0] == 98 && one[0] == 49;
    assert one[..0] == [];
    assert Magnitude(one) == 1;
  }
}
