/** Copy-on-write patches over ordered values, with one allocation budget for a whole batch. */
module Patches {
  import opened Search
  import opened Common
  import opened NativeText
  import opened NativeKeys
  import opened NativeValue

  const MAX_PATCHES := 10000
  const MAX_PATH := 100

  datatype Op = Add | Replace | Remove

  /** A path element: its name as JavaScript would print it, and what it is. */
  datatype Kind = TextKey | NumberKey(index: Option<nat>) | OtherKey

  datatype PathKey = PathKey(name: Text, kind: Kind)

  /** `length` is the array length the value stands for, if it is one. */
  datatype Patch = Patch(op: Op, path: seq<PathKey>, value: Value, length: Option<nat>)

  const LENGTH := Ascii("length")
  const ALLOCATION := "Desktop patch allocation limit"

  /** jsonArrayIndex */
  function ArrayIndex(key: PathKey, length: nat): (r: Option<nat>)
    ensures r.Some? ==> r.value < length
  {
    match key.kind
    case NumberKey(Some(n)) => if n < length then Some(n) else None
    case TextKey => if Canonical(key.name) && Magnitude(key.name) < length then Some(Magnitude(key.name)) else None
    case _ => None
  }

  function FieldKey(f: Field<Value>): Text { f.key }

  /** CopyProperty */
  function CopyProperty(fields: seq<Field<Value>>, key: Text, value: Value, remove: bool): seq<Field<Value>> {
    if remove then Without(fields, FieldKey, key) else Put(fields, key, value)
  }

  function Resized(items: seq<Value>, length: nat): (r: seq<Value>)
    ensures |r| == length
  {
    if length <= |items| then items[..length] else items + seq(length - |items|, _ => Null)
  }

  // ----- what a patch means, apart from the budget -----

  function LastInObject(p: Patch, key: PathKey, fields: seq<Field<Value>>): Result<Value> {
    if p.op != Add && Find(fields, key.name).None? then Err("Missing patch target")
    else Ok(Obj(CopyProperty(fields, key.name, p.value, p.op == Remove)))
  }

  function LastInArray(p: Patch, key: PathKey, items: seq<Value>): Result<Value> {
    if key.kind.NumberKey? then
      if key.kind.index.None? || key.kind.index.value > |items| || (p.op != Add && key.kind.index.value == |items|)
      then Err("Invalid patch index")
      else
        var n := key.kind.index.value;
        Ok(Arr(match p.op
               case Add => items[..n] + [p.value] + items[n..]
               case Remove => items[..n] + items[n + 1..]
               case Replace => items[n := p.value]))
    else if !key.kind.TextKey? || key.name != LENGTH then Err("Invalid array patch")
    else if p.op == Remove then Err("Cannot remove array length")
    else if p.length.None? then Err("Invalid array length")
    else Ok(Arr(Resized(items, p.length.value)))
  }

  function Patched(p: Patch, path: seq<PathKey>, node: Value): Result<Value>
    decreases |path|
  {
    if path == [] then (if p.op == Remove then Err("Cannot remove state root") else Ok(p.value))
    else match node
      case Obj(fields) =>
        if |path| == 1 then LastInObject(p, path[0], fields)
        else if Find(fields, path[0].name).None? then Err("Missing desktop patch path")
        else
          var child := Patched(p, path[1..], Find(fields, path[0].name).value);
          if child.Err? then child else Ok(Obj(CopyProperty(fields, path[0].name, child.value, false)))
      case Arr(items) =>
        if |path| == 1 then LastInArray(p, path[0], items)
        else
          var i := ArrayIndex(path[0], |items|);
          if i.None? then Err(if path[0].name == LENGTH then "Missing desktop patch parent" else "Missing desktop patch path")
          else
            var child := Patched(p, path[1..], items[i.value]);
            if child.Err? then child else Ok(Arr(items[i.value := child.value]))
      case _ => Err("Missing desktop patch parent")
  }

  // ----- the code: meaning and budget together -----

  /** `charge` refuses by dividing, so it never overflows. */
  function Charge(spent: nat, elements: nat, each: nat): (r: Result<nat>)
    requires each > 0 && spent <= MAX_RETAINED
    ensures r.Ok? <==> spent + elements * each <= MAX_RETAINED
    ensures r.Ok? ==> r.value == spent + elements * each
    ensures r.Err? ==> r.error == ALLOCATION
  {
    DivideBound(elements, MAX_RETAINED - spent, each);
    if elements > (MAX_RETAINED - spent) / each then Err(ALLOCATION) else Ok(spent + elements * each)
  }

  lemma DivideBound(elements: nat, room: nat, each: nat)
    requires each > 0
    ensures elements <= room / each <==> elements * each <= room
  {
    if elements <= room / each {
      MultiplyMono(elements, room / each, each);
    } else {
      MultiplyMono(room / each + 1, elements, each);
    }
  }

  lemma MultiplyMono(a: nat, b: nat, c: nat)
    requires a <= b
    ensures a * c <= b * c
  {
  }

  datatype Applied = Applied(value: Value, spent: nat)

  function Apply(p: Patch, path: seq<PathKey>, node: Value, spent: nat): Result<Applied>
    requires spent <= MAX_RETAINED
    decreases |path|
  {
    if path == [] then (if p.op == Remove then Err("Cannot remove state root") else Ok(Applied(p.value, spent)))
    else match node
      case Obj(fields) =>
        var now := Charge(spent, |fields| + 1, 48);
        if now.Err? then Err(now.error)
        else if |path| == 1 then
          var last := LastInObject(p, path[0], fields);
          if last.Err? then Err(last.error) else Ok(Applied(last.value, now.value))
        else if Find(fields, path[0].name).None? then Err("Missing desktop patch path")
        else
          var child := Apply(p, path[1..], Find(fields, path[0].name).value, now.value);
          if child.Err? then child
          else Ok(Applied(Obj(CopyProperty(fields, path[0].name, child.value.value, false)), child.value.spent))
      case Arr(items) =>
        if |path| > 1 then
          var i := ArrayIndex(path[0], |items|);
          if i.None? then Err(if path[0].name == LENGTH then "Missing desktop patch parent" else "Missing desktop patch path")
          else
            var now := Charge(spent, |items|, 16);
            if now.Err? then Err(now.error)
            else
              var child := Apply(p, path[1..], items[i.value], now.value);
              if child.Err? then child else Ok(Applied(Arr(items[i.value := child.value.value]), child.value.spent))
        else
          var last := LastInArray(p, path[0], items);
          if last.Err? then Err(last.error)
          else
            var now := Charge(spent, if path[0].kind.NumberKey? then |items| + 1 else p.length.value, 16);
            if now.Err? then Err(now.error) else Ok(Applied(last.value, now.value))
      case _ => Err("Missing desktop patch parent")
  }

  /** What a patch copies: every container on its path, once. */
  function Weight(p: Patch, path: seq<PathKey>, node: Value): nat
    decreases |path|
  {
    if path == [] then 0
    else match node
      case Obj(fields) =>
        (|fields| + 1) * 48 +
          (if |path| > 1 && Find(fields, path[0].name).Some? then Weight(p, path[1..], Find(fields, path[0].name).value) else 0)
      case Arr(items) =>
        if |path| == 1 then (if path[0].kind.NumberKey? then |items| + 1 else if p.length.Some? then p.length.value else 0) * 16
        else if ArrayIndex(path[0], |items|).Some?
        then |items| * 16 + Weight(p, path[1..], items[ArrayIndex(path[0], |items|).value])
        else 0
      case _ => 0
  }

  /** The code computes exactly the meaning, and is refused for its budget exactly when the containers it
      copies would pass the bound. */
  lemma {:induction false} ApplyRefines(p: Patch, path: seq<PathKey>, node: Value, spent: nat)
    requires spent <= MAX_RETAINED
    ensures var r := Apply(p, path, node, spent); var meaning := Patched(p, path, node); var total := spent + Weight(p, path, node);
      && (r.Ok? <==> meaning.Ok? && total <= MAX_RETAINED)
      && (r.Ok? ==> r.value == Applied(meaning.value, total))
      && (r.Err? ==> (meaning.Err? && r.error == meaning.error) || (r.error == ALLOCATION && total > MAX_RETAINED))
    decreases |path|
  {
    hide Find; hide CopyProperty; hide Charge;
    if |path| > 1 && node.Obj? && Find(node.fields, path[0].name).Some? {
      var now := Charge(spent, |node.fields| + 1, 48);
      if now.Ok? { ApplyRefines(p, path[1..], Find(node.fields, path[0].name).value, now.value); }
    } else if |path| > 1 && node.Arr? && ArrayIndex(path[0], |node.items|).Some? {
      var now := Charge(spent, |node.items|, 16);
      if now.Ok? { ApplyRefines(p, path[1..], node.items[ArrayIndex(path[0], |node.items|).value], now.value); }
    }
  }
}

/** Undoing a patch, and what a patch leaves alone. */
module PatchLaws {
  import opened Search
  import opened Common
  import opened Distinctness
  import opened NativeKeys
  import opened NativeValue
  import opened Patches

  // ----- fields -----

  lemma {:induction false} FindPut(fields: seq<Field<Value>>, key: Text, v: Value, other: Text)
    ensures Find(Put(fields, key, v), other) == if other == key then Some(v) else Find(fields, other)
  {
    if fields != [] && fields[0].key != key {
      FindPut(fields[1..], key, v, other);
      assert Put(fields, key, v)[1..] == Put(fields[1..], key, v);
    } else if fields != [] {
      assert Put(fields, key, v)[1..] == fields[1..];
    }
  }

  lemma {:induction false} PutPut(fields: seq<Field<Value>>, key: Text, a: Value, b: Value)
    ensures Put(Put(fields, key, a), key, b) == Put(fields, key, b)
  {
    if fields == [] {
      assert [Field(key, a)][1..] == [];
    } else if fields[0].key != key {
      PutPut(fields[1..], key, a, b);
      assert Put(fields, key, a)[1..] == Put(fields[1..], key, a);
    } else {
      assert Put(fields, key, a)[1..] == fields[1..];
    }
  }

  lemma {:induction false} PutSame(fields: seq<Field<Value>>, key: Text)
    requires Find(fields, key).Some?
    ensures Put(fields, key, Find(fields, key).value) == fields
  {
    hide Names;
    assert fields == [fields[0]] + fields[1..];
    if fields[0].key != key { PutSame(fields[1..], key); }
  }

  lemma {:induction false} WithoutUnknown(fields: seq<Field<Value>>, key: Text)
    requires Find(fields, key).None?
    ensures Without(fields, FieldKey, key) == fields
  {
    WithoutAbsent(fields, FieldKey, key);
  }

  lemma {:induction false} WithoutPut(fields: seq<Field<Value>>, key: Text, v: Value)
    requires Find(fields, key).None?
    ensures Without(Put(fields, key, v), FieldKey, key) == fields
  {
    if fields == [] {
      assert [Field(key, v)][1..] == [];
    } else {
      WithoutPut(fields[1..], key, v);
      assert Put(fields, key, v)[1..] == Put(fields[1..], key, v);
    }
  }

  lemma {:induction false} FindWithout(fields: seq<Field<Value>>, key: Text, other: Text)
    ensures Find(Without(fields, FieldKey, key), other) == if other == key then None else Find(fields, other)
  {
    if fields != [] {
      FindWithout(fields[1..], key, other);
      if fields[0].key != key {
        assert Without(fields, FieldKey, key)[1..] == Without(fields[1..], FieldKey, key);
      } else {
        assert Without(fields, FieldKey, key) == Without(fields[1..], FieldKey, key);
      }
    }
  }

  predicate LastKey(fields: seq<Field<Value>>, key: Text) { fields != [] && fields[|fields| - 1].key == key }

  lemma NamesTail(fields: seq<Field<Value>>)
    requires fields != [] && Distinct(Names(fields))
    ensures Distinct(Names(fields[1..])) && fields[0].key !in Names(fields[1..])
  {
    assert Names(fields)[1..] == Names(fields[1..]);
    DistinctTail(Names(fields));
  }

  lemma ConsWithout(f: Field<Value>, fields: seq<Field<Value>>, key: Text)
    ensures Without([f] + fields, FieldKey, key) == (if f.key == key then [] else [f]) + Without(fields, FieldKey, key)
    ensures f.key != key ==> forall v :: Put([f] + fields, key, v) == [f] + Put(fields, key, v)
  {
    assert ([f] + fields)[1..] == fields;
  }

  /** The first member, removed and added again, is last. */
  lemma FirstReadded(fields: seq<Field<Value>>)
    requires fields != [] && Distinct(Names(fields))
    ensures Without(fields, FieldKey, fields[0].key) == fields[1..]
    ensures Put(fields[1..], fields[0].key, fields[0].value) == fields[1..] + [fields[0]]
    ensures fields[1..] + [fields[0]] == fields <==> LastKey(fields, fields[0].key)
  {
    var key, rest := fields[0].key, fields[1..];
    NamesTail(fields);
    assert fields == [fields[0]] + rest;
    ConsWithout(fields[0], rest, key);
    WithoutUnknown(rest, key);
    assert [] + rest == rest;
    PutAbsent(rest, key, fields[0].value);
    if |fields| > 1 {
      assert Names(fields)[0] != Names(fields)[|fields| - 1] && Names(fields)[0] != Names(fields)[1];
      assert (rest + [fields[0]])[0] == fields[1];
    }
  }

  /** Removing a key and adding it again puts it last: the order comes back exactly if it was last. */
  lemma {:induction false} PutWithout(fields: seq<Field<Value>>, key: Text)
    requires Find(fields, key).Some? && Distinct(Names(fields))
    ensures Put(Without(fields, FieldKey, key), key, Find(fields, key).value) == fields <==> LastKey(fields, key)
  {
    hide Without; hide Put; hide Distinct;
    NamesTail(fields);
    if fields[0].key == key {
      FirstReadded(fields);
    } else {
      var rest := fields[1..];
      PutWithout(rest, key);
      assert fields == [fields[0]] + rest;
      ConsWithout(fields[0], rest, key);
      ConsWithout(fields[0], Without(rest, FieldKey, key), key);
      var again := Put(Without(rest, FieldKey, key), key, Find(rest, key).value);
      assert [fields[0]] + again == fields <==> again == rest by { assert ([fields[0]] + again)[1..] == again; }
    }
  }

  lemma {:induction false} PutAbsent(fields: seq<Field<Value>>, key: Text, v: Value)
    requires Find(fields, key).None?
    ensures Put(fields, key, v) == fields + [Field(key, v)]
  {
    if fields != [] { PutAbsent(fields[1..], key, v); }
  }

  // ----- the inverse -----

  /** The patch that undoes p at a path, from the value p is applied to. */
  function Inverse(p: Patch, path: seq<PathKey>, node: Value): Option<Patch>
    decreases |path|
  {
    if path == [] then Some(p.(op := Replace, value := node))
    else match node
      case Obj(fields) =>
        var old' := Find(fields, path[0].name);
        if |path| == 1 then
          if old'.None? then Some(p.(op := Remove)) else Some(p.(op := if p.op == Remove then Add else Replace, value := old'.value))
        else if old'.None? then None else Inverse(p, path[1..], old'.value)
      case Arr(items) =>
        if |path| == 1 then
          if !path[0].kind.NumberKey? || path[0].kind.index.None? then
            if p.length.Some? && p.length.value >= |items| then Some(p.(op := Replace, length := Some(|items|))) else None
          else
            var n := path[0].kind.index.value;
            if p.op == Add then Some(p.(op := Remove))
            else if n < |items| then Some(p.(op := if p.op == Remove then Add else Replace, value := items[n]))
            else None
        else
          var i := ArrayIndex(path[0], |items|);
          if i.None? then None else Inverse(p, path[1..], items[i.value])
      case _ => None
  }

  /** The one patch whose inverse may move a key: removing a member that is not last. */
  predicate Reorders(p: Patch, path: seq<PathKey>, node: Value)
    decreases |path|
  {
    path != [] &&
    match node
    case Obj(fields) =>
      var child := Find(fields, path[0].name);
      child.Some? && if |path| == 1 then p.op == Remove && !LastKey(fields, path[0].name) else Reorders(p, path[1..], child.value)
    case Arr(items) =>
      var i := ArrayIndex(path[0], |items|);
      |path| > 1 && i.Some? && Reorders(p, path[1..], items[i.value])
    case _ => false
  }

  lemma InverseInObject(p: Patch, key: PathKey, fields: seq<Field<Value>>)
    requires Distinct(Names(fields)) && LastInObject(p, key, fields).Ok?
    ensures var q := Inverse(p, [key], Obj(fields)); var after := LastInObject(p, key, fields).value.fields;
      && q.Some? && LastInObject(q.value, key, after).Ok?
      && (LastInObject(q.value, key, after).value == Obj(fields) <==> !Reorders(p, [key], Obj(fields)))
  {
    hide Find; hide Put; hide Without;
    var old' := Find(fields, key.name);
    if p.op == Remove {
      FindWithout(fields, key.name, key.name);
      PutWithout(fields, key.name);
    } else {
      FindPut(fields, key.name, p.value, key.name);
      if old'.Some? {
        PutPut(fields, key.name, p.value, old'.value);
        PutSame(fields, key.name);
      } else {
        WithoutPut(fields, key.name, p.value);
      }
    }
  }

  lemma InverseInArray(p: Patch, key: PathKey, items: seq<Value>)
    requires LastInArray(p, key, items).Ok? && Inverse(p, [key], Arr(items)).Some?
    ensures var q := Inverse(p, [key], Arr(items)).value; var after := LastInArray(p, key, items).value.items;
      LastInArray(q, key, after) == Ok(Arr(items))
  {
    if !key.kind.NumberKey? {
      assert Resized(items, p.length.value)[..|items|] == items;
    } else {
      var n := key.kind.index.value;
      match p.op
      case Add =>
        var after := items[..n] + [p.value] + items[n..];
        assert after[..n] == items[..n] && after[n + 1..] == items[n..];
        assert items[..n] + items[n..] == items;
      case Remove =>
        var after := items[..n] + items[n + 1..];
        assert after[..n] == items[..n] && after[n..] == items[n + 1..];
        assert items[..n] + [items[n]] + items[n + 1..] == items;
      case Replace =>
        assert items[n := p.value][n := items[n]] == items;
    }
  }

  /** At any depth, the inverse patch is accepted and gives back the identical value, key order included,
      unless it re-adds a member that was not the last of its object. */
  lemma {:induction false} InverseRestores(p: Patch, path: seq<PathKey>, node: Value)
    requires Formed(node) && Patched(p, path, node).Ok? && Inverse(p, path, node).Some?
    ensures var q := Inverse(p, path, node).value; var back := Patched(q, path, Patched(p, path, node).value);
      back.Ok? && (back.value == node <==> !Reorders(p, path, node))
    decreases |path|, 1
  {
    hide Find; hide Put; hide Without; hide LastInObject; hide LastInArray;
    if path == [] {
    } else if |path| == 1 {
      assert path == [path[0]];
      if node.Obj? { InverseInObject(p, path[0], node.fields); LastIsObject(p, path[0], node.fields); }
      else { InverseInArray(p, path[0], node.items); LastIsArray(p, path[0], node.items); }
    } else if node.Obj? {
      InverseThroughObject(p, path, node.fields);
    } else {
      InverseThroughArray(p, path, node.items);
    }
  }

  lemma LastIsObject(p: Patch, key: PathKey, fields: seq<Field<Value>>)
    ensures LastInObject(p, key, fields).Ok? ==> LastInObject(p, key, fields).value.Obj?
  {
  }

  lemma LastIsArray(p: Patch, key: PathKey, items: seq<Value>)
    ensures LastInArray(p, key, items).Ok? ==> LastInArray(p, key, items).value.Arr?
  {
  }

  lemma {:induction false} InverseThroughObject(p: Patch, path: seq<PathKey>, fields: seq<Field<Value>>)
    requires |path| > 1 && Formed(Obj(fields)) && Patched(p, path, Obj(fields)).Ok? && Inverse(p, path, Obj(fields)).Some?
    ensures var q := Inverse(p, path, Obj(fields)).value; var back := Patched(q, path, Patched(p, path, Obj(fields)).value);
      back.Ok? && (back.value == Obj(fields) <==> !Reorders(p, path, Obj(fields)))
    decreases |path|, 0
  {
    hide Find; hide Put; hide Without; hide LastInObject; hide LastInArray;
    var name, rest := path[0].name, path[1..];
    var child := Find(fields, name).value;
    FindFormed(fields, name);
    InverseRestores(p, rest, child);
    var q := Inverse(p, rest, child).value;
    var changed := Patched(p, rest, child).value;
    var back := Patched(q, rest, changed).value;
    FindPut(fields, name, changed, name);
    PutPut(fields, name, changed, back);
    PutSame(fields, name);
    FindPut(fields, name, back, name);
  }

  lemma {:induction false} FindFormed(fields: seq<Field<Value>>, name: Text)
    requires (forall i :: 0 <= i < |fields| ==> Formed(fields[i].value)) && Find(fields, name).Some?
    ensures Formed(Find(fields, name).value)
  {
    if fields[0].key != name { FindFormed(fields[1..], name); }
  }

  lemma {:induction false} InverseThroughArray(p: Patch, path: seq<PathKey>, items: seq<Value>)
    requires |path| > 1 && Formed(Arr(items)) && Patched(p, path, Arr(items)).Ok? && Inverse(p, path, Arr(items)).Some?
    ensures var q := Inverse(p, path, Arr(items)).value; var back := Patched(q, path, Patched(p, path, Arr(items)).value);
      back.Ok? && (back.value == Arr(items) <==> !Reorders(p, path, Arr(items)))
    decreases |path|, 0
  {
    hide Find; hide Put; hide Without; hide LastInObject; hide LastInArray;
    var i, rest := ArrayIndex(path[0], |items|).value, path[1..];
    InverseRestores(p, rest, items[i]);
    var q := Inverse(p, rest, items[i]).value;
    var changed := Patched(p, rest, items[i]).value;
    var back := Patched(q, rest, changed).value;
    assert items[i := changed][i := back] == items[i := back];
    assert items[i := items[i]] == items;
    assert items[i := back][i] == back;
  }

  /** `{"a":null,"b":null}` without "a" and with it again is not the same ordered value. */
  lemma ReaddedKeyMoves()
    ensures var node := Obj([Field(Ascii("a"), Null), Field(Ascii("b"), Null)]);
      var p := Patch(Remove, [PathKey(Ascii("a"), TextKey)], Null, None);
      && Patched(p, p.path, node).Ok? && Inverse(p, p.path, node).Some?
      && var q := Inverse(p, p.path, node).value;
         q.op == Add && Patched(q, q.path, Patched(p, p.path, node).value).Ok?
         && Patched(q, q.path, Patched(p, p.path, node).value).value != node
  {
    var a, b := Ascii("a"), Ascii("b");
    assert a[0] == 97 && b[0] == 98;
    var fields := [Field(a, Null), Field(b, Null)];
    assert Names(fields) == [a, b];
    assert Find(fields, a) == Some(Null);
    InverseRestores(Patch(Remove, [PathKey(a, TextKey)], Null, None), [PathKey(a, TextKey)], Obj(fields));
  }

  // ----- what a patch leaves alone -----

  datatype Place = Name(name: Text) | Slot(index: nat)

  function Lookup(v: Value, q: seq<Place>): Option<Value>
    decreases |q|
  {
    if q == [] then Some(v)
    else match v
      case Obj(fields) =>
        if q[0].Name? && Find(fields, q[0].name).Some? then Lookup(Find(fields, q[0].name).value, q[1..]) else None
      case Arr(items) =>
        if q[0].Slot? && q[0].index < |items| then Lookup(items[q[0].index], q[1..]) else None
      case _ => None
  }

  /** Where array element j is after the last step of a patch; None for the one it replaces or drops. */
  function SlotAfter(p: Patch, key: PathKey, length: nat, j: nat): Option<nat> {
    if key.kind.NumberKey? && key.kind.index.Some? then
      var n := key.kind.index.value;
      match p.op
      case Add => Some(if j < n then j else j + 1)
      case Remove => if j < n then Some(j) else if j == n then None else Some(j - 1)
      case Replace => if j == n then None else Some(j)
    else if p.length.Some? && j < p.length.value then Some(j) else None
  }

  /** Where a place off the path is after the patch; None for places on the path and under its target. */
  function Moved(p: Patch, path: seq<PathKey>, node: Value, q: seq<Place>): Option<seq<Place>>
    decreases |path|
  {
    if path == [] || q == [] then None
    else match node
      case Obj(fields) =>
        if !q[0].Name? then None
        else if q[0].name != path[0].name then Some(q)
        else if |path| == 1 || Find(fields, path[0].name).None? then None
        else Under(q[0], Moved(p, path[1..], Find(fields, path[0].name).value, q[1..]))
      case Arr(items) =>
        if !q[0].Slot? || q[0].index >= |items| then None
        else if |path| == 1 then
          var j := SlotAfter(p, path[0], |items|, q[0].index);
          if j.None? then None else Some([Slot(j.value)] + q[1..])
        else
          var i := ArrayIndex(path[0], |items|);
          if i.None? then None
          else if q[0].index != i.value then Some(q)
          else Under(q[0], Moved(p, path[1..], items[i.value], q[1..]))
      case _ => None
  }

  function Under(first: Place, rest: Option<seq<Place>>): Option<seq<Place>> {
    if rest.None? then None else Some([first] + rest.value)
  }

  lemma LookupStep(first: Place, rest: seq<Place>, v: Value)
    ensures Lookup(v, [first] + rest) ==
            if v.Obj? && first.Name? && Find(v.fields, first.name).Some? then Lookup(Find(v.fields, first.name).value, rest)
            else if v.Arr? && first.Slot? && first.index < |v.items| then Lookup(v.items[first.index], rest)
            else None
  {
    assert ([first] + rest)[1..] == rest;
  }

  lemma LastSlot(p: Patch, key: PathKey, items: seq<Value>, j: nat)
    requires LastInArray(p, key, items).Ok? && j < |items| && SlotAfter(p, key, |items|, j).Some?
    ensures var after := LastInArray(p, key, items).value.items; var k := SlotAfter(p, key, |items|, j).value;
      k < |after| && after[k] == items[j]
  {
  }

  lemma LastField(p: Patch, key: PathKey, fields: seq<Field<Value>>, name: Text)
    requires LastInObject(p, key, fields).Ok? && name != key.name
    ensures Find(LastInObject(p, key, fields).value.fields, name) == Find(fields, name)
  {
    hide Find;
    FindPut(fields, key.name, p.value, name);
    FindWithout(fields, key.name, name);
  }

  /** Every place off the path holds what it held, an array element possibly one slot over. */
  lemma {:induction false} OffPathUnchanged(p: Patch, path: seq<PathKey>, node: Value, q: seq<Place>)
    requires Patched(p, path, node).Ok? && Moved(p, path, node, q).Some?
    ensures Lookup(Patched(p, path, node).value, Moved(p, path, node, q).value) == Lookup(node, q)
    decreases |path|, 1
  {
    hide Find; hide Put; hide Without; hide LastInObject; hide LastInArray; hide Lookup;
    var first, rest := q[0], q[1..];
    assert q == [first] + rest;
    if node.Obj? {
      OffPathObject(p, path, node.fields, first, rest);
    } else {
      OffPathArray(p, path, node.items, first, rest);
    }
  }

  lemma {:induction false} OffPathObject(p: Patch, path: seq<PathKey>, fields: seq<Field<Value>>, first: Place, rest: seq<Place>)
    requires var q := [first] + rest; Patched(p, path, Obj(fields)).Ok? && Moved(p, path, Obj(fields), q).Some?
    ensures var q := [first] + rest; Lookup(Patched(p, path, Obj(fields)).value, Moved(p, path, Obj(fields), q).value) == Lookup(Obj(fields), q)
    decreases |path|, 0
  {
    hide Find; hide Put; hide Without; hide LastInObject; hide LastInArray; hide Lookup;
    var after, key := Patched(p, path, Obj(fields)).value, path[0];
    assert ([first] + rest)[1..] == rest;
    LookupStep(first, rest, Obj(fields));
    if |path| == 1 {
      LastIsObject(p, key, fields);
      LastField(p, key, fields, first.name);
      LookupStep(first, rest, after);
    } else {
      var child := Find(fields, key.name).value;
      var changed := Patched(p, path[1..], child).value;
      FindPut(fields, key.name, changed, first.name);
      if first.name == key.name {
        OffPathUnchanged(p, path[1..], child, rest);
        LookupStep(first, Moved(p, path[1..], child, rest).value, after);
      } else {
        LookupStep(first, rest, after);
      }
    }
  }

  lemma {:induction false} OffPathArray(p: Patch, path: seq<PathKey>, items: seq<Value>, first: Place, rest: seq<Place>)
    requires var q := [first] + rest; Patched(p, path, Arr(items)).Ok? && Moved(p, path, Arr(items), q).Some?
    ensures var q := [first] + rest; Lookup(Patched(p, path, Arr(items)).value, Moved(p, path, Arr(items), q).value) == Lookup(Arr(items), q)
    decreases |path|, 0
  {
    hide Find; hide Put; hide Without; hide LastInObject; hide LastInArray; hide Lookup;
    var after, key := Patched(p, path, Arr(items)).value, path[0];
    assert ([first] + rest)[1..] == rest;
    LookupStep(first, rest, Arr(items));
    if |path| == 1 {
      LastIsArray(p, key, items);
      LastSlot(p, key, items, first.index);
      LookupStep(Slot(SlotAfter(p, key, |items|, first.index).value), rest, after);
    } else {
      var i := ArrayIndex(key, |items|).value;
      if first.index == i {
        OffPathUnchanged(p, path[1..], items[i], rest);
        LookupStep(first, Moved(p, path[1..], items[i], rest).value, after);
      } else {
        LookupStep(first, rest, after);
      }
    }
  }

  // ----- what a patch writes -----

  /** The place a patch names in this value; None if it names an array's length or does not resolve. */
  function Target(path: seq<PathKey>, node: Value): Option<seq<Place>>
    decreases |path|
  {
    if path == [] then Some([])
    else match node
      case Obj(fields) =>
        if |path| == 1 then Some([Name(path[0].name)])
        else if Find(fields, path[0].name).None? then None
        else Under(Name(path[0].name), Target(path[1..], Find(fields, path[0].name).value))
      case Arr(items) =>
        if |path| == 1 then (if path[0].kind.NumberKey? && path[0].kind.index.Some? then Some([Slot(path[0].kind.index.value)]) else None)
        else
          var i := ArrayIndex(path[0], |items|);
          if i.None? then None else Under(Slot(i.value), Target(path[1..], items[i.value]))
      case _ => None
  }

  lemma WrittenLast(p: Patch, key: PathKey, node: Value)
    requires Patched(p, [key], node).Ok? && Target([key], node).Some?
    ensures var place := Target([key], node).value; var after := Patched(p, [key], node).value;
      if p.op != Remove then Lookup(after, place) == Some(p.value)
      else node.Obj? ==> Lookup(after, place) == None
  {
    hide Find; hide Put; hide Without;
    var place, after := Target([key], node).value, Patched(p, [key], node).value;
    assert place == [place[0]] + [];
    LookupStep(place[0], [], after);
    if node.Obj? {
      FindPut(node.fields, key.name, p.value, key.name);
      FindWithout(node.fields, key.name, key.name);
    }
  }

  /** Adding or replacing puts exactly the given value at the named place, at any depth; removing leaves nothing
      under a removed name. */
  lemma {:induction false} TargetHoldsValue(p: Patch, path: seq<PathKey>, node: Value)
    requires Patched(p, path, node).Ok? && Target(path, node).Some?
    ensures var place := Target(path, node).value; var after := Patched(p, path, node).value;
      && (p.op != Remove ==> Lookup(after, place) == Some(p.value))
      && (p.op == Remove && place != [] && place[|place| - 1].Name? ==> Lookup(after, place) == None)
    decreases |path|
  {
    hide Find; hide Put; hide Without; hide LastInObject; hide LastInArray; hide Lookup;
    if path == [] {
      Here(p.value);
    } else if |path| == 1 {
      assert path == [path[0]];
      WrittenLast(p, path[0], node);
    } else {
      var after := Patched(p, path, node).value;
      if node.Obj? {
        var child := Find(node.fields, path[0].name).value;
        var changed, inner := Patched(p, path[1..], child).value, Target(path[1..], child).value;
        TargetHoldsValue(p, path[1..], child);
        FindPut(node.fields, path[0].name, changed, path[0].name);
        LookupStep(Name(path[0].name), inner, after);
        TargetLast(path[1..], child);
      } else {
        var i := ArrayIndex(path[0], |node.items|).value;
        var inner := Target(path[1..], node.items[i]).value;
        TargetHoldsValue(p, path[1..], node.items[i]);
        LookupStep(Slot(i), inner, after);
        TargetLast(path[1..], node.items[i]);
      }
    }
  }

  lemma Here(v: Value)
    ensures Lookup(v, []) == Some(v)
  {
  }

  lemma TargetLast(path: seq<PathKey>, node: Value)
    requires path != [] && Target(path, node).Some?
    ensures Target(path, node).value != []
  {
  }
}

/** A whole batch: one budget, no partial result, the same identity. */
module PatchBatch {
  import opened Common
  import opened NativeText
  import opened NativeKeys
  import opened NativeValue
  import opened Patches

  const ID := Ascii("id")
  const HOST := Ascii("hostId")
  const LOCAL := Ascii("local")

  predicate Forbidden(name: Text) { name == Ascii("__proto__") || name == Ascii("prototype") || name == Ascii("constructor") }

  predicate Supported(p: Patch) { |p.path| <= MAX_PATH && forall i :: 0 <= i < |p.path| ==> !Forbidden(p.path[i].name) }

  /** The values after each patch, by meaning alone. */
  function Fold(state: Value, patches: seq<Patch>): Result<Value> {
    if patches == [] then Ok(state)
    else
      var n := |patches| - 1;
      var before := Fold(state, patches[..n]);
      if before.Err? then before
      else if !Supported(patches[n]) then Err("Unsupported desktop patch")
      else Patched(patches[n], patches[n].path, before.value)
  }

  function Spent(state: Value, patches: seq<Patch>): nat {
    if patches == [] then 0
    else
      var n := |patches| - 1;
      var before := Fold(state, patches[..n]);
      Spent(state, patches[..n]) + if before.Ok? then Weight(patches[n], patches[n].path, before.value) else 0
  }

  function Identity(v: Value, key: Text): Option<Text> {
    if v.Obj? && Find(v.fields, key).Some? && Find(v.fields, key).value.Str? then Some(Find(v.fields, key).value.units) else None
  }

  predicate SameIdentity(before: Value, after: Value) {
    && after.Obj? && Identity(before, ID).Some? && Identity(before, ID) == Identity(after, ID)
    && Identity(after, HOST) == Some(LOCAL)
  }

  /** Published exactly when every patch means something, the whole batch fits the budget and the task is still itself. */
  method ApplyDesktopPatches(state: Value, patches: seq<Patch>) returns (r: Result<Value>, spent: nat)
    ensures spent <= MAX_RETAINED
    ensures r.Ok? <==> |patches| <= MAX_PATCHES && Fold(state, patches).Ok? && Spent(state, patches) <= MAX_RETAINED
                       && SameIdentity(state, Fold(state, patches).value)
    ensures r.Ok? ==> r.value == Fold(state, patches).value && spent == Spent(state, patches)
  {
    spent := 0;
    if |patches| > MAX_PATCHES { return Result<Value>.Err("Invalid desktop patches"), 0; }
    var result := state;
    assert patches[..0] == [];
    for i := 0 to |patches|
      invariant spent <= MAX_RETAINED
      invariant Fold(state, patches[..i]) == Ok(result) && spent == Spent(state, patches[..i])
    {
      var p := patches[i];
      assert patches[..i + 1][..i] == patches[..i];
      if !Supported(p) {
        FailsForGood(state, patches, i + 1);
        return Result<Value>.Err("Unsupported desktop patch"), spent;
      }
      ApplyRefines(p, p.path, result, spent);
      var next := Apply(p, p.path, result, spent);
      if next.Err? {
        FailsForGood(state, patches, i + 1);
        return Result<Value>.Err(next.error), spent;
      }
      result, spent := next.value.value, next.value.spent;
    }
    assert patches[..|patches|] == patches;
    if !SameIdentity(state, result) { return Result<Value>.Err("Desktop identity changed"), spent; }
    r := Ok(result);
  }

  /** A batch that failed or overspent early stays so. */
  lemma {:induction false} FailsForGood(state: Value, patches: seq<Patch>, i: nat)
    requires i <= |patches|
    ensures Spent(state, patches[..i]) <= Spent(state, patches)
    ensures Fold(state, patches[..i]).Err? ==> Fold(state, patches).Err?
    decreases |patches|
  {
    if i == |patches| {
      assert patches[..i] == patches;
    } else {
      var n := |patches| - 1;
      FailsForGood(state, patches[..n], i);
      assert patches[..n][..i] == patches[..i];
    }
  }
}
