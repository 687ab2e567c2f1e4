/** Object keys in the order of section 10.1.11 of ECMA-262: first the array indices by value, then the rest as they came. */
module NativeKeys {
  import opened Common
  import opened Concatenation
  import opened Distinctness
  import opened Utf8

  type Text = seq<unit>

  predicate Digit(u: int) { 48 <= u <= 57 }

  function DigitValue(u: int): nat
    requires Digit(u)
  {
    u - 48
  }

  function Magnitude(key: Text): nat
    requires forall i :: 0 <= i < |key| ==> Digit(key[i])
  {
    if key == [] then 0 else Magnitude(key[..|key| - 1]) * 10 + DigitValue(key[|key| - 1])
  }

  predicate Canonical(key: Text) {
    key != [] && (forall i :: 0 <= i < |key| ==> Digit(key[i])) && (|key| > 1 ==> key[0] != 48)
  }

  /** arrayKey */
  function Index(key: Text): Option<nat> {
    if Canonical(key) && Magnitude(key) < 0x1_0000_0000 - 1 then Some(Magnitude(key)) else None
  }

  lemma {:induction false} ValuePositive(key: Text)
    requires Canonical(key) && key[0] != 48
    ensures Magnitude(key) > 0
    decreases |key|
  {
    if |key| > 1 {
      ValuePositive(key[..|key| - 1]);
    } else {
      assert key[..0] == [];
    }
  }

  lemma {:induction false} ValueInjective(a: Text, b: Text)
    requires Canonical(a) && Canonical(b) && Magnitude(a) == Magnitude(b)
    ensures a == b
    decreases |a|
  {
    var x, y := a[..|a| - 1], b[..|b| - 1];
    assert a == x + [a[|a| - 1]] && b == y + [b[|b| - 1]];
    assert a[|a| - 1] == b[|b| - 1] && Magnitude(x) == Magnitude(y);
    if |a| > 1 && |b| > 1 {
      ValueInjective(x, y);
    } else if |a| > 1 {
      assert y == [];
      ValuePositive(x);
    } else if |b| > 1 {
      assert x == [];
      ValuePositive(y);
    }
  }

  /** Two keys are never the same array index, so sorting them is never ambiguous. */
  lemma IndexInjective(a: Text, b: Text)
    requires Index(a).Some? && Index(a) == Index(b)
    ensures a == b
  {
    ValueInjective(a, b);
  }

  // ----- the order -----

  function Indices(keys: seq<Text>): seq<Text> {
    if keys == [] then [] else (if Index(keys[0]).Some? then [keys[0]] else []) + Indices(keys[1..])
  }

  function Others(keys: seq<Text>): seq<Text> {
    if keys == [] then [] else (if Index(keys[0]).Some? then [] else [keys[0]]) + Others(keys[1..])
  }

  ghost predicate AllIndices(keys: seq<Text>) { forall i :: 0 <= i < |keys| ==> Index(keys[i]).Some? }

  ghost predicate NoIndices(keys: seq<Text>) { forall i :: 0 <= i < |keys| ==> Index(keys[i]).None? }

  function Number(key: Text): nat { if Index(key).Some? then Index(key).value else 0 }

  ghost predicate Ascending(keys: seq<Text>) {
    |keys| >= 2 ==> Number(keys[0]) <= Number(keys[1]) && Ascending(keys[1..])
  }

  lemma {:induction false} AscendingPairs(keys: seq<Text>, i: nat, j: nat)
    requires Ascending(keys) && i < j < |keys|
    ensures Number(keys[i]) <= Number(keys[j])
  {
    if i > 0 {
      AscendingPairs(keys[1..], i - 1, j - 1);
    } else if j > 1 {
      AscendingPairs(keys[1..], 0, j - 1);
    }
  }

  function Insert(key: Text, keys: seq<Text>): seq<Text> {
    if keys == [] || Number(key) <= Number(keys[0]) then [key] + keys else [keys[0]] + Insert(key, keys[1..])
  }

  /** Insertion sort; KeysOrder shows that no other sort could differ. */
  function Sort(keys: seq<Text>): seq<Text> {
    if keys == [] then [] else Insert(keys[0], Sort(keys[1..]))
  }

  lemma {:induction false} InsertMembers(key: Text, keys: seq<Text>)
    ensures multiset(Insert(key, keys)) == multiset{key} + multiset(keys)
  {
    if keys == [] || Number(key) <= Number(keys[0]) {
      MultisetCons(key, keys);
    } else {
      InsertMembers(key, keys[1..]);
      MultisetCons(keys[0], Insert(key, keys[1..]));
      MultisetSplit(keys);
    }
  }

  lemma {:induction false} InsertAscending(key: Text, keys: seq<Text>)
    requires Ascending(keys)
    ensures Ascending(Insert(key, keys)) && Insert(key, keys) != []
    ensures Number(Insert(key, keys)[0]) == if keys == [] || Number(key) <= Number(keys[0]) then Number(key) else Number(keys[0])
  {
    if keys == [] || Number(key) <= Number(keys[0]) {
      assert ([key] + keys)[1..] == keys;
    } else {
      InsertAscending(key, keys[1..]);
      assert ([keys[0]] + Insert(key, keys[1..]))[1..] == Insert(key, keys[1..]);
    }
  }

  lemma {:induction false} SortSorts(keys: seq<Text>)
    ensures multiset(Sort(keys)) == multiset(keys) && Ascending(Sort(keys))
  {
    if keys != [] {
      SortSorts(keys[1..]);
      MultisetSplit(keys);
      InsertMembers(keys[0], Sort(keys[1..]));
      InsertAscending(keys[0], Sort(keys[1..]));
    }
  }

  function Keys(keys: seq<Text>): seq<Text> {
    Sort(Indices(keys)) + Others(keys)
  }

  lemma {:induction false} Partition(keys: seq<Text>)
    ensures multiset(Indices(keys)) + multiset(Others(keys)) == multiset(keys)
  {
    if keys != [] {
      var rest := keys[1..];
      Partition(rest);
      MultisetSplit(keys);
      MultisetShuffle(multiset{keys[0]}, multiset(Indices(rest)), multiset(Others(rest)));
      if Index(keys[0]).Some? {
        MultisetCons(keys[0], Indices(rest));
        assert [] + Others(rest) == Others(rest);
      } else {
        MultisetCons(keys[0], Others(rest));
        assert [] + Indices(rest) == Indices(rest);
      }
    }
  }

  lemma {:induction false} PartitionKinds(keys: seq<Text>)
    ensures AllIndices(Indices(keys)) && NoIndices(Others(keys))
  {
    if keys != [] { PartitionKinds(keys[1..]); }
  }

  lemma {:induction false} PartitionOnly(keys: seq<Text>)
    ensures AllIndices(keys) ==> Indices(keys) == keys && Others(keys) == []
    ensures NoIndices(keys) ==> Others(keys) == keys && Indices(keys) == []
  {
    if keys != [] { PartitionOnly(keys[1..]); }
  }

  lemma {:induction false} PartitionAppend(a: seq<Text>, b: seq<Text>)
    ensures Indices(a + b) == Indices(a) + Indices(b) && Others(a + b) == Others(a) + Others(b)
  {
    if a == [] {
      assert a + b == b;
    } else {
      hide Index;
      assert (a + b)[1..] == a[1..] + b;
      PartitionAppend(a[1..], b);
      var x, y := if Index(a[0]).Some? then [a[0]] else [], if Index(a[0]).Some? then [] else [a[0]];
      Assoc(x, Indices(a[1..]), Indices(b));
      Assoc(y, Others(a[1..]), Others(b));
    }
  }

  lemma {:induction false} SortSorted(keys: seq<Text>)
    requires Ascending(keys)
    ensures Sort(keys) == keys
  {
    if keys != [] {
      SortSorted(keys[1..]);
      assert keys[1..] != [] ==> keys[1..][0] == keys[1];
    }
  }

  /** Reading keys back in enumeration order does not move them again. */
  lemma KeysIdempotent(keys: seq<Text>)
    ensures Keys(Keys(keys)) == Keys(keys)
  {
    var sorted, others := Sort(Indices(keys)), Others(keys);
    Partition(keys);
    PartitionKinds(keys);
    SortSorts(Indices(keys));
    SameMembers(sorted, Indices(keys));
    assert AllIndices(sorted);
    PartitionAppend(sorted, others);
    PartitionOnly(sorted);
    PartitionOnly(others);
    SortSorted(sorted);
    assert sorted + [] == sorted && [] + others == others;
  }

  /** Every key once; indices first, strictly ascending; the rest keep their order of insertion. */
  lemma KeysOrder(keys: seq<Text>)
    requires Distinct(keys)
    ensures multiset(Keys(keys)) == multiset(keys) && Distinct(Keys(keys))
    ensures var n := |Indices(keys)|;
      && n <= |keys| == |Keys(keys)| && Keys(keys)[n..] == Others(keys)
      && (forall i :: 0 <= i < |keys| ==> (Index(Keys(keys)[i]).Some? <==> i < n))
      && (forall i, j :: 0 <= i < j < n ==> Number(Keys(keys)[i]) < Number(Keys(keys)[j]))
  {
    var sorted, others := Sort(Indices(keys)), Others(keys);
    Partition(keys);
    PartitionKinds(keys);
    SortSorts(Indices(keys));
    SameMembers(sorted, Indices(keys));
    assert multiset(sorted + others) == multiset(keys);
    SameMembers(sorted + others, keys);
    DistinctRearranged(keys, sorted + others);
    forall i, j | 0 <= i < j < |sorted| ensures Number(sorted[i]) < Number(sorted[j]) {
      assert sorted[i] == (sorted + others)[i] && sorted[j] == (sorted + others)[j];
      AscendingPairs(sorted, i, j);
      if Number(sorted[i]) == Number(sorted[j]) { IndexInjective(sorted[i], sorted[j]); }
    }
  }

  /** The partition loop of Keys. */
  method PartitionKeys(keys: seq<Text>) returns (indices: seq<Text>, others: seq<Text>)
    ensures indices == Indices(keys) && others == Others(keys)
  {
    indices, others := [], [];
    for i := 0 to |keys|
      invariant indices == Indices(keys[..i]) && others == Others(keys[..i])
    {
      assert keys[..i + 1] == keys[..i] + [keys[i]];
      PartitionAppend(keys[..i], [keys[i]]);
      PartitionOnly([keys[i]]);
      if Index(keys[i]).Some? { indices := indices + [keys[i]]; } else { others := others + [keys[i]]; }
    }
    assert keys[..|keys|] == keys;
  }
}

/** Ordered JSON values: how they are printed and how the bounded decoder reads them. */
module NativeValue {
  import opened Common
  import opened Distinctness
  import opened NativeText
  import opened NativeKeys

  const MAX_DEPTH := 100
  const MAX_KEY := 4096
  const MAX_NUMBER := 1024

  datatype Field<+T> = Field(key: Text, value: T)

  /** A number is a float64, held as the text it is printed as; an object is its fields in first-insertion order. */
  datatype Value = Null | Bool(b: bool) | Num(text: seq<byte>) | Str(units: Text) | Arr(items: seq<Value>) | Obj(fields: seq<Field<Value>>)

  /** What a decoder is set to: whether it reads a rollout line, and which float64 a number denotes, as the
      text that float64 is printed as (none when it is out of range). */
  datatype Mode = Mode(rollout: bool, float: seq<byte> -> Option<seq<byte>>)

  /** The printed text of a float64 is a short number that denotes it again. */
  ghost predicate Codec(mode: Mode) {
    forall text :: Numeric(text) && mode.float(text).Some? ==>
      var printed := mode.float(text).value;
      Numeric(printed) && |printed| <= MAX_NUMBER && mode.float(printed) == Some(printed)
  }

  function Names<T>(fields: seq<Field<T>>): (names: seq<Text>)
    ensures |names| == |fields| && forall i :: 0 <= i < |fields| ==> names[i] == fields[i].key
  {
    if fields == [] then [] else [fields[0].key] + Names(fields[1..])
  }

  function Find<T>(fields: seq<Field<T>>, key: Text): (r: Option<T>)
    ensures r.Some? <==> key in Names(fields)
  {
    if fields == [] then None else if fields[0].key == key then Some(fields[0].value) else Find(fields[1..], key)
  }

  /** set: a known key keeps its place, a new one goes last */
  function Put<T>(fields: seq<Field<T>>, key: Text, value: T): seq<Field<T>> {
    if fields == [] then [Field(key, value)]
    else if fields[0].key == key then [Field(key, value)] + fields[1..]
    else [fields[0]] + Put(fields[1..], key, value)
  }

  /** The fields under these names, in their order. */
  function Arrange<T>(fields: seq<Field<T>>, names: seq<Text>): seq<Field<T>>
    requires forall i :: 0 <= i < |names| ==> names[i] in Names(fields)
  {
    if names == [] then [] else [Field(names[0], Find(fields, names[0]).value)] + Arrange(fields, names[1..])
  }

  lemma KeysAreNames(names: seq<Text>)
    requires Distinct(names)
    ensures forall i :: 0 <= i < |Keys(names)| ==> Keys(names)[i] in names
  {
    KeysOrder(names);
    SameMembers(Keys(names), names);
  }

  // ----- well formed values -----

  predicate NumberByte(b: byte) { Digit(b) || b == 46 || b == 45 || b == 43 || b == 101 || b == 69 }

  function Digits(s: seq<byte>): (n: nat)
    ensures n <= |s|
  {
    if s != [] && Digit(s[0]) then 1 + Digits(s[1..]) else 0
  }

  predicate Exponent(s: seq<byte>) {
    s == [] || ((s[0] == 101 || s[0] == 69) &&
                var d := if |s| > 1 && (s[1] == 43 || s[1] == 45) then s[2..] else s[1..]; d != [] && Digits(d) == |d|)
  }

  predicate Fraction(s: seq<byte>) {
    if s != [] && s[0] == 46 then Digits(s[1..]) > 0 && Exponent(s[1 + Digits(s[1..])..]) else Exponent(s)
  }

  predicate Integer(s: seq<byte>) {
    s != [] && Digit(s[0]) && Fraction(if s[0] == 48 then s[1..] else s[Digits(s)..])
  }

  /** A JSON number (section 6 of RFC 8259). */
  predicate Numeric(s: seq<byte>) {
    s != [] && (forall i :: 0 <= i < |s| ==> NumberByte(s[i])) && Integer(if s[0] == 45 then s[1..] else s)
  }

  ghost predicate Formed(v: Value) {
    match v
    case Num(text) => Numeric(text)
    case Arr(items) => forall i :: 0 <= i < |items| ==> Formed(items[i])
    case Obj(fields) => Distinct(Names(fields)) && forall i :: 0 <= i < |fields| ==> Formed(fields[i].value)
    case _ => true
  }

  /** Every number is held as its float64 is printed. */
  ghost predicate Floats(v: Value, mode: Mode) {
    match v
    case Num(text) => mode.float(text) == Some(text)
    case Arr(items) => forall i :: 0 <= i < |items| ==> Floats(items[i], mode)
    case Obj(fields) => forall i :: 0 <= i < |fields| ==> Floats(fields[i].value, mode)
    case _ => true
  }

  // ----- printing -----

  const NULL: seq<byte> := [110, 117, 108, 108]
  const TRUE: seq<byte> := [116, 114, 117, 101]
  const FALSE: seq<byte> := [102, 97, 108, 115, 101]

  function JoinItems(items: seq<seq<byte>>): seq<byte> {
    if items == [] then [] else if |items| == 1 then items[0] else items[0] + [44] + JoinItems(items[1..])
  }

  function JoinFields(fields: seq<Field<seq<byte>>>, html: bool): seq<byte>
    decreases |fields|
  {
    if fields == [] then []
    else
      var first := Quote(fields[0].key, html) + [58] + fields[0].value;
      if |fields| == 1 then first else first + [44] + JoinFields(fields[1..], html)
  }

  /** json.Marshal; `html` is false only for the text and keys a MarshalJSON method writes itself. */
  ghost function Print(v: Value, html: bool): seq<byte>
    requires Formed(v)
    decreases v, 0
  {
    match v
    case Null => NULL
    case Bool(b) => if b then TRUE else FALSE
    case Num(text) => text
    case Str(units) => Quote(units, html)
    case Arr(items) => [91] + JoinItems(PrintItems(items)) + [93]
    case Obj(fields) =>
      KeysAreNames(Names(fields));
      [123] + JoinFields(Arrange(PrintFields(fields), Keys(Names(fields))), html) + [125]
  }

  ghost function PrintItems(items: seq<Value>): seq<seq<byte>>
    requires forall i :: 0 <= i < |items| ==> Formed(items[i])
    decreases items, 1
  {
    if items == [] then [] else [Print(items[0], true)] + PrintItems(items[1..])
  }

  ghost function PrintFields(fields: seq<Field<Value>>): (r: seq<Field<seq<byte>>>)
    requires forall i :: 0 <= i < |fields| ==> Formed(fields[i].value)
    ensures Names(r) == Names(fields)
    decreases fields, 1
  {
    if fields == [] then [] else [Field(fields[0].key, Print(fields[0].value, true))] + PrintFields(fields[1..])
  }

  // ----- paths -----

  datatype Step = Key(name: Text) | At(index: nat) | Other

  type Path = seq<Step>

  function Ascii(s: string): Text {
    seq(|s|, i requires 0 <= i < |s| => if s[i] as int < 128 then s[i] as int else 63)
  }

  /** The printed text of a float64 that is a non-negative int. */
  function Whole(text: seq<byte>): Option<nat> {
    if text == [45, 48] then Some(0)
    else if Canonical(text) && Magnitude(text) < 0x8000_0000_0000_0000 then Some(Magnitude(text)) else None
  }

  function Normalize(items: seq<Value>): Path {
    if items == [] then []
    else
      var step := match items[0]
        case Str(units) => Key(units)
        case Num(text) => (if Whole(text).Some? then At(Whole(text).value) else Other)
        case _ => Other;
      [step] + Normalize(items[1..])
  }

  /** The path a member's value is judged under, given the members read before it. */
  function ChildPath(p: Path, key: Text, before: seq<Field<Value>>, mode: Mode): Path {
    var child := p + [Key(key)];
    if mode.rollout && child == [Key(Ascii("payload")), Key(Ascii("item"))] then [Key(Ascii("items")), At(0)]
    else if |child| == 5 && child[..3] == [Key(Ascii("params")), Key(Ascii("change")), Key(Ascii("patches"))] && child[4] == Key(Ascii("value")) then
      var target := Find(before, Ascii("path"));
      if target.Some? && target.value.Arr? then Normalize(target.value.items) else child
    else child
  }

  function Policy(fields: Path): int
    requires fields != []
  {
    if fields[0] == Key(Ascii("restoreMessage")) || fields[0] == Key(Ascii("raw_content")) then 0
    else if fields[0] == Key(Ascii("result")) && |fields| > 1 then
      if fields[1] == Key(Ascii("_meta")) then 0
      else if |fields| > 3 && fields[1] == Key(Ascii("content")) && fields[2].At? && fields[3] == Key(Ascii("data")) then 0
      else -1
    else -1
  }

  /** stringPolicy: how many units of a string at this path are kept; -1 for all. */
  function Limit(p: Path): int {
    if |p| < 3 then -1
    else if p[0] == Key(Ascii("items")) && p[1].At? then Policy(p[2..])
    else Limit(p[1..])
  }

  method StringPolicy(p: Path) returns (limit: int)
    ensures limit == Limit(p) && (limit == 0 || limit == -1)
  {
    var i := 0;
    assert p[0..] == p;
    while i + 2 < |p|
      invariant 0 <= i <= |p| && Limit(p) == Limit(p[i..])
    {
      assert p[i..][0] == p[i] && p[i..][1] == p[i + 1] && p[i..][1..] == p[i + 1..] && p[i..][2..] == p[i + 2..];
      if p[i] == Key(Ascii("items")) && p[i + 1].At? { return Policy(p[i + 2..]); }
      i := i + 1;
    }
    limit := -1;
  }

  // ----- reading -----

  predicate Space(b: byte) { b == 32 || b == 9 || b == 13 || b == 10 }

  function Skip(s: seq<byte>): (r: seq<byte>)
    ensures |r| <= |s|
  {
    if s != [] && Space(s[0]) then Skip(s[1..]) else s
  }

  function NumberRun(s: seq<byte>): (n: nat)
    ensures n <= |s|
  {
    if s != [] && NumberByte(s[0]) then 1 + NumberRun(s[1..]) else 0
  }

  const RETAINED_LIMIT := "desktop retained state limit"
  const OUT_OF_RANGE := "value out of range"

  function ReadNumber(s: seq<byte>, retained: nat, mode: Mode): (r: Read<Value>)
    requires s != [] && NumberByte(s[0])
    ensures r.Got? ==> |r.rest| < |s|
  {
    var n := NumberRun(s);
    if n > MAX_NUMBER then Stop("desktop JSON key/number limit")
    else if !Numeric(s[..n]) then Stop("invalid desktop JSON number")
    else if retained + 2 * n > MAX_RETAINED then Stop(RETAINED_LIMIT)
    else match mode.float(s[..n])
      case Some(printed) => Got(Num(printed), s[n..], retained + 2 * n)
      case None => Stop(OUT_OF_RANGE)
  }

  function ReadLiteral(s: seq<byte>, literal: seq<byte>, value: Value, retained: nat): (r: Read<Value>)
    requires literal != []
    ensures r.Got? ==> |r.rest| < |s|
  {
    if |literal| <= |s| && s[..|literal|] == literal then Got(value, s[|literal|..], retained)
    else Stop("invalid desktop JSON literal")
  }

  function ReadValue(s: seq<byte>, p: Path, depth: nat, retained: nat, mode: Mode): (r: Read<Value>)
    ensures r.Got? ==> |r.rest| < |s|
    decreases |s|, 0
  {
    var t := Skip(s);
    if retained + 32 > MAX_RETAINED then Stop(RETAINED_LIMIT)
    else if t == [] then Stop("incomplete desktop JSON")
    else
      var rest, now := t[1..], retained + 32;
      if t[0] == 123 || t[0] == 91 then
        var inside := Skip(rest);
        if depth >= MAX_DEPTH then Stop("desktop JSON nesting limit")
        else if inside == [] then Stop("EOF")
        else if t[0] == 123 then
          if inside[0] == 125 then Got(Obj([]), inside[1..], now) else ReadFields(inside, p, depth + 1, now, [], mode)
        else if inside[0] == 93 then Got(Arr([]), inside[1..], now)
        else ReadItems(inside, p, depth + 1, now, [], mode)
      else if t[0] == QUOTE then
        match ReadText(rest, Limit(p), false, Kept([], now))
        case Got(units, after, charged) => Got(Str(units), after, charged)
        case Stop(e) => Stop(e)
      else if t[0] == 116 then ReadLiteral(t, TRUE, Bool(true), now)
      else if t[0] == 102 then ReadLiteral(t, FALSE, Bool(false), now)
      else if t[0] == 110 then ReadLiteral(t, NULL, Null, now)
      else if t[0] == 45 || Digit(t[0]) then ReadNumber(t, now, mode)
      else Stop("invalid desktop JSON value")
  }

  /** The array loop, in front of an element. */
  function ReadItems(s: seq<byte>, p: Path, depth: nat, retained: nat, before: seq<Value>, mode: Mode): (r: Read<Value>)
    ensures r.Got? ==> |r.rest| < |s|
    decreases |s|, 1
  {
    match ReadValue(s, p + [At(|before|)], depth, retained, mode)
    case Stop(e) => Stop(e)
    case Got(v, after, now) =>
      var t := Skip(after);
      if t == [] then Stop("EOF")
      else if t[0] == 93 then Got(Arr(before + [v]), t[1..], now)
      else if t[0] == 44 then ReadItems(t[1..], p, depth, now, before + [v], mode)
      else Stop("invalid desktop JSON array delimiter")
  }

  /** The object loop, in front of a key. */
  function ReadFields(s: seq<byte>, p: Path, depth: nat, retained: nat, before: seq<Field<Value>>, mode: Mode): (r: Read<Value>)
    requires s != []
    ensures r.Got? ==> |r.rest| < |s|
    decreases |s|, 1
  {
    if s[0] != QUOTE then Stop("invalid desktop JSON object key")
    else match ReadText(s[1..], MAX_KEY, true, Kept([], retained))
      case Stop(e) => Stop(e)
      case Got(key, colon, charged) =>
        var c := Skip(colon);
        if c == [] || c[0] != 58 then Stop("invalid desktop JSON object separator")
        else match ReadValue(c[1..], ChildPath(p, key, before, mode), depth, charged, mode)
          case Stop(e) => Stop(e)
          case Got(v, after, now) =>
            var all := if Find(before, key).None? then now + 16 else now;
            var t := Skip(after);
            if Find(before, key).None? && all > MAX_RETAINED then Stop(RETAINED_LIMIT)
            else if t == [] then Stop("EOF")
            else if t[0] == 125 then Got(Obj(Put(before, key, v)), t[1..], all)
            else if t[0] != 44 then Stop("invalid desktop JSON object delimiter")
            else
              var k := Skip(t[1..]);
              if k == [] then Stop("EOF") else ReadFields(k, p, depth, all, Put(before, key, v), mode)
  }

  /** One whole document and what it retains. */
  function ReadDocument(s: seq<byte>, mode: Mode): Result<(Value, nat)> {
    match ReadValue(s, [], 0, 0, mode)
    case Stop(e) => Err(e)
    case Got(v, rest, retained) => if Skip(rest) == [] then Ok((v, retained)) else Err("invalid trailing desktop JSON")
  }
}
