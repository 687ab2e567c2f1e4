/** What reading back a printed value gives. */
module NativeRoundTrip {
  import opened Common
  import opened Concatenation
  import opened Distinctness
  import opened NativeText
  import opened NativeKeys
  import opened NativeValue

  // ----- the bounds -----

  predicate Fits(v: Value, depth: nat)
    decreases v, 0
  {
    match v
    case Num(text) => |text| <= MAX_NUMBER
    case Arr(items) => depth < MAX_DEPTH && FitItems(items, depth + 1)
    case Obj(fields) => depth < MAX_DEPTH && FitFields(fields, depth + 1)
    case _ => true
  }

  predicate FitItems(items: seq<Value>, depth: nat)
    decreases items, 1
  {
    items != [] ==> Fits(items[0], depth) && FitItems(items[1..], depth)
  }

  predicate FitFields(fields: seq<Field<Value>>, depth: nat)
    decreases fields, 1
  {
    fields != [] ==> |fields[0].key| <= MAX_KEY && Fits(fields[0].value, depth) && FitFields(fields[1..], depth)
  }

  /** What a value charges. */
  function Cost(v: Value): (n: nat)
    ensures n >= 32
    decreases v, 0
  {
    match v
    case Num(text) => 32 + 2 * |text|
    case Str(units) => 32 + 2 * |units|
    case Arr(items) => 32 + CostItems(items)
    case Obj(fields) => 32 + CostFields(fields)
    case _ => 32
  }

  function CostItems(items: seq<Value>): nat
    decreases items, 1
  {
    if items == [] then 0 else Cost(items[0]) + CostItems(items[1..])
  }

  function CostFields(fields: seq<Field<Value>>): nat
    decreases fields, 1
  {
    if fields == [] then 0 else 2 * |fields[0].key| + Cost(fields[0].value) + 16 + CostFields(fields[1..])
  }

  // ----- what the path policy leaves -----

  /** The value with the strings at dropped paths emptied. */
  function Seen(v: Value, p: Path, mode: Mode): Value
    decreases v, 0
  {
    match v
    case Str(units) => if Limit(p) == 0 then Str([]) else v
    case Arr(items) => Arr(SeenItems(items, p, 0, mode))
    case Obj(fields) => Obj(SeenFields(fields, p, [], mode))
    case _ => v
  }

  function SeenItems(items: seq<Value>, p: Path, n: nat, mode: Mode): (r: seq<Value>)
    ensures |r| == |items|
    decreases items, 1
  {
    if items == [] then [] else [Seen(items[0], p + [At(n)], mode)] + SeenItems(items[1..], p, n + 1, mode)
  }

  /** The fields once these and the ones before them are read. */
  function SeenFields(fields: seq<Field<Value>>, p: Path, before: seq<Field<Value>>, mode: Mode): seq<Field<Value>>
    decreases fields, 1
  {
    if fields == [] then before
    else
      var f := fields[0];
      SeenFields(fields[1..], p, before + [Field(f.key, Seen(f.value, ChildPath(p, f.key, before, mode), mode))], mode)
  }

  // ----- printing in the stored order -----

  function Write(v: Value, html: bool): seq<byte>
    decreases v, 0
  {
    match v
    case Null => NULL
    case Bool(b) => if b then TRUE else FALSE
    case Num(text) => text
    case Str(units) => Quote(units, html)
    case Arr(items) => [91] + JoinItems(WriteItems(items)) + [93]
    case Obj(fields) => [123] + JoinFields(WriteFields(fields), html) + [125]
  }

  function WriteItems(items: seq<Value>): (r: seq<seq<byte>>)
    ensures |r| == |items|
    decreases items, 1
  {
    if items == [] then [] else [Write(items[0], true)] + WriteItems(items[1..])
  }

  function WriteFields(fields: seq<Field<Value>>): (r: seq<Field<seq<byte>>>)
    ensures |r| == |fields|
    decreases fields, 1
  {
    if fields == [] then [] else [Field(fields[0].key, Write(fields[0].value, true))] + WriteFields(fields[1..])
  }

  // ----- reading what was written -----

  /** A reader's result: the value and its exact charge, or a refusal if a bound is passed. */
  ghost predicate Outcome(r: Read<Value>, fits: bool, v: Value, rest: seq<byte>, total: int) {
    if fits && 0 <= total <= MAX_RETAINED then r == Got(v, rest, total) else r.Stop?
  }

  /** Nothing a number could swallow. */
  predicate Stops(rest: seq<byte>) { rest == [] || !NumberByte(rest[0]) }

  lemma SkipNothing(s: seq<byte>)
    requires s == [] || !Space(s[0])
    ensures Skip(s) == s
  {
  }

  lemma {:induction false} NumberRuns(text: seq<byte>, rest: seq<byte>)
    requires Stops(rest) && forall i :: 0 <= i < |text| ==> NumberByte(text[i])
    ensures NumberRun(text + rest) == |text|
  {
    if text == [] {
      assert text + rest == rest;
    } else {
      NumberRuns(text[1..], rest);
      assert (text + rest)[1..] == text[1..] + rest;
    }
  }

  lemma NumberReads(text: seq<byte>, p: Path, depth: nat, retained: nat, rest: seq<byte>, mode: Mode)
    requires Numeric(text) && mode.float(text) == Some(text) && Stops(rest)
    ensures Outcome(ReadValue(text + rest, p, depth, retained, mode), |text| <= MAX_NUMBER, Num(text), rest, retained + 32 + 2 * |text|)
  {
    hide ReadItems; hide ReadFields; hide ReadText; hide ReadLiteral;
    var s := text + rest;
    assert s[0] == text[0];
    SkipNothing(s);
    NumberRuns(text, rest);
    DropPrefix(text, rest);
  }

  lemma LiteralReads(v: Value, p: Path, depth: nat, retained: nat, rest: seq<byte>, mode: Mode)
    requires v.Null? || v.Bool?
    ensures Outcome(ReadValue(Write(v, true) + rest, p, depth, retained, mode), true, v, rest, retained + 32)
  {
    var s := Write(v, true) + rest;
    SkipNothing(s);
    DropPrefix(Write(v, true), rest);
  }

  /** A quoted text, from its opening quote on. */
  lemma Quoted(units: Text, html: bool, rest: seq<byte>)
    ensures Quote(units, html) + rest == [QUOTE] + (Body(units, html) + [QUOTE] + rest)
    ensures (Quote(units, html) + rest)[0] == QUOTE && (Quote(units, html) + rest)[1..] == Body(units, html) + [QUOTE] + rest
  {
    Assoc([QUOTE], Body(units, html), [QUOTE]);
    Assoc([QUOTE], Body(units, html) + [QUOTE], rest);
    DropPrefix([QUOTE], Body(units, html) + [QUOTE] + rest);
  }

  lemma TextReads(units: Text, html: bool, p: Path, depth: nat, retained: nat, rest: seq<byte>, mode: Mode)
    ensures Outcome(ReadValue(Quote(units, html) + rest, p, depth, retained, mode), true,
                    Seen(Str(units), p, mode), rest, retained + Cost(Seen(Str(units), p, mode)))
  {
    hide ReadItems; hide ReadFields; hide ReadText; hide ReadNumber; hide ReadLiteral; hide Body; hide EmitAll;
    var s := Quote(units, html) + rest;
    Quoted(units, html, rest);
    SkipNothing(s);
    LimitValues(p);
    if retained + 32 <= MAX_RETAINED {
      var kept := Kept([], retained + 32);
      BodyReads(units, html, rest, Limit(p), false, kept);
      if Limit(p) == 0 { EmitNothing(kept, units); } else { TextRoundTrip(units, html, rest, Limit(p), false, kept); }
    }
  }

  lemma {:induction false} LimitValues(p: Path)
    ensures Limit(p) == 0 || Limit(p) == -1
    decreases |p|
  {
    if |p| >= 3 { LimitValues(p[1..]); }
  }

  /** The first byte of a value is neither space nor a closing bracket. */
  lemma FirstByte(v: Value, html: bool, rest: seq<byte>)
    requires Formed(v)
    ensures Write(v, html) != [] && var b := (Write(v, html) + rest)[0]; !Space(b) && b != 93 && b != 125
  {
    match v
    case Arr(items) => Assoc([91], JoinItems(WriteItems(items)), [93]);
    case Obj(fields) => Assoc([123], JoinFields(WriteFields(fields), html), [125]);
    case _ =>
  }

  ghost predicate Reads(v: Value, html: bool, p: Path, depth: nat, retained: nat, rest: seq<byte>, mode: Mode) {
    Outcome(ReadValue(Write(v, html) + rest, p, depth, retained, mode), Fits(v, depth), Seen(v, p, mode), rest,
            retained + Cost(Seen(v, p, mode)))
  }

  lemma ScalarReads(v: Value, html: bool, p: Path, depth: nat, retained: nat, rest: seq<byte>, mode: Mode)
    requires Formed(v) && Floats(v, mode) && Stops(rest) && !v.Arr? && !v.Obj?
    ensures Reads(v, html, p, depth, retained, rest, mode)
  {
    hide ReadValue; hide Body;
    match v
    case Null => LiteralReads(v, p, depth, retained, rest, mode);
    case Bool(_) => LiteralReads(v, p, depth, retained, rest, mode);
    case Num(text) => NumberReads(text, p, depth, retained, rest, mode);
    case Str(units) => TextReads(units, html, p, depth, retained, rest, mode);
  }

  /** A printed value is read back, whatever follows it, exactly when it is within the bounds. */
  lemma {:induction false} ValueReads(v: Value, html: bool, p: Path, depth: nat, retained: nat, rest: seq<byte>, mode: Mode)
    requires Formed(v) && Floats(v, mode) && Stops(rest)
    ensures Reads(v, html, p, depth, retained, rest, mode)
    decreases v, 0
  {
    hide ReadValue; hide ReadItems; hide ReadFields;
    if v.Arr? {
      if v.items != [] { ItemsRead(v.items, p, depth + 1, retained + 32, [], rest, mode); }
      ArrayOpens(v.items, html, p, depth, retained, rest, mode);
    } else if v.Obj? {
      if v.fields != [] { FieldsRead(v.fields, html, p, depth + 1, retained + 32, [], rest, mode); }
      ObjectOpens(v.fields, html, p, depth, retained, rest, mode);
    } else {
      ScalarReads(v, html, p, depth, retained, rest, mode);
    }
  }

  /** What the reader does after an opening bracket. */
  lemma OpensContainer(s: seq<byte>, p: Path, depth: nat, retained: nat, mode: Mode)
    requires |s| >= 2 && (s[0] == 91 || s[0] == 123) && !Space(s[1])
    ensures var r := ReadValue(s, p, depth, retained, mode);
      if retained + 32 > MAX_RETAINED || depth >= MAX_DEPTH then r.Stop?
      else if s[0] == 91 then r == if s[1] == 93 then Got(Arr([]), s[2..], retained + 32) else ReadItems(s[1..], p, depth + 1, retained + 32, [], mode)
      else r == if s[1] == 125 then Got(Obj([]), s[2..], retained + 32) else ReadFields(s[1..], p, depth + 1, retained + 32, [], mode)
  {
    hide ReadItems; hide ReadFields; hide ReadText; hide ReadNumber; hide ReadLiteral;
    SkipNothing(s);
    SkipNothing(s[1..]);
    assert s[1..][1..] == s[2..];
  }

  lemma ArrayOpens(items: seq<Value>, html: bool, p: Path, depth: nat, retained: nat, rest: seq<byte>, mode: Mode)
    requires Formed(Arr(items)) && (items != [] ==> ItemsReads(items, p, depth + 1, retained + 32, [], rest, mode))
    ensures Reads(Arr(items), html, p, depth, retained, rest, mode)
  {
    hide ReadItems; hide ReadValue; hide JoinItems; hide WriteItems; hide SeenItems;
    var inner := JoinItems(WriteItems(items)) + [93] + rest;
    var s := Write(Arr(items), html) + rest;
    Opens(91, JoinItems(WriteItems(items)), 93, rest);
    ItemsStart(items, rest);
    assert s[0] == 91 && s[1..] == inner && s[1] == inner[0];
    OpensContainer(s, p, depth, retained, mode);
    if items == [] {
      NoItems(p, 0, mode);
      assert inner[1..] == rest && s[2..] == s[1..][1..];
    } else {
      assert [] + SeenItems(items, p, 0, mode) == SeenItems(items, p, 0, mode);
    }
  }

  lemma NoItems(p: Path, n: nat, mode: Mode)
    ensures SeenItems([], p, n, mode) == [] && JoinItems(WriteItems([])) == []
  {
  }

  lemma NoFields(p: Path, html: bool, mode: Mode)
    ensures SeenFields([], p, [], mode) == [] && JoinFields(WriteFields([]), html) == []
  {
  }

  lemma Opens(open: byte, body: seq<byte>, close: byte, rest: seq<byte>)
    ensures var s := [open] + body + [close] + rest; s[0] == open && s[1..] == body + [close] + rest
  {
    Assoc([open], body, [close]);
    Assoc([open], body + [close], rest);
    DropPrefix([open], body + [close] + rest);
  }

  lemma ItemsStart(items: seq<Value>, rest: seq<byte>)
    requires Formed(Arr(items))
    ensures var inner := JoinItems(WriteItems(items)) + [93] + rest; !Space(inner[0]) && (inner[0] == 93 <==> items == [])
  {
    if items != [] { FirstByte(items[0], true, []); }
  }

  lemma ObjectOpens(fields: seq<Field<Value>>, html: bool, p: Path, depth: nat, retained: nat, rest: seq<byte>, mode: Mode)
    requires fields != [] ==> FieldsReads(fields, html, p, depth + 1, retained + 32, [], rest, mode)
    ensures Reads(Obj(fields), html, p, depth, retained, rest, mode)
  {
    hide ReadFields; hide ReadValue; hide JoinFields; hide WriteFields; hide SeenFields;
    var body := JoinFields(WriteFields(fields), html);
    var inner := body + [125] + rest;
    var s := Write(Obj(fields), html) + rest;
    Opens(123, body, 125, rest);
    if fields == [] { NoFields(p, html, mode); } else { FieldsStart(WriteFields(fields), html); }
    assert s[0] == 123 && s[1..] == inner && s[1] == inner[0];
    OpensContainer(s, p, depth, retained, mode);
    if fields == [] { assert inner[1..] == rest && s[2..] == s[1..][1..]; }
  }

  lemma FieldsStart(fields: seq<Field<seq<byte>>>, html: bool)
    requires fields != []
    ensures JoinFields(fields, html) != [] && JoinFields(fields, html)[0] == QUOTE
  {
  }

  ghost predicate ItemsReads(items: seq<Value>, p: Path, depth: nat, retained: nat, before: seq<Value>, rest: seq<byte>, mode: Mode) {
    var seen := SeenItems(items, p, |before|, mode);
    Outcome(ReadItems(JoinItems(WriteItems(items)) + [93] + rest, p, depth, retained, before, mode), FitItems(items, depth),
            Arr(before + seen), rest, retained + CostItems(seen))
  }

  /** What the array loop does with one element's result. */
  ghost function AfterItem(r: Read<Value>, p: Path, depth: nat, before: seq<Value>, mode: Mode): Read<Value> {
    if r.Stop? then r
    else if r.rest == [] then Stop("EOF")
    else if r.rest[0] == 93 then Got(Arr(before + [r.value]), r.rest[1..], r.retained)
    else ReadItems(r.rest[1..], p, depth, r.retained, before + [r.value], mode)
  }

  lemma ItemStep(s: seq<byte>, p: Path, depth: nat, retained: nat, before: seq<Value>, mode: Mode)
    requires var r := ReadValue(s, p + [At(|before|)], depth, retained, mode);
      r.Got? ==> r.rest != [] && (r.rest[0] == 93 || r.rest[0] == 44)
    ensures var r := ReadValue(s, p + [At(|before|)], depth, retained, mode);
      var all := ReadItems(s, p, depth, retained, before, mode);
      if r.Stop? then all.Stop? else all == AfterItem(r, p, depth, before, mode)
  {
    var r := ReadValue(s, p + [At(|before|)], depth, retained, mode);
    if r.Got? { SkipNothing(r.rest); }
  }

  lemma {:induction false} ItemsRead(items: seq<Value>, p: Path, depth: nat, retained: nat, before: seq<Value>, rest: seq<byte>, mode: Mode)
    requires items != [] && forall i :: 0 <= i < |items| ==> Formed(items[i]) && Floats(items[i], mode)
    ensures ItemsReads(items, p, depth, retained, before, rest, mode)
    decreases items, 1
  {
    hide ReadValue; hide ReadItems; hide ReadFields; hide Seen; hide Cost; hide Fits;
    var path := p + [At(|before|)];
    var v := Seen(items[0], path, mode);
    var more := JoinItems(WriteItems(items[1..])) + [93] + rest;
    var tail := if |items| == 1 then [93] + rest else [44] + more;
    ValueReads(items[0], true, path, depth, retained, tail, mode);
    if |items| > 1 { ItemsRead(items[1..], p, depth, retained + Cost(v), before + [v], rest, mode); }
    ItemsText(items, rest);
    ItemStep(Write(items[0], true) + tail, p, depth, retained, before, mode);
    ItemsCombine(items, p, depth, retained, before, rest, tail, mode);
  }

  lemma ItemsCombine(items: seq<Value>, p: Path, depth: nat, retained: nat, before: seq<Value>, rest: seq<byte>, tail: seq<byte>, mode: Mode)
    requires items != []
    requires var path := p + [At(|before|)]; var v := Seen(items[0], path, mode);
      var s := JoinItems(WriteItems(items)) + [93] + rest; var r := ReadValue(s, path, depth, retained, mode);
      var all := ReadItems(s, p, depth, retained, before, mode);
      && tail == (if |items| == 1 then [93] + rest else [44] + (JoinItems(WriteItems(items[1..])) + [93] + rest))
      && Outcome(r, Fits(items[0], depth), v, tail, retained + Cost(v))
      && (if r.Stop? then all.Stop? else all == AfterItem(r, p, depth, before, mode))
      && (|items| > 1 ==> ItemsReads(items[1..], p, depth, retained + Cost(v), before + [v], rest, mode))
    ensures ItemsReads(items, p, depth, retained, before, rest, mode)
  {
    hide ReadValue; hide ReadItems; hide ReadFields; hide Write;
    var v := Seen(items[0], p + [At(|before|)], mode);
    var seen := SeenItems(items[1..], p, |before| + 1, mode);
    assert SeenItems(items, p, |before|, mode) == [v] + seen;
    CostCons(v, seen);
    Assoc(before, [v], seen);
    assert tail[1..] == if |items| == 1 then rest else JoinItems(WriteItems(items[1..])) + [93] + rest;
    if |items| == 1 {
      assert items[1..] == [] && [v] + seen == [v];
      assert CostItems(seen) == 0;
      assert FitItems(items, depth) == Fits(items[0], depth);
    }
  }

  lemma CostCons(v: Value, items: seq<Value>)
    ensures CostItems([v] + items) == Cost(v) + CostItems(items)
  {
    assert ([v] + items)[1..] == items;
  }

  lemma ItemsText(items: seq<Value>, rest: seq<byte>)
    requires items != []
    ensures JoinItems(WriteItems(items)) + [93] + rest ==
            Write(items[0], true) + (if |items| == 1 then [93] + rest else [44] + (JoinItems(WriteItems(items[1..])) + [93] + rest))
  {
    var head, w := Write(items[0], true), WriteItems(items);
    assert w[0] == head && w[1..] == WriteItems(items[1..]);
    if |items| == 1 {
      Assoc(head, [93], rest);
    } else {
      var more := JoinItems(w[1..]);
      Assoc(head, [44], more);
      Assoc(head, [44] + more, [93]);
      Assoc([44], more, [93]);
      Assoc(head, [44] + more + [93], rest);
      Assoc([44], more + [93], rest);
    }
  }

  // ----- members -----

  lemma KeyReads(key: Text, html: bool, after: seq<byte>, retained: nat)
    ensures var r := ReadText(Body(key, html) + [QUOTE] + after, MAX_KEY, true, Kept([], retained));
      if |key| <= MAX_KEY && (key == [] || retained + 2 * |key| <= MAX_RETAINED)
      then r == Got(key, after, retained + 2 * |key|) else r.Stop?
  {
    if |key| <= MAX_KEY {
      TextRoundTrip(key, html, after, MAX_KEY, true, Kept([], retained));
    } else {
      BodyReads(key, html, after, MAX_KEY, true, Kept([], retained));
      KeyTooLong(Kept([], retained), key, MAX_KEY);
    }
  }

  lemma {:induction false} PutNew(fields: seq<Field<Value>>, key: Text, v: Value)
    requires key !in Names(fields)
    ensures Put(fields, key, v) == fields + [Field(key, v)]
  {
    if fields != [] {
      assert key != Names(fields)[0];
      assert Names(fields)[1..] == Names(fields[1..]);
      PutNew(fields[1..], key, v);
    }
  }

  /** What the loop does once a member is read. */
  ghost function After(tail: seq<byte>, p: Path, depth: nat, total: nat, fields: seq<Field<Value>>, mode: Mode): Read<Value>
    requires tail != []
  {
    if tail[0] == 125 then Got(Obj(fields), tail[1..], total)
    else
      var k := Skip(tail[1..]);
      if k == [] then Stop("EOF") else ReadFields(k, p, depth, total, fields, mode)
  }

  lemma FieldsUnfold(s: seq<byte>, p: Path, depth: nat, retained: nat, before: seq<Field<Value>>, key: Text, value: seq<byte>, charged: nat, mode: Mode)
    requires s != [] && s[0] == QUOTE && key !in Names(before)
    requires ReadText(s[1..], MAX_KEY, true, Kept([], retained)) == Got(key, [58] + value, charged)
    ensures ReadFields(s, p, depth, retained, before, mode)
            == AfterValue(ReadValue(value, ChildPath(p, key, before, mode), depth, charged, mode), key, p, depth, before, mode)
  {
    hide ReadText; hide ReadValue; hide Put; hide ChildPath; hide Names;
    SkipNothing([58] + value);
    assert ([58] + value)[1..] == value;
  }

  /** The object loop with its key read. */
  lemma KeyStep(f: Field<Value>, html: bool, p: Path, depth: nat, retained: nat, before: seq<Field<Value>>, value: seq<byte>, mode: Mode)
    requires f.key !in Names(before)
    ensures var s := Quote(f.key, html) + ([58] + value);
      var all := ReadFields(s, p, depth, retained, before, mode);
      if |f.key| <= MAX_KEY && (f.key == [] || retained + 2 * |f.key| <= MAX_RETAINED)
      then all == AfterValue(ReadValue(value, ChildPath(p, f.key, before, mode), depth, retained + 2 * |f.key|, mode), f.key, p, depth, before, mode)
      else all.Stop?
  {
    hide ReadValue; hide Body; hide Skip; hide ReadText; hide ChildPath; hide AfterValue; hide Names;
    Quoted(f.key, html, [58] + value);
    KeyReads(f.key, html, [58] + value, retained);
    if |f.key| <= MAX_KEY && (f.key == [] || retained + 2 * |f.key| <= MAX_RETAINED) {
      FieldsUnfold(Quote(f.key, html) + ([58] + value), p, depth, retained, before, f.key, value, retained + 2 * |f.key|, mode);
    }
  }

  ghost function AfterValue(r: Read<Value>, key: Text, p: Path, depth: nat, before: seq<Field<Value>>, mode: Mode): Read<Value> {
    match r
    case Stop(e) => Stop(e)
    case Got(v, after, now) =>
      var t := Skip(after);
      if now + 16 > MAX_RETAINED then Stop(RETAINED_LIMIT)
      else if t == [] then Stop("EOF")
      else if t[0] == 125 then Got(Obj(Put(before, key, v)), t[1..], now + 16)
      else if t[0] != 44 then Stop("invalid desktop JSON object delimiter")
      else
        var k := Skip(t[1..]);
        if k == [] then Stop("EOF") else ReadFields(k, p, depth, now + 16, Put(before, key, v), mode)
  }

  lemma ValueStep(r: Read<Value>, key: Text, p: Path, depth: nat, before: seq<Field<Value>>, v: Value, fits: bool, total: nat, tail: seq<byte>, mode: Mode)
    requires key !in Names(before) && tail != [] && (tail[0] == 125 || tail[0] == 44) && Outcome(r, fits, v, tail, total)
    ensures var all := AfterValue(r, key, p, depth, before, mode);
      if fits && total + 16 <= MAX_RETAINED then all == After(tail, p, depth, total + 16, before + [Field(key, v)], mode) else all.Stop?
  {
    hide ReadValue; hide ReadItems; hide ReadFields; hide Put; hide Skip;
    SkipNothing(tail);
    PutNew(before, key, v);
  }

  lemma FieldsText(fields: seq<Field<Value>>, html: bool, rest: seq<byte>)
    requires fields != []
    ensures JoinFields(WriteFields(fields), html) + [125] + rest ==
            Quote(fields[0].key, html) + ([58] + (Write(fields[0].value, true) +
              (if |fields| == 1 then [125] + rest else [44] + (JoinFields(WriteFields(fields[1..]), html) + [125] + rest))))
  {
    var key, value, w := Quote(fields[0].key, html), Write(fields[0].value, true), WriteFields(fields);
    assert w[0] == Field(fields[0].key, value) && w[1..] == WriteFields(fields[1..]);
    if |fields| == 1 {
      assert JoinFields(w, html) == key + [58] + value;
      Chain(key, [58], value, [125], rest);
    } else {
      var more := JoinFields(w[1..], html);
      assert JoinFields(w, html) == key + [58] + value + [44] + more;
      Assoc(key + [58] + value, [44], more);
      Assoc(key + [58] + value, [44] + more, [125]);
      Chain(key, [58], value, [44] + more + [125], rest);
      Assoc([44], more, [125]);
      Assoc([44], more + [125], rest);
    }
  }

  lemma Chain(a: seq<byte>, b: seq<byte>, c: seq<byte>, d: seq<byte>, e: seq<byte>)
    ensures a + b + c + d + e == a + (b + (c + (d + e)))
  {
    Assoc(a + b + c, d, e);
    Assoc(a + b, c, d + e);
    Assoc(a, b, c + (d + e));
  }

  lemma {:induction false} SeenFieldsPrefix(fields: seq<Field<Value>>, p: Path, before: seq<Field<Value>>, mode: Mode)
    ensures before <= SeenFields(fields, p, before, mode)
    ensures |SeenFields(fields, p, before, mode)| == |before| + |fields|
    decreases |fields|
  {
    if fields != [] {
      var f := fields[0];
      SeenFieldsPrefix(fields[1..], p, before + [Field(f.key, Seen(f.value, ChildPath(p, f.key, before, mode), mode))], mode);
    }
  }

  lemma {:induction false} CostAppend(a: seq<Field<Value>>, b: seq<Field<Value>>)
    ensures CostFields(a + b) == CostFields(a) + CostFields(b)
  {
    if a == [] {
      assert a + b == b;
    } else {
      assert (a + b)[1..] == a[1..] + b;
      CostAppend(a[1..], b);
    }
  }

  lemma CostSnoc(a: seq<Field<Value>>, f: Field<Value>)
    ensures CostFields(a + [f]) == CostFields(a) + 2 * |f.key| + Cost(f.value) + 16
  {
    CostAppend(a, [f]);
    assert CostFields([f]) == 2 * |f.key| + Cost(f.value) + 16 + CostFields([f][1..]);
  }

  lemma CostGrows(fields: seq<Field<Value>>, p: Path, before: seq<Field<Value>>, mode: Mode)
    ensures CostFields(SeenFields(fields, p, before, mode)) >= CostFields(before)
  {
    SeenFieldsPrefix(fields, p, before, mode);
    var all := SeenFields(fields, p, before, mode);
    assert all == before + all[|before|..];
    CostAppend(before, all[|before|..]);
  }

  lemma {:induction false} NamesSnoc(fields: seq<Field<Value>>, f: Field<Value>)
    ensures Names(fields + [f]) == Names(fields) + [f.key]
  {
  }

  ghost predicate FieldsReads(fields: seq<Field<Value>>, html: bool, p: Path, depth: nat, retained: nat,
                              before: seq<Field<Value>>, rest: seq<byte>, mode: Mode)
    requires fields != []
  {
    var all := SeenFields(fields, p, before, mode);
    var s := JoinFields(WriteFields(fields), html) + [125] + rest;
    Outcome(ReadFields(s, p, depth, retained, before, mode), FitFields(fields, depth),
            Obj(all), rest, retained + CostFields(all) - CostFields(before))
  }

  lemma {:induction false} FieldsRead(fields: seq<Field<Value>>, html: bool, p: Path, depth: nat, retained: nat,
                                       before: seq<Field<Value>>, rest: seq<byte>, mode: Mode)
    requires fields != [] && (forall i :: 0 <= i < |fields| ==> Formed(fields[i].value) && Floats(fields[i].value, mode)) && Distinct(Names(fields))
    requires forall i :: 0 <= i < |fields| ==> fields[i].key !in Names(before)
    ensures FieldsReads(fields, html, p, depth, retained, before, rest, mode)
    decreases fields, 1
  {
    hide ReadValue; hide ReadItems; hide ReadFields; hide Seen; hide Cost; hide Fits; hide Write; hide ChildPath;
    var f := fields[0];
    var path := ChildPath(p, f.key, before, mode);
    var v := Seen(f.value, path, mode);
    var next := before + [Field(f.key, v)];
    var total := retained + 2 * |f.key| + Cost(v);
    var more := JoinFields(WriteFields(fields[1..]), html) + [125] + rest;
    var tail := if |fields| == 1 then [125] + rest else [44] + more;
    ValueReads(f.value, true, path, depth, retained + 2 * |f.key|, tail, mode);
    if |fields| > 1 {
      NewNames(fields, before, v);
      FieldsRead(fields[1..], html, p, depth, total + 16, next, rest, mode);
    }
    FieldsText(fields, html, rest);
    KeyStep(f, html, p, depth, retained, before, Write(f.value, true) + tail, mode);
    ValueStep(ReadValue(Write(f.value, true) + tail, path, depth, retained + 2 * |f.key|, mode), f.key, p, depth, before, v,
              Fits(f.value, depth), total, tail, mode);
    FieldsCombine(fields, html, p, depth, retained, before, rest, tail, mode);
  }

  lemma FieldsCombine(fields: seq<Field<Value>>, html: bool, p: Path, depth: nat, retained: nat, before: seq<Field<Value>>,
                      rest: seq<byte>, tail: seq<byte>, mode: Mode)
    requires fields != [] && tail == (if |fields| == 1 then [125] + rest else [44] + (JoinFields(WriteFields(fields[1..]), html) + [125] + rest))
    requires var f := fields[0]; var v := Seen(f.value, ChildPath(p, f.key, before, mode), mode);
      var next := before + [Field(f.key, v)];
      var all := ReadFields(JoinFields(WriteFields(fields), html) + [125] + rest, p, depth, retained, before, mode);
      var total := retained + 2 * |f.key| + Cost(v) + 16;
      && (if |f.key| <= MAX_KEY && Fits(f.value, depth) && total <= MAX_RETAINED
          then all == After(tail, p, depth, total, next, mode) else all.Stop?)
      && (|fields| > 1 ==> FieldsReads(fields[1..], html, p, depth, total, next, rest, mode))
    ensures FieldsReads(fields, html, p, depth, retained, before, rest, mode)
  {
    hide ReadValue; hide ReadItems; hide ReadFields; hide Write; hide Seen; hide Cost; hide Fits; hide ChildPath; hide JoinFields; hide CostFields; hide Skip;
    var f := fields[0];
    var v := Seen(f.value, ChildPath(p, f.key, before, mode), mode);
    var next := before + [Field(f.key, v)];
    assert SeenFields(fields, p, before, mode) == SeenFields(fields[1..], p, next, mode);
    CostSnoc(before, Field(f.key, v));
    CostGrows(fields[1..], p, next, mode);
    if |fields| == 1 {
      assert FitFields(fields, depth) == (|f.key| <= MAX_KEY && Fits(f.value, depth));
      assert fields[1..] == [];
      assert tail[1..] == rest;
    } else {
      FieldsStart(WriteFields(fields[1..]), html);
      SkipNothing(tail[1..]);
      assert tail[1..] == JoinFields(WriteFields(fields[1..]), html) + [125] + rest;
    }
  }

  lemma NewNames(fields: seq<Field<Value>>, before: seq<Field<Value>>, v: Value)
    requires fields != [] && Distinct(Names(fields)) && forall i :: 0 <= i < |fields| ==> fields[i].key !in Names(before)
    ensures var next := before + [Field(fields[0].key, v)];
      Distinct(Names(fields[1..])) && forall i :: 0 <= i < |fields[1..]| ==> fields[1..][i].key !in Names(next)
  {
    NamesSnoc(before, Field(fields[0].key, v));
    assert forall i :: 0 <= i < |fields| ==> Names(fields)[i] == fields[i].key;
    assert forall i :: 0 <= i < |fields[1..]| ==> fields[1..][i] == fields[i + 1];
  }
}
