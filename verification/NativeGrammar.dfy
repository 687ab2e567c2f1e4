/**
 JSON texts as section 2 to 8 of RFC 8259 spell them, without reference to any
 reader: a tree for every choice a writer has, the bytes of the tree and the
 value it denotes. One choice goes beyond the standard: a byte that begins no
 UTF-8 sequence stands for U+FFFD.
 */
module NativeGrammar {
  import opened Common
  import opened Utf8
  import opened NativeKeys
  import opened NativeValue

  const BLANKS: seq<byte> := [0x20, 0x09, 0x0A, 0x0D]

  predicate Blank(s: seq<byte>) { forall i :: 0 <= i < |s| ==> s[i] in BLANKS }

  // ----- strings -----

  type ShortRow = n: nat | n < 8

  /** The letter after the backslash and the unit it stands for. */
  const SHORT: seq<(byte, unit)> := [(34, 34), (92, 92), (47, 47), (98, 8), (102, 12), (110, 10), (114, 13), (116, 9)]

  type Nibble = n: nat | n < 16

  const LOWER: seq<byte> := [48, 49, 50, 51, 52, 53, 54, 55, 56, 57, 97, 98, 99, 100, 101, 102]
  const UPPER: seq<byte> := [48, 49, 50, 51, 52, 53, 54, 55, 56, 57, 65, 66, 67, 68, 69, 70]

  datatype Hex = Hex(value: Nibble, upper: bool)

  function HexByte(h: Hex): byte { if h.upper then UPPER[h.value] else LOWER[h.value] }

  datatype Char = Plain(point: point) | Short(row: ShortRow) | Unicode(a: Hex, b: Hex, c: Hex, d: Hex) | Stray(stray: byte)

  function CharText(c: Char): (text: seq<byte>)
    ensures text != []
  {
    match c
    case Plain(p) => Encode(p)
    case Short(row) => [92, SHORT[row].0]
    case Unicode(a, b, c, d) => [92, 117, HexByte(a), HexByte(b), HexByte(c), HexByte(d)]
    case Stray(b) => [b]
  }

  /** In front of this rest. */
  predicate CharOk(c: Char, rest: seq<byte>) {
    match c
    case Plain(p) => p >= 0x20 && p != 34 && p != 92 && !Surrogate(p)
    case Stray(b) => b >= 0x80 && !WellFormed([b] + rest)
    case _ => true
  }

  function CharUnits(c: Char): seq<unit> {
    match c
    case Plain(p) => UnitsOf(p)
    case Short(row) => [SHORT[row].1]
    case Unicode(a, b, c, d) => [((a.value * 16 + b.value) * 16 + c.value) * 16 + d.value]
    case Stray(_) => [0xFFFD]
  }

  /** The text of these characters, followed by `rest`. */
  function CharsOnto(chars: seq<Char>, rest: seq<byte>): seq<byte> {
    if chars == [] then rest else CharText(chars[0]) + CharsOnto(chars[1..], rest)
  }

  predicate CharsOk(chars: seq<Char>, rest: seq<byte>) {
    chars != [] ==> CharOk(chars[0], CharsOnto(chars[1..], rest)) && CharsOk(chars[1..], rest)
  }

  function UnitsOfChars(chars: seq<Char>): Text {
    if chars == [] then [] else CharUnits(chars[0]) + UnitsOfChars(chars[1..])
  }

  // ----- numbers -----

  type Decimal = n: nat | n < 10

  datatype Power = Power(upper: bool, sign: Option<bool>, digits: seq<Decimal>)

  /** An empty fraction is an absent one. */
  datatype Number = Number(minus: bool, whole: seq<Decimal>, fraction: seq<Decimal>, power: Option<Power>)

  predicate NumberOk(n: Number) {
    n.whole != [] && (|n.whole| > 1 ==> n.whole[0] != 0) && (n.power.Some? ==> n.power.value.digits != [])
  }

  function DigitsText(digits: seq<Decimal>): (r: seq<byte>)
    ensures |r| == |digits| && forall i :: 0 <= i < |r| ==> r[i] == 48 + (digits[i] as int)
  {
    seq(|digits|, i requires 0 <= i < |digits| => 48 + (digits[i] as int))
  }

  function PowerText(power: Option<Power>): seq<byte> {
    if power.None? then []
    else
      [if power.value.upper then 69 else 101] +
      (if power.value.sign.None? then [] else if power.value.sign.value then [45] else [43]) + DigitsText(power.value.digits)
  }

  function FractionText(fraction: seq<Decimal>): seq<byte> { if fraction == [] then [] else [46] + DigitsText(fraction) }

  function NumberText(n: Number): seq<byte> {
    (if n.minus then [45] else []) + (DigitsText(n.whole) + (FractionText(n.fraction) + PowerText(n.power)))
  }

  // ----- values -----

  datatype Json =
    | JNull
    | JBool(b: bool)
    | JNumber(number: Number)
    | JString(chars: seq<Char>)
    | JArray(blank: seq<byte>, items: seq<Item>)
    | JObject(blank: seq<byte>, members: seq<Member>)

  datatype Item = Item(before: seq<byte>, value: Json, after: seq<byte>)

  datatype Member = Member(before: seq<byte>, key: seq<Char>, colon: seq<byte>, gap: seq<byte>, value: Json, after: seq<byte>)

  /** The text of a value, followed by `rest`. */
  function JsonOnto(j: Json, rest: seq<byte>): seq<byte>
    decreases j, 0
  {
    match j
    case JNull => [110, 117, 108, 108] + rest
    case JBool(b) => (if b then [116, 114, 117, 101] else [102, 97, 108, 115, 101]) + rest
    case JNumber(n) => NumberText(n) + rest
    case JString(chars) => [34] + CharsOnto(chars, [34] + rest)
    case JArray(blank, items) => [91] + (blank + ItemsOnto(items, [93] + rest))
    case JObject(blank, members) => [123] + (blank + MembersOnto(members, [125] + rest))
  }

  function ItemsOnto(items: seq<Item>, rest: seq<byte>): seq<byte>
    decreases items, 1
  {
    if items == [] then rest
    else items[0].before + JsonOnto(items[0].value, items[0].after + (if |items| == 1 then rest else [44] + ItemsOnto(items[1..], rest)))
  }

  function MembersOnto(members: seq<Member>, rest: seq<byte>): seq<byte>
    decreases members, 1
  {
    if members == [] then rest else members[0].before + MemberOnto(members, rest)
  }

  /** From the quote of the first key on. */
  function MemberOnto(members: seq<Member>, rest: seq<byte>): (s: seq<byte>)
    requires members != []
    ensures s != [] && s[0] == 34
    decreases members, 0
  {
    var m := members[0];
    [34] + CharsOnto(m.key, [34] + (m.colon + ([58] + (m.gap + ValueOnto(members, rest)))))
  }

  /** From the first value on. */
  function ValueOnto(members: seq<Member>, rest: seq<byte>): seq<byte>
    requires members != []
    decreases members, 0, 0
  {
    JsonOnto(members[0].value, members[0].after + MoreOnto(members, rest))
  }

  function MoreOnto(members: seq<Member>, rest: seq<byte>): seq<byte>
    requires members != []
    decreases members, 0, 0, 0
  {
    if |members| == 1 then rest else [44] + MembersOnto(members[1..], rest)
  }

  /** The tree is one the grammar allows, in front of this rest. */
  predicate JsonOk(j: Json, rest: seq<byte>)
    decreases j, 0
  {
    match j
    case JNumber(n) => NumberOk(n)
    case JString(chars) => CharsOk(chars, [34] + rest)
    case JArray(blank, items) => Blank(blank) && ItemsOk(items, [93] + rest)
    case JObject(blank, members) => Blank(blank) && MembersOk(members, [125] + rest)
    case _ => true
  }

  predicate ItemsOk(items: seq<Item>, rest: seq<byte>)
    decreases items, 1
  {
    items != [] ==>
      && Blank(items[0].before) && Blank(items[0].after)
      && JsonOk(items[0].value, items[0].after + (if |items| == 1 then rest else [44] + ItemsOnto(items[1..], rest)))
      && ItemsOk(items[1..], rest)
  }

  predicate MembersOk(members: seq<Member>, rest: seq<byte>)
    decreases members, 1
  {
    members != [] ==>
      var m := members[0];
      && Blank(m.before) && Blank(m.colon) && Blank(m.gap) && Blank(m.after)
      && CharsOk(m.key, [34] + (m.colon + ([58] + (m.gap + ValueOnto(members, rest)))))
      && JsonOk(m.value, m.after + MoreOnto(members, rest))
      && MembersOk(members[1..], rest)
  }

  // ----- what it denotes -----

  /** The value at this path: strings at dropped paths are empty, and a repeated key keeps its place with the last value. */
  function Meaning(j: Json, p: Path, mode: Mode): Value
    decreases j, 0
  {
    match j
    case JNull => Null
    case JBool(b) => Bool(b)
    case JNumber(n) => Num(if mode.float(NumberText(n)).Some? then mode.float(NumberText(n)).value else [])
    case JString(chars) => Str(if Limit(p) == 0 then [] else UnitsOfChars(chars))
    case JArray(_, items) => Arr(MeaningItems(items, p, 0, mode))
    case JObject(_, members) => Obj(MeaningMembers(members, p, [], mode))
  }

  function MeaningItems(items: seq<Item>, p: Path, n: nat, mode: Mode): seq<Value>
    decreases items, 1
  {
    if items == [] then [] else [Meaning(items[0].value, p + [At(n)], mode)] + MeaningItems(items[1..], p, n + 1, mode)
  }

  function MeaningMembers(members: seq<Member>, p: Path, before: seq<Field<Value>>, mode: Mode): seq<Field<Value>>
    decreases members, 1
  {
    if members == [] then before
    else
      var key := UnitsOfChars(members[0].key);
      MeaningMembers(members[1..], p, Put(before, key, Meaning(members[0].value, ChildPath(p, key, before, mode), mode)), mode)
  }

  /** Within the bounds on depth, keys and numbers, and no number out of range. */
  predicate Bounded(j: Json, depth: nat, mode: Mode)
    decreases j, 0
  {
    match j
    case JNumber(n) => |NumberText(n)| <= MAX_NUMBER && mode.float(NumberText(n)).Some?
    case JArray(_, items) => depth < MAX_DEPTH && forall i :: 0 <= i < |items| ==> Bounded(items[i].value, depth + 1, mode)
    case JObject(_, members) =>
      depth < MAX_DEPTH && forall i :: 0 <= i < |members| ==>
        |UnitsOfChars(members[i].key)| <= MAX_KEY && Bounded(members[i].value, depth + 1, mode)
    case _ => true
  }

  /** The memory charged: 32 for a value, 16 for a new key, two bytes a unit or digit. */
  function Charge(j: Json, p: Path, mode: Mode): (n: nat)
    ensures n >= 32
    decreases j, 0
  {
    match j
    case JNumber(n) => 32 + 2 * |NumberText(n)|
    case JString(chars) => 32 + if Limit(p) == 0 then 0 else 2 * |UnitsOfChars(chars)|
    case JArray(_, items) => 32 + ChargeItems(items, p, 0, mode)
    case JObject(_, members) => 32 + ChargeMembers(members, p, [], mode)
    case _ => 32
  }

  function ChargeItems(items: seq<Item>, p: Path, n: nat, mode: Mode): nat
    decreases items, 1
  {
    if items == [] then 0 else Charge(items[0].value, p + [At(n)], mode) + ChargeItems(items[1..], p, n + 1, mode)
  }

  function ChargeMembers(members: seq<Member>, p: Path, before: seq<Field<Value>>, mode: Mode): nat
    decreases members, 1
  {
    if members == [] then 0
    else
      var key := UnitsOfChars(members[0].key);
      var path := ChildPath(p, key, before, mode);
      2 * |key| + Charge(members[0].value, path, mode) + (if Find(before, key).None? then 16 else 0)
      + ChargeMembers(members[1..], p, Put(before, key, Meaning(members[0].value, path, mode)), mode)
  }

  /** s spells the document j: the value between blanks. */
  ghost predicate Spells(s: seq<byte>, j: Json) {
    exists before, after :: Blank(before) && Blank(after) && JsonOk(j, after) && s == before + JsonOnto(j, after)
  }
}

/** The decoder reads every spelled text as the value it denotes. */
module NativeAccepts {
  import opened Common
  import opened Concatenation
  import opened Utf8
  import opened NativeText
  import opened NativeKeys
  import opened NativeValue
  import opened NativeGrammar
  import NativeRoundTrip

  // ----- blanks -----

  lemma {:induction false} SkipOver(b: seq<byte>, s: seq<byte>)
    requires Blank(b)
    ensures Skip(b + s) == Skip(s)
  {
    if b == [] {
      assert b + s == s;
    } else {
      assert b[0] in BLANKS && (b + s)[1..] == b[1..] + s;
      SkipOver(b[1..], s);
    }
  }

  lemma SkipNone(s: seq<byte>)
    requires s == [] || s[0] !in BLANKS
    ensures Skip(s) == s
  {
    assert BLANKS[0] == 0x20 && BLANKS[1] == 0x09 && BLANKS[2] == 0x0A && BLANKS[3] == 0x0D;
  }

  lemma {:induction false} SkipTwice(s: seq<byte>)
    ensures Skip(Skip(s)) == Skip(s)
  {
    if s != [] && Space(s[0]) { SkipTwice(s[1..]); }
  }

  lemma ReadSkipped(s: seq<byte>, t: seq<byte>, p: Path, depth: nat, retained: nat, mode: Mode)
    requires Skip(s) == Skip(t)
    ensures ReadValue(s, p, depth, retained, mode) == ReadValue(t, p, depth, retained, mode)
  {
    hide ReadItems; hide ReadFields; hide ReadText; hide ReadNumber; hide ReadLiteral; hide Skip;
  }

  lemma ReadItemsSkipped(s: seq<byte>, t: seq<byte>, p: Path, depth: nat, retained: nat, before: seq<Value>, mode: Mode)
    requires Skip(s) == Skip(t)
    ensures ReadItems(s, p, depth, retained, before, mode) == ReadItems(t, p, depth, retained, before, mode)
  {
    hide ReadValue; hide Skip;
    ReadSkipped(s, t, p + [At(|before|)], depth, retained, mode);
  }

  /** Nothing a number could swallow. */
  predicate Stops(rest: seq<byte>) { rest == [] || !NumberByte(rest[0]) }

  lemma BlankStops(b: seq<byte>, rest: seq<byte>)
    requires Blank(b) && Stops(rest)
    ensures Stops(b + rest)
  {
    if b != [] { assert b[0] in BLANKS; } else { assert b + rest == rest; }
  }

  // ----- strings -----

  lemma HexReads(h: Hex)
    ensures HexValue(HexByte(h)) == Some(h.value)
  {
    if h.upper {
      assert UPPER[h.value] == if h.value < 10 then 48 + h.value else 55 + h.value;
    } else {
      assert LOWER[h.value] == if h.value < 10 then 48 + h.value else 87 + h.value;
    }
  }

  lemma HexStep(s: seq<byte>, digits: nat, unit: int, h: Hex)
    requires 1 <= digits <= 4 && 0 <= unit && (digits == 4 ==> unit == 0) && (digits == 3 ==> unit < 16)
    requires (digits == 2 ==> unit < 16 * 16) && (digits == 1 ==> unit < 16 * 16 * 16)
    requires s != [] && s[0] == HexByte(h)
    ensures ReadHex(s, digits, unit) == ReadHex(s[1..], digits - 1, unit * 16 + h.value)
  {
    HexReads(h);
  }

  lemma HexDone(rest: seq<byte>, u: unit)
    ensures ReadHex(rest, 0, u) == Ok(u)
  {
  }

  lemma UnicodeReads(a: Hex, b: Hex, c: Hex, d: Hex, rest: seq<byte>)
    ensures ReadChar(CharText(Unicode(a, b, c, d)) + rest) == Ok(Piece(CharUnits(Unicode(a, b, c, d)), 6))
  {
    hide HexByte; hide ReadHex;
    HexDone(rest, ((a.value * 16 + b.value) * 16 + c.value) * 16 + d.value);
    var s := CharText(Unicode(a, b, c, d)) + rest;
    assert s[0] == 92 && s[1] == 117 && s[2..] == [HexByte(a)] + ([HexByte(b)] + ([HexByte(c)] + ([HexByte(d)] + rest)));
    HexStep(s[2..], 4, 0, a);
    HexStep([HexByte(b)] + ([HexByte(c)] + ([HexByte(d)] + rest)), 3, a.value, b);
    HexStep([HexByte(c)] + ([HexByte(d)] + rest), 2, a.value * 16 + b.value, c);
    HexStep([HexByte(d)] + rest, 1, (a.value * 16 + b.value) * 16 + c.value, d);
  }

  /** One character of a string, whatever follows it. */
  lemma CharReads(c: Char, rest: seq<byte>)
    requires CharOk(c, rest)
    ensures CharText(c)[0] != QUOTE && ReadChar(CharText(c) + rest) == Ok(Piece(CharUnits(c), |CharText(c)|))
  {
    var s := CharText(c) + rest;
    assert s[0] == CharText(c)[0];
    match c
    case Plain(p) => DecodeEncode(p, rest);
    case Short(row) =>
      assert s[1] == SHORT[row].0;
      assert Unescaped(SHORT[row].0) == Some(SHORT[row].1);
    case Unicode(a, b, c, d) => UnicodeReads(a, b, c, d, rest);
    case Stray(b) =>
  }

  lemma {:induction false} CharsRead(chars: seq<Char>, rest: seq<byte>, limit: int, key: bool, kept: Kept)
    requires CharsOk(chars, [34] + rest)
    ensures ReadText(CharsOnto(chars, [34] + rest), limit, key, kept) ==
            var all := EmitAll(kept, UnitsOfChars(chars), limit, key);
            if all.Err? then Stop(all.error) else Got(all.value.units, rest, all.value.retained)
    decreases |chars|
  {
    if chars == [] {
      assert ([34] + rest)[1..] == rest;
    } else {
      hide CharOk; hide CharText; hide CharUnits;
      var tail := CharsOnto(chars[1..], [34] + rest);
      CharReads(chars[0], tail);
      EmitAllSplit(kept, CharUnits(chars[0]), UnitsOfChars(chars[1..]), limit, key);
      StepReads(CharText(chars[0]), tail, CharUnits(chars[0]), limit, key, kept);
      var next := EmitAll(kept, CharUnits(chars[0]), limit, key);
      if next.Ok? { CharsRead(chars[1..], rest, limit, key, next.value); }
    }
  }

  /** A key: refused over the limit or the memory bound, else read whole. */
  lemma KeyReads(chars: seq<Char>, rest: seq<byte>, retained: nat)
    requires CharsOk(chars, [34] + rest)
    ensures var r, units := ReadText(CharsOnto(chars, [34] + rest), MAX_KEY, true, Kept([], retained)), UnitsOfChars(chars);
      if |units| <= MAX_KEY && (units == [] || retained + 2 * |units| <= MAX_RETAINED)
      then r == Got(units, rest, retained + 2 * |units|) else r.Stop?
  {
    hide ReadText; hide CharsOnto; hide EmitAll;
    var units := UnitsOfChars(chars);
    CharsRead(chars, rest, MAX_KEY, true, Kept([], retained));
    if |units| <= MAX_KEY {
      EmitWithin(Kept([], retained), units, MAX_KEY, true);
      assert [] + units == units;
    } else {
      KeyTooLong(Kept([], retained), units, MAX_KEY);
    }
  }

  lemma TextReads(chars: seq<Char>, p: Path, depth: nat, retained: nat, rest: seq<byte>, mode: Mode)
    requires CharsOk(chars, [34] + rest)
    ensures JsonReads(JString(chars), p, depth, retained, rest, mode)
  {
    hide ReadItems; hide ReadFields; hide ReadText; hide ReadNumber; hide ReadLiteral; hide EmitAll; hide CharsOnto;
    var s, units := JsonOnto(JString(chars), rest), UnitsOfChars(chars);
    assert s[0] == 34 && s[1..] == CharsOnto(chars, [34] + rest);
    SkipNone(s);
    NativeRoundTrip.LimitValues(p);
    if retained + 32 <= MAX_RETAINED {
      var kept := Kept([], retained + 32);
      CharsRead(chars, rest, Limit(p), false, kept);
      if Limit(p) == 0 { EmitNothing(kept, units); } else { EmitWithin(kept, units, Limit(p), false); }
      assert [] + units == units;
    }
  }

  // ----- numbers -----

  lemma {:induction false} DigitsRun(digits: seq<Decimal>, rest: seq<byte>)
    requires rest == [] || !Digit(rest[0])
    ensures Digits(DigitsText(digits) + rest) == |digits|
  {
    if digits == [] {
      assert DigitsText(digits) + rest == rest;
    } else {
      assert (DigitsText(digits) + rest)[1..] == DigitsText(digits[1..]) + rest;
      DigitsRun(digits[1..], rest);
    }
  }

  lemma PowerOk(power: Option<Power>)
    requires power.Some? ==> power.value.digits != []
    ensures Exponent(PowerText(power)) && (PowerText(power) == [] || (!Digit(PowerText(power)[0]) && PowerText(power)[0] != 46))
  {
    if power.Some? {
      var s, d := PowerText(power), DigitsText(power.value.digits);
      assert d + [] == d;
      DigitsRun(power.value.digits, []);
      if power.value.sign.Some? { assert s[2..] == d; } else { assert s[1..] == d && s[1] == d[0]; }
    }
  }

  lemma FractionOk(fraction: seq<Decimal>, power: Option<Power>)
    requires power.Some? ==> power.value.digits != []
    ensures Fraction(FractionText(fraction) + PowerText(power))
    ensures var s := FractionText(fraction) + PowerText(power); s == [] || !Digit(s[0])
  {
    hide PowerText; hide Exponent; hide DigitsText; hide Digits;
    PowerOk(power);
    var d, t := DigitsText(fraction), PowerText(power);
    var s := FractionText(fraction) + t;
    if fraction == [] {
      assert s == t;
    } else {
      assert s == [46] + d + t && s[1..] == d + t;
      DigitsRun(fraction, t);
      DropPrefix([46] + d, t);
    }
  }

  lemma NumberIsNumeric(n: Number)
    requires NumberOk(n)
    ensures Numeric(NumberText(n)) && (NumberText(n)[0] == 45 || Digit(NumberText(n)[0]))
  {
    FractionOk(n.fraction, n.power);
    var tail := FractionText(n.fraction) + PowerText(n.power);
    var whole := DigitsText(n.whole) + tail;
    DigitsRun(n.whole, tail);
    assert whole[0] == 48 + (n.whole[0] as int);
    assert whole[|n.whole|..] == tail;
    assert n.whole[0] == 0 ==> whole[1..] == tail;
    assert Integer(whole);
    var s := NumberText(n);
    assert (if n.minus then s[1..] else s) == whole;
    NumberBytes(n);
  }

  lemma NumberBytes(n: Number)
    ensures forall i :: 0 <= i < |NumberText(n)| ==> NumberByte(NumberText(n)[i])
  {
    hide DigitsText;
    assert forall d, i :: 0 <= i < |DigitsText(d)| ==> NumberByte(DigitsText(d)[i]);
  }

  lemma NotEmpty(text: seq<byte>)
    requires Numeric(text)
    ensures text != []
  {
  }

  lemma NumberReads(n: Number, p: Path, depth: nat, retained: nat, rest: seq<byte>, mode: Mode)
    requires NumberOk(n) && Stops(rest)
    ensures JsonReads(JNumber(n), p, depth, retained, rest, mode)
  {
    hide ReadItems; hide ReadFields; hide ReadText; hide ReadLiteral; hide NumberText; hide Numeric;
    var text := NumberText(n);
    var s := text + rest;
    NumberIsNumeric(n);
    NumberBytes(n);
    NotEmpty(text);
    assert s[0] == text[0];
    SkipNone(s);
    NativeRoundTrip.NumberRuns(text, rest);
    DropPrefix(text, rest);
  }

  // ----- values -----

  /** The reader's result on the text of j followed by `rest`: its meaning at its exact charge, or a refusal if a
      bound is passed. */
  ghost predicate JsonReads(j: Json, p: Path, depth: nat, retained: nat, rest: seq<byte>, mode: Mode) {
    NativeRoundTrip.Outcome(ReadValue(JsonOnto(j, rest), p, depth, retained, mode), Bounded(j, depth, mode),
                            Meaning(j, p, mode), rest, retained + Charge(j, p, mode))
  }

  lemma LiteralReads(j: Json, p: Path, depth: nat, retained: nat, rest: seq<byte>, mode: Mode)
    requires j.JNull? || j.JBool?
    ensures JsonReads(j, p, depth, retained, rest, mode)
  {
    hide ReadItems; hide ReadFields; hide ReadText; hide ReadNumber;
    var word := if j.JNull? then NULL else if j.b then TRUE else FALSE;
    var s := JsonOnto(j, rest);
    assert s == word + rest && s[0] == word[0];
    SkipNone(s);
    DropPrefix(word, rest);
  }

  // ----- arrays -----

  /** What follows an element. */
  function MoreItems(items: seq<Item>, rest: seq<byte>): seq<byte>
    requires items != []
  {
    if |items| == 1 then rest else [44] + ItemsOnto(items[1..], rest)
  }

  ghost predicate ItemsReads(items: seq<Item>, p: Path, depth: nat, retained: nat, before: seq<Value>, rest: seq<byte>, mode: Mode) {
    NativeRoundTrip.Outcome(ReadItems(ItemsOnto(items, [93] + rest), p, depth, retained, before, mode),
                            forall i :: 0 <= i < |items| ==> Bounded(items[i].value, depth, mode),
                            Arr(before + MeaningItems(items, p, |before|, mode)), rest,
                            retained + ChargeItems(items, p, |before|, mode))
  }

  /** The array loop on one element. */
  lemma ItemStep(item: Item, more: seq<byte>, p: Path, depth: nat, retained: nat, before: seq<Value>, mode: Mode)
    requires Blank(item.before) && Blank(item.after) && more != [] && (more[0] == 93 || more[0] == 44)
    requires JsonReads(item.value, p + [At(|before|)], depth, retained, item.after + more, mode)
    ensures var all := ReadItems(item.before + JsonOnto(item.value, item.after + more), p, depth, retained, before, mode);
      var path, v := p + [At(|before|)], Meaning(item.value, p + [At(|before|)], mode);
      var now := retained + Charge(item.value, path, mode);
      if Bounded(item.value, depth, mode) && now <= MAX_RETAINED
      then all == if more[0] == 93 then Got(Arr(before + [v]), more[1..], now) else ReadItems(more[1..], p, depth, now, before + [v], mode)
      else all.Stop?
  {
    hide ReadValue; hide Meaning; hide Charge; hide Bounded; hide JsonOnto; hide Skip;
    var text := JsonOnto(item.value, item.after + more);
    SkipOver(item.before, text);
    ReadSkipped(item.before + text, text, p + [At(|before|)], depth, retained, mode);
    SkipOver(item.after, more);
    NotBlank(more);
  }

  lemma NotBlank(s: seq<byte>)
    requires s != [] && (s[0] == 93 || s[0] == 44 || s[0] == 125 || s[0] == 58 || s[0] == 34 || s[0] == 91 || s[0] == 123)
    ensures Skip(s) == s
  {
  }

  lemma {:induction false} ItemsRead(items: seq<Item>, p: Path, depth: nat, retained: nat, before: seq<Value>, rest: seq<byte>, mode: Mode)
    requires items != [] && ItemsOk(items, [93] + rest)
    ensures ItemsReads(items, p, depth, retained, before, rest, mode)
    decreases items, 1
  {
    hide ReadValue; hide ReadItems; hide Meaning; hide Charge; hide Bounded; hide JsonOnto; hide JsonReads; hide JsonOk; hide ItemsOnto;
    var item, more, path := items[0], MoreItems(items, [93] + rest), p + [At(|before|)];
    var v, now := Meaning(item.value, path, mode), retained + Charge(item.value, path, mode);
    BlankStops(item.after, more);
    JsonIsRead(item.value, path, depth, retained, item.after + more, mode);
    ItemStep(item, more, p, depth, retained, before, mode);
    if |items| > 1 { ItemsRead(items[1..], p, depth, now, before + [v], rest, mode); }
    ItemsCombine(items, p, depth, retained, before, rest, mode);
  }

  lemma ItemsCombine(items: seq<Item>, p: Path, depth: nat, retained: nat, before: seq<Value>, rest: seq<byte>, mode: Mode)
    requires items != []
    requires var item, more := items[0], MoreItems(items, [93] + rest);
      var all := ReadItems(item.before + JsonOnto(item.value, item.after + more), p, depth, retained, before, mode);
      var path, v := p + [At(|before|)], Meaning(item.value, p + [At(|before|)], mode);
      var now := retained + Charge(item.value, path, mode);
      && (if Bounded(item.value, depth, mode) && now <= MAX_RETAINED
          then all == if more[0] == 93 then Got(Arr(before + [v]), more[1..], now) else ReadItems(more[1..], p, depth, now, before + [v], mode)
          else all.Stop?)
      && (|items| > 1 ==> ItemsReads(items[1..], p, depth, now, before + [v], rest, mode))
    ensures ItemsReads(items, p, depth, retained, before, rest, mode)
  {
    hide ReadItems; hide Meaning; hide Charge; hide Bounded; hide JsonOnto;
    var more, v := MoreItems(items, [93] + rest), Meaning(items[0].value, p + [At(|before|)], mode);
    var others := MeaningItems(items[1..], p, |before| + 1, mode);
    assert MeaningItems(items, p, |before|, mode) == [v] + others;
    Assoc(before, [v], others);
    assert (forall i :: 0 <= i < |items| ==> Bounded(items[i].value, depth, mode))
      <==> Bounded(items[0].value, depth, mode) && forall i :: 0 <= i < |items[1..]| ==> Bounded(items[1..][i].value, depth, mode) by {
      assert forall i :: 1 <= i < |items| ==> items[i] == items[1..][i - 1];
    }
    assert ChargeItems(items, p, |before|, mode) == Charge(items[0].value, p + [At(|before|)], mode) + ChargeItems(items[1..], p, |before| + 1, mode);
    if |items| == 1 {
      assert more == [93] + rest && more[1..] == rest;
      assert items[1..] == [] && others == [] && [v] + others == [v] && ChargeItems(items[1..], p, |before| + 1, mode) == 0;
    } else {
      assert more[0] == 44 && more[1..] == ItemsOnto(items[1..], [93] + rest);
    }
  }

  /** What the reader does after an opening bracket. */
  lemma Opens(s: seq<byte>, p: Path, depth: nat, retained: nat, mode: Mode)
    requires s != [] && (s[0] == 91 || s[0] == 123) && Skip(s[1..]) != []
    ensures var r, inside := ReadValue(s, p, depth, retained, mode), Skip(s[1..]);
      if retained + 32 > MAX_RETAINED || depth >= MAX_DEPTH then r.Stop?
      else if s[0] == 91 then r == if inside[0] == 93 then Got(Arr([]), inside[1..], retained + 32) else ReadItems(inside, p, depth + 1, retained + 32, [], mode)
      else r == if inside[0] == 125 then Got(Obj([]), inside[1..], retained + 32) else ReadFields(inside, p, depth + 1, retained + 32, [], mode)
  {
    hide ReadItems; hide ReadFields; hide ReadText; hide ReadNumber; hide ReadLiteral;
    NotBlank(s);
  }

  /** The first byte of a value is neither a blank nor a closing bracket. */
  lemma FirstByte(j: Json, rest: seq<byte>)
    requires JsonOk(j, rest)
    ensures var s := JsonOnto(j, rest); s != [] && !Space(s[0]) && s[0] != 93 && s[0] != 125
  {
    hide ItemsOnto; hide MembersOnto; hide CharsOnto; hide NumberText;
    if j.JNumber? {
      NumberIsNumeric(j.number);
      NotEmpty(NumberText(j.number));
    }
  }

  /** The first element without the blanks in front of it. */
  lemma ItemsStart(items: seq<Item>, rest: seq<byte>)
    requires items != [] && ItemsOk(items, rest)
    ensures var inside := Skip(ItemsOnto(items, rest)); inside != [] && inside[0] != 93
  {
    hide JsonOk; hide JsonOnto; hide Skip;
    var first := JsonOnto(items[0].value, items[0].after + MoreItems(items, rest));
    FirstByte(items[0].value, items[0].after + MoreItems(items, rest));
    SkipOver(items[0].before, first);
    SkipNone(first);
  }

  lemma NoneListed(p: Path, rest: seq<byte>, mode: Mode)
    ensures ItemsOnto([], rest) == rest && MeaningItems([], p, 0, mode) == [] && ChargeItems([], p, 0, mode) == 0
  {
  }

  lemma ArrayReads(j: Json, p: Path, depth: nat, retained: nat, rest: seq<byte>, mode: Mode)
    requires j.JArray? && JsonOk(j, rest)
    requires j.items != [] ==> ItemsReads(j.items, p, depth + 1, retained + 32, [], rest, mode)
    ensures JsonReads(j, p, depth, retained, rest, mode)
  {
    hide ReadItems; hide ReadValue; hide Skip; hide MeaningItems; hide ChargeItems; hide ItemsOk; hide ItemsOnto;
    var s, inner := JsonOnto(j, rest), ItemsOnto(j.items, [93] + rest);
    assert s[0] == 91 && s[1..] == j.blank + inner;
    SkipOver(j.blank, inner);
    if j.items == [] {
      NoneListed(p, [93] + rest, mode);
      assert inner == [93] + rest && MeaningItems([], p, 0, mode) == [] && ChargeItems([], p, 0, mode) == 0;
      NotBlank(inner);
      assert inner[1..] == rest;
      Opens(s, p, depth, retained, mode);
    } else {
      ItemsStart(j.items, [93] + rest);
      Opens(s, p, depth, retained, mode);
      SkipTwice(inner);
      ReadItemsSkipped(Skip(inner), inner, p, depth + 1, retained + 32, [], mode);
      assert [] + MeaningItems(j.items, p, 0, mode) == MeaningItems(j.items, p, 0, mode);
    }
  }

  // ----- objects -----

  ghost predicate MembersReads(members: seq<Member>, p: Path, depth: nat, retained: nat, before: seq<Field<Value>>, rest: seq<byte>, mode: Mode)
    requires members != []
  {
    NativeRoundTrip.Outcome(ReadFields(MemberOnto(members, [125] + rest), p, depth, retained, before, mode),
                            forall i :: 0 <= i < |members| ==> |UnitsOfChars(members[i].key)| <= MAX_KEY && Bounded(members[i].value, depth, mode),
                            Obj(MeaningMembers(members, p, before, mode)), rest,
                            retained + ChargeMembers(members, p, before, mode))
  }

  /** What the object loop does with a member's value. */
  ghost function AfterValue(r: Read<Value>, key: Text, p: Path, depth: nat, before: seq<Field<Value>>, mode: Mode): Read<Value> {
    match r
    case Stop(e) => Stop(e)
    case Got(v, after, now) =>
      var all := if Find(before, key).None? then now + 16 else now;
      var t := Skip(after);
      if Find(before, key).None? && all > MAX_RETAINED then Stop(RETAINED_LIMIT)
      else if t == [] then Stop("EOF")
      else if t[0] == 125 then Got(Obj(Put(before, key, v)), t[1..], all)
      else if t[0] != 44 then Stop("invalid desktop JSON object delimiter")
      else
        var k := Skip(t[1..]);
        if k == [] then Stop("EOF") else ReadFields(k, p, depth, all, Put(before, key, v), mode)
  }

  lemma FieldUnfolds(s: seq<byte>, p: Path, depth: nat, retained: nat, before: seq<Field<Value>>, mode: Mode, key: Text, colon: seq<byte>, value: seq<byte>, charged: nat)
    requires s != [] && s[0] == QUOTE && Skip(colon) == [58] + value
    requires ReadText(s[1..], MAX_KEY, true, Kept([], retained)) == Got(key, colon, charged)
    ensures ReadFields(s, p, depth, retained, before, mode)
            == AfterValue(ReadValue(value, ChildPath(p, key, before, mode), depth, charged, mode), key, p, depth, before, mode)
  {
    hide ReadText; hide ReadValue; hide Put; hide ChildPath; hide Names; hide Skip; hide Find; hide Space;
    assert ([58] + value)[1..] == value && ([58] + value)[0] == 58;
  }

  lemma FieldRefused(s: seq<byte>, p: Path, depth: nat, retained: nat, before: seq<Field<Value>>, mode: Mode)
    requires s != [] && s[0] == QUOTE && ReadText(s[1..], MAX_KEY, true, Kept([], retained)).Stop?
    ensures ReadFields(s, p, depth, retained, before, mode).Stop?
  {
    hide ReadText; hide ReadValue; hide Skip;
  }

  /** The object loop up to the value. */
  lemma KeyStep(chars: seq<Char>, colon: seq<byte>, gap: seq<byte>, value: seq<byte>, p: Path, depth: nat, retained: nat,
                before: seq<Field<Value>>, mode: Mode)
    requires Blank(colon) && Blank(gap) && CharsOk(chars, [34] + (colon + ([58] + (gap + value))))
    ensures var s, key := [34] + CharsOnto(chars, [34] + (colon + ([58] + (gap + value)))), UnitsOfChars(chars);
      var all := ReadFields(s, p, depth, retained, before, mode);
      if |key| <= MAX_KEY && (key == [] || retained + 2 * |key| <= MAX_RETAINED)
      then all == AfterValue(ReadValue(value, ChildPath(p, key, before, mode), depth, retained + 2 * |key|, mode), key, p, depth, before, mode)
      else all.Stop?
  {
    hide ReadValue; hide ReadText; hide ReadFields; hide ChildPath; hide AfterValue; hide Skip; hide CharsOnto; hide CharsOk; hide UnitsOfChars; hide Blank;
    var tail, key := colon + ([58] + (gap + value)), UnitsOfChars(chars);
    var s := [34] + CharsOnto(chars, [34] + tail);
    assert s[0] == 34 && s[1..] == CharsOnto(chars, [34] + tail);
    KeyReads(chars, tail, retained);
    if |key| <= MAX_KEY && (key == [] || retained + 2 * |key| <= MAX_RETAINED) {
      SkipOver(colon, [58] + (gap + value));
      NotBlank([58] + (gap + value));
      FieldUnfolds(s, p, depth, retained, before, mode, key, tail, gap + value, retained + 2 * |key|);
      SkipOver(gap, value);
      ReadSkipped(gap + value, value, ChildPath(p, key, before, mode), depth, retained + 2 * |key|, mode);
    } else {
      FieldRefused(s, p, depth, retained, before, mode);
    }
  }

  /** The object loop from a member's value on. */
  lemma ValueStep(r: Read<Value>, key: Text, p: Path, depth: nat, before: seq<Field<Value>>, v: Value, fits: bool, total: nat,
                  after: seq<byte>, more: seq<byte>, mode: Mode)
    requires Blank(after) && more != [] && (more[0] == 125 || more[0] == 44) && (more[0] == 44 ==> Skip(more[1..]) != [])
    requires NativeRoundTrip.Outcome(r, fits, v, after + more, total)
    ensures var now := total + if Find(before, key).None? then 16 else 0;
      var all := AfterValue(r, key, p, depth, before, mode);
      if fits && now <= MAX_RETAINED
      then all == if more[0] == 125 then Got(Obj(Put(before, key, v)), more[1..], now)
                  else ReadFields(Skip(more[1..]), p, depth, now, Put(before, key, v), mode)
      else all.Stop?
  {
    hide ReadValue; hide ReadFields; hide Put; hide Skip; hide Find;
    SkipOver(after, more);
    NotBlank(more);
  }

  lemma {:induction false} MembersRead(members: seq<Member>, p: Path, depth: nat, retained: nat, before: seq<Field<Value>>, rest: seq<byte>, mode: Mode)
    requires members != [] && MembersOk(members, [125] + rest)
    ensures MembersReads(members, p, depth, retained, before, rest, mode)
    decreases members, 1
  {
    hide ReadValue; hide ReadFields; hide Meaning; hide Charge; hide Bounded; hide JsonOnto; hide JsonReads; hide JsonOk; hide MemberOnto;
    hide ChildPath; hide Find; hide Put; hide CharsOk; hide CharsOnto; hide UnitsOfChars; hide AfterValue; hide Skip;
    var m, more := members[0], MoreOnto(members, [125] + rest);
    var key := UnitsOfChars(m.key);
    var path := ChildPath(p, key, before, mode);
    var v := Meaning(m.value, path, mode);
    var total := retained + 2 * |key| + Charge(m.value, path, mode);
    var now := total + if Find(before, key).None? then 16 else 0;
    BlankStops(m.after, more);
    JsonIsRead(m.value, path, depth, retained + 2 * |key|, m.after + more, mode);
    KeyStep(m.key, m.colon, m.gap, ValueOnto(members, [125] + rest), p, depth, retained, before, mode);
    MemberText(members, [125] + rest);
    if |members| > 1 {
      MembersRead(members[1..], p, depth, now, Put(before, key, v), rest, mode);
      assert members[1..][0] == members[1] && Blank(members[1..][0].before);
      MoreStarts(members, rest);
    } else {
      assert more == [125] + rest;
    }
    var r := ReadValue(ValueOnto(members, [125] + rest), path, depth, retained + 2 * |key|, mode);
    ReadAsOutcome(m.value, path, depth, retained + 2 * |key|, m.after + more, mode);
    ValueStep(r, key, p, depth, before, v, Bounded(m.value, depth, mode), total, m.after, more, mode);
    MembersCombine(members, p, depth, retained, before, rest, mode);
  }

  lemma MemberText(members: seq<Member>, rest: seq<byte>)
    requires members != []
    ensures var m := members[0]; MemberOnto(members, rest) == [34] + CharsOnto(m.key, [34] + (m.colon + ([58] + (m.gap + ValueOnto(members, rest)))))
  {
  }

  lemma ReadAsOutcome(j: Json, p: Path, depth: nat, retained: nat, rest: seq<byte>, mode: Mode)
    requires JsonReads(j, p, depth, retained, rest, mode)
    ensures NativeRoundTrip.Outcome(ReadValue(JsonOnto(j, rest), p, depth, retained, mode), Bounded(j, depth, mode),
                                    Meaning(j, p, mode), rest, retained + Charge(j, p, mode))
  {
  }

  lemma MoreStarts(members: seq<Member>, rest: seq<byte>)
    requires |members| > 1 && Blank(members[1].before)
    ensures var more := MoreOnto(members, [125] + rest);
      more != [] && more[0] == 44 && Skip(more[1..]) == MemberOnto(members[1..], [125] + rest)
  {
    hide MemberOnto;
    var more, others := MoreOnto(members, [125] + rest), members[1..];
    var next := MemberOnto(others, [125] + rest);
    assert others[0] == members[1];
    assert more[1..] == MembersOnto(others, [125] + rest) == members[1].before + next;
    SkipOver(members[1].before, next);
    NotBlank(next);
  }

  lemma MembersCombine(members: seq<Member>, p: Path, depth: nat, retained: nat, before: seq<Field<Value>>, rest: seq<byte>, mode: Mode)
    requires members != []
    requires var m, more := members[0], MoreOnto(members, [125] + rest);
      var key := UnitsOfChars(m.key);
      var path := ChildPath(p, key, before, mode);
      var v := Meaning(m.value, path, mode);
      var now := retained + 2 * |key| + Charge(m.value, path, mode) + if Find(before, key).None? then 16 else 0;
      var all := ReadFields(MemberOnto(members, [125] + rest), p, depth, retained, before, mode);
      && more != [] && (more[0] == 125 <==> |members| == 1)
      && (|members| > 1 ==> Skip(more[1..]) == MemberOnto(members[1..], [125] + rest)
                            && MembersReads(members[1..], p, depth, now, Put(before, key, v), rest, mode))
      && (if |key| <= MAX_KEY && Bounded(m.value, depth, mode) && now <= MAX_RETAINED
          then all == if |members| == 1 then Got(Obj(Put(before, key, v)), more[1..], now)
                      else ReadFields(Skip(more[1..]), p, depth, now, Put(before, key, v), mode)
          else all.Stop?)
    ensures MembersReads(members, p, depth, retained, before, rest, mode)
  {
    hide ReadFields; hide Meaning; hide Charge; hide Bounded; hide MemberOnto; hide ChildPath; hide Find; hide Put; hide UnitsOfChars; hide Skip; hide MembersOnto; hide ValueOnto; hide Names;
    var more := MoreOnto(members, [125] + rest);
    assert (forall i :: 0 <= i < |members| ==> |UnitsOfChars(members[i].key)| <= MAX_KEY && Bounded(members[i].value, depth, mode))
      <==> |UnitsOfChars(members[0].key)| <= MAX_KEY && Bounded(members[0].value, depth, mode)
           && forall i :: 0 <= i < |members[1..]| ==> |UnitsOfChars(members[1..][i].key)| <= MAX_KEY && Bounded(members[1..][i].value, depth, mode) by {
      assert forall i :: 1 <= i < |members| ==> members[i] == members[1..][i - 1];
    }
    var key := UnitsOfChars(members[0].key);
    var path := ChildPath(p, key, before, mode);
    var next := Put(before, key, Meaning(members[0].value, path, mode));
    assert MeaningMembers(members, p, before, mode) == MeaningMembers(members[1..], p, next, mode);
    assert ChargeMembers(members, p, before, mode) == 2 * |key| + Charge(members[0].value, path, mode)
           + (if Find(before, key).None? then 16 else 0) + ChargeMembers(members[1..], p, next, mode);
    if |members| == 1 {
      assert members[1..] == [] && more[1..] == rest;
      NoMembers(p, mode);
    } else {
      assert MembersReads(members[1..], p, depth, retained + 2 * |key| + Charge(members[0].value, path, mode) + (if Find(before, key).None? then 16 else 0), next, rest, mode);
    }
  }

  lemma NoMembers(p: Path, mode: Mode)
    ensures forall before :: MeaningMembers([], p, before, mode) == before && ChargeMembers([], p, before, mode) == 0
  {
  }

  lemma ObjectBlanks(j: Json, rest: seq<byte>)
    requires j.JObject? && JsonOk(j, rest)
    ensures Blank(j.blank) && (j.members != [] ==> Blank(j.members[0].before))
  {
  }

  lemma ObjectReads(j: Json, p: Path, depth: nat, retained: nat, rest: seq<byte>, mode: Mode)
    requires j.JObject? && JsonOk(j, rest)
    requires j.members != [] ==> MembersReads(j.members, p, depth + 1, retained + 32, [], rest, mode)
    ensures JsonReads(j, p, depth, retained, rest, mode)
  {
    hide ReadFields; hide ReadValue; hide JsonOk; hide Skip; hide MeaningMembers; hide ChargeMembers; hide MemberOnto;
    var s, inner := JsonOnto(j, rest), MembersOnto(j.members, [125] + rest);
    ObjectBlanks(j, rest);
    assert s[0] == 123 && s[1..] == j.blank + inner;
    SkipOver(j.blank, inner);
    if j.members == [] {
      NoMembers(p, mode);
      assert MeaningMembers([], p, [], mode) == [] && ChargeMembers([], p, [], mode) == 0;
      NotBlank(inner);
      assert inner[1..] == rest;
      Opens(s, p, depth, retained, mode);
    } else {
      var first := MemberOnto(j.members, [125] + rest);
      SkipOver(j.members[0].before, first);
      MemberText(j.members, [125] + rest);
      NotBlank(first);
      assert inner == j.members[0].before + first;
      Opens(s, p, depth, retained, mode);
    }
  }

  /** Every spelled value is read as what it denotes, whatever follows it, exactly when it is within the bounds. */
  lemma {:induction false} JsonIsRead(j: Json, p: Path, depth: nat, retained: nat, rest: seq<byte>, mode: Mode)
    requires JsonOk(j, rest) && Stops(rest)
    ensures JsonReads(j, p, depth, retained, rest, mode)
    decreases j, 0
  {
    hide ReadValue; hide JsonReads; hide ItemsReads; hide MembersReads;
    match j
    case JNull => LiteralReads(j, p, depth, retained, rest, mode);
    case JBool(_) => LiteralReads(j, p, depth, retained, rest, mode);
    case JNumber(n) => NumberReads(n, p, depth, retained, rest, mode);
    case JString(chars) => TextReads(chars, p, depth, retained, rest, mode);
    case JArray(_, items) =>
      if items != [] { ItemsRead(items, p, depth + 1, retained + 32, [], rest, mode); }
      ArrayReads(j, p, depth, retained, rest, mode);
    case JObject(_, members) =>
      if members != [] { MembersRead(members, p, depth + 1, retained + 32, [], rest, mode); }
      ObjectReads(j, p, depth, retained, rest, mode);
  }

  /** Every document that spells a value is read as exactly that value at its exact charge, or refused at a bound:
      of depth, key length, number length or range, or memory. */
  lemma SpelledIsRead(s: seq<byte>, j: Json, mode: Mode)
    requires Spells(s, j)
    ensures if Bounded(j, 0, mode) && Charge(j, [], mode) <= MAX_RETAINED
            then ReadDocument(s, mode) == Ok((Meaning(j, [], mode), Charge(j, [], mode)))
            else ReadDocument(s, mode).Err?
  {
    hide ReadValue; hide Meaning; hide Charge; hide Bounded; hide JsonOnto; hide JsonOk;
    var before, after :| Blank(before) && Blank(after) && JsonOk(j, after) && s == before + JsonOnto(j, after);
    assert after + [] == after;
    BlankStops(after, []);
    JsonIsRead(j, [], 0, 0, after, mode);
    SkipOver(before, JsonOnto(j, after));
    ReadSkipped(s, JsonOnto(j, after), [], 0, 0, mode);
    SkipOver(after, []);
  }
}

/** The decoder reads nothing else: every accepted document has a spelling. */
module NativeRejects {
  import opened Common
  import opened Concatenation
  import opened Utf8
  import opened NativeText
  import opened NativeKeys
  import opened NativeValue
  import opened NativeGrammar
  import NativeAccepts

  lemma {:induction false} SkipIsBlank(s: seq<byte>) returns (b: seq<byte>)
    ensures Blank(b) && s == b + Skip(s)
  {
    if s != [] && Space(s[0]) {
      b := SkipIsBlank(s[1..]);
      assert s[0] == BLANKS[0] || s[0] == BLANKS[1] || s[0] == BLANKS[2] || s[0] == BLANKS[3];
      b := [s[0]] + b;
    } else {
      b := [];
      assert [] + s == s;
    }
  }

  // ----- strings -----

  lemma HexOf(b: byte) returns (h: Hex)
    requires HexValue(b).Some?
    ensures HexByte(h) == b
  {
    if 65 <= b <= 70 {
      h := Hex(b - 55, true);
      assert UPPER[b - 55] == b;
    } else {
      var v := if b <= 57 then b - 48 else b - 87;
      h := Hex(v, false);
      assert LOWER[v] == b;
    }
  }

  lemma HexNext(s: seq<byte>, digits: nat, unit: int) returns (h: Hex)
    requires 1 <= digits <= 4 && 0 <= unit && (digits == 4 ==> unit == 0) && (digits == 3 ==> unit < 16)
    requires (digits == 2 ==> unit < 16 * 16) && (digits == 1 ==> unit < 16 * 16 * 16)
    requires ReadHex(s, digits, unit).Ok?
    ensures s != [] && s[0] == HexByte(h) && ReadHex(s[1..], digits - 1, unit * 16 + h.value).Ok?
  {
    h := HexOf(s[0]);
    NativeAccepts.HexReads(h);
  }

  lemma UnicodeOf(s: seq<byte>) returns (c: Char)
    requires |s| >= 2 && s[0] == 92 && s[1] == 117 && ReadHex(s[2..], 4, 0).Ok?
    ensures c.Unicode? && |s| >= 6 && s == CharText(c) + s[6..]
  {
    hide ReadHex;
    var a := HexNext(s[2..], 4, 0);
    var b := HexNext(s[2..][1..], 3, a.value);
    assert s[2..][1..] == s[3..];
    var d := HexNext(s[3..][1..], 2, a.value * 16 + b.value);
    assert s[3..][1..] == s[4..];
    var e := HexNext(s[4..][1..], 1, (a.value * 16 + b.value) * 16 + d.value);
    assert s[4..][1..] == s[5..];
    c := Unicode(a, b, d, e);
    assert s[2] == HexByte(a) && s[3] == HexByte(b) && s[4] == HexByte(d) && s[5] == HexByte(e);
  }

  lemma ShortOf(b: byte) returns (row: ShortRow)
    requires Unescaped(b).Some?
    ensures SHORT[row].0 == b
  {
    row := if b == 34 then 0 else if b == 92 then 1 else if b == 47 then 2 else if b == 98 then 3
           else if b == 102 then 4 else if b == 110 then 5 else if b == 114 then 6 else 7;
  }

  lemma CharOf(s: seq<byte>) returns (c: Char)
    requires s != [] && s[0] != QUOTE && ReadChar(s).Ok?
    ensures var n := ReadChar(s).value.size; CharOk(c, s[n..]) && s == CharText(c) + s[n..]
  {
    if s[0] == BACKSLASH {
      if Unescaped(s[1]).Some? {
        var row := ShortOf(s[1]);
        c := Short(row);
      } else {
        c := UnicodeOf(s);
      }
    } else if s[0] < 0x80 {
      c := Plain(s[0]);
    } else if WellFormed(s) {
      c := Plain(Decode(s).point);
    } else {
      c := Stray(s[0]);
      assert [s[0]] + s[1..] == s;
    }
  }

  lemma {:induction false} CharsOf(s: seq<byte>, limit: int, key: bool, kept: Kept) returns (chars: seq<Char>)
    requires ReadText(s, limit, key, kept).Got?
    ensures var rest := [34] + ReadText(s, limit, key, kept).rest; CharsOk(chars, rest) && s == CharsOnto(chars, rest)
    decreases |s|
  {
    if s[0] == QUOTE {
      chars := [];
      assert s == [34] + s[1..];
    } else {
      var c := CharOf(s);
      var piece := ReadChar(s).value;
      var next := EmitAll(kept, piece.units, limit, key).value;
      var more := CharsOf(s[piece.size..], limit, key, next);
      chars := [c] + more;
      assert chars[1..] == more;
    }
  }

  // ----- numbers -----

  lemma {:induction false} DigitsOf(s: seq<byte>) returns (digits: seq<Decimal>)
    ensures |digits| == Digits(s) && s == DigitsText(digits) + s[|digits|..]
  {
    if s != [] && Digit(s[0]) {
      var more := DigitsOf(s[1..]);
      digits := [s[0] - 48] + more;
      assert DigitsText(digits) == [s[0]] + DigitsText(more);
      assert s[1..][|more|..] == s[|digits|..];
    } else {
      digits := [];
    }
  }

  lemma PowerOf(s: seq<byte>) returns (power: Option<Power>)
    requires Exponent(s)
    ensures PowerText(power) == s && (power.Some? ==> power.value.digits != [])
  {
    if s == [] {
      power := None;
    } else {
      var sign := if |s| > 1 && (s[1] == 43 || s[1] == 45) then Some(s[1] == 45) else None;
      var d := if sign.Some? then s[2..] else s[1..];
      var digits := DigitsOf(d);
      assert d[|d|..] == [] && d == DigitsText(digits);
      power := Some(Power(s[0] == 69, sign, digits));
      assert s == [s[0]] + (if sign.Some? then [s[1]] else []) + d;
    }
  }

  lemma FractionOf(t: seq<byte>) returns (fraction: seq<Decimal>, power: Option<Power>)
    requires Fraction(t)
    ensures t == FractionText(fraction) + PowerText(power) && (power.Some? ==> power.value.digits != [])
  {
    hide Exponent; hide PowerText; hide DigitsText;
    if t != [] && t[0] == 46 {
      fraction := DigitsOf(t[1..]);
      var u := t[1..][|fraction|..];
      assert t[1 + |fraction|..] == u;
      power := PowerOf(u);
      assert t == [46] + (DigitsText(fraction) + u);
      Assoc([46], DigitsText(fraction), u);
    } else {
      fraction := [];
      power := PowerOf(t);
      assert [] + t == t;
    }
  }

  lemma WholeOf(s: seq<byte>) returns (whole: seq<Decimal>)
    requires Integer(s)
    ensures whole != [] && (|whole| > 1 ==> whole[0] != 0) && |whole| <= |s|
    ensures s == DigitsText(whole) + s[|whole|..] && Fraction(s[|whole|..])
  {
    hide Fraction;
    if s[0] == 48 { whole := [0]; } else { whole := DigitsOf(s); }
    assert s[0] == 48 + (whole[0] as int) by { assert s[0] == (DigitsText(whole) + s[|whole|..])[0]; }
  }

  lemma NumberOf(text: seq<byte>) returns (n: Number)
    requires Numeric(text)
    ensures NumberOk(n) && NumberText(n) == text
  {
    hide Integer; hide Fraction; hide DigitsText; hide FractionText; hide PowerText;
    var s := if text[0] == 45 then text[1..] else text;
    var whole := WholeOf(s);
    var fraction, power := FractionOf(s[|whole|..]);
    n := Number(text[0] == 45, whole, fraction, power);
    assert text == (if n.minus then [45] else []) + s;
  }

  // ----- values -----

  lemma ScalarOf(t: seq<byte>, p: Path, depth: nat, retained: nat, mode: Mode) returns (j: Json)
    requires t != [] && Skip(t) == t && t[0] != 123 && t[0] != 91 && ReadValue(t, p, depth, retained, mode).Got?
    ensures var rest := ReadValue(t, p, depth, retained, mode).rest; JsonOk(j, rest) && t == JsonOnto(j, rest)
  {
    hide ReadItems; hide ReadFields; hide ReadText; hide Numeric; hide Skip;
    if t[0] == QUOTE {
      var chars := CharsOf(t[1..], Limit(p), false, Kept([], retained + 32));
      j := JString(chars);
      assert t == [34] + t[1..];
    } else if t[0] == 116 {
      j := JBool(true);
    } else if t[0] == 102 {
      j := JBool(false);
    } else if t[0] == 110 {
      j := JNull;
    } else {
      var n := NumberRun(t);
      var number := NumberOf(t[..n]);
      j := JNumber(number);
    }
  }

  lemma ArrayOf(t: seq<byte>, blank: seq<byte>, items: seq<Item>, rest: seq<byte>)
    requires Blank(blank) && ItemsOk(items, [93] + rest) && t == [91] + (blank + ItemsOnto(items, [93] + rest))
    ensures JsonOk(JArray(blank, items), rest) && t == JsonOnto(JArray(blank, items), rest)
  {
    hide ItemsOnto; hide ItemsOk;
  }

  lemma ObjectOf(t: seq<byte>, blank: seq<byte>, members: seq<Member>, rest: seq<byte>)
    requires Blank(blank) && MembersOk(members, [125] + rest) && t == [123] + (blank + MembersOnto(members, [125] + rest))
    ensures JsonOk(JObject(blank, members), rest) && t == JsonOnto(JObject(blank, members), rest)
  {
    hide MembersOnto; hide MembersOk;
  }

  lemma EmptyOf(rest: seq<byte>)
    ensures ItemsOk([], [93] + rest) && ItemsOnto([], [93] + rest) == [93] + rest
    ensures MembersOk([], [125] + rest) && MembersOnto([], [125] + rest) == [125] + rest && Blank([])
  {
  }

  lemma LeadOf(members: seq<Member>, rest: seq<byte>)
    requires members != [] && members[0].before == []
    ensures MembersOnto(members, rest) == MemberOnto(members, rest)
  {
    hide MemberOnto;
  }

  lemma NoMembers(rest: seq<byte>)
    ensures MembersOk([], rest)
  {
  }

  /** What the reader has in front of it at a value. */
  lemma ValueStarts(s: seq<byte>, p: Path, depth: nat, retained: nat, mode: Mode)
    requires ReadValue(s, p, depth, retained, mode).Got?
    ensures var t := Skip(s);
      && t != [] && ReadValue(t, p, depth, retained, mode) == ReadValue(s, p, depth, retained, mode) && Skip(t) == t
      && (t[0] == 91 || t[0] == 123 ==> Skip(t[1..]) != [])
  {
    hide ReadItems; hide ReadFields; hide ReadText; hide ReadNumber; hide ReadLiteral; hide Skip;
    NativeAccepts.SkipTwice(s);
    NativeAccepts.ReadSkipped(s, Skip(s), p, depth, retained, mode);
  }

  lemma {:induction false} JsonOf(s: seq<byte>, p: Path, depth: nat, retained: nat, mode: Mode) returns (j: Json, before: seq<byte>)
    requires ReadValue(s, p, depth, retained, mode).Got?
    ensures var rest := ReadValue(s, p, depth, retained, mode).rest;
      Blank(before) && JsonOk(j, rest) && s == before + JsonOnto(j, rest)
    decreases |s|, 0
  {
    hide ReadValue; hide ReadItems; hide ReadFields; hide JsonOk; hide JsonOnto; hide ItemsOk; hide ItemsOnto; hide MembersOk; hide MembersOnto;
    hide Skip; hide Blank; hide MemberOnto;
    before := SkipIsBlank(s);
    var t := Skip(s);
    ValueStarts(s, p, depth, retained, mode);
    if t[0] == 91 || t[0] == 123 {
      var rest := ReadValue(s, p, depth, retained, mode).rest;
      var blank := SkipIsBlank(t[1..]);
      var inside := Skip(t[1..]);
      NativeAccepts.Opens(t, p, depth, retained, mode);
      EmptyOf(rest);
      assert t == [t[0]] + (blank + inside);
      if t[0] == 91 {
        var items := [];
        if inside[0] == 93 {
          assert inside == [93] + inside[1..];
        } else {
          items := ItemsOf(inside, p, depth + 1, retained + 32, [], mode);
        }
        ArrayOf(t, blank, items, rest);
        j := JArray(blank, items);
      } else {
        var members := [];
        if inside[0] == 125 {
          assert inside == [125] + inside[1..];
        } else {
          members := MembersOf(inside, p, depth + 1, retained + 32, [], [], mode);
          LeadOf(members, [125] + rest);
        }
        ObjectOf(t, blank, members, rest);
        j := JObject(blank, members);
      }
    } else {
      j := ScalarOf(t, p, depth, retained, mode);
    }
  }

  lemma {:induction false} ItemsOf(s: seq<byte>, p: Path, depth: nat, retained: nat, before: seq<Value>, mode: Mode) returns (items: seq<Item>)
    requires ReadItems(s, p, depth, retained, before, mode).Got?
    ensures var rest := [93] + ReadItems(s, p, depth, retained, before, mode).rest;
      items != [] && ItemsOk(items, rest) && s == ItemsOnto(items, rest)
    decreases |s|, 1
  {
    hide ReadValue; hide JsonOk; hide JsonOnto; hide Skip;
    var r := ReadValue(s, p + [At(|before|)], depth, retained, mode);
    var j, lead := JsonOf(s, p + [At(|before|)], depth, retained, mode);
    var after := SkipIsBlank(r.rest);
    var t := Skip(r.rest);
    if t[0] == 93 {
      items := [Item(lead, j, after)];
      assert t == [93] + t[1..] && items[1..] == [];
    } else {
      var more := ItemsOf(t[1..], p, depth, r.retained, before + [r.value], mode);
      items := [Item(lead, j, after)] + more;
      assert t == [44] + t[1..] && items[1..] == more;
    }
  }

  lemma MembersCons(m: Member, more: seq<Member>, tail: seq<byte>, rest: seq<byte>)
    requires Blank(m.before) && Blank(m.colon) && Blank(m.gap) && Blank(m.after) && MembersOk(more, rest)
    requires tail == m.after + if more == [] then rest else [44] + MembersOnto(more, rest)
    requires JsonOk(m.value, tail) && CharsOk(m.key, [34] + (m.colon + ([58] + (m.gap + JsonOnto(m.value, tail)))))
    ensures var members := [m] + more;
      MembersOk(members, rest) && MemberOnto(members, rest) == [34] + CharsOnto(m.key, [34] + (m.colon + ([58] + (m.gap + JsonOnto(m.value, tail)))))
  {
    hide JsonOk; hide JsonOnto; hide CharsOk; hide CharsOnto; hide MembersOnto;
    var members := [m] + more;
    assert members[1..] == more && members[0] == m;
    assert m.after + MoreOnto(members, rest) == tail;
  }

  lemma {:induction false} MembersOf(s: seq<byte>, p: Path, depth: nat, retained: nat, before: seq<Field<Value>>, lead: seq<byte>, mode: Mode)
    returns (members: seq<Member>)
    requires s != [] && Blank(lead) && ReadFields(s, p, depth, retained, before, mode).Got?
    ensures var rest := [125] + ReadFields(s, p, depth, retained, before, mode).rest;
      members != [] && members[0].before == lead && MembersOk(members, rest) && s == MemberOnto(members, rest)
    decreases |s|, 1
  {
    hide ReadValue; hide ReadText; hide JsonOk; hide JsonOnto; hide Skip; hide CharsOk; hide CharsOnto; hide ChildPath; hide Find; hide Put;
    hide MembersOk; hide MemberOnto; hide Blank; hide Names;
    var rest := [125] + ReadFields(s, p, depth, retained, before, mode).rest;
    var k := ReadText(s[1..], MAX_KEY, true, Kept([], retained));
    var chars := CharsOf(s[1..], MAX_KEY, true, Kept([], retained));
    var colon := SkipIsBlank(k.rest);
    var c := Skip(k.rest);
    var path := ChildPath(p, k.value, before, mode);
    var r := ReadValue(c[1..], path, depth, k.retained, mode);
    var j, gap := JsonOf(c[1..], path, depth, k.retained, mode);
    var after := SkipIsBlank(r.rest);
    var t := Skip(r.rest);
    var m := Member(lead, chars, colon, gap, j, after);
    assert c == [58] + c[1..] && s == [34] + s[1..];
    var more := [];
    if t[0] == 125 {
      assert t == [125] + t[1..];
      NoMembers(rest);
    } else {
      var between := SkipIsBlank(t[1..]);
      var next := Skip(t[1..]);
      var all := if Find(before, k.value).None? then r.retained + 16 else r.retained;
      more := MembersOf(next, p, depth, all, Put(before, k.value, r.value), between, mode);
      assert t == [44] + t[1..] && t[1..] == MembersOnto(more, rest);
    }
    MembersCons(m, more, r.rest, rest);
    members := [m] + more;
  }

  /** Every document that is read spells a value. */
  lemma AcceptedIsSpelled(s: seq<byte>, mode: Mode) returns (j: Json)
    requires ReadDocument(s, mode).Ok?
    ensures Spells(s, j)
  {
    hide ReadValue;
    var before;
    j, before := JsonOf(s, [], 0, 0, mode);
    var rest := ReadValue(s, [], 0, 0, mode).rest;
    var after := SkipIsBlank(rest);
    assert after + [] == after;
  }

  /** The decoder is exact: it accepts a document if and only if it spells a value within the bounds, and what it
      then gives is that value at its exact charge. */
  lemma ReadsExactly(s: seq<byte>, v: Value, retained: nat, mode: Mode)
    ensures ReadDocument(s, mode) == Ok((v, retained)) <==>
            exists j :: Spells(s, j) && Bounded(j, 0, mode) && retained == Charge(j, [], mode) <= MAX_RETAINED && v == Meaning(j, [], mode)
  {
    hide ReadDocument; hide Spells; hide Bounded; hide Charge; hide Meaning;
    if ReadDocument(s, mode).Ok? {
      var j := AcceptedIsSpelled(s, mode);
      NativeAccepts.SpelledIsRead(s, j, mode);
    }
    if j :| Spells(s, j) && Bounded(j, 0, mode) && retained == Charge(j, [], mode) <= MAX_RETAINED && v == Meaning(j, [], mode) {
      NativeAccepts.SpelledIsRead(s, j, mode);
    }
  }
}

/** Which strings are dropped, as patterns of their paths. */
module NativePaths {
  import opened Common
  import opened NativeKeys
  import opened NativeValue

  /** One place of a pattern: a name, or any index. */
  datatype Place = Named(name: string) | Indexed

  const DROPPED: seq<seq<Place>> := [
    [Named("items"), Indexed, Named("restoreMessage")],
    [Named("items"), Indexed, Named("raw_content")],
    [Named("items"), Indexed, Named("result"), Named("_meta")],
    [Named("items"), Indexed, Named("result"), Named("content"), Indexed, Named("data")]]

  predicate At(step: Step, place: Place) { match place case Named(name) => step == Key(Ascii(name)) case Indexed => step.At? }

  /** The path starts with the pattern. */
  ghost predicate Begins(p: Path, pattern: seq<Place>) {
    |pattern| <= |p| && forall k :: 0 <= k < |pattern| ==> At(p[k], pattern[k])
  }

  const ITEM: seq<Place> := [Named("items"), Indexed]

  /** Where the first item of the path is, with something below it. */
  ghost predicate FirstItem(p: Path, i: nat): (first: bool)
    ensures first ==> i + 2 < |p|
  {
    i + 2 < |p| && Begins(p[i..], ITEM) && forall j :: 0 <= j < i ==> !Begins(p[j..], ITEM)
  }

  lemma ItemBegins(p: Path)
    requires |p| >= 2
    ensures Begins(p, ITEM) <==> p[0] == Key(Ascii("items")) && p[1].At?
  {
    assert ITEM[0] == Named("items") && ITEM[1] == Indexed;
  }

  lemma NamesDiffer()
    ensures Ascii("restoreMessage") != Ascii("result") && Ascii("raw_content") != Ascii("result") && Ascii("_meta") != Ascii("content")
  {
    assert |Ascii("restoreMessage")| == 14 && |Ascii("raw_content")| == 11 && |Ascii("result")| == 6 && |Ascii("_meta")| == 5 && |Ascii("content")| == 7;
  }

  lemma PolicyIsPattern(p: Path)
    requires |p| >= 3 && p[0] == Key(Ascii("items")) && p[1].At?
    ensures Policy(p[2..]) == 0 <==> exists k :: 0 <= k < |DROPPED| && Begins(p, DROPPED[k])
  {
    NamesDiffer();
    hide Ascii;
    assert Begins(p, DROPPED[0]) <==> p[2] == Key(Ascii("restoreMessage"));
    assert Begins(p, DROPPED[1]) <==> p[2] == Key(Ascii("raw_content"));
    assert Begins(p, DROPPED[2]) <==> |p| >= 4 && p[2] == Key(Ascii("result")) && p[3] == Key(Ascii("_meta"));
    assert Begins(p, DROPPED[3]) <==>
      |p| >= 6 && p[2] == Key(Ascii("result")) && p[3] == Key(Ascii("content")) && p[4].At? && p[5] == Key(Ascii("data"));
    assert p[2..][0] == p[2] && (|p| >= 4 ==> p[2..][1] == p[3]) && (|p| >= 6 ==> p[2..][2] == p[4] && p[2..][3] == p[5]);
  }

  /** From the first item of the path on, it starts with one of the patterns. */
  ghost predicate Drops(p: Path) {
    exists i: nat, k: nat :: FirstItem(p, i) && k < |DROPPED| && Begins(p[i..], DROPPED[k])
  }

  lemma DropsAtOnce(p: Path)
    requires |p| >= 3 && Begins(p, ITEM)
    ensures Drops(p) <==> exists k :: 0 <= k < |DROPPED| && Begins(p, DROPPED[k])
  {
    hide Begins;
    assert p[0..] == p;
    assert FirstItem(p, 0);
    assert forall i: nat :: FirstItem(p, i) && i > 0 ==> !Begins(p[0..], ITEM);
    if k :| 0 <= k < |DROPPED| && Begins(p, DROPPED[k]) { assert FirstItem(p, 0) && Begins(p[0..], DROPPED[k]); }
  }

  lemma NotFirst(p: Path)
    requires !Begins(p, ITEM)
    ensures !FirstItem(p, 0)
  {
    assert p[0..] == p;
  }

  lemma DropsLater(p: Path)
    requires p != [] && !Begins(p, ITEM)
    ensures Drops(p) <==> Drops(p[1..])
  {
    hide Begins; hide FirstItem;
    assert p[0..] == p;
    forall i: nat ensures FirstItem(p, i + 1) <==> FirstItem(p[1..], i) { ItemLater(p, i); }
    NotFirst(p);
    if Drops(p) {
      var i: nat, k: nat :| FirstItem(p, i) && k < |DROPPED| && Begins(p[i..], DROPPED[k]);
      assert FirstItem(p, i - 1 + 1) && FirstItem(p[1..], i - 1);
      assert p[1..][i - 1..] == p[i..];
    }
    if Drops(p[1..]) {
      var i: nat, k: nat :| FirstItem(p[1..], i) && k < |DROPPED| && Begins(p[1..][i..], DROPPED[k]);
      assert FirstItem(p, i + 1);
      assert p[1..][i..] == p[i + 1..];
    }
  }

  /** The strings that are dropped, and no others. */
  lemma {:induction false} DroppedPaths(p: Path)
    ensures Limit(p) == 0 <==> Drops(p)
    decreases |p|
  {
    if |p| >= 3 {
      ItemBegins(p);
      hide Begins;
      if Begins(p, ITEM) {
        PolicyIsPattern(p);
        DropsAtOnce(p);
      } else {
        DropsLater(p);
        DroppedPaths(p[1..]);
      }
    }
  }

  lemma ItemLater(p: Path, i: nat)
    requires p != [] && !Begins(p, ITEM)
    ensures FirstItem(p, i + 1) <==> FirstItem(p[1..], i)
  {
    hide Begins;
    assert p[0..] == p;
    assert forall j :: 0 <= j < |p| ==> p[1..][j..] == p[j + 1..];
    if FirstItem(p[1..], i) {
      forall j | 0 <= j < i + 1 ensures !Begins(p[j..], ITEM) {
        if j > 0 { assert p[1..][j - 1..] == p[j..]; }
      }
    }
  }

  // ----- the path a patch names -----

  /** Decimal digits, without leading zeros. */
  function Numeral(n: nat): seq<int> {
    if n < 10 then [48 + n] else Numeral(n / 10) + [48 + n % 10]
  }

  lemma {:induction false} NumeralReads(n: nat)
    ensures var s := Numeral(n);
      && (forall i :: 0 <= i < |s| ==> 48 <= s[i] <= 57) && Canonical(s) && Magnitude(s) == n && (n > 0 ==> s[0] != 48)
  {
    if n >= 10 {
      NumeralReads(n / 10);
      var s := Numeral(n);
      assert s[..|s| - 1] == Numeral(n / 10);
    }
  }

  /** A place inside a document, as a patch writes it: names and indices. */
  ghost predicate Addressable(place: Path) {
    forall i :: 0 <= i < |place| ==> place[i].Key? || (place[i].At? && place[i].index < 0x8000_0000_0000_0000)
  }

  function Address(place: Path): seq<Value>
    requires Addressable(place)
  {
    if place == [] then []
    else
      NumeralReads(if place[0].At? then place[0].index else 0);
      [if place[0].Key? then Str(place[0].name) else Num(Numeral(place[0].index))] + Address(place[1..])
  }

  /** What the address of a place names is that place. */
  lemma {:induction false} AddressNames(place: Path)
    requires Addressable(place)
    ensures Normalize(Address(place)) == place
  {
    if place != [] {
      if place[0].At? {
        NumeralReads(place[0].index);
        assert Numeral(place[0].index) != [45, 48];
      }
      AddressNames(place[1..]);
      assert Address(place)[1..] == Address(place[1..]);
    }
  }

  /** Below a state patch a text is dropped exactly where it would be at the place the patch names, whatever the
      rest of the path: a patch that follows its `path` trims as the whole state does. */
  lemma PatchTrimsAsPlace(place: Path, k: Step, before: seq<Field<Value>>, mode: Mode, rest: Path)
    requires Addressable(place) && Find(before, Ascii("path")) == Some(Arr(Address(place)))
    ensures var at := [Key(Ascii("params")), Key(Ascii("change")), Key(Ascii("patches")), k];
      Limit(ChildPath(at, Ascii("value"), before, mode) + rest) == 0 <==> Drops(place + rest)
  {
    var at := [Key(Ascii("params")), Key(Ascii("change")), Key(Ascii("patches")), k];
    var child := at + [Key(Ascii("value"))];
    hide Ascii;
    assert child[..3] == [Key(Ascii("params")), Key(Ascii("change")), Key(Ascii("patches"))];
    assert |[Key(Ascii("payload")), Key(Ascii("item"))]| == 2;
    AddressNames(place);
    assert ChildPath(at, Ascii("value"), before, mode) == place;
    DroppedPaths(place + rest);
  }

  /** Anywhere else a text is dropped by its own path, except that in a rollout a payload's item is an item of a list. */
  lemma RolloutItemTrims(key: Text, before: seq<Field<Value>>, mode: Mode, p: Path, rest: Path)
    requires !(|p| == 4 && p[..3] == [Key(Ascii("params")), Key(Ascii("change")), Key(Ascii("patches"))] && key == Ascii("value"))
    ensures var item := mode.rollout && p == [Key(Ascii("payload"))] && key == Ascii("item");
      Limit(ChildPath(p, key, before, mode) + rest) == 0 <==>
        Drops((if item then [Key(Ascii("items")), Step.At(0)] else p + [Key(key)]) + rest)
  {
    hide Ascii;
    var child := p + [Key(key)];
    assert p == child[..|p|] && child[|p|] == Key(key);
    if child == [Key(Ascii("payload")), Key(Ascii("item"))] { assert p == [Key(Ascii("payload"))]; }
    if |child| == 5 { assert child[..3] == p[..3]; }
    DroppedPaths(ChildPath(p, key, before, mode) + rest);
  }
}

/** Printed JSON is safe inside markup and scripts. */
module NativeMarkup {
  import opened Common
  import opened Utf8
  import opened NativeText
  import opened NativeKeys
  import opened NativeValue

  /** No control byte and none of the three bytes markup gives a meaning. */
  predicate Safe(b: byte) { b >= 0x20 && b != 60 && b != 62 && b != 38 }

  /** The line or paragraph separator, at which scripts end a line. */
  predicate Separator(s: seq<byte>, i: nat) {
    i + 2 < |s| && s[i] == 0xE2 && s[i + 1] == 0x80 && (s[i + 2] == 0xA8 || s[i + 2] == 0xA9)
  }

  ghost predicate Clean(s: seq<byte>) {
    && (forall i :: 0 <= i < |s| ==> Safe(s[i]))
    && (forall i :: 0 <= i < |s| ==> !Separator(s, i))
    && (s != [] ==> !Continues(s[0]))
  }

  ghost predicate AllClean(items: seq<seq<byte>>) { forall i :: 0 <= i < |items| ==> Clean(items[i]) }

  ghost predicate CleanFields(fields: seq<Field<seq<byte>>>) { forall i :: 0 <= i < |fields| ==> Clean(fields[i].value) }

  lemma CleanBoth(a: seq<byte>, b: seq<byte>)
    requires Clean(a) && Clean(b)
    ensures Clean(a + b)
  {
    var s := a + b;
    forall i | 0 <= i < |s| ensures !Separator(s, i) {
      if i >= |a| { assert Separator(s, i) ==> Separator(b, i - |a|); } else { assert Separator(s, i) && i + 2 < |a| ==> Separator(a, i); }
    }
  }

  lemma EncodeClean(p: point)
    requires p >= 0x20 && !(p < 0x10000 && Html(p))
    ensures Clean(Encode(p))
  {
    var s := Encode(p);
    if p >= 0x800 && p < 0x10000 {
      assert Separator(s, 0) ==> p == 0x2028 || p == 0x2029;
    }
  }

  lemma AsciiClean(s: seq<byte>)
    requires forall i :: 0 <= i < |s| ==> s[i] < 0x80 && Safe(s[i])
    ensures Clean(s)
  {
  }

  lemma UnicodeClean(u: unit)
    ensures Clean(UnicodeEscape(u))
  {
    assert forall n: nat :: n < 16 ==> HexDigit(n) < 0x80 && Safe(HexDigit(n));
    hide Clean; hide HexDigit;
    AsciiClean(UnicodeEscape(u));
  }

  lemma EscapeClean(u: unit)
    ensures Clean(Escape(u, true))
  {
    hide Encode; hide Clean; hide UnicodeEscape;
    if Letter(u).Some? {
      AsciiClean([BACKSLASH, Letter(u).value]);
    } else if u < 0x20 || Surrogate(u) || Html(u) {
      UnicodeClean(u);
    } else {
      EncodeClean(u);
    }
  }

  lemma {:induction false} BodyClean(units: seq<unit>)
    ensures Clean(Body(units, true))
    decreases |units|
  {
    hide Clean; hide Escape; hide Encode;
    if units == [] {
      Marks();
    } else if Paired(units) {
      EncodeClean(Combine(units[0], units[1]));
      BodyClean(units[2..]);
      CleanBoth(Encode(Combine(units[0], units[1])), Body(units[2..], true));
    } else {
      EscapeClean(units[0]);
      BodyClean(units[1..]);
      CleanBoth(Escape(units[0], true), Body(units[1..], true));
    }
  }

  lemma Marks()
    ensures Clean([QUOTE]) && Clean([58]) && Clean([44]) && Clean([91]) && Clean([93]) && Clean([123]) && Clean([125])
    ensures Clean([]) && Clean(NULL) && Clean(TRUE) && Clean(FALSE)
  {
  }

  lemma QuoteClean(units: seq<unit>)
    ensures Clean(Quote(units, true))
  {
    hide Clean;
    Marks();
    BodyClean(units);
    CleanBoth([QUOTE], Body(units, true));
    CleanBoth([QUOTE] + Body(units, true), [QUOTE]);
  }

  lemma NumberClean(text: seq<byte>)
    requires Numeric(text)
    ensures Clean(text)
  {
  }

  lemma {:induction false} ItemsClean(items: seq<seq<byte>>)
    requires AllClean(items)
    ensures Clean(JoinItems(items))
    decreases |items|
  {
    hide Clean;
    Marks();
    if |items| > 1 {
      ItemsClean(items[1..]);
      CleanBoth(items[0], [44]);
      CleanBoth(items[0] + [44], JoinItems(items[1..]));
    }
  }

  lemma {:induction false} FieldsClean(fields: seq<Field<seq<byte>>>)
    requires CleanFields(fields)
    ensures Clean(JoinFields(fields, true))
    decreases |fields|
  {
    hide Clean; hide Quote;
    Marks();
    if fields != [] {
      var first := Quote(fields[0].key, true) + [58] + fields[0].value;
      QuoteClean(fields[0].key);
      CleanBoth(Quote(fields[0].key, true), [58]);
      CleanBoth(Quote(fields[0].key, true) + [58], fields[0].value);
      if |fields| > 1 {
        FieldsClean(fields[1..]);
        CleanBoth(first, [44]);
        CleanBoth(first + [44], JoinFields(fields[1..], true));
      }
    }
  }

  lemma {:induction false} FoundClean(fields: seq<Field<seq<byte>>>, key: Text)
    requires key in Names(fields) && CleanFields(fields)
    ensures Clean(Find(fields, key).value)
  {
    hide Clean;
    if fields[0].key != key { FoundClean(fields[1..], key); }
  }

  lemma {:induction false} ArrangedClean(fields: seq<Field<seq<byte>>>, names: seq<Text>)
    requires forall i :: 0 <= i < |names| ==> names[i] in Names(fields)
    requires CleanFields(fields)
    ensures CleanFields(Arrange(fields, names))
    decreases |names|
  {
    hide Find;
    if names != [] {
      FoundClean(fields, names[0]);
      ArrangedClean(fields, names[1..]);
      var r, rest := Arrange(fields, names), Arrange(fields, names[1..]);
      forall i | 0 <= i < |r| ensures Clean(r[i].value) {
        if i > 0 { assert r[i] == rest[i - 1]; }
      }
    }
  }

  lemma {:induction false} PrintedItemsClean(items: seq<Value>)
    requires forall i :: 0 <= i < |items| ==> Formed(items[i])
    ensures AllClean(PrintItems(items))
    decreases items, 1
  {
    hide Formed;
    if items != [] {
      PrintClean(items[0]);
      PrintedItemsClean(items[1..]);
      var r, rest := PrintItems(items), PrintItems(items[1..]);
      forall i | 0 <= i < |r| ensures Clean(r[i]) {
        if i > 0 { assert r[i] == rest[i - 1]; }
      }
    }
  }

  lemma {:induction false} PrintedFieldsClean(fields: seq<Field<Value>>)
    requires forall i :: 0 <= i < |fields| ==> Formed(fields[i].value)
    ensures CleanFields(PrintFields(fields))
    decreases fields, 1
  {
    hide Formed;
    if fields != [] {
      PrintClean(fields[0].value);
      PrintedFieldsClean(fields[1..]);
      var r, rest := PrintFields(fields), PrintFields(fields[1..]);
      forall i | 0 <= i < |r| ensures Clean(r[i].value) {
        if i > 0 { assert r[i] == rest[i - 1]; }
      }
    }
  }

  /** Whatever texts and keys a value holds, its print by json.Marshal has no control byte, no markup byte and no
      script line separator. */
  lemma {:induction false} PrintClean(v: Value)
    requires Formed(v)
    ensures Clean(Print(v, true))
    decreases v, 0
  {
    hide Clean; hide Quote; hide JoinItems; hide JoinFields; hide Numeric; hide AllClean; hide CleanFields; hide Arrange;
    Marks();
    match v
    case Null =>
    case Bool(_) =>
    case Num(text) => NumberClean(text);
    case Str(units) => QuoteClean(units);
    case Arr(items) =>
      PrintedItemsClean(items);
      ItemsClean(PrintItems(items));
      CleanBoth([91], JoinItems(PrintItems(items)));
      CleanBoth([91] + JoinItems(PrintItems(items)), [93]);
    case Obj(fields) =>
      KeysAreNames(Names(fields));
      var arranged := Arrange(PrintFields(fields), Keys(Names(fields)));
      PrintedFieldsClean(fields);
      ArrangedClean(PrintFields(fields), Keys(Names(fields)));
      FieldsClean(arranged);
      CleanBoth([123], JoinFields(arranged, true));
      CleanBoth([123] + JoinFields(arranged, true), [125]);
  }
}
