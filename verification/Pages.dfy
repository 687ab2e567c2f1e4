/**
 Transport splitting of long message text. Text is its sequence of UTF-16 code
 units; an identity is a string whose length is its unit count.
 */
module PageSplit {
  import opened Common
  import Utf8

  const PART_CHARACTERS := 16384

  type unit = Utf8.unit

  /** `extra` stands for every field the pager only carries. */
  datatype Message = Message(id: string, nativeId: string, text: seq<unit>, offset: Option<int>,
                             continues: Option<bool>, extra: string)

  /** A cut before index i would separate a high surrogate from its low one. */
  predicate SplitsPair(text: seq<unit>, i: nat) {
    0 < i < |text| && Utf8.High(text[i - 1]) && Utf8.Low(text[i])
  }

  /** Where the part that starts here ends. */
  function EndOf(text: seq<unit>, start: nat): (end: nat)
    requires start < |text|
    ensures start < end <= |text| && end - start <= PART_CHARACTERS
    ensures !SplitsPair(text, end)
  {
    var end := Min(start + PART_CHARACTERS, |text|);
    if end < |text| && SplitsPair(text, end) then end - 1 else end
  }

  /** strconv.Itoa of a nonnegative number */
  function Decimal(n: nat): string {
    if n < 10 then [('0' as int + n) as char] else Decimal(n / 10) + [('0' as int + n % 10) as char]
  }

  function PartId(id: string, start: nat): string {
    if start == 0 then id else "filo-part:" + id + ":" + Decimal(start)
  }

  function Part(m: Message, start: nat, end: nat): Message
    requires start <= end <= |m.text|
  {
    m.(id := PartId(m.id, start),
       nativeId := if m.nativeId != "" then m.nativeId else m.id,
       offset := Some((if m.offset.Some? then m.offset.value else 0) + start),
       continues := Some(if end == |m.text| && m.continues.Some? then m.continues.value else end < |m.text|),
       text := m.text[start..end])
  }

  function PartsFrom(m: Message, start: nat): (parts: seq<Message>)
    requires start <= |m.text|
    decreases |m.text| - start
  {
    if start == |m.text| then []
    else var end := EndOf(m.text, start); [Part(m, start, end)] + PartsFrom(m, end)
  }

  function Parts(m: Message): (parts: seq<Message>) {
    if |m.text| <= PART_CHARACTERS then [m] else PartsFrom(m, 0)
  }

  function Split(messages: seq<Message>): seq<Message> {
    if messages == [] then [] else Parts(messages[0]) + Split(messages[1..])
  }

  // ----- what splitting preserves -----

  /** The texts of these parts, end to end. */
  ghost function Glue(parts: seq<Message>): seq<unit> {
    if parts == [] then [] else parts[0].text + Glue(parts[1..])
  }

  ghost function Base(m: Message): int {
    if m.offset.Some? then m.offset.value else 0
  }

  lemma PartsFromCons(m: Message, start: nat)
    requires start < |m.text|
    ensures var parts := PartsFrom(m, start); var end := EndOf(m.text, start);
      parts != [] && parts[0] == Part(m, start, end) && parts[1..] == PartsFrom(m, end)
  {
  }

  lemma {:induction false} PartsFromGlue(m: Message, start: nat)
    requires start <= |m.text|
    ensures Glue(PartsFrom(m, start)) == m.text[start..]
    decreases |m.text| - start
  {
    if start < |m.text| {
      var end := EndOf(m.text, start);
      PartsFromCons(m, start);
      PartsFromGlue(m, end);
      assert m.text[start..end] + m.text[end..] == m.text[start..];
    }
  }

  /** Gluing the parts of a message restores its text. */
  lemma PartsRestoreText(m: Message)
    ensures Glue(Parts(m)) == m.text
  {
    if |m.text| > PART_CHARACTERS {
      PartsFromGlue(m, 0);
      assert m.text[0..] == m.text;
    } else {
      assert [m][1..] == [];
    }
  }

  /** The part at position i of a long message covers [from, to) of its text. */
  ghost predicate Covers(m: Message, part: Message, from: nat, to: nat) {
    from < to <= |m.text| && part == Part(m, from, to) && to - from <= PART_CHARACTERS && !SplitsPair(m.text, to)
  }

  lemma {:induction false} PartsFromAt(m: Message, start: nat, i: nat) returns (from: nat, to: nat)
    requires start <= |m.text| && i < |PartsFrom(m, start)|
    ensures Covers(m, PartsFrom(m, start)[i], from, to)
    ensures from >= start && (i == 0 <==> from == start)
    ensures i == |PartsFrom(m, start)| - 1 <==> to == |m.text|
    decreases |m.text| - start
  {
    PartsFromCons(m, start);
    var parts, end := PartsFrom(m, start), EndOf(m.text, start);
    if i == 0 {
      from, to := start, end;
      if end < |m.text| { PartsFromCons(m, end); }
    } else {
      assert parts[i] == parts[1..][i - 1];
      from, to := PartsFromAt(m, end, i - 1);
    }
  }

  lemma {:induction false} PartsFromNext(m: Message, start: nat, i: nat)
    requires start <= |m.text| && i + 1 < |PartsFrom(m, start)|
    ensures var parts := PartsFrom(m, start);
      parts[i].offset.Some? && parts[i + 1].offset == Some(parts[i].offset.value + |parts[i].text|)
    decreases |m.text| - start
  {
    PartsFromCons(m, start);
    var parts, end := PartsFrom(m, start), EndOf(m.text, start);
    assert parts[i + 1] == parts[1..][i];
    if i == 0 {
      PartsFromCons(m, end);
    } else {
      assert parts[i] == parts[1..][i - 1];
      PartsFromNext(m, end, i - 1);
    }
  }

  /** Each part of a long message is a short nonempty slice that ends outside a surrogate pair; offsets
      are contiguous from the message's own; only the last inherits the message's continuation flag. */
  lemma PartShape(m: Message, i: nat)
    requires |m.text| > PART_CHARACTERS && i < |Parts(m)|
    ensures var parts := Parts(m);
      && 0 < |parts[i].text| <= PART_CHARACTERS
      && parts[i].offset.Some? && (i == 0 <==> parts[i].offset == Some(Base(m)))
      && (i + 1 < |parts| ==> parts[i + 1].offset == Some(parts[i].offset.value + |parts[i].text|))
      && (i + 1 < |parts| ==> parts[i].continues == Some(true))
      && (i + 1 == |parts| ==> parts[i].continues == Some(m.continues.Some? && m.continues.value))
      && (i == 0 <==> parts[i].id == PartId(m.id, 0) && parts[i].offset == Some(Base(m)))
      && 0 <= parts[i].offset.value - Base(m) + |parts[i].text| <= |m.text|
      && !SplitsPair(m.text, parts[i].offset.value - Base(m) + |parts[i].text|)
      && parts[i].extra == m.extra
  {
    var from, to := PartsFromAt(m, 0, i);
    if i + 1 < |Parts(m)| { PartsFromNext(m, 0, i); }
  }

  lemma {:induction false} ShortStays(parts: seq<Message>)
    requires forall i :: 0 <= i < |parts| ==> |parts[i].text| <= PART_CHARACTERS
    ensures Split(parts) == parts
  {
    if parts != [] { ShortStays(parts[1..]); }
  }

  lemma {:induction false} SplitShort(messages: seq<Message>)
    ensures forall i :: 0 <= i < |Split(messages)| ==> |Split(messages)[i].text| <= PART_CHARACTERS
  {
    if messages != [] {
      SplitShort(messages[1..]);
      var m := messages[0];
      if |m.text| > PART_CHARACTERS {
        forall i | 0 <= i < |PartsFrom(m, 0)| ensures |PartsFrom(m, 0)[i].text| <= PART_CHARACTERS {
          var from, to := PartsFromAt(m, 0, i);
        }
      }
    }
  }

  /** Splitting again changes nothing. */
  lemma SplitIdempotent(messages: seq<Message>)
    ensures Split(Split(messages)) == Split(messages)
  {
    SplitShort(messages);
    ShortStays(Split(messages));
  }

  // ----- the code's loops -----

  method SplitText(message: Message) returns (parts: seq<Message>)
    ensures parts == PartsFrom(message, 0)
  {
    parts := [];
    var start, length := 0, |message.text|;
    while start < length
      invariant start <= length && parts + PartsFrom(message, start) == PartsFrom(message, 0)
    {
      PartsFromCons(message, start);
      var end := start + PART_CHARACTERS;
      if end > length { end := length; }
      if end < length && SplitsPair(message.text, end) { end := end - 1; }
      assert end == EndOf(message.text, start);
      SnocCons(parts, Part(message, start, end), PartsFrom(message, end), PartsFrom(message, start));
      parts := parts + [Part(message, start, end)];
      start := end;
    }
  }

  lemma SnocCons<T>(a: seq<T>, x: T, b: seq<T>, c: seq<T>)
    requires c != [] && c[0] == x && c[1..] == b
    ensures a + [x] + b == a + c
  {
    assert c == [x] + b;
  }

  lemma SplitStep(parts: seq<Message>, messages: seq<Message>, i: nat, all: seq<Message>)
    requires i < |messages| && parts + Split(messages[i..]) == all
    ensures parts + Parts(messages[i]) + Split(messages[i + 1..]) == all
  {
    var rest := messages[i..];
    assert rest[0] == messages[i] && rest[1..] == messages[i + 1..];
  }

  method SplitTextParts(messages: seq<Message>) returns (parts: seq<Message>)
    ensures parts == Split(messages)
  {
    parts := [];
    assert messages[0..] == messages;
    for i := 0 to |messages|
      invariant parts + Split(messages[i..]) == Split(messages)
    {
      SplitStep(parts, messages, i, Split(messages));
      var message := messages[i];
      if |message.text| <= PART_CHARACTERS {
        parts := parts + [message];
        continue;
      }
      var more := SplitText(message);
      parts := parts + more;
    }
  }
}

/** When the identities the pager anchors on are unambiguous. */
module PageIdentity {
  import opened Common
  import opened Concatenation
  import opened PageSplit

  ghost predicate DistinctIds(messages: seq<Message>) {
    forall i, j :: 0 <= i < j < |messages| ==> messages[i].id != messages[j].id
  }

  /** The id generated for a later part of one message is the raw id of another. */
  ghost predicate Clash(messages: seq<Message>) {
    exists i, j, k :: 0 <= i < |messages| && 0 <= j < |messages| && 0 < k < |Parts(messages[i])|
                      && Parts(messages[i])[k].id == messages[j].id
  }

  lemma DecimalDigits(n: nat)
    ensures Decimal(n) != [] && forall i :: 0 <= i < |Decimal(n)| ==> Decimal(n)[i] != ':'
  {
  }

  lemma {:induction false} DecimalInjective(m: nat, n: nat)
    requires Decimal(m) == Decimal(n)
    ensures m == n
  {
    var a, b := Decimal(m), Decimal(n);
    assert a[|a| - 1] == ('0' as int + m % 10) as char && b[|b| - 1] == ('0' as int + n % 10) as char;
    assert m % 10 == n % 10;
    DecimalDigits(m / 10);
    DecimalDigits(n / 10);
    if m >= 10 && n >= 10 {
      assert a[..|a| - 1] == Decimal(m / 10) && b[..|b| - 1] == Decimal(n / 10);
      DecimalInjective(m / 10, n / 10);
    }
  }

  /** The last colon of a generated id separates the message id from the offset. */
  lemma PartIdInjective(a: string, s: nat, b: string, t: nat)
    requires s > 0 && t > 0 && PartId(a, s) == PartId(b, t)
    ensures a == b && s == t
  {
    DecimalDigits(s);
    DecimalDigits(t);
    var x := a + ":" + Decimal(s);
    var y := b + ":" + Decimal(t);
    assert PartId(a, s) == "filo-part:" + x && PartId(b, t) == "filo-part:" + y;
    assert x == PartId(a, s)[10..] && y == PartId(b, t)[10..];
    ColonSplit(a, Decimal(s), b, Decimal(t));
    DecimalInjective(s, t);
  }

  lemma ColonSplit(a: string, ds: string, b: string, dt: string)
    requires a + ":" + ds == b + ":" + dt
    requires ':' !in ds && ':' !in dt
    ensures a == b && ds == dt
  {
    var x := a + ":" + ds;
    assert x[|a|] == ':' && x[|b|] == ':';
    assert x[..|a|] == a && x[..|b|] == b && x[|a| + 1..] == ds && x[|b| + 1..] == dt;
  }

  /** Identity of part k: raw for the first, generated for the others. */
  lemma PartIdAt(m: Message, k: nat) returns (start: nat)
    requires k < |Parts(m)|
    ensures Parts(m)[k].id == PartId(m.id, start) && (k == 0 <==> start == 0)
    ensures start > 0 ==> Parts(m)[k].offset == Some(Base(m) + start)
  {
    if |m.text| <= PART_CHARACTERS {
      start := 0;
    } else {
      var from, to := PartsFromAt(m, 0, k);
      start := from;
    }
  }

  ghost function Rows(messages: seq<Message>): (rows: seq<seq<Message>>)
    ensures |rows| == |messages| && forall i :: 0 <= i < |rows| ==> rows[i] == Parts(messages[i])
  {
    seq(|messages|, i requires 0 <= i < |messages| => Parts(messages[i]))
  }

  lemma {:induction false} SplitIsFlat(messages: seq<Message>)
    ensures Split(messages) == Flat(Rows(messages))
  {
    if messages != [] {
      SplitIsFlat(messages[1..]);
      assert Rows(messages)[1..] == Rows(messages[1..]);
    }
  }

  lemma SameMessageParts(m: Message, k: nat, l: nat)
    requires k < l < |Parts(m)|
    ensures Parts(m)[k].id != Parts(m)[l].id
  {
    var s := PartIdAt(m, k);
    var t := PartIdAt(m, l);
    if k == 0 {
      assert |PartId(m.id, t)| > |m.id|;
    } else {
      var from, to := PartsFromAt(m, 0, k);
      OffsetsAscend(m, 0, k, l);
      if PartId(m.id, s) == PartId(m.id, t) { PartIdInjective(m.id, s, m.id, t); }
    }
  }

  lemma {:induction false} OffsetsAscend(m: Message, start: nat, k: nat, l: nat)
    requires start <= |m.text| && k < l < |PartsFrom(m, start)|
    ensures var parts := PartsFrom(m, start);
      parts[k].offset.Some? && parts[l].offset.Some? && parts[k].offset.value < parts[l].offset.value
    decreases l
  {
    var from, to := PartsFromAt(m, start, l - 1);
    PartsFromNext(m, start, l - 1);
    if k < l - 1 { OffsetsAscend(m, start, k, l - 1); }
  }

  /** With distinct source ids, the split list has distinct ids exactly when no raw id imitates a part id. */
  lemma SplitIdsDistinct(messages: seq<Message>)
    ensures DistinctIds(Split(messages)) <==> DistinctIds(messages) && !Clash(messages)
  {
    if DistinctIds(messages) && !Clash(messages) { DistinctForward(messages); }
    if DistinctIds(Split(messages)) {
      forall i, j | 0 <= i < j < |messages| ensures messages[i].id != messages[j].id {
        PartsNonEmpty(messages[i]);
        RawPlaces(messages, i, j, 0);
      }
      forall i, j, k | 0 <= i < |messages| && 0 <= j < |messages| && 0 < k < |Parts(messages[i])|
        ensures Parts(messages[i])[k].id != messages[j].id
      {
        if i == j { SameMessageParts(messages[i], 0, k); var z := PartIdAt(messages[i], 0); }
        else { RawPlaces(messages, i, j, k); }
      }
    }
  }

  lemma DistinctForward(messages: seq<Message>)
    requires DistinctIds(messages) && !Clash(messages)
    ensures DistinctIds(Split(messages))
  {
    var split, rows := Split(messages), Rows(messages);
    SplitIsFlat(messages);
    forall p, q | 0 <= p < q < |split| ensures split[p].id != split[q].id {
      var i, k := Locate(rows, p);
      var j, l := Locate(rows, q);
      PairDiffers(messages, i, k, j, l);
    }
  }

  lemma PartsNonEmpty(m: Message)
    ensures Parts(m) != []
  {
  }

  lemma RawPlaces(messages: seq<Message>, i: nat, j: nat, k: nat)
    requires i < |messages| && j < |messages| && i != j && k < |Parts(messages[i])|
    requires DistinctIds(Split(messages))
    ensures Parts(messages[i])[k].id != messages[j].id
    ensures k == 0 ==> messages[i].id != messages[j].id
  {
    var rows := Rows(messages);
    SplitIsFlat(messages);
    PartsNonEmpty(messages[j]);
    Place(rows, i, k);
    Place(rows, j, 0);
    var z := PartIdAt(messages[j], 0);
    if k == 0 { var y := PartIdAt(messages[i], 0); }
    if i < j { BeforeGrows(rows, i, j); } else { BeforeGrows(rows, j, i); }
  }

  lemma PairDiffers(messages: seq<Message>, i: nat, k: nat, j: nat, l: nat)
    requires DistinctIds(messages) && !Clash(messages)
    requires i < |messages| && k < |Parts(messages[i])| && j < |messages| && l < |Parts(messages[j])|
    requires i == j ==> k != l
    ensures Parts(messages[i])[k].id != Parts(messages[j])[l].id
  {
    var s := PartIdAt(messages[i], k);
    var t := PartIdAt(messages[j], l);
    if i == j {
      SameMessageParts(messages[i], Min(k, l), Max(k, l));
    } else if s > 0 && t > 0 {
      if PartId(messages[i].id, s) == PartId(messages[j].id, t) { PartIdInjective(messages[i].id, s, messages[j].id, t); }
    }
  }

  /** Two source messages with distinct ids whose parts share one. */
  lemma ClashExists() returns (messages: seq<Message>)
    ensures DistinctIds(messages) && !DistinctIds(Split(messages))
  {
    var long := Message("x", "", seq(PART_CHARACTERS + 1, _ => 0), None, None, "");
    messages := [long, Message(PartId("x", PART_CHARACTERS), "", [], None, None, "")];
    PartsFromCons(long, 0);
    PartsFromCons(long, PART_CHARACTERS);
    assert Parts(long)[1].id == messages[1].id;
    assert |messages[1].id| > 10;
    SplitIdsDistinct(messages);
  }
}

/** Paging by message identity inside one unchanging native page. */
module PageWalk {
  import opened Common
  import opened Eviction
  import opened Search
  import opened PageSplit
  import opened PageIdentity

  const MAX_PAGE_BYTES := 3 * 1024 * 1024
  const RESERVED_BYTES := 16384
  const MAX_MESSAGES := 128
  const MAX_CURSOR_UNITS := 8192
  const MAX_ANCHOR_UNITS := 512

  /** A cursor is native text, or this pager's own payload; encoding is taken as injective. */
  datatype Payload = Payload(session: string, native: Option<string>, before: Option<string>, through: Option<string>)

  datatype Cursor = Native(text: string) | Own(payload: Payload)

  datatype SourcePage = SourcePage(messages: seq<Message>, next: Option<string>, replay: Option<string>, metaBytes: nat)

  datatype Page = Page(messages: seq<Message>, next: Option<Cursor>, pageCursor: Option<Cursor>)

  /** What the pager does not decide itself: the native reader, the bytes one presented message (and its
      node) takes, the presentation of the carried fields, and the units of an encoded cursor. */
  datatype Reader = Reader(read: string -> Result<SourcePage>, bytes: Message -> nat,
                           present: Message -> string, units: Payload -> nat)

  function Presented(reader: Reader, messages: seq<Message>): (r: seq<Message>)
    ensures |r| == |messages|
    ensures forall i :: 0 <= i < |r| ==> r[i] == messages[i].(extra := reader.present(messages[i]))
  {
    seq(|messages|, i requires 0 <= i < |messages| => messages[i].(extra := reader.present(messages[i])))
  }

  /** decodeHistoryCursor */
  predicate Accepts(reader: Reader, session: string, p: Payload) {
    var anchor := if p.before.Some? then p.before else p.through;
    && reader.units(p) <= MAX_CURSOR_UNITS
    && p.session == session
    && anchor.Some? && anchor.value != "" && |anchor.value| <= MAX_ANCHOR_UNITS
    && !(p.before.Some? && p.through.Some?)
  }

  function IdOf(m: Message): string { m.id }

  /** How far back the window that ends at `end` reaches, having taken down to `start`. */
  function WindowStart(reader: Reader, messages: seq<Message>, end: nat, start: nat, bytes: nat): (s: nat)
    requires start <= end <= |messages|
    ensures s <= start
    decreases start
  {
    if start == 0 || end - start >= MAX_MESSAGES || bytes + reader.bytes(messages[start - 1]) > MAX_PAGE_BYTES then start
    else WindowStart(reader, messages, end, start - 1, bytes + reader.bytes(messages[start - 1]))
  }

  /** Where the window that ends at `end` starts. */
  function StartOf(reader: Reader, source: SourcePage, messages: seq<Message>, end: nat): (s: nat)
    requires end <= |messages|
    ensures s <= end
  {
    WindowStart(reader, messages, end, end, source.metaBytes + RESERVED_BYTES)
  }

  function NativeOf(c: Cursor): string {
    match c case Native(text) => text case Own(p) => if p.native.Some? then p.native.value else ""
  }

  function NativePointer(cursor: string): Option<string> {
    if cursor == "" then None else Some(cursor)
  }

  /** The native cursor that reads this page again. */
  function ReplayOf(source: SourcePage, native: string): string {
    if source.replay.Some? then source.replay.value else native
  }

  /** One past the last message of the window this cursor asks for. */
  function EndAt(messages: seq<Message>, c: Cursor): (r: Result<nat>)
    ensures r.Ok? ==> r.value <= |messages|
  {
    if c.Native? || (c.payload.before.None? && c.payload.through.None?) then Ok(|messages|)
    else
      var anchor := if c.payload.before.Some? then c.payload.before.value else c.payload.through.value;
      var k := IndexOf(messages, IdOf, anchor);
      if k == |messages| then Result<nat>.Err("History changed; reopen this session before paging")
      else if c.payload.through.Some? then Ok(k + 1) else Ok(k)
  }

  /** The page of the window that ends at `end`, once source and anchor are known. */
  function PageAt(reader: Reader, session: string, source: SourcePage, replay: string, messages: seq<Message>, end: nat): Result<Page>
    requires end <= |messages|
  {
    var bytes := source.metaBytes + RESERVED_BYTES;
    if bytes > MAX_PAGE_BYTES then Err("Conversation metadata exceeds the display limit")
    else
      var start := WindowStart(reader, messages, end, end, bytes);
      if start == end && end > 0 then Err("A native message exceeds the display limit; view it in Codex")
      else
        Ok(Page(Presented(reader, messages[start..end]),
                if start > 0 then Some(Own(Payload(session, NativePointer(replay), Some(messages[start].id), None)))
                else if source.next.Some? then Some(Native(source.next.value)) else None,
                if start < end then Some(Own(Payload(session, NativePointer(replay), None, Some(messages[end - 1].id))))
                else if source.replay.Some? then Some(Native(source.replay.value)) else None))
  }

  /** ReadConversationPage */
  function ReadPage(reader: Reader, session: string, cursor: Cursor): Result<Page> {
    if cursor.Own? && !Accepts(reader, session, cursor.payload) then Err("Invalid history cursor")
    else
      var read := reader.read(NativeOf(cursor));
      if read.Err? then Err(read.error)
      else
        var messages := Split(read.value.messages);
        var at := EndAt(messages, cursor);
        if at.Err? then Err(at.error)
        else PageAt(reader, session, read.value, ReplayOf(read.value, NativeOf(cursor)), messages, at.value)
  }

  // ----- one unchanging page -----

  /** The native page behind `native` does not change, its split ids are unambiguous, its metadata fits. */
  ghost predicate Stable(reader: Reader, session: string, native: string, source: SourcePage) {
    && reader.read(native) == Ok(source)
    && reader.read(ReplayOf(source, native)) == Ok(source)
    && ReplayOf(source, ReplayOf(source, native)) == ReplayOf(source, native)
    && DistinctIds(Split(source.messages))
    && source.metaBytes + RESERVED_BYTES <= MAX_PAGE_BYTES
  }

  /** The cursor for the messages before this one is one the pager will take back. */
  ghost predicate AnchorsBefore(reader: Reader, session: string, replay: string, id: string) {
    && id != "" && |id| <= MAX_ANCHOR_UNITS
    && reader.units(Payload(session, NativePointer(replay), Some(id), None)) <= MAX_CURSOR_UNITS
  }

  /** The cursor for the messages through this one is one the pager will take back. */
  ghost predicate AnchorsThrough(reader: Reader, session: string, replay: string, id: string) {
    && id != "" && |id| <= MAX_ANCHOR_UNITS
    && reader.units(Payload(session, NativePointer(replay), None, Some(id))) <= MAX_CURSOR_UNITS
  }

  ghost predicate FitsAlone(reader: Reader, source: SourcePage, m: Message) {
    source.metaBytes + RESERVED_BYTES + reader.bytes(m) <= MAX_PAGE_BYTES
  }

  lemma IndexOfSelf(messages: seq<Message>, i: nat)
    requires DistinctIds(messages) && i < |messages|
    ensures IndexOf(messages, IdOf, messages[i].id) == i
  {
    var k := IndexOf(messages, IdOf, messages[i].id);
  }

  /** The cursor of a window's successor and of the window itself resolve to where they should. */
  lemma CursorResolves(reader: Reader, session: string, native: string, source: SourcePage, i: nat, through: bool)
    requires Stable(reader, session, native, source) && i < |Split(source.messages)|
    ensures var messages := Split(source.messages); var replay := ReplayOf(source, native); var id := messages[i].id;
      var p := Payload(session, NativePointer(replay), if through then None else Some(id), if through then Some(id) else None);
      && NativeOf(Own(p)) == replay
      && EndAt(messages, Own(p)) == Ok(if through then i + 1 else i)
      && (Accepts(reader, session, p) <==>
            if through then AnchorsThrough(reader, session, replay, id) else AnchorsBefore(reader, session, replay, id))
  {
    IndexOfSelf(Split(source.messages), i);
  }

  lemma WindowTakesOne(reader: Reader, source: SourcePage, messages: seq<Message>, end: nat)
    requires 0 < end <= |messages|
    ensures StartOf(reader, source, messages, end) < end
      <==> FitsAlone(reader, source, messages[end - 1])
  {
  }

  // ----- what a page weighs -----

  /** The messages from `start` up to `end` make one page: 128 at most, and with the metadata within the bound. */
  ghost predicate MakesPage(reader: Reader, source: SourcePage, messages: seq<Message>, start: nat, end: nat)
    requires start <= end <= |messages|
  {
    && end - start <= MAX_MESSAGES
    && source.metaBytes + RESERVED_BYTES + Total(messages[start..end], reader.bytes) <= MAX_PAGE_BYTES
  }

  lemma TotalFrom(reader: Reader, messages: seq<Message>, start: nat, end: nat)
    requires start < end <= |messages|
    ensures Total(messages[start..end], reader.bytes) == reader.bytes(messages[start]) + Total(messages[start + 1..end], reader.bytes)
  {
    assert messages[start..end][1..] == messages[start + 1..end];
  }

  /** A part of a page that reaches its end makes a page too. */
  lemma {:induction false} ShorterMakesPage(reader: Reader, source: SourcePage, messages: seq<Message>, start: nat, later: nat, end: nat)
    requires start <= later <= end <= |messages| && MakesPage(reader, source, messages, start, end)
    ensures MakesPage(reader, source, messages, later, end)
    decreases later - start
  {
    if start < later {
      TotalFrom(reader, messages, start, end);
      ShorterMakesPage(reader, source, messages, start + 1, later, end);
    }
  }

  lemma {:induction false} WindowIsMaximal(reader: Reader, source: SourcePage, messages: seq<Message>, end: nat, start: nat)
    requires start <= end <= |messages| && MakesPage(reader, source, messages, start, end)
    ensures var bytes := source.metaBytes + RESERVED_BYTES + Total(messages[start..end], reader.bytes);
      var s := WindowStart(reader, messages, end, start, bytes);
      MakesPage(reader, source, messages, s, end) && (s > 0 ==> !MakesPage(reader, source, messages, s - 1, end))
    decreases start
  {
    if start > 0 {
      TotalFrom(reader, messages, start - 1, end);
      if MakesPage(reader, source, messages, start - 1, end) { WindowIsMaximal(reader, source, messages, end, start - 1); }
    }
  }

  /** The window that ends at `end` is the longest that makes a page: 128 messages at most, within the byte bound
      with the metadata, and one message more would break one of the two. */
  lemma WindowIsLongest(reader: Reader, source: SourcePage, messages: seq<Message>, end: nat)
    requires end <= |messages| && source.metaBytes + RESERVED_BYTES <= MAX_PAGE_BYTES
    ensures forall s: nat | s <= end ::
      MakesPage(reader, source, messages, s, end) <==> StartOf(reader, source, messages, end) <= s
  {
    var start := StartOf(reader, source, messages, end);
    assert messages[end..end] == [];
    WindowIsMaximal(reader, source, messages, end, end);
    forall s: nat | s <= end ensures MakesPage(reader, source, messages, s, end) <==> start <= s {
      if start <= s {
        ShorterMakesPage(reader, source, messages, start, s, end);
      } else if MakesPage(reader, source, messages, s, end) {
        ShorterMakesPage(reader, source, messages, s, start - 1, end);
      }
    }
  }

  /** Every page that is read, whatever the source answers: the longest run of the split list that ends where the
      cursor says and makes a page. */
  lemma PageIsLongestRun(reader: Reader, session: string, cursor: Cursor) returns (source: SourcePage, start: nat, end: nat)
    requires ReadPage(reader, session, cursor).Ok?
    ensures reader.read(NativeOf(cursor)) == Ok(source)
    ensures var all := Split(source.messages);
      && start <= end <= |all| && EndAt(all, cursor) == Ok(end)
      && ReadPage(reader, session, cursor).value.messages == Presented(reader, all[start..end])
      && (end > 0 ==> start < end)
      && forall s: nat | s <= end :: MakesPage(reader, source, all, s, end) <==> start <= s
  {
    hide Split; hide MakesPage; hide Presented; hide WindowStart;
    source := reader.read(NativeOf(cursor)).value;
    var all := Split(source.messages);
    end := EndAt(all, cursor).value;
    start := StartOf(reader, source, all, end);
    WindowIsLongest(reader, source, all, end);
  }

  /** Both of the pager's own cursors lead back to the source's replay of what was read, if it gave one. A native
      cursor is passed on as it came: the source's next one, or its replay if nothing was shown. */
  lemma CursorsReplay(reader: Reader, session: string, cursor: Cursor, c: Cursor)
    requires var page := ReadPage(reader, session, cursor); page.Ok? && (page.value.next == Some(c) || page.value.pageCursor == Some(c))
    ensures reader.read(NativeOf(cursor)).Ok?
    ensures var source := reader.read(NativeOf(cursor)).value;
      match c
      case Own(p) =>
        && p.session == session && NativeOf(c) == (if source.replay.Some? then source.replay.value else NativeOf(cursor))
        && p.before.Some? != p.through.Some?
      case Native(t) => source.next == Some(t) || (source.replay == Some(t) && ReadPage(reader, session, cursor).value.messages == [])
  {
    hide Split; hide WindowStart; hide EndAt;
  }

  lemma PageAtShape(reader: Reader, session: string, source: SourcePage, replay: string, messages: seq<Message>, end: nat)
    requires end <= |messages| && source.metaBytes + RESERVED_BYTES <= MAX_PAGE_BYTES
    ensures var page := PageAt(reader, session, source, replay, messages, end);
      && (page.Ok? <==> end == 0 || FitsAlone(reader, source, messages[end - 1]))
      && (page.Ok? && end > 0 ==>
            page.value.pageCursor == Some(Own(Payload(session, NativePointer(replay), None, Some(messages[end - 1].id)))))
  {
    if end > 0 { WindowTakesOne(reader, source, messages, end); }
  }

  /** A cursor that resolves to `end` in the stable page reads the window ending there: it fails exactly
      when the newest message of that window cannot fit a page alone. */
  lemma ReadAt(reader: Reader, session: string, native: string, source: SourcePage, cursor: Cursor, end: nat)
    requires Stable(reader, session, native, source)
    requires Resolves(reader, session, native, source, cursor, end)
    ensures var messages := Split(source.messages);
      && ReadPage(reader, session, cursor) == PageAt(reader, session, source, ReplayOf(source, native), messages, end)
      && (ReadPage(reader, session, cursor).Ok? <==> end == 0 || FitsAlone(reader, source, messages[end - 1]))
  {
    PageAtShape(reader, session, source, ReplayOf(source, native), Split(source.messages), end);
  }

  /** Reading a page's own cursor returns the same window, with the same two cursors, exactly when that
      cursor is one the pager takes back. */
  lemma PageCursorRereads(reader: Reader, session: string, native: string, source: SourcePage, cursor: Cursor, end: nat)
    requires Stable(reader, session, native, source)
    requires Resolves(reader, session, native, source, cursor, end) && end > 0
    requires FitsAlone(reader, source, Split(source.messages)[end - 1])
    ensures var page := ReadPage(reader, session, cursor); var newest := Split(source.messages)[end - 1];
      && page.Ok? && page.value.pageCursor.Some?
      && (AnchorsThrough(reader, session, ReplayOf(source, native), newest.id) ==>
            ReadPage(reader, session, page.value.pageCursor.value) == page)
      && (!AnchorsThrough(reader, session, ReplayOf(source, native), newest.id) ==>
            ReadPage(reader, session, page.value.pageCursor.value) == Err("Invalid history cursor"))
  {
    var messages, replay := Split(source.messages), ReplayOf(source, native);
    ReadAt(reader, session, native, source, cursor, end);
    PageAtShape(reader, session, source, replay, messages, end);
    CursorResolves(reader, session, native, source, end - 1, true);
    var own := Own(Payload(session, NativePointer(replay), None, Some(messages[end - 1].id)));
    if Accepts(reader, session, own.payload) { ReadAt(reader, session, native, source, own, end); }
  }

  // ----- following nextCursor -----

  ghost predicate Resolves(reader: Reader, session: string, native: string, source: SourcePage, cursor: Cursor, end: nat) {
    && (cursor == Native(native) || (cursor.Own? && Accepts(reader, session, cursor.payload) && NativeOf(cursor) == ReplayOf(source, native)))
    && EndAt(Split(source.messages), cursor) == Ok(end) && end <= |Split(source.messages)|
  }

  /** One page of a walk, and when its own next cursor is taken back. */
  lemma NextResolves(reader: Reader, session: string, native: string, source: SourcePage, cursor: Cursor, end: nat)
    requires Stable(reader, session, native, source)
    requires Resolves(reader, session, native, source, cursor, end) && ReadPage(reader, session, cursor).Ok?
    ensures var page := ReadPage(reader, session, cursor).value; var messages := Split(source.messages);
      var start := StartOf(reader, source, messages, end);
      && page.messages == Presented(reader, messages[start..end])
      && (start > 0 ==> start < end && page.next.Some? && page.next.value.Own?
                        && (Accepts(reader, session, page.next.value.payload)
                            <==> AnchorsBefore(reader, session, ReplayOf(source, native), messages[start].id))
                        && (Accepts(reader, session, page.next.value.payload)
                            ==> Resolves(reader, session, native, source, page.next.value, start)))
      && (start == 0 ==> page.next == if source.next.Some? then Some(Native(source.next.value)) else None)
  {
    hide ReadPage; hide Split; hide Stable; hide WindowStart; hide Presented; hide Accepts; hide AnchorsBefore;
    var messages := Split(source.messages);
    ReadAt(reader, session, native, source, cursor, end);
    if end > 0 { WindowTakesOne(reader, source, messages, end); }
    var start := StartOf(reader, source, messages, end);
    if 0 < start {
      CursorResolves(reader, session, native, source, start, false);
    }
  }

  /** The pages that following `nextCursor` reads, newest first, until it leaves the native page; none
      when one of them is refused. */
  ghost function Follow(reader: Reader, session: string, native: string, source: SourcePage, cursor: Cursor, end: nat): (pages: Option<seq<Page>>)
    requires Stable(reader, session, native, source)
    requires Resolves(reader, session, native, source, cursor, end)
    decreases end
  {
    var page := ReadPage(reader, session, cursor);
    if page.Err? then None
    else
      NextResolves(reader, session, native, source, cursor, end);
      var next := page.value.next;
      if next.None? || next.value.Native? then Some([page.value])
      else if !Accepts(reader, session, next.value.payload) then None
      else
        var rest := Follow(reader, session, native, source, next.value, StartOf(reader, source, Split(source.messages), end));
        if rest.None? then None else Some([page.value] + rest.value)
  }

  /** Where the windows of a walk from `end` end, newest first. */
  ghost function Ends(reader: Reader, source: SourcePage, messages: seq<Message>, end: nat): (ends: seq<nat>)
    requires end <= |messages|
    ensures ends != [] && ends[0] == end
    ensures forall i :: 0 <= i < |ends| ==> ends[i] <= |messages|
    ensures forall i :: 1 <= i < |ends| ==> 0 < ends[i] < |messages|
    decreases end
  {
    var start := StartOf(reader, source, messages, end);
    if start == 0 || start == end then [end] else [end] + Ends(reader, source, messages, start)
  }

  /** The newest message of every window fits a page alone, and every window but the newest is named by a
      cursor the pager takes back. */
  ghost predicate Walkable(reader: Reader, session: string, native: string, source: SourcePage, messages: seq<Message>, end: nat)
    requires end <= |messages|
  {
    var ends := Ends(reader, source, messages, end);
    && (forall i :: 0 <= i < |ends| && ends[i] > 0 ==> FitsAlone(reader, source, messages[ends[i] - 1]))
    && (forall i :: 1 <= i < |ends| ==> AnchorsBefore(reader, session, ReplayOf(source, native), messages[ends[i]].id))
  }

  lemma WalkableStep(reader: Reader, session: string, native: string, source: SourcePage, messages: seq<Message>, end: nat)
    requires end <= |messages|
    ensures var start := StartOf(reader, source, messages, end);
      Walkable(reader, session, native, source, messages, end) <==>
        && (end > 0 ==> FitsAlone(reader, source, messages[end - 1]))
        && (0 < start < end ==> AnchorsBefore(reader, session, ReplayOf(source, native), messages[start].id)
                                && Walkable(reader, session, native, source, messages, start))
  {
    hide WindowStart; hide FitsAlone; hide AnchorsBefore;
    var start, ends := StartOf(reader, source, messages, end), Ends(reader, source, messages, end);
    if 0 < start < end {
      var rest := Ends(reader, source, messages, start);
      assert ends == [end] + rest;
      assert forall i :: 0 <= i < |rest| ==> ends[i + 1] == rest[i];
      assert forall i :: 1 <= i < |ends| ==> ends[i] == rest[i - 1];
    }
  }

  /** A walk succeeds exactly when it is Walkable. */
  lemma {:induction false} FollowSucceedsIff(reader: Reader, session: string, native: string, source: SourcePage, cursor: Cursor, end: nat)
    requires Stable(reader, session, native, source)
    requires Resolves(reader, session, native, source, cursor, end)
    ensures Follow(reader, session, native, source, cursor, end).Some?
      <==> Walkable(reader, session, native, source, Split(source.messages), end)
    decreases end
  {
    hide ReadPage; hide Split; hide Stable; hide WindowStart; hide StartOf; hide Presented; hide Walkable; hide Accepts; hide AnchorsBefore; hide FitsAlone;
    var messages := Split(source.messages);
    ReadAt(reader, session, native, source, cursor, end);
    WalkableStep(reader, session, native, source, messages, end);
    hide Resolves;
    var page := ReadPage(reader, session, cursor);
    if page.Ok? {
      NextResolves(reader, session, native, source, cursor, end);
      var start := StartOf(reader, source, messages, end);
      if 0 < start && Accepts(reader, session, page.value.next.value.payload) {
        FollowSucceedsIff(reader, session, native, source, page.value.next.value, start);
      }
    }
  }

  ghost function OldestFirst(pages: seq<Page>): seq<Message> {
    if pages == [] then [] else OldestFirst(pages[1..]) + pages[0].messages
  }

  lemma PresentedSlice(reader: Reader, messages: seq<Message>, start: nat, end: nat)
    requires start <= end <= |messages|
    ensures Presented(reader, messages[..start]) + Presented(reader, messages[start..end]) == Presented(reader, messages[..end])
  {
  }

  lemma {:induction false} FollowPartitions(reader: Reader, session: string, native: string, source: SourcePage, cursor: Cursor, end: nat)
    requires Stable(reader, session, native, source)
    requires Resolves(reader, session, native, source, cursor, end)
    requires Follow(reader, session, native, source, cursor, end).Some?
    ensures var pages := Follow(reader, session, native, source, cursor, end).value;
      && OldestFirst(pages) == Presented(reader, Split(source.messages)[..end])
      && 1 <= |pages| <= end + 1
      && pages[|pages| - 1].next == (if source.next.Some? then Some(Native(source.next.value)) else None)
    decreases end
  {
    hide ReadPage; hide Split; hide Stable; hide WindowStart; hide StartOf; hide Presented; hide Accepts; hide AnchorsBefore;
    assert end <= |Split(source.messages)|;
    hide Resolves;
    NextResolves(reader, session, native, source, cursor, end);
    var page := ReadPage(reader, session, cursor).value;
    var start := StartOf(reader, source, Split(source.messages), end);
    PresentedSlice(reader, Split(source.messages), start, end);
    if start == 0 {
      assert [page][1..] == [];
    } else {
      FollowPartitions(reader, session, native, source, page.next.value, start);
      var rest := Follow(reader, session, native, source, page.next.value, start).value;
      assert ([page] + rest)[1..] == rest;
    }
  }

  /** Following nextCursor from the first read of an unchanging page ends. It succeeds exactly when every
      window fits and is named by a usable cursor, and then its pages, oldest last, are the whole split
      list, each message once and in order. */
  lemma WalkPartitionsPage(reader: Reader, session: string, native: string, source: SourcePage)
    requires Stable(reader, session, native, source)
    ensures var all := Split(source.messages);
      && Resolves(reader, session, native, source, Native(native), |all|)
      && var pages := Follow(reader, session, native, source, Native(native), |all|);
        && (pages.Some? <==> Walkable(reader, session, native, source, all, |all|))
        && (pages.Some? ==> OldestFirst(pages.value) == Presented(reader, all) && |pages.value| <= |all| + 1)
  {
    hide Walkable; hide Presented; hide Follow; hide Split; hide OldestFirst;
    var all := Split(source.messages);
    assert Resolves(reader, session, native, source, Native(native), |all|);
    FollowSucceedsIff(reader, session, native, source, Native(native), |all|);
    if Follow(reader, session, native, source, Native(native), |all|).Some? {
      FollowPartitions(reader, session, native, source, Native(native), |all|);
      assert all[..|all|] == all;
    }
  }

  /** Exactly when the cursor a page hands out can be followed: its anchor must be nonempty and within 512
      units, the encoded cursor within 8192, and the next older message must fit a page alone. */
  lemma NextReadableIff(reader: Reader, session: string, native: string, source: SourcePage, cursor: Cursor, end: nat)
    requires Stable(reader, session, native, source) && Resolves(reader, session, native, source, cursor, end)
    requires var start := StartOf(reader, source, Split(source.messages), end);
      0 < start < end
    ensures var messages := Split(source.messages);
      var start := StartOf(reader, source, messages, end);
      var next := Payload(session, NativePointer(ReplayOf(source, native)), Some(messages[start].id), None);
      && ReadPage(reader, session, cursor).Ok? && ReadPage(reader, session, cursor).value.next == Some(Own(next))
      && (ReadPage(reader, session, Own(next)).Ok? <==>
            && messages[start].id != "" && |messages[start].id| <= MAX_ANCHOR_UNITS && reader.units(next) <= MAX_CURSOR_UNITS
            && FitsAlone(reader, source, messages[start - 1]))
  {
    var messages := Split(source.messages);
    var start := StartOf(reader, source, messages, end);
    ReadAt(reader, session, native, source, cursor, end);
    WindowTakesOne(reader, source, messages, end);
    CursorResolves(reader, session, native, source, start, false);
    var next := Payload(session, NativePointer(ReplayOf(source, native)), Some(messages[start].id), None);
    if Accepts(reader, session, next) { ReadAt(reader, session, native, source, Own(next), start); }
  }

  /** A page whose next cursor the pager refuses: a message of two parts with an id of 500 units, so that
      the id of its second part, on which the older window is anchored, has 516. */
  lemma UnreadableNextExists() returns (reader: Reader, source: SourcePage, next: Cursor)
    ensures Stable(reader, "s", "", source)
    ensures Resolves(reader, "s", "", source, Native(""), |Split(source.messages)|)
    ensures ReadPage(reader, "s", Native("")).Ok? && ReadPage(reader, "s", Native("")).value.next == Some(next)
    ensures ReadPage(reader, "s", next) == Err("Invalid history cursor")
  {
    var long := Message(seq(500, _ => 'x'), "", seq(PART_CHARACTERS + 1, _ => 0), None, None, "");
    var page := SourcePage([long], None, None, 0);
    source := page;
    reader := Reader(_ => Ok(page), _ => 2 * 1024 * 1024, _ => "", _ => 0);
    var parts := Split(source.messages);
    TwoParts(long);
    PageIdentity.SplitIdsDistinct(source.messages);
    assert Stable(reader, "s", "", source);
    var start := StartOf(reader, source, parts, 2);
    assert start == 1;
    next := Own(Payload("s", None, Some(parts[1].id), None));
    ReadAt(reader, "s", "", source, Native(""), 2);
  }

  lemma TwoParts(m: Message)
    requires |m.text| == PART_CHARACTERS + 1 && !SplitsPair(m.text, PART_CHARACTERS)
    ensures var parts := Split([m]);
      |parts| == 2 && parts[0].id == m.id && |parts[1].id| == |m.id| + 16 && !Clash([m])
  {
    PartsFromCons(m, 0);
    PartsFromCons(m, PART_CHARACTERS);
    assert [m][1..] == [];
    assert |Decimal(PART_CHARACTERS)| == 5;
  }

  // ----- the code's loops -----

  /** The backward window walk, then slicesReverse. */
  method ReadWindow(reader: Reader, messages: seq<Message>, end: nat, reserved: nat) returns (window: seq<Message>, start: nat)
    requires end <= |messages|
    ensures start == WindowStart(reader, messages, end, end, reserved)
    ensures window == Presented(reader, messages[start..end])
  {
    var taken: seq<Message> := [];
    var bytes: nat := reserved;
    start := end;
    while start > 0 && |taken| < MAX_MESSAGES
      invariant start <= end && |taken| == end - start
      invariant forall i :: 0 <= i < |taken| ==> taken[i] == messages[end - 1 - i].(extra := reader.present(messages[end - 1 - i]))
      invariant WindowStart(reader, messages, end, start, bytes) == WindowStart(reader, messages, end, end, reserved)
    {
      var message := messages[start - 1];
      if bytes + reader.bytes(message) > MAX_PAGE_BYTES { break; }
      taken := taken + [message.(extra := reader.present(message))];
      bytes := bytes + reader.bytes(message);
      start := start - 1;
    }
    var values := new Message[|taken|](i requires 0 <= i < |taken| => taken[i]);
    SlicesReverse(values);
    window := values[..];
  }

  method SlicesReverse<T>(values: array<T>)
    modifies values
    ensures forall i :: 0 <= i < values.Length ==> values[i] == old(values[values.Length - 1 - i])
  {
    var left, right := 0, values.Length - 1;
    while left < right
      invariant 0 <= left && right == values.Length - 1 - left && left <= right + 1
      invariant forall i :: 0 <= i < left ==>
        values[i] == old(values[values.Length - 1 - i]) && values[values.Length - 1 - i] == old(values[i])
      invariant forall i :: left <= i <= right ==> values[i] == old(values[i])
    {
      values[left], values[right] := values[right], values[left];
      left, right := left + 1, right - 1;
    }
  }
}
