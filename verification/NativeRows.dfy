/** The bounded rows of one native session. */
module NativeRows {
  import opened Common
  import opened Eviction
  import opened Search

  const MAX_ROWS := 128
  const MAX_SESSION_BYTES := 8 * 1024 * 1024
  const MAX_ROW_BYTES := 24 * 1024
  const MAX_TOOL_BYTES := 2 * 1024 * 1024

  datatype RowKind = Plain | Thought | Tool

  datatype Row = Row(id: string, text: string, kind: RowKind, state: string)

  function Limit(row: Row): nat { if row.kind == Tool then MAX_TOOL_BYTES else MAX_ROW_BYTES }

  function RowKey(row: Row): string { row.id }

  function Position(rows: seq<Row>, id: string): (r: Option<nat>)
    ensures r.Some? ==> r.value < |rows| && rows[r.value].id == id && forall k :: 0 <= k < r.value ==> rows[k].id != id
    ensures r.None? ==> forall k :: 0 <= k < |rows| ==> rows[k].id != id
  {
    var k := IndexOf(rows, RowKey, id);
    if k < |rows| then Some(k) else None
  }

  const BOUND := Bound(Some(MAX_ROWS), MAX_SESSION_BYTES)

  function Placed(rows: seq<Row>, row: Row): seq<Row> {
    var p := Position(rows, row.id);
    if p.None? then rows + [row] else rows[p.value := row]
  }

  /** putNativeRow: a row over its limit is removed whole */
  function Put(rows: seq<Row>, row: Row, size: Row -> nat): seq<Row> {
    if size(row) > Limit(row) then WithoutFirst(rows, RowKey, row.id) else Evict(Placed(rows, row), size, BOUND)
  }

  ghost predicate DistinctIds(rows: seq<Row>) {
    forall i, j :: 0 <= i < j < |rows| ==> rows[i].id != rows[j].id
  }

  // ----- facts -----

  lemma WithoutRows(rows: seq<Row>, id: string)
    requires DistinctIds(rows)
    ensures DistinctIds(WithoutFirst(rows, RowKey, id))
    ensures forall k :: 0 <= k < |WithoutFirst(rows, RowKey, id)| ==> WithoutFirst(rows, RowKey, id)[k].id != id && WithoutFirst(rows, RowKey, id)[k] in rows
  {
    var p := Position(rows, id);
    if p.Some? {
      var rest := rows[..p.value] + rows[p.value + 1..];
      assert forall k :: 0 <= k < |rest| ==> rest[k] == rows[if k < p.value then k else k + 1];
    }
  }

  lemma PlacedRows(rows: seq<Row>, row: Row)
    requires DistinctIds(rows)
    ensures DistinctIds(Placed(rows, row))
    ensures forall k :: 0 <= k < |Placed(rows, row)| ==> Placed(rows, row)[k] == row || (Placed(rows, row)[k].id != row.id && Placed(rows, row)[k] in rows)
  {
  }

  /** After a put every row is the new one or an old one of another id, ids stay distinct, and a row over its
      limit leaves nothing under its id. */
  lemma PutRows(rows: seq<Row>, row: Row, size: Row -> nat)
    requires DistinctIds(rows)
    ensures DistinctIds(Put(rows, row, size))
    ensures forall k :: 0 <= k < |Put(rows, row, size)| ==>
      var r := Put(rows, row, size)[k]; (r == row && size(row) <= Limit(row)) || (r.id != row.id && r in rows)
  {
    hide WithoutFirst; hide Placed; hide Evict;
    WithoutRows(rows, row.id);
    PlacedRows(rows, row);
    if size(row) <= Limit(row) {
      var placed := Placed(rows, row);
      var n := LongestSuffix(placed, size, BOUND);
      assert forall k :: 0 <= k < |placed[n..]| ==> placed[n..][k] == placed[n + k];
    }
  }

  /** Both bounds hold after every put. */
  lemma PutWithin(rows: seq<Row>, row: Row, size: Row -> nat)
    requires Within(rows, size, BOUND)
    ensures Within(Put(rows, row, size), size, BOUND)
  {
    if size(row) > Limit(row) {
      var p := Position(rows, row.id);
      if p.Some? { TotalWithout(rows, p.value, size); }
    } else {
      var n := LongestSuffix(Placed(rows, row), size, BOUND);
    }
  }

  class RowBuffer {
    var rows: seq<Row>
    var rowBytes: nat

    ghost predicate Valid(size: Row -> nat)
      reads this
    {
      DistinctIds(rows) && rowBytes == Total(rows, size) && Within(rows, size, BOUND)
    }

    constructor ()
      ensures rows == [] && rowBytes == 0
    {
      rows, rowBytes := [], 0;
    }

    /** The eviction loop. */
    method Trim(size: Row -> nat)
      requires rowBytes == Total(rows, size)
      modifies this
      ensures rows == Evict(old(rows), size, BOUND) && rowBytes == Total(rows, size)
    {
      while |rows| > MAX_ROWS || rowBytes > MAX_SESSION_BYTES
        invariant rowBytes == Total(rows, size) && Evict(rows, size, BOUND) == Evict(old(rows), size, BOUND)
        decreases |rows|
      {
        assert rows[..0] + rows[1..] == rows[1..];
        TotalWithout(rows, 0, size);
        rowBytes := rowBytes - size(rows[0]);
        rows := rows[1..];
      }
    }

    method PutNativeRow(row: Row, size: Row -> nat) returns (kept: bool)
      requires Valid(size)
      modifies this
      ensures Valid(size) && rows == Put(old(rows), row, size) && kept == (size(row) <= Limit(row))
    {
      hide Evict; hide Total;
      PutRows(rows, row, size);
      PutWithin(rows, row, size);
      var position: int := -1;
      for index := 0 to |rows|
        invariant position == -1 && forall k :: 0 <= k < index ==> rows[k].id != row.id
      {
        if rows[index].id == row.id { position := index; break; }
      }
      if position >= 0 {
        TotalWithout(rows, position, size);
        TotalReplaced(rows, position, row, size);
        rowBytes := rowBytes - size(rows[position]);
      } else {
        TotalSnoc(rows, row, size);
      }
      if size(row) > Limit(row) {
        if position >= 0 { rows := rows[..position] + rows[position + 1..]; }
        return false;
      }
      rows := if position < 0 then rows + [row] else rows[position := row];
      rowBytes := rowBytes + size(row);
      Trim(size);
      kept := true;
    }
  }
}

/** Streamed text and thinking blocks over those rows. */
module NativeStream {
  import opened Common
  import opened Eviction
  import opened Search
  import PageSplit
  import PageIdentity
  import opened NativeRows

  datatype BlockKind = TextBlock | ThinkingBlock

  datatype Block = Block(kind: BlockKind, rowID: string, closed: bool, final: bool, omitted: bool)

  datatype Stream = Stream(id: string, blocks: map<nat, Block>)

  datatype State = State(rows: seq<Row>, stream: Option<Stream>)

  datatype Event =
    | MessageStart(id: Option<string>)                       // None: no usable native id
    | BlockStart(index: nat, kind: BlockKind, text: string)
    | Delta(index: nat, kind: BlockKind, text: string)
    | BlockStop(index: nat)
    | Final(index: nat, text: string)                        // the completed block matched to this one
    | Foreign(row: Row)                                      // user rows, tool rows, unmatched final rows
    | EndStream

  function RowId(message: string, index: nat): string { message + ":block:" + PageSplit.Decimal(index) }

  lemma RowIdInjective(message: string, a: nat, b: nat)
    requires RowId(message, a) == RowId(message, b)
    ensures a == b
  {
    var prefix := message + ":block:";
    assert RowId(message, a)[|prefix|..] == PageSplit.Decimal(a) && RowId(message, b)[|prefix|..] == PageSplit.Decimal(b);
    PageIdentity.DecimalInjective(a, b);
  }

  function NewRow(id: string, kind: BlockKind, text: string): Row {
    Row(id, text, if kind == ThinkingBlock then Thought else Plain, if kind == ThinkingBlock then "running" else "")
  }

  function With(s: State, index: nat, block: Block, rows: seq<Row>): State
    requires s.stream.Some?
  {
    State(rows, Some(s.stream.value.(blocks := s.stream.value.blocks[index := block])))
  }

  function Kept(row: Row, size: Row -> nat): bool { size(row) <= Limit(row) }

  function Start(s: State, index: nat, kind: BlockKind, text: string, size: Row -> nat): State
    requires s.stream.Some?
  {
    var id := RowId(s.stream.value.id, index);
    var row := NewRow(id, kind, text);
    With(s, index, Block(kind, id, false, false, !Kept(row, size)), Put(s.rows, row, size))
  }

  function Append(s: State, index: nat, block: Block, text: string, size: Row -> nat): State
    requires s.stream.Some?
  {
    var p := Position(s.rows, block.rowID);
    if block.omitted || p.None? then s
    else
      var row := s.rows[p.value].(text := s.rows[p.value].text + text);
      With(s, index, block.(omitted := !Kept(row, size)), Put(s.rows, row, size))
  }

  function Close(s: State, index: nat, block: Block, size: Row -> nat): State
    requires s.stream.Some?
  {
    var p := Position(s.rows, block.rowID);
    var rows := if p.Some? && s.rows[p.value].kind == Thought then Put(s.rows, s.rows[p.value].(state := "succeeded"), size) else s.rows;
    With(s, index, block.(closed := true), rows)
  }

  function FinalRow(id: string, kind: BlockKind, text: string): Row {
    NewRow(id, kind, text).(state := if kind == ThinkingBlock then "succeeded" else "")
  }

  /** streamEvent, and the other writers of rows */
  function Step(s: State, e: Event, size: Row -> nat): State {
    match e
    case MessageStart(id) => s.(stream := if id.Some? then Some(Stream(id.value, map[])) else None)
    case EndStream => s.(stream := None)
    case Foreign(row) => s.(rows := Put(s.rows, row, size))
    case BlockStart(index, kind, text) =>
      if s.stream.None? || index >= MAX_ROWS || index in s.stream.value.blocks then s else Start(s, index, kind, text, size)
    case Delta(index, kind, text) =>
      if s.stream.None? || index >= MAX_ROWS || index !in s.stream.value.blocks then s
      else
        var b := s.stream.value.blocks[index];
        if b.final || b.closed || b.kind != kind then s else Append(s, index, b, text, size)
    case BlockStop(index) =>
      if s.stream.None? || index >= MAX_ROWS || index !in s.stream.value.blocks then s
      else
        var b := s.stream.value.blocks[index];
        if b.final || b.closed then s else Close(s, index, b, size)
    case Final(index, text) =>
      if s.stream.None? || index !in s.stream.value.blocks then s
      else
        var b := s.stream.value.blocks[index];
        var row := FinalRow(b.rowID, b.kind, text);
        With(s, index, b.(final := true, closed := true, omitted := !Kept(row, size)), Put(s.rows, row, size))
  }

  function Run(events: seq<Event>, size: Row -> nat): State {
    if events == [] then State([], None) else Step(Run(events[..|events| - 1], size), events[|events| - 1], size)
  }

  lemma RunThen(events: seq<Event>, e: Event, size: Row -> nat)
    ensures Run(events + [e], size) == Step(Run(events, size), e, size)
  {
    assert (events + [e])[..|events|] == events;
  }

  // ----- what was said, from the events alone -----

  predicate Resets(e: Event) { e.MessageStart? || e.EndStream? }

  /** The id of the current message. */
  function MessageId(events: seq<Event>): Option<string> {
    if events == [] then None
    else
      var e := events[|events| - 1];
      if e.MessageStart? then e.id else if e.EndStream? then None else MessageId(events[..|events| - 1])
  }

  /** The events since the current message began. */
  function Current(events: seq<Event>): seq<Event> {
    if events == [] || Resets(events[|events| - 1]) then [] else Current(events[..|events| - 1]) + [events[|events| - 1]]
  }

  function Opened(e: Event): Option<nat> { if e.BlockStart? then Some(e.index) else None }

  /** Where block i starts; the length if it does not. Later starts of it are ignored. */
  function First(es: seq<Event>, i: nat): (k: nat)
    ensures k <= |es|
  {
    IndexOf(es, Opened, Some(i))
  }

  predicate Started(es: seq<Event>, i: nat) { First(es, i) < |es| }

  function KindOf(es: seq<Event>, i: nat): BlockKind
    requires Started(es, i)
  {
    es[First(es, i)].kind
  }

  /** The events after the start of block i. */
  function After(es: seq<Event>, i: nat): seq<Event>
    requires Started(es, i)
  {
    es[First(es, i) + 1..]
  }

  predicate Completes(e: Event, i: nat) { e.Final? && e.index == i }

  predicate Ends(e: Event, i: nat) { (e.BlockStop? && e.index == i) || Completes(e, i) }

  predicate Ended(es: seq<Event>, i: nat) { exists k :: 0 <= k < |es| && Ends(es[k], i) }

  predicate Completed(es: seq<Event>, i: nat) { exists k :: 0 <= k < |es| && Completes(es[k], i) }

  predicate Extends(e: Event, i: nat, kind: BlockKind) { e.Delta? && e.index == i && e.kind == kind }

  /** The texts of all deltas of this kind, end to end, until the block ends. */
  function Deltas(es: seq<Event>, i: nat, kind: BlockKind): string {
    if es == [] || Ends(es[0], i) then ""
    else (if Extends(es[0], i, kind) then es[0].text else "") + Deltas(es[1..], i, kind)
  }

  /** What block i of the current message said: its first text and every delta of its kind since. */
  function Spoken(events: seq<Event>, i: nat): string
    requires Started(Current(events), i)
  {
    var es := Current(events);
    es[First(es, i)].text + Deltas(After(es, i), i, KindOf(es, i))
  }

  /** Block i has started and its completed form has not arrived. */
  predicate Unfinished(events: seq<Event>, i: nat) {
    var es := Current(events);
    MessageId(events).Some? && i < MAX_ROWS && Started(es, i) && !Completed(After(es, i), i)
  }

  predicate Stopped(events: seq<Event>, i: nat)
    requires Started(Current(events), i)
  {
    Ended(After(Current(events), i), i)
  }

  function NameOf(events: seq<Event>, i: nat): string
    requires MessageId(events).Some?
  {
    RowId(MessageId(events).value, i)
  }

  /** The row an unfinished block has to show. */
  function BlockRow(events: seq<Event>, i: nat): Row
    requires Unfinished(events, i)
  {
    var thought := KindOf(Current(events), i) == ThinkingBlock;
    Row(NameOf(events, i), Spoken(events, i), if thought then Thought else Plain,
        if !thought then "" else if Stopped(events, i) then "succeeded" else "running")
  }

  predicate Present(rows: seq<Row>, id: string) { exists k :: 0 <= k < |rows| && rows[k].id == id }

  /** The row that an event writes, given the events before it and whether the row of its block is still there. */
  function Written(events: seq<Event>, e: Event, rows: seq<Row>): Option<Row> {
    match e
    case MessageStart(_) => None
    case EndStream => None
    case Foreign(row) => Some(row)
    case BlockStart(i, kind, text) =>
      if MessageId(events).Some? && i < MAX_ROWS && !Started(Current(events), i) then Some(NewRow(NameOf(events, i), kind, text))
      else None
    case Delta(i, kind, text) =>
      if Unfinished(events, i) && !Stopped(events, i) && KindOf(Current(events), i) == kind && Present(rows, NameOf(events, i))
      then Some(BlockRow(events, i).(text := Spoken(events, i) + text)) else None
    case BlockStop(i) =>
      if Unfinished(events, i) && !Stopped(events, i) && KindOf(Current(events), i) == ThinkingBlock && Present(rows, NameOf(events, i))
      then Some(BlockRow(events, i).(state := "succeeded")) else None
    case Final(i, text) =>
      if MessageId(events).Some? && i < MAX_ROWS && Started(Current(events), i)
      then Some(FinalRow(NameOf(events, i), KindOf(Current(events), i), text)) else None
  }

  /** No other writer uses the id of an unfinished block. */
  ghost predicate NoClash(events: seq<Event>) {
    forall n, i :: 0 <= n < |events| && events[n].Foreign? && Unfinished(events[..n], i) ==>
      events[n].row.id != NameOf(events[..n], i)
  }

  // ----- one more event -----

  lemma CurrentThen(events: seq<Event>, e: Event)
    ensures MessageId(events + [e]) == if e.MessageStart? then e.id else if e.EndStream? then None else MessageId(events)
    ensures Current(events + [e]) == if Resets(e) then [] else Current(events) + [e]
  {
    assert (events + [e])[..|events|] == events;
  }

  lemma FirstThen(es: seq<Event>, e: Event, i: nat)
    ensures Started(es, i) ==> First(es + [e], i) == First(es, i)
    ensures !Started(es, i) ==> First(es + [e], i) == if Opened(e) == Some(i) then |es| else |es| + 1
  {
    FirstIndex(es + [e], Opened, Some(i), if Started(es, i) || Opened(e) == Some(i) then First(es, i) else |es| + 1);
  }

  lemma AfterThen(es: seq<Event>, e: Event, i: nat)
    ensures Started(es + [e], i) <==> Started(es, i) || Opened(e) == Some(i)
    ensures Started(es, i) ==> After(es + [e], i) == After(es, i) + [e] && KindOf(es + [e], i) == KindOf(es, i)
    ensures !Started(es, i) && Opened(e) == Some(i) ==> After(es + [e], i) == [] && KindOf(es + [e], i) == e.kind
  {
    FirstThen(es, e, i);
  }

  lemma EndedThen(es: seq<Event>, e: Event, i: nat)
    ensures Ended(es + [e], i) <==> Ended(es, i) || Ends(e, i)
    ensures Completed(es + [e], i) <==> Completed(es, i) || Completes(e, i)
  {
    assert (es + [e])[|es|] == e && forall k :: 0 <= k < |es| ==> (es + [e])[k] == es[k];
  }

  lemma EndedCons(es: seq<Event>, i: nat)
    requires es != []
    ensures Ended(es, i) <==> Ends(es[0], i) || Ended(es[1..], i)
  {
    assert forall k :: 0 <= k < |es[1..]| ==> es[1..][k] == es[k + 1];
    if k :| 0 <= k < |es| && Ends(es[k], i) && k > 0 { assert Ends(es[1..][k - 1], i); }
  }

  lemma {:induction false} DeltasThen(es: seq<Event>, e: Event, i: nat, kind: BlockKind)
    ensures Deltas(es + [e], i, kind) == Deltas(es, i, kind) + if !Ended(es, i) && Extends(e, i, kind) then e.text else ""
  {
    if es == [] {
      assert [] + [e] == [e] && [e][1..] == [];
    } else {
      hide Ended;
      assert (es + [e])[1..] == es[1..] + [e] && (es + [e])[0] == es[0];
      EndedCons(es, i);
      DeltasThen(es[1..], e, i, kind);
    }
  }

  lemma SpokenThen(events: seq<Event>, e: Event, i: nat)
    requires Started(Current(events), i) && !Resets(e)
    ensures Started(Current(events + [e]), i)
    ensures Spoken(events + [e], i) == Spoken(events, i) +
            if !Stopped(events, i) && Extends(e, i, KindOf(Current(events), i)) then e.text else ""
    ensures Stopped(events + [e], i) <==> Stopped(events, i) || Ends(e, i)
    ensures Unfinished(events + [e], i) <==> Unfinished(events, i) && !Completes(e, i)
  {
    hide Current; hide MessageId; hide First; hide Deltas; hide Ended; hide Completed;
    var es := Current(events);
    CurrentThen(events, e);
    FirstThen(es, e, i);
    AfterThen(es, e, i);
    EndedThen(After(es, i), e, i);
    DeltasThen(After(es, i), e, i, KindOf(es, i));
    assert (es + [e])[First(es, i)] == es[First(es, i)];
  }

  // ----- the flags of a block follow the events -----

  ghost predicate FlagsOk(b: Block, events: seq<Event>, i: nat)
    requires MessageId(events).Some? && Started(Current(events), i)
  {
    && b.rowID == NameOf(events, i) && b.kind == KindOf(Current(events), i)
    && (b.closed <==> Stopped(events, i)) && (b.final <==> Completed(After(Current(events), i), i))
  }

  ghost predicate Follows(s: State, events: seq<Event>) {
    && (s.stream.Some? <==> MessageId(events).Some?)
    && (s.stream.Some? ==> s.stream.value.id == MessageId(events).value)
    && (s.stream.Some? ==> forall i: nat :: i in s.stream.value.blocks <==> i < MAX_ROWS && Started(Current(events), i))
    && (s.stream.Some? ==> forall i :: i in s.stream.value.blocks ==> FlagsOk(s.stream.value.blocks[i], events, i))
  }

  lemma CompletedEnded(es: seq<Event>, i: nat)
    requires Completed(es, i)
    ensures Ended(es, i)
  {
  }

  /** A block that e starts is neither stopped nor completed. */
  lemma NewBlock(events: seq<Event>, e: Event, i: nat)
    requires !Started(Current(events), i) && Opened(e) == Some(i)
    ensures Started(Current(events + [e]), i) && !Stopped(events + [e], i) && !Completed(After(Current(events + [e]), i), i)
  {
    CurrentThen(events, e);
    AfterThen(Current(events), e, i);
  }

  lemma FollowsBlock(s: State, events: seq<Event>, e: Event, i: nat, size: Row -> nat)
    requires Follows(s, events) && s.stream.Some? && !Resets(e)
    ensures var t := Step(s, e, size);
      && t.stream.Some? && t.stream.value.id == s.stream.value.id && MessageId(events + [e]) == MessageId(events)
      && (i in t.stream.value.blocks <==> i < MAX_ROWS && Started(Current(events + [e]), i))
      && (i in t.stream.value.blocks ==> MessageId(events + [e]).Some? && FlagsOk(t.stream.value.blocks[i], events + [e], i))
  {
    hide Put; hide First; hide Current; hide MessageId; hide Ended; hide Completed; hide Position;
    CurrentThen(events, e);
    AfterThen(Current(events), e, i);
    if Started(Current(events), i) {
      EndedThen(After(Current(events), i), e, i);
      if Completed(After(Current(events), i), i) { CompletedEnded(After(Current(events), i), i); }
    } else if Opened(e) == Some(i) {
      NewBlock(events, e, i);
    }
  }

  lemma FollowsReset(s: State, events: seq<Event>, e: Event, size: Row -> nat)
    requires Follows(s, events) && (Resets(e) || s.stream.None?)
    ensures Follows(Step(s, e, size), events + [e])
  {
    hide Put;
    CurrentThen(events, e);
    assert Resets(e) ==> forall i :: !Started(Current(events + [e]), i);
  }

  lemma {:induction false} FlagsFollow(events: seq<Event>, size: Row -> nat)
    ensures Follows(Run(events, size), events)
    decreases |events|
  {
    if events != [] {
      hide Step; hide Started; hide FlagsOk; hide Current; hide MessageId;
      var before, e := events[..|events| - 1], events[|events| - 1];
      assert events == before + [e];
      FlagsFollow(before, size);
      var s := Run(before, size);
      if Resets(e) || s.stream.None? {
        FollowsReset(s, before, e, size);
      } else {
        FollowsBlock(s, before, e, 0, size);
        forall i { FollowsBlock(s, before, e, i, size); }
      }
    }
  }

  // ----- the rows show what was said -----

  ghost predicate Absent(rows: seq<Row>, id: string) { forall k :: 0 <= k < |rows| ==> rows[k].id != id }

  /** Nothing but `row` is there under its id, and nothing at all if the block was dropped for its size. */
  ghost predicate BlockOk(s: State, i: nat, row: Row) {
    && s.stream.Some? && i in s.stream.value.blocks
    && (forall k :: 0 <= k < |s.rows| && s.rows[k].id == row.id ==> s.rows[k] == row)
    && (s.stream.value.blocks[i].omitted ==> Absent(s.rows, row.id))
  }

  ghost predicate Inv(events: seq<Event>, size: Row -> nat) {
    var s := Run(events, size);
    && DistinctIds(s.rows) && Within(s.rows, size, BOUND)
    && forall i :: Unfinished(events, i) ==> BlockOk(s, i, BlockRow(events, i))
  }

  /** A put under another id changes no row of this id, but may evict it. */
  lemma PutOther(rows: seq<Row>, row: Row, id: string, size: Row -> nat)
    requires DistinctIds(rows) && row.id != id
    ensures forall k :: 0 <= k < |Put(rows, row, size)| && Put(rows, row, size)[k].id == id ==> Put(rows, row, size)[k] in rows
  {
    hide Put;
    PutRows(rows, row, size);
  }

  lemma PutSame(rows: seq<Row>, row: Row, size: Row -> nat)
    requires DistinctIds(rows)
    ensures forall k :: 0 <= k < |Put(rows, row, size)| && Put(rows, row, size)[k].id == row.id ==> Put(rows, row, size)[k] == row
    ensures !Kept(row, size) ==> Absent(Put(rows, row, size), row.id)
  {
    hide Put;
    PutRows(rows, row, size);
  }

  lemma NamesDiffer(events: seq<Event>, i: nat, j: nat)
    requires MessageId(events).Some? && i != j
    ensures NameOf(events, i) != NameOf(events, j)
  {
    if NameOf(events, i) == NameOf(events, j) { RowIdInjective(MessageId(events).value, i, j); }
  }

  lemma PositionIf(rows: seq<Row>, id: string)
    ensures Position(rows, id).Some? <==> Present(rows, id)
    ensures Position(rows, id).None? <==> Absent(rows, id)
  {
  }

  predicate About(e: Event, i: nat) { (e.BlockStart? || e.Delta? || e.BlockStop? || e.Final?) && e.index == i }

  /** Step writes the row that the events call for. */
  ghost predicate Writes(s: State, events: seq<Event>, e: Event, size: Row -> nat) {
    var w := Written(events, e, s.rows);
    Step(s, e, size).rows == if w.Some? then Put(s.rows, w.value, size) else s.rows
  }

  lemma OwnStart(s: State, events: seq<Event>, e: Event, size: Row -> nat)
    requires Follows(s, events) && DistinctIds(s.rows) && e.BlockStart? && !Started(Current(events), e.index)
    ensures Writes(s, events, e, size)
    ensures Unfinished(events + [e], e.index) ==> BlockOk(Step(s, e, size), e.index, BlockRow(events + [e], e.index))
  {
    hide Put; hide First;
    CurrentThen(events, e);
    AfterThen(Current(events), e, e.index);
    if s.stream.Some? && e.index < MAX_ROWS {
      FirstThen(Current(events), e, e.index);
      PutSame(s.rows, NewRow(NameOf(events, e.index), e.kind, e.text), size);
    }
  }

  lemma OwnDelta(s: State, events: seq<Event>, e: Event, size: Row -> nat)
    requires Follows(s, events) && DistinctIds(s.rows) && e.Delta?
    requires Unfinished(events, e.index) ==> BlockOk(s, e.index, BlockRow(events, e.index))
    ensures Writes(s, events, e, size)
    ensures Unfinished(events + [e], e.index) ==> BlockOk(Step(s, e, size), e.index, BlockRow(events + [e], e.index))
  {
    hide Put; hide First; hide Deltas; hide Spoken; hide Position;
    CurrentThen(events, e);
    AfterThen(Current(events), e, e.index);
    if s.stream.Some? && e.index < MAX_ROWS && Started(Current(events), e.index) {
      SpokenThen(events, e, e.index);
      EndedIfCompleted(After(Current(events), e.index), e.index);
      PositionIf(s.rows, NameOf(events, e.index));
      var w := Written(events, e, s.rows);
      if w.Some? { PutSame(s.rows, w.value, size); }
    }
  }

  lemma OwnStop(s: State, events: seq<Event>, e: Event, size: Row -> nat)
    requires Follows(s, events) && DistinctIds(s.rows) && e.BlockStop?
    requires Unfinished(events, e.index) ==> BlockOk(s, e.index, BlockRow(events, e.index))
    ensures Writes(s, events, e, size)
    ensures Unfinished(events + [e], e.index) ==> BlockOk(Step(s, e, size), e.index, BlockRow(events + [e], e.index))
  {
    hide Put; hide First; hide Deltas; hide Spoken; hide Position;
    CurrentThen(events, e);
    AfterThen(Current(events), e, e.index);
    if s.stream.Some? && e.index < MAX_ROWS && Started(Current(events), e.index) {
      SpokenThen(events, e, e.index);
      EndedIfCompleted(After(Current(events), e.index), e.index);
      PositionIf(s.rows, NameOf(events, e.index));
      var w := Written(events, e, s.rows);
      if w.Some? { PutSame(s.rows, w.value, size); }
    }
  }

  lemma OwnRest(s: State, events: seq<Event>, e: Event, size: Row -> nat)
    requires Follows(s, events) && (e.Final? || (e.BlockStart? && Started(Current(events), e.index)))
    requires Unfinished(events, e.index) ==> BlockOk(s, e.index, BlockRow(events, e.index))
    ensures Writes(s, events, e, size)
    ensures Unfinished(events + [e], e.index) ==> BlockOk(Step(s, e, size), e.index, BlockRow(events + [e], e.index))
  {
    hide Put; hide First; hide Deltas; hide Spoken;
    CurrentThen(events, e);
    AfterThen(Current(events), e, e.index);
    if Started(Current(events), e.index) { SpokenThen(events, e, e.index); }
  }

  /** The event of a block: the row it writes, and the block afterwards. */
  lemma OwnBlock(events: seq<Event>, e: Event, size: Row -> nat)
    requires Inv(events, size) && (e.BlockStart? || e.Delta? || e.BlockStop? || e.Final?)
    ensures Writes(Run(events, size), events, e, size)
    ensures Unfinished(events + [e], e.index) ==> BlockOk(Step(Run(events, size), e, size), e.index, BlockRow(events + [e], e.index))
  {
    hide Step; hide Writes; hide BlockOk; hide Unfinished; hide Started; hide Follows;
    var s := Run(events, size);
    FlagsFollow(events, size);
    if e.Delta? { OwnDelta(s, events, e, size); }
    else if e.BlockStop? { OwnStop(s, events, e, size); }
    else if e.BlockStart? && !Started(Current(events), e.index) { OwnStart(s, events, e, size); }
    else { OwnRest(s, events, e, size); }
  }

  lemma EndedIfCompleted(es: seq<Event>, i: nat)
    ensures Completed(es, i) ==> Ended(es, i)
  {
    if k :| 0 <= k < |es| && Completes(es[k], i) { assert Ends(es[k], i); }
  }


  /** Another event leaves the block itself alone. */
  lemma OtherKept(s: State, e: Event, j: nat, size: Row -> nat)
    requires s.stream.Some? && j in s.stream.value.blocks && !About(e, j) && !Resets(e)
    ensures var t := Step(s, e, size); t.stream.Some? && j in t.stream.value.blocks && t.stream.value.blocks[j] == s.stream.value.blocks[j]
  {
    hide Put; hide Position;
  }

  /** What another event writes does not come under this block's id. */
  lemma OtherId(events: seq<Event>, e: Event, j: nat, rows: seq<Row>)
    requires NoClash(events + [e]) && Unfinished(events, j) && !About(e, j)
    ensures var w := Written(events, e, rows); w.Some? ==> w.value.id != BlockRow(events, j).id
  {
    hide Written; hide NoClash; hide Spoken;
    WrittenId(events, e, rows);
    if e.Foreign? {
      ForeignApart(events, e, j);
    } else if Written(events, e, rows).Some? {
      NamesDiffer(events, e.index, j);
    }
  }

  /** The blocks an event does not speak of. */
  lemma OtherBlock(events: seq<Event>, e: Event, j: nat, size: Row -> nat)
    requires Inv(events, size) && Unfinished(events + [e], j) && !About(e, j) && NoClash(events + [e])
    ensures BlockOk(Step(Run(events, size), e, size), j, BlockRow(events + [e], j))
  {
    hide Put; hide Within; hide Written; hide Step; hide BlockRow; hide Unfinished; hide Run; hide NoClash; hide About; hide Resets;
    var s := Run(events, size);
    OtherRow(events, e, j);
    RowsThen(events, e, size);
    assert BlockOk(s, j, BlockRow(events, j));
    OtherKept(s, e, j, size);
    OtherId(events, e, j, s.rows);
    var w := Written(events, e, s.rows);
    if w.Some? { PutOther(s.rows, w.value, BlockRow(events, j).id, size); }
  }

  lemma OtherRow(events: seq<Event>, e: Event, j: nat)
    requires Unfinished(events + [e], j) && !About(e, j)
    ensures !Resets(e) && Unfinished(events, j) && BlockRow(events + [e], j) == BlockRow(events, j)
  {
    hide First; hide Deltas; hide Spoken;
    CurrentThen(events, e);
    AfterThen(Current(events), e, j);
    SpokenThen(events, e, j);
  }

  lemma ForeignApart(events: seq<Event>, e: Event, j: nat)
    requires NoClash(events + [e]) && e.Foreign? && Unfinished(events, j)
    ensures e.row.id != NameOf(events, j)
  {
    var all := events + [e];
    assert all[..|events|] == events && all[|events|] == e;
    assert Unfinished(all[..|events|], j);
  }

  /** An event of a block writes under its name. */
  lemma WrittenId(events: seq<Event>, e: Event, rows: seq<Row>)
    ensures var w := Written(events, e, rows);
      w.Some? ==> if e.Foreign? then w.value == e.row else
        MessageId(events).Some? && (e.BlockStart? || e.Delta? || e.BlockStop? || e.Final?) && w.value.id == NameOf(events, e.index)
  {
    hide Spoken; hide First;
  }

  lemma NoClashBefore(events: seq<Event>, n: nat)
    requires NoClash(events) && n <= |events|
    ensures NoClash(events[..n])
  {
    var before := events[..n];
    assert forall k :: 0 <= k < n ==> before[k] == events[k] && before[..k] == events[..k];
  }

  lemma {:induction false} Reachable(events: seq<Event>, size: Row -> nat)
    requires NoClash(events)
    ensures Inv(events, size)
    decreases |events|
  {
    if events == [] {
      assert Within<Row>([], size, BOUND) && forall i :: !Unfinished(events, i);
    } else {
      hide Step; hide NoClash; hide Unfinished; hide BlockRow; hide Within;
      var before, e := events[..|events| - 1], events[|events| - 1];
      assert events == before + [e];
      NoClashBefore(events, |before|);
      Reachable(before, size);
      RowsThen(before, e, size);
      var s := Run(before, size);
      var w := Written(before, e, s.rows);
      if w.Some? {
        PutRows(s.rows, w.value, size);
        PutWithin(s.rows, w.value, size);
      }
      forall i | Unfinished(events, i) ensures BlockOk(Run(events, size), i, BlockRow(events, i)) {
        if About(e, i) { OwnBlock(before, e, size); } else { OtherBlock(before, e, i, size); }
      }
    }
  }

  lemma RowsThen(events: seq<Event>, e: Event, size: Row -> nat)
    requires Inv(events, size)
    ensures Writes(Run(events, size), events, e, size)
  {
    hide Put; hide Inv; hide Unfinished;
    if e.BlockStart? || e.Delta? || e.BlockStop? || e.Final? { OwnBlock(events, e, size); }
  }

  /** The rows of a run are those that its events call for, one put after the other. */
  lemma RowsFollow(events: seq<Event>, e: Event, size: Row -> nat)
    requires NoClash(events)
    ensures var rows, w := Run(events, size).rows, Written(events, e, Run(events, size).rows);
      Run(events + [e], size).rows == if w.Some? then Put(rows, w.value, size) else rows
  {
    hide Put; hide Inv; hide Step; hide NoClash; hide Written;
    Reachable(events, size);
    RowsThen(events, e, size);
    RunThen(events, e, size);
  }

  lemma BlockRight(events: seq<Event>, i: nat, size: Row -> nat)
    requires NoClash(events) && Unfinished(events, i)
    ensures DistinctIds(Run(events, size).rows) && BlockOk(Run(events, size), i, BlockRow(events, i))
  {
    hide Run; hide NoClash; hide Unfinished; hide BlockOk; hide BlockRow;
    Reachable(events, size);
  }

  /** In every run the visible row of an unfinished block holds its first text and all deltas since: never a suffix, never a gap. */
  lemma VisibleTextIsWhole(events: seq<Event>, size: Row -> nat, i: nat, k: nat)
    requires NoClash(events) && Unfinished(events, i) && k < |Run(events, size).rows|
    requires Run(events, size).rows[k].id == NameOf(events, i)
    ensures Run(events, size).rows[k] == BlockRow(events, i) && Run(events, size).rows[k].text == Spoken(events, i)
  {
    hide Run; hide NoClash; hide Spoken;
    BlockRight(events, i, size);
  }

  // ----- when a row is there -----

  /** A row of this id is there after the put: the put one fits and so do the rows from this place on, or the put
      one is too large and this is another that was there before. */
  predicate Leaves(rows: seq<Row>, put: Row, id: string, size: Row -> nat) {
    if Kept(put, size) then
      var p := Position(Placed(rows, put), id);
      p.Some? && Within(Placed(rows, put)[p.value..], size, BOUND)
    else put.id != id && Present(rows, id)
  }

  lemma SuffixWithin(rows: seq<Row>, n: nat, k: nat, size: Row -> nat)
    requires n <= k <= |rows| && Within(rows[n..], size, BOUND)
    ensures Within(rows[k..], size, BOUND)
  {
    assert rows[n..] == rows[n..k] + rows[k..];
    TotalAppend(rows[n..k], rows[k..], size);
  }

  lemma PutLeaves(rows: seq<Row>, put: Row, id: string, size: Row -> nat)
    requires DistinctIds(rows)
    ensures Present(Put(rows, put, size), id) <==> Leaves(rows, put, id, size)
  {
    hide WithoutFirst; hide Evict; hide Within; hide Position; hide Placed;
    if Kept(put, size) {
      var placed := Placed(rows, put);
      PlacedRows(rows, put);
      var n := LongestSuffix(placed, size, BOUND);
      var p := Position(placed, id);
      if p.Some? && n <= p.value {
        SuffixWithin(placed, n, p.value, size);
        assert placed[n..][p.value - n].id == id;
      }
      assert forall k :: 0 <= k < |placed[n..]| ==> placed[n..][k] == placed[n + k];
    } else {
      WithoutLeaves(rows, put.id, id);
    }
  }

  lemma WithoutLeaves(rows: seq<Row>, gone: string, id: string)
    requires DistinctIds(rows)
    ensures Present(WithoutFirst(rows, RowKey, gone), id) <==> gone != id && Present(rows, id)
  {
    hide Position;
    WithoutRows(rows, gone);
    var k := IndexOf(rows, RowKey, gone);
    if gone != id && Present(rows, id) {
      var j :| 0 <= j < |rows| && rows[j].id == id;
      assert WithoutFirst(rows, RowKey, gone)[if j < k then j else j - 1].id == id;
    }
  }

  /** A block's row is there after an event exactly if the event wrote nothing and it was there before, or what it
      wrote leaves it: with VisibleTextIsWhole, nothing but its size or eviction hides a started block. */
  lemma RowStaysIff(events: seq<Event>, e: Event, i: nat, size: Row -> nat)
    requires NoClash(events) && Unfinished(events + [e], i)
    ensures var rows, id := Run(events, size).rows, NameOf(events + [e], i);
      Present(Run(events + [e], size).rows, id) <==>
      match Written(events, e, rows)
      case None => Present(rows, id)
      case Some(row) => Leaves(rows, row, id, size)
  {
    hide Put; hide Leaves; hide Written; hide NoClash; hide Present;
    var rows := Run(events, size).rows;
    Reachable(events, size);
    RowsFollow(events, e, size);
    var w := Written(events, e, rows);
    if w.Some? { PutLeaves(rows, w.value, NameOf(events + [e], i), size); }
  }

  /** A row that is gone before an event, oversized or evicted, is gone after it, unless the block starts. */
  lemma GoneStaysGone(events: seq<Event>, e: Event, i: nat, size: Row -> nat)
    requires NoClash(events + [e]) && Unfinished(events, i) && Unfinished(events + [e], i)
    requires !Present(Run(events, size).rows, NameOf(events, i)) && !Resets(e)
    ensures NameOf(events + [e], i) == NameOf(events, i) && !Present(Run(events + [e], size).rows, NameOf(events, i))
  {
    hide Put; hide BlockRow; hide Spoken; hide Within; hide Position; hide First;
    var rows, id := Run(events, size).rows, NameOf(events, i);
    var all := events + [e];
    assert all[..|events|] == events && all[|events|] == e;
    NoClashBefore(all, |events|);
    CurrentThen(events, e);
    SpokenThen(events, e, i);
    Reachable(events, size);
    RowsFollow(events, e, size);
    var w := Written(events, e, rows);
    if w.Some? {
      if !e.Foreign? && e.index != i { NamesDiffer(events, e.index, i); }
      WrittenId(events, e, rows);
      PutOther(rows, w.value, id, size);
    }
  }

  lemma UnfinishedStarted(events: seq<Event>, i: nat)
    requires Unfinished(events, i)
    ensures Started(Current(events), i)
  {
  }

  /** Over any further events of the same message. */
  lemma {:induction false} NoSuffixReappears(events: seq<Event>, more: seq<Event>, i: nat, size: Row -> nat)
    requires NoClash(events + more) && Unfinished(events, i) && !Present(Run(events, size).rows, NameOf(events, i))
    requires forall k :: 0 <= k < |more| ==> !Resets(more[k]) && !Completes(more[k], i)
    ensures Unfinished(events + more, i) && NameOf(events + more, i) == NameOf(events, i)
    ensures !Present(Run(events + more, size).rows, NameOf(events, i))
    decreases |more|
  {
    hide Run; hide NoClash; hide Unfinished; hide Present;
    if more == [] {
      assert events + more == events;
    } else {
      var n := |more| - 1;
      var so, e := events + more[..n], more[n];
      assert events + more == so + [e] && (events + more)[..|so|] == so;
      NoClashBefore(events + more, |so|);
      NoSuffixReappears(events, more[..n], i, size);
      UnfinishedStarted(so, i);
      SpokenThen(so, e, i);
      CurrentThen(so, e);
      GoneStaysGone(so, e, i, size);
    }
  }

  lemma ForeignRow(events: seq<Event>, e: Event, i: nat)
    requires Unfinished(events, i) && e.Foreign?
    ensures Unfinished(events + [e], i) && BlockRow(events + [e], i) == BlockRow(events, i)
  {
    hide First; hide Deltas; hide Spoken;
    CurrentThen(events, e);
    SpokenThen(events, e, i);
    AfterThen(Current(events), e, i);
  }

  lemma RowNamed(events: seq<Event>, i: nat)
    requires Unfinished(events, i)
    ensures BlockRow(events, i).id == NameOf(events, i)
  {
  }

  /** Why clashes are excluded: a row written under an unfinished block's id leaves the block right exactly if it
      does not stay, or is the block's own row while that was not dropped. */
  lemma ClashIsRightOnlyIfEqual(events: seq<Event>, row: Row, i: nat, size: Row -> nat)
    requires NoClash(events) && Unfinished(events, i) && NameOf(events, i) == row.id
    ensures !NoClash(events + [Foreign(row)])
    ensures Unfinished(events + [Foreign(row)], i) && BlockRow(events + [Foreign(row)], i) == BlockRow(events, i)
    ensures var s := Run(events, size);
      && s.stream.Some? && i in s.stream.value.blocks
      && (BlockOk(Run(events + [Foreign(row)], size), i, BlockRow(events, i)) <==>
          (Leaves(s.rows, row, row.id, size) ==> row == BlockRow(events, i) && !s.stream.value.blocks[i].omitted))
  {
    hide Put; hide Leaves; hide Run; hide BlockRow; hide Unfinished;
    RowNamed(events, i);
    var e, s := Foreign(row), Run(events, size);
    if NoClash(events + [e]) { ForeignApart(events, e, i); }
    BlockRight(events, i, size);
    ForeignRow(events, e, i);
    RunThen(events, e, size);
    PutSame(s.rows, row, size);
    PutLeaves(s.rows, row, row.id, size);
  }

  /** A put into at most one row, of its own id, leaves that row alone. */
  lemma PutOnly(rows: seq<Row>, row: Row, size: Row -> nat)
    requires Kept(row, size) && (rows == [] || (|rows| == 1 && rows[0].id == row.id))
    ensures Put(rows, row, size) == [row]
  {
    TotalOne(row, size);
    assert Placed(rows, row) == [row];
  }

  lemma SaidOnce(first: Event, second: Event)
    requires first == MessageStart(Some("m")) && second == BlockStart(0, TextBlock, "said")
    ensures var es := [] + [first] + [second]; Started(Current(es), 0) && Spoken(es, 0) == "said"
  {
    CurrentThen([], first);
    CurrentThen([] + [first], second);
    AfterThen([], second, 0);
    FirstThen([], second, 0);
  }

  /** A run in which a tool row under the id of an open block hides what the block said. */
  lemma ClashOverwrites() returns (events: seq<Event>, size: Row -> nat)
    ensures var s := Run(events, size);
      Unfinished(events, 0) && |s.rows| == 1 && s.rows[0].id == NameOf(events, 0) && s.rows[0].text != Spoken(events, 0)
  {
    hide Put; hide First; hide Deltas;
    size := _ => 1;
    var first, second := MessageStart(Some("m")), BlockStart(0, TextBlock, "said");
    var tool := Row(RowId("m", 0), "other", Tool, "");
    assert Run([], size) == State([], None);
    RunThen([], first, size);
    PutOnly([], NewRow(RowId("m", 0), TextBlock, "said"), size);
    RunThen([] + [first], second, size);
    PutOnly([NewRow(RowId("m", 0), TextBlock, "said")], tool, size);
    RunThen([] + [first] + [second], Foreign(tool), size);
    events := [] + [first] + [second] + [Foreign(tool)];
    CurrentThen([], first);
    CurrentThen([] + [first], second);
    CurrentThen([] + [first] + [second], Foreign(tool));
    AfterThen([], second, 0);
    SpokenThen([] + [first] + [second], Foreign(tool), 0);
    SaidOnce(first, second);
    assert |"said"| != |"other"|;
  }

  // ----- the session -----

  class NativeSession {
    const buffer: RowBuffer
    var stream: Option<Stream>

    ghost function Abs(): State
      reads this, buffer
    {
      State(buffer.rows, stream)
    }

    constructor ()
      ensures fresh(buffer) && Abs() == State([], None) && buffer.rowBytes == 0
    {
      buffer := new RowBuffer();
      stream := None;
    }

    method SetBlock(index: nat, block: Block)
      requires stream.Some?
      modifies this`stream
      ensures stream == Some(old(stream).value.(blocks := old(stream).value.blocks[index := block]))
    {
      stream := Some(stream.value.(blocks := stream.value.blocks[index := block]));
    }

    /** message_start, content_block_start, content_block_delta and content_block_stop */
    method StreamEvent(e: Event, size: Row -> nat)
      requires buffer.Valid(size) && (e.MessageStart? || e.BlockStart? || e.Delta? || e.BlockStop?)
      modifies this, buffer
      ensures buffer.Valid(size) && Abs() == Step(old(Abs()), e, size)
    {
      hide Put;
      if e.MessageStart? {
        stream := if e.id.Some? then Some(Stream(e.id.value, map[])) else None;
        return;
      }
      if stream.None? || e.index >= MAX_ROWS { return; }
      var index := e.index;
      if e.BlockStart? {
        if index in stream.value.blocks { return; }
        var id := RowId(stream.value.id, index);
        var kept := buffer.PutNativeRow(NewRow(id, e.kind, e.text), size);
        SetBlock(index, Block(e.kind, id, false, false, !kept));
        return;
      }
      if index !in stream.value.blocks { return; }
      var block := stream.value.blocks[index];
      if block.final || block.closed { return; }
      var p := Position(buffer.rows, block.rowID);
      if e.BlockStop? {
        SetBlock(index, block.(closed := true));
        if p.Some? && buffer.rows[p.value].kind == Thought {
          var _ := buffer.PutNativeRow(buffer.rows[p.value].(state := "succeeded"), size);
        }
        return;
      }
      if block.kind != e.kind { return; }
      if block.omitted || p.None? { return; }
      var row := buffer.rows[p.value].(text := buffer.rows[p.value].text + e.text);
      var kept := buffer.PutNativeRow(row, size);
      SetBlock(index, block.(omitted := !kept));
    }

    /** assistantBlocks: the completed block replaces the row in place */
    method FinishBlock(index: nat, text: string, size: Row -> nat)
      requires buffer.Valid(size)
      modifies this, buffer
      ensures buffer.Valid(size) && Abs() == Step(old(Abs()), Final(index, text), size)
    {
      hide Put;
      if stream.None? || index !in stream.value.blocks { return; }
      var block := stream.value.blocks[index];
      var kept := buffer.PutNativeRow(FinalRow(block.rowID, block.kind, text), size);
      SetBlock(index, block.(final := true, closed := true, omitted := !kept));
    }
  }
}
