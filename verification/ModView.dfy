/**
 What the view of a Claude Mod registration says, read off the accepted events
 alone: each field is decided by the last event that speaks of it.
 */
module ModView {
  import opened Common
  import opened Eviction
  import opened Search
  import opened ModWindow
  import opened ModRegistration
  import opened ModBatches

  /** Where the last event is that satisfies p, given the events before it. */
  function Last(es: seq<Event>, p: (seq<Event>, Event) -> bool): (r: Option<nat>)
    ensures r.Some? ==> r.value < |es| && p(es[..r.value], es[r.value])
    ensures forall j :: (if r.Some? then r.value + 1 else 0) <= j < |es| ==> !p(es[..j], es[j])
  {
    if es == [] then None
    else
      var n := |es| - 1;
      assert forall j :: 0 <= j < n ==> es[..n][..j] == es[..j];
      if p(es[..n], es[n]) then Some(n) else Last(es[..n], p)
  }

  lemma LastThen(es: seq<Event>, e: Event, p: (seq<Event>, Event) -> bool)
    ensures Last(es + [e], p) == if p(es, e) then Some(|es|) else Last(es, p)
  {
    assert (es + [e])[..|es|] == es;
  }

  // ----- the fields -----

  predicate IsStart(past: seq<Event>, e: Event) { e.StartEvent? }

  predicate IsSnapshot(past: seq<Event>, e: Event) { e.SnapshotEvent? }

  predicate IsDiscovery(past: seq<Event>, e: Event) { e.DiscoveryEvent? }

  /** The turn of the last start, unless it has been completed since. */
  function ActiveTurn(es: seq<Event>): string {
    var k := Last(es, IsStart);
    if k.None? || (exists j :: k.value < j < |es| && es[j].CompleteEvent? && es[j].turn == es[k.value].turn) then ""
    else es[k.value].turn
  }

  predicate Completes(past: seq<Event>, e: Event) { e.CompleteEvent? && e.turn == ActiveTurn(past) }

  /** A request of the turn that is active when it arrives. */
  predicate Asks(past: seq<Event>, e: Event) { e.RequestEvent? && e.turn == ActiveTurn(past) }

  predicate Decides(past: seq<Event>, e: Event) { e.StartEvent? || e.GapEvent? || e.BusyEvent? || Completes(past, e) }

  function StatusOf(es: seq<Event>): string {
    var k := Last(es, Decides);
    if k.None? then "unknown"
    else if es[k.value].StartEvent? then "active"
    else if es[k.value].CompleteEvent? then "idle"
    else "unknown"
  }

  function HasUser(es: seq<Event>): bool {
    var k := Last(es, IsStart);
    k.Some? && !es[k.value].blank
  }

  function CompletedTurn(es: seq<Event>): string {
    var k := Last(es, Completes);
    if k.Some? then es[k.value].turn else ""
  }

  /** The last snapshot, with the model and effort of the last request after it. */
  function RuntimeOf(es: seq<Event>): Runtime {
    var k, j := Last(es, IsSnapshot), Last(es, Asks);
    var base := if k.Some? then es[k.value].runtime else Fresh.runtime;
    if j.Some? && (k.None? || k.value < j.value) then base.(model := es[j.value].model, effort := es[j.value].effort) else base
  }

  function RequestsAt(es: seq<Event>): set<nat> { set k: nat | k < |es| && Asks(es[..k], es[k]) }

  function DiscoveryOf(es: seq<Event>): Option<string> {
    var k := Last(es, IsDiscovery);
    if k.Some? then Some(es[k.value].value) else None
  }

  ghost predicate FieldsFollow(v: View, es: seq<Event>) {
    && v.activeTurn == ActiveTurn(es) && v.activeHasUser == HasUser(es)
    && v.completedTurn == CompletedTurn(es) && v.status == StatusOf(es)
    && v.runtime == RuntimeOf(es) && v.requests == |RequestsAt(es)|
    && v.discovery == DiscoveryOf(es)
  }

  lemma ActiveThen(es: seq<Event>, e: Event)
    ensures ActiveTurn(es + [e]) == if e.StartEvent? then e.turn else if Completes(es, e) then "" else ActiveTurn(es)
  {
    var all, k := es + [e], Last(es, IsStart);
    LastThen(es, e, IsStart);
    assert all[|es|] == e && forall j :: 0 <= j < |es| ==> all[j] == es[j];
    if !e.StartEvent? && k.Some? {
      if j :| k.value < j < |es| && es[j].CompleteEvent? && es[j].turn == es[k.value].turn {
        assert all[j].CompleteEvent? && all[j].turn == all[k.value].turn;
      }
    }
  }

  lemma RequestAt(es: seq<Event>, e: Event, k: nat)
    ensures k in RequestsAt(es + [e]) <==> k in RequestsAt(es) || (k == |es| && Asks(es, e))
  {
    hide Asks;
    var all := es + [e];
    if k < |es| { assert all[..k] == es[..k] && all[k] == es[k]; }
    if k == |es| { assert all[..k] == es && all[k] == e; }
  }

  lemma RequestsThen(es: seq<Event>, e: Event)
    ensures |RequestsAt(es + [e])| == |RequestsAt(es)| + if Asks(es, e) then 1 else 0
  {
    var now, before := RequestsAt(es + [e]), RequestsAt(es);
    assert |es| !in before;
    hide RequestsAt; hide Asks;
    forall k: nat ensures k in now <==> k in before || (k == |es| && Asks(es, e)) { RequestAt(es, e, k); }
    if Asks(es, e) { assert now == before + {|es|}; } else { assert now == before; }
  }

  lemma TurnsThen(es: seq<Event>, e: Event)
    ensures HasUser(es + [e]) == if e.StartEvent? then !e.blank else HasUser(es)
    ensures CompletedTurn(es + [e]) == if Completes(es, e) then e.turn else CompletedTurn(es)
    ensures DiscoveryOf(es + [e]) == if e.DiscoveryEvent? then Some(e.value) else DiscoveryOf(es)
  {
    hide Last; hide ActiveTurn;
    LastThen(es, e, IsStart);
    LastThen(es, e, Completes);
    LastThen(es, e, IsDiscovery);
  }

  lemma StatusThen(es: seq<Event>, e: Event)
    ensures StatusOf(es + [e]) ==
            if e.StartEvent? then "active" else if Completes(es, e) then "idle" else if e.GapEvent? || e.BusyEvent? then "unknown" else StatusOf(es)
  {
    hide Last; hide ActiveTurn;
    LastThen(es, e, Decides);
  }

  lemma RuntimeThen(es: seq<Event>, e: Event)
    ensures RuntimeOf(es + [e]) ==
            if e.SnapshotEvent? then e.runtime
            else if Asks(es, e) then RuntimeOf(es).(model := e.model, effort := e.effort) else RuntimeOf(es)
  {
    hide Last; hide ActiveTurn;
    LastThen(es, e, IsSnapshot);
    LastThen(es, e, Asks);
  }

  lemma FieldsThen(v: View, es: seq<Event>, e: Event)
    requires FieldsFollow(v, es) && Apply(v, e).Ok?
    ensures FieldsFollow(Apply(v, e).value, es + [e])
  {
    hide ActiveTurn; hide AppendRow; hide ProjectBlock; hide FinishRows; hide RequestsAt;
    hide HasUser; hide CompletedTurn; hide StatusOf; hide RuntimeOf; hide DiscoveryOf;
    ActiveThen(es, e);
    RequestsThen(es, e);
    TurnsThen(es, e);
    StatusThen(es, e);
    RuntimeThen(es, e);
    if e.RowEvent? || e.BlockEvent? { RowsOnly(v, e); }
  }

  lemma RowsOnly(v: View, e: Event)
    requires Apply(v, e).Ok? && (e.RowEvent? || e.BlockEvent?)
    ensures var t := Apply(v, e).value; t == v.(rows := t.rows, rowBytes := t.rowBytes, dropped := t.dropped)
  {
  }

  lemma NoFields()
    ensures FieldsFollow(Fresh, [])
  {
    assert RequestsAt([]) == {};
  }

  lemma {:induction false} FieldsOfAll(es: seq<Event>)
    requires ApplyAll(Fresh, es).Ok?
    ensures FieldsFollow(ApplyAll(Fresh, es).value, es)
    decreases |es|
  {
    hide FieldsFollow; hide Apply;
    if es == [] {
      NoFields();
    } else {
      var n := |es| - 1;
      FieldsOfAll(es[..n]);
      FieldsThen(ApplyAll(Fresh, es[..n]).value, es[..n], es[n]);
      assert es[..n] + [es[n]] == es;
    }
  }

  // ----- the rows -----

  predicate Writes(e: Event, id: RowId) { (e.RowEvent? || e.BlockEvent?) && EventRow(e).id == id }

  /** Where the row of this id was last written. */
  function LastWrite(es: seq<Event>, id: RowId): (k: Option<nat>)
    ensures k.Some? ==> k.value < |es| && Writes(es[k.value], id)
  {
    Last(es, (past: seq<Event>, e: Event) => Writes(e, id))
  }

  lemma LastWriteThen(es: seq<Event>, e: Event, id: RowId)
    ensures LastWrite(es + [e], id) == if Writes(e, id) then Some(|es|) else LastWrite(es, id)
  {
    LastThen(es, e, (past: seq<Event>, e: Event) => Writes(e, id));
  }

  function TurnEnded(e: Event): Option<string> { if e.CompleteEvent? then Some(e.turn) else None }

  predicate Running(row: Row) { row.activity.Some? && row.activity.value.state == "running" }

  /** A running row is settled by the first completion of its turn: stopped if that was aborted. */
  function Settled(row: Row, rest: seq<Event>): Row {
    var j := IndexOf(rest, TurnEnded, Some(row.turn));
    if !Running(row) || j == |rest| then row
    else row.(activity := Some(row.activity.value.(state := if rest[j].aborted then "stopped" else "")))
  }

  /** A row says what its last event said, settled by what came after. */
  ghost predicate RowFollows(row: Row, es: seq<Event>) {
    var k := LastWrite(es, row.id);
    k.Some? && row == Settled(EventRow(es[k.value]), es[k.value + 1..])
  }

  ghost predicate RowsFollow(rows: seq<Row>, es: seq<Event>) {
    forall i :: 0 <= i < |rows| ==> RowFollows(rows[i], es)
  }

  lemma SettledThen(row: Row, rest: seq<Event>, e: Event)
    ensures Settled(row, rest + [e]) == if e.CompleteEvent? then FinishRow(Settled(row, rest), e.turn, e.aborted) else Settled(row, rest)
  {
    var j := IndexOf(rest, TurnEnded, Some(row.turn));
    FirstIndex(rest + [e], TurnEnded, Some(row.turn), if j < |rest| || TurnEnded(e) == Some(row.turn) then j else |rest| + 1);
  }

  lemma UntouchedRow(row: Row, es: seq<Event>, e: Event)
    requires RowFollows(row, es) && !Writes(e, row.id)
    ensures RowFollows(if e.CompleteEvent? then FinishRow(row, e.turn, e.aborted) else row, es + [e])
  {
    hide LastWrite; hide Settled;
    var k := LastWrite(es, row.id).value;
    LastWriteThen(es, e, row.id);
    SettledThen(EventRow(es[k]), es[k + 1..], e);
    assert (es + [e])[k + 1..] == es[k + 1..] + [e];
  }

  lemma WrittenRow(es: seq<Event>, e: Event)
    requires e.RowEvent? || e.BlockEvent?
    ensures RowFollows(EventRow(e), es + [e])
  {
    LastWriteThen(es, e, EventRow(e).id);
    assert (es + [e])[|es| + 1..] == [];
  }

  /** The rows with the event's own in its place, or at the end; a row event that repeats one changes nothing. */
  function WithEvent(rows: seq<Row>, e: Event): seq<Row>
    requires e.RowEvent? || e.BlockEvent?
  {
    var k := IndexOf(rows, RowKey, EventRow(e).id);
    if k == |rows| then rows + [EventRow(e)] else if e.RowEvent? then rows else rows[k := EventRow(e)]
  }

  lemma WrittenIds(v: View, e: Event)
    requires DistinctIds(v.rows) && Apply(v, e).Ok? && (e.RowEvent? || e.BlockEvent?)
    ensures var k, rows := IndexOf(v.rows, RowKey, EventRow(e).id), WithEvent(v.rows, e);
      && DistinctIds(rows) && k < |rows| && rows[k].id == EventRow(e).id
      && (forall i :: 0 <= i < |v.rows| ==> rows[i].id == v.rows[i].id)
      && (if e.RowEvent? && k < |v.rows| then Apply(v, e).value == v else Apply(v, e).value == WithRows(v, rows))
  {
    hide WithRows;
  }

  /** A repeated row event says what the row says. */
  lemma RepeatedRow(v: View, es: seq<Event>, e: Event)
    requires RowsFollow(v.rows, es) && e.RowEvent? && Apply(v, e).Ok?
    requires IndexOf(v.rows, RowKey, EventRow(e).id) < |v.rows|
    ensures v.rows[IndexOf(v.rows, RowKey, EventRow(e).id)] == EventRow(e)
  {
    hide LastWrite;
    var id := EventRow(e).id;
    var k := IndexOf(v.rows, RowKey, id);
    assert RowFollows(v.rows[k], es);
    var w := LastWrite(es, id).value;
    assert Writes(es[w], id) && es[w].RowEvent?;
  }

  lemma EvictedIn(rows: seq<Row>, row: Row)
    requires row in Trimmed(rows)
    ensures row in rows
  {
    hide Evict;
    var n := LongestSuffix(rows, Size, BOUND);
  }

  lemma WithEventRow(rows: seq<Row>, e: Event, row: Row)
    requires e.RowEvent? || e.BlockEvent?
    requires DistinctIds(WithEvent(rows, e)) && row in WithEvent(rows, e)
    requires var k := IndexOf(rows, RowKey, EventRow(e).id); e.RowEvent? && k < |rows| ==> rows[k] == EventRow(e)
    ensures if row.id == EventRow(e).id then row == EventRow(e) else row in rows
  {
    hide IndexOf; hide DistinctIds;
    var k := IndexOf(rows, RowKey, EventRow(e).id);
    var all := WithEvent(rows, e);
    var i :| 0 <= i < |all| && all[i] == row;
    assert all[k] == EventRow(e);
    assert i != k ==> all[i] == rows[i];
    if row.id == EventRow(e).id { OneOfId(all, i, k); }
  }

  lemma OneOfId(rows: seq<Row>, i: nat, k: nat)
    requires DistinctIds(rows) && i < |rows| && k < |rows| && rows[i].id == rows[k].id
    ensures i == k
  {
  }

  /** A row or block event: each row of its id is the event's own. */
  lemma OwnRow(v: View, es: seq<Event>, e: Event, row: Row)
    requires DistinctIds(v.rows) && RowsFollow(v.rows, es) && Apply(v, e).Ok? && (e.RowEvent? || e.BlockEvent?)
    requires row in Apply(v, e).value.rows
    ensures if row.id == EventRow(e).id then row == EventRow(e) else row in v.rows
  {
    hide RowsFollow; hide Apply; hide Trimmed; hide IndexOf; hide DistinctIds;
    WrittenIds(v, e);
    if e.RowEvent? && IndexOf(v.rows, RowKey, EventRow(e).id) < |v.rows| {
      RepeatedRow(v, es, e);
    } else {
      EvictedIn(WithEvent(v.rows, e), row);
    }
    WithEventRow(v.rows, e, row);
  }

  lemma RowsThen(v: View, es: seq<Event>, e: Event)
    requires Window(v) && RowsFollow(v.rows, es) && Apply(v, e).Ok?
    ensures RowsFollow(Apply(v, e).value.rows, es + [e])
  {
    hide RowFollows; hide AppendRow; hide ProjectBlock; hide FinishRow; hide Within;
    var after := Apply(v, e).value.rows;
    forall i | 0 <= i < |after| ensures RowFollows(after[i], es + [e]) {
      if e.RowEvent? || e.BlockEvent? {
        OwnRow(v, es, e, after[i]);
        if after[i].id == EventRow(e).id { WrittenRow(es, e); } else { UntouchedRow(after[i], es, e); }
      } else {
        UntouchedRow(v.rows[i], es, e);
      }
    }
  }

  // ----- what was dropped -----

  /** Every row written so far is in these rows. */
  ghost predicate Complete(rows: seq<Row>, es: seq<Event>) {
    forall k :: 0 <= k < |es| && (es[k].RowEvent? || es[k].BlockEvent?) ==>
      exists i :: 0 <= i < |rows| && rows[i].id == EventRow(es[k]).id
  }

  /** At some point a row that had been written was missing. */
  ghost predicate Lost(es: seq<Event>) {
    exists n :: 0 <= n <= |es| && ApplyAll(Fresh, es[..n]).Ok? && !Complete(ApplyAll(Fresh, es[..n]).value.rows, es[..n])
  }

  predicate Warns(e: Event) { e.TruncatedEvent? || e.GapEvent? }

  ghost predicate DroppedFollows(v: View, es: seq<Event>) {
    v.dropped <==> Lost(es) || exists k :: 0 <= k < |es| && Warns(es[k])
  }

  lemma LostThen(es: seq<Event>, e: Event)
    requires ApplyAll(Fresh, es + [e]).Ok?
    ensures Lost(es + [e]) <==> Lost(es) || !Complete(ApplyAll(Fresh, es + [e]).value.rows, es + [e])
    ensures !Complete(ApplyAll(Fresh, es).value.rows, es) ==> Lost(es)
  {
    hide Complete; hide Apply;
    var all := es + [e];
    assert all[..|es|] == es && all[..|all|] == all && es[..|es|] == es;
    assert forall n :: 0 <= n <= |es| ==> all[..n] == es[..n];
    if Lost(es) {
      var n :| 0 <= n <= |es| && ApplyAll(Fresh, es[..n]).Ok? && !Complete(ApplyAll(Fresh, es[..n]).value.rows, es[..n]);
      assert all[..n] == es[..n];
    }
  }

  lemma WithEventComplete(v: View, es: seq<Event>, e: Event)
    requires Complete(v.rows, es) && (e.RowEvent? || e.BlockEvent?)
    ensures Complete(WithEvent(v.rows, e), es + [e])
  {
    var all, rows, k := es + [e], WithEvent(v.rows, e), IndexOf(v.rows, RowKey, EventRow(e).id);
    assert rows[k].id == EventRow(e).id;
    forall j | 0 <= j < |all| && (all[j].RowEvent? || all[j].BlockEvent?)
      ensures exists i :: 0 <= i < |rows| && rows[i].id == EventRow(all[j]).id
    {
      if j < |es| {
        assert es[j] == all[j];
        var i :| 0 <= i < |v.rows| && v.rows[i].id == EventRow(es[j]).id;
        assert rows[i].id == EventRow(all[j]).id;
      } else {
        assert rows[k].id == EventRow(all[j]).id;
      }
    }
  }

  /** If nothing was missing before a row event, something is missing after it exactly if rows were evicted. */
  lemma CompleteThen(v: View, es: seq<Event>, e: Event)
    requires Window(v) && RowsFollow(v.rows, es) && Apply(v, e).Ok? && (e.RowEvent? || e.BlockEvent?)
    requires !v.dropped && Complete(v.rows, es)
    ensures Complete(Apply(v, e).value.rows, es + [e]) <==> !Apply(v, e).value.dropped
  {
    hide Apply; hide RowsFollow; hide Within; hide Evict; hide IndexOf; hide Complete;
    var all, rows := es + [e], WithEvent(v.rows, e);
    WrittenIds(v, e);
    WithEventComplete(v, es, e);
    var n := LongestSuffix(rows, Size, BOUND);
    if Apply(v, e).value == v {
      assert rows == v.rows;
    } else if n > 0 {
      assert Apply(v, e).value.rows == rows[n..] && Apply(v, e).value.dropped;
      EvictedWasWritten(v, es, e, rows, IndexOf(v.rows, RowKey, EventRow(e).id));
      var j :| 0 <= j < |all| && Writes(all[j], rows[0].id);
      assert forall i :: 0 <= i < |rows[n..]| ==> rows[n..][i].id != rows[0].id;
      Incomplete(rows[n..], all, j, rows[0].id);
    } else {
      assert rows[0..] == rows;
    }
  }

  lemma Incomplete(rows: seq<Row>, es: seq<Event>, j: nat, id: RowId)
    requires j < |es| && Writes(es[j], id) && forall i :: 0 <= i < |rows| ==> rows[i].id != id
    ensures !Complete(rows, es)
  {
  }

  lemma EvictedWasWritten(v: View, es: seq<Event>, e: Event, rows: seq<Row>, k: nat)
    requires RowsFollow(v.rows, es) && (e.RowEvent? || e.BlockEvent?) && k < |rows| && rows[k].id == EventRow(e).id
    requires |v.rows| <= |rows| && (k == |v.rows| || |rows| == |v.rows|) && |rows| <= |v.rows| + 1
    requires forall i :: 0 <= i < |v.rows| ==> rows[i].id == v.rows[i].id
    ensures exists j :: 0 <= j < |es + [e]| && Writes((es + [e])[j], rows[0].id)
  {
    if k == 0 {
      assert Writes((es + [e])[|es|], rows[0].id);
    } else {
      assert RowFollows(v.rows[0], es);
      var j := LastWrite(es, v.rows[0].id).value;
      assert (es + [e])[j] == es[j];
    }
  }

  lemma DroppedThen(es: seq<Event>, e: Event)
    requires ApplyAll(Fresh, es + [e]).Ok? && ApplyAll(Fresh, es).Ok?
    requires var v := ApplyAll(Fresh, es).value; Window(v) && RowsFollow(v.rows, es) && DroppedFollows(v, es)
    ensures DroppedFollows(ApplyAll(Fresh, es + [e]).value, es + [e])
  {
    hide Complete; hide RowsFollow; hide Window; hide Lost; hide AppendRow; hide ProjectBlock;
    var all, v := es + [e], ApplyAll(Fresh, es).value;
    assert all[..|es|] == es && all[|es|] == e && forall k :: 0 <= k < |es| ==> all[k] == es[k];
    assert ApplyAll(Fresh, all) == Apply(v, e);
    LostThen(es, e);
    assert (exists k :: 0 <= k < |all| && Warns(all[k])) <==> Warns(e) || exists k :: 0 <= k < |es| && Warns(es[k]) by {
      if k :| 0 <= k < |es| && Warns(es[k]) { assert Warns(all[k]); }
      if Warns(e) { assert Warns(all[|es|]); }
    }
    if !v.dropped {
      if e.RowEvent? || e.BlockEvent? {
        CompleteThen(v, es, e);
      } else {
        SameRows(v, es, e);
      }
    } else {
      DroppedStays(v, e);
    }
  }

  lemma DroppedStays(v: View, e: Event)
    requires Apply(v, e).Ok? && v.dropped
    ensures Apply(v, e).value.dropped
  {
  }

  lemma SameRows(v: View, es: seq<Event>, e: Event)
    requires Apply(v, e).Ok? && !e.RowEvent? && !e.BlockEvent?
    ensures Complete(v.rows, es) ==> Complete(Apply(v, e).value.rows, es + [e])
    ensures Apply(v, e).value.dropped <==> v.dropped || Warns(e)
  {
    var all, after := es + [e], Apply(v, e).value.rows;
    assert |after| == |v.rows| && forall i :: 0 <= i < |after| ==> after[i].id == v.rows[i].id;
    if Complete(v.rows, es) {
      forall k | 0 <= k < |all| && (all[k].RowEvent? || all[k].BlockEvent?)
        ensures exists i :: 0 <= i < |after| && after[i].id == EventRow(all[k]).id
      {
        assert all[k] == es[k];
        var i :| 0 <= i < |v.rows| && v.rows[i].id == EventRow(es[k]).id;
        assert after[i].id == EventRow(all[k]).id;
      }
    }
  }

  lemma NoRows()
    ensures RowsFollow(Fresh.rows, []) && DroppedFollows(Fresh, []) && Window(Fresh)
  {
    var none: seq<Event> := [];
    assert Complete([], none) && !Lost(none) by { assert none[..0] == none; }
  }

  lemma {:induction false} RowsOfAll(es: seq<Event>)
    requires ApplyAll(Fresh, es).Ok?
    ensures var v := ApplyAll(Fresh, es).value; RowsFollow(v.rows, es) && DroppedFollows(v, es) && Window(v)
    decreases |es|
  {
    hide RowsFollow; hide DroppedFollows; hide Window; hide Apply;
    if es == [] {
      NoRows();
    } else {
      var n := |es| - 1;
      RowsOfAll(es[..n]);
      var v := ApplyAll(Fresh, es[..n]).value;
      assert es[..n] + [es[n]] == es;
      ApplyKeeps(v, es[n]);
      RowsThen(v, es[..n], es[n]);
      DroppedThen(es[..n], es[n]);
    }
  }

  // ----- refusals -----

  /** A row or block event is refused exactly if a row of its identity says something else or has another shape. */
  lemma RefusedIff(v: View, e: Event)
    requires DistinctIds(v.rows)
    ensures Apply(v, e).Err? <==>
      (e.RowEvent? || e.BlockEvent?) &&
      exists i :: 0 <= i < |v.rows| && v.rows[i].id == EventRow(e).id &&
        if e.RowEvent? then v.rows[i].role != e.role || v.rows[i].text != e.text else !SameShape(v.rows[i], EventRow(e))
  {
    if e.RowEvent? || e.BlockEvent? {
      var k := IndexOf(v.rows, RowKey, EventRow(e).id);
      if i :| 0 <= i < |v.rows| && v.rows[i].id == EventRow(e).id { assert i == k; }
    }
  }

  // ----- every run -----

  /** Over every run the view is what the accepted events say, field by field and row by row. */
  lemma ViewIsRead(desktop: bool, actions: seq<Action>)
    ensures var w := Run(Registered(desktop), actions); var es := Flatten(w.past.batches);
      FieldsFollow(w.reg.view, es) && RowsFollow(w.reg.view.rows, es) && DroppedFollows(w.reg.view, es)
  {
    ViewIsFold(desktop, actions);
    var es := Flatten(Run(Registered(desktop), actions).past.batches);
    FieldsOfAll(es);
    RowsOfAll(es);
  }

  // ----- which commands pass -----

  /** What the events must say for a command to be queued, or handed out, for this turn. */
  predicate Ready(desktop: bool, es: seq<Event>, op: Operation, turn: string) {
    match op
    case SendInput => RuntimeOf(es).canInput && ActiveTurn(es) == turn
    case StopTurn => RuntimeOf(es).canStop && StatusOf(es) == "active" && ActiveTurn(es) == turn
    case ChangeSettings => RuntimeOf(es).canSettings
    case Diagnose => desktop
  }

  lemma {:induction false} DesktopStays(desktop: bool, actions: seq<Action>)
    ensures Run(Registered(desktop), actions).reg.desktop == desktop
    decreases |actions|
  {
    hide Push;
    if actions != [] {
      var n := |actions| - 1;
      DesktopStays(desktop, actions[..n]);
      DesktopNext(Run(Registered(desktop), actions[..n]), actions[n]);
    }
  }

  lemma DesktopNext(w: World, a: Action)
    ensures Next(w, a).reg.desktop == w.reg.desktop
  {
    hide PushOutcome; hide ApplyAll;
  }

  /** A stop is queued exactly if nothing is pending and the turn it names is the one that runs: started last, not
      completed since, with no gap and nothing busy after it, and native said that it can be stopped. */
  lemma StopQueuedIff(desktop: bool, actions: seq<Action>, id: string, client: string, text: string, turn: string)
    requires Enabled(Run(Registered(desktop), actions), QueueCommand(StopTurn, id, client, text, turn))
    ensures var w := Run(Registered(desktop), actions); var es := Flatten(w.past.batches);
      Next(w, QueueCommand(StopTurn, id, client, text, turn)).reg ==
      if w.reg.pending.None? && turn != "" && Ready(desktop, es, StopTurn, turn)
      then w.reg.(pending := Some(Command(id, StopTurn, client, turn, false, false, None))) else w.reg
  {
    hide Run; hide StatusOf; hide ActiveTurn; hide RuntimeOf;
    ViewIsRead(desktop, actions);
  }

  /** An input is queued, for the turn that runs then, exactly if nothing is pending, native said that it takes
      input, its client id is new and every earlier input has its verdict. */
  lemma InputQueuedIff(desktop: bool, actions: seq<Action>, id: string, client: string, text: string)
    requires Enabled(Run(Registered(desktop), actions), QueueCommand(SendInput, id, client, text, ""))
    ensures var w := Run(Registered(desktop), actions); var es := Flatten(w.past.batches);
      var after := Next(w, QueueCommand(SendInput, id, client, text, "")).reg;
      if w.reg.pending.None? && RuntimeOf(es).canInput
         && (forall i :: 0 <= i < |w.reg.inputs| ==> w.reg.inputs[i].client != client && ModRegistration.Settled(w.reg.inputs[i]))
      then && after.pending == Some(Command(id, SendInput, client, ActiveTurn(es), false, false, None))
           && after.inputs != [] && after.inputs[|after.inputs| - 1] == Input(client, text, id, |w.past.batches|, Unconfirmed, false, false, "", "")
      else after == w.reg
  {
    hide Run; hide StatusOf; hide ActiveTurn; hide RuntimeOf; hide Flatten;
    ViewIsRead(desktop, actions);
    ViewIsFold(desktop, actions);
    StatusIsLive(Flatten(Run(Registered(desktop), actions).past.batches));
  }

  lemma StatusIsLive(es: seq<Event>)
    ensures LiveStatus(StatusOf(es))
  {
  }

  /** The pending command is handed out exactly if it was not before, its scope still holds and the events so far
      leave it ready: for an input the turn is the one it was queued in, for a stop that turn still runs. */
  lemma HandedIff(desktop: bool, actions: seq<Action>, scope: bool)
    requires Run(Registered(desktop), actions).reg.pending.Some?
    ensures var w := Run(Registered(desktop), actions); var es, c := Flatten(w.past.batches), w.reg.pending.value;
      Next(w, Pull(c.id, scope)) ==
      if !c.delivered && scope && Ready(desktop, es, c.op, c.turn)
      then World(w.reg.(pending := Some(c.(delivered := true))), w.past.(handed := w.past.handed + [c.id])) else w
  {
    hide Run; hide StatusOf; hide ActiveTurn; hide RuntimeOf;
    ViewIsRead(desktop, actions);
    DesktopStays(desktop, actions);
    StatusIsLive(Flatten(Run(Registered(desktop), actions).past.batches));
  }
}
