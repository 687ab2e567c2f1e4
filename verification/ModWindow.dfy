/**
 The bounded observation window one Claude Mod registration keeps, and how one
 validated native event changes it. Lengths are byte lengths.
 */
module ModWindow {
  import opened Common
  import opened Eviction
  import opened Search

  const MAX_ROWS := 128
  const MAX_SESSION_BYTES := 8 * 1024 * 1024
  const MAX_ROW_BYTES := 24 * 1024
  const MAX_FIELD_BYTES := 384 * 1024
  const MAX_STEP := 1000000

  /** The three shapes of row identity; their textual forms are disjoint and injective. */
  datatype RowId = Uuid(uuid: string) | Tool(nativeId: string) | BlockOf(turn: string, step: int, index: int)

  datatype Activity = Activity(kind: string, state: string, tool: string,
                               arguments: Option<string>, result: Option<string>)

  datatype Row = Row(id: RowId, role: string, text: string, turn: string, activity: Option<Activity>)

  datatype Block = Block(step: int, index: int, kind: string, nativeId: string, text: string, tool: string,
                         arguments: Option<string>, result: Option<string>, state: string)

  /** Runtime fields a snapshot event carries. */
  datatype Runtime = Runtime(canStop: bool, canInput: bool, canSettings: bool, models: seq<string>,
                             model: Option<string>, effort: Option<string>, tokens: Option<int>, window: Option<int>)

  datatype Event =
    | RowEvent(uuid: string, role: string, text: string, observed: string)
    | BlockEvent(turn: string, block: Block)
    | StartEvent(uuid: string, turn: string, text: string, observed: string, blank: bool)
    | CompleteEvent(turn: string, aborted: bool)
    | SnapshotEvent(runtime: Runtime)
    | RequestEvent(turn: string, observed: string, model: Option<string>, effort: Option<string>)
    | DiscoveryEvent(value: string)
    | TruncatedEvent
    | GapEvent
    | BusyEvent
    | OtherEvent                          // title and transcript metadata, kept outside this view
    | MalformedEvent                      // fails one of validateEvent's identity or field checks

  /** The part of a registration that only events change. */
  datatype View = View(rows: seq<Row>, rowBytes: int, dropped: bool, status: string,
                       activeTurn: string, activeHasUser: bool, completedTurn: string,
                       runtime: Runtime, requests: nat, discovery: Option<string>)

  const Fresh := View([], 0, false, "unknown", "", false, "",
                      Runtime(false, false, false, [], None, None, None, None), 0, None)

  function Length(text: Option<string>): (n: nat) {
    if text.Some? then |text.value| else 0
  }

  /** observedBytes */
  function Size(row: Row): nat {
    |row.text| + if row.activity.Some? then Length(row.activity.value.arguments) + Length(row.activity.value.result) else 0
  }

  const BOUND := Bound(Some(MAX_ROWS), MAX_SESSION_BYTES)

  predicate DistinctIds(rows: seq<Row>) {
    forall i, j :: 0 <= i < j < |rows| ==> rows[i].id != rows[j].id
  }

  /** The window invariant. */
  predicate Window(v: View) {
    v.rowBytes == Total(v.rows, Size) && Within(v.rows, Size, BOUND) && DistinctIds(v.rows)
  }

  // ----- validation -----

  predicate ValidBlock(b: Block) {
    && 0 <= b.step <= MAX_STEP && 0 <= b.index < MAX_ROWS
    && |b.text| <= MAX_ROW_BYTES && |b.tool| <= 256
    && Length(b.arguments) <= MAX_FIELD_BYTES && Length(b.result) <= MAX_FIELD_BYTES
    && (b.kind == "text" || b.kind == "thought" || b.kind == "tool")
    && (b.kind == "tool" ==> b.nativeId != "" && b.tool != "")
    && (b.kind != "tool" ==> b.nativeId == "" && b.tool == "" && b.arguments.None? && b.result.None?)
    && (b.state == "" || b.state == "running" || b.state == "succeeded" || b.state == "failed" || b.state == "stopped")
  }

  predicate ValidEvent(e: Event, desktop: bool) {
    match e
    case RowEvent(_, role, text, observed) =>
      |text| <= MAX_ROW_BYTES && (role == "user" || role == "assistant") && (observed != "" ==> role == "user")
    case BlockEvent(_, block) => ValidBlock(block)
    case StartEvent(_, _, text, _, _) => |text| <= MAX_ROW_BYTES
    case DiscoveryEvent(_) => desktop
    case MalformedEvent => false
    case _ => true
  }

  // ----- the window -----

  function RowKey(row: Row): RowId { row.id }

  /** trimObservedRows */
  function Trimmed(rows: seq<Row>): seq<Row> { Evict(rows, Size, BOUND) }

  /** The view with these rows, trimmed to the bounds. */
  function WithRows(v: View, rows: seq<Row>): View {
    v.(rows := Trimmed(rows), rowBytes := Total(Trimmed(rows), Size), dropped := v.dropped || Trimmed(rows) != rows)
  }

  /** appendLocked: the same row again is accepted unchanged, a changed one is refused. */
  function AppendRow(v: View, uuid: string, role: string, text: string): Result<View> {
    var k := IndexOf(v.rows, RowKey, Uuid(uuid));
    if k < |v.rows| then
      if v.rows[k].role == role && v.rows[k].text == text then Ok(v) else Err("Native row UUID content changed")
    else Ok(WithRows(v, v.rows + [Row(Uuid(uuid), role, text, "", None)]))
  }

  function BlockId(turn: string, b: Block): RowId {
    if b.kind == "tool" then Tool(b.nativeId) else BlockOf(turn, b.step, b.index)
  }

  function BlockRow(turn: string, b: Block): Row {
    Row(BlockId(turn, b), "assistant", b.text, turn,
        if b.kind == "text" then None else Some(Activity(b.kind, b.state, b.tool, b.arguments, b.result)))
  }

  predicate SameShape(was: Row, row: Row) {
    && was.turn == row.turn
    && was.activity.Some? == row.activity.Some?
    && (was.activity.Some? ==>
          was.activity.value.kind == row.activity.value.kind && was.activity.value.tool == row.activity.value.tool)
  }

  /** projectBlock: replaces the block with that identity in place, or appends it. */
  function ProjectBlock(v: View, turn: string, b: Block): Result<View> {
    var row := BlockRow(turn, b);
    var k := IndexOf(v.rows, RowKey, row.id);
    if k == |v.rows| then Ok(WithRows(v, v.rows + [row]))
    else if SameShape(v.rows[k], row) then Ok(WithRows(v, v.rows[k := row]))
    else Err("Native block identity changed")
  }

  /** finishObservedBlocks, one row */
  function FinishRow(row: Row, turn: string, aborted: bool): Row {
    if row.turn == turn && row.activity.Some? && row.activity.value.state == "running"
    then row.(activity := Some(row.activity.value.(state := if aborted then "stopped" else "")))
    else row
  }

  function FinishRows(rows: seq<Row>, turn: string, aborted: bool): (r: seq<Row>)
    ensures |r| == |rows| && forall i :: 0 <= i < |r| ==> r[i] == FinishRow(rows[i], turn, aborted)
  {
    seq(|rows|, i requires 0 <= i < |rows| => FinishRow(rows[i], turn, aborted))
  }

  /** One event of a validated batch, on the working copy. */
  function Apply(v: View, e: Event): Result<View> {
    match e
    case RowEvent(uuid, role, text, _) => AppendRow(v, uuid, role, text)
    case BlockEvent(turn, block) => ProjectBlock(v, turn, block)
    case StartEvent(_, turn, _, _, blank) => Ok(v.(activeTurn := turn, status := "active", activeHasUser := !blank))
    case CompleteEvent(turn, aborted) =>
      var finished := v.(rows := FinishRows(v.rows, turn, aborted));
      Ok(if v.activeTurn == turn then finished.(activeTurn := "", completedTurn := turn, status := "idle") else finished)
    case SnapshotEvent(runtime) => Ok(v.(runtime := runtime))
    case RequestEvent(turn, _, model, effort) =>
      Ok(if v.activeTurn != turn then v
         else v.(requests := v.requests + 1, runtime := v.runtime.(model := model, effort := effort)))
    case DiscoveryEvent(value) => Ok(v.(discovery := Some(value)))
    case TruncatedEvent => Ok(v.(dropped := true))
    case GapEvent => Ok(v.(dropped := true, status := "unknown"))
    case BusyEvent => Ok(v.(status := "unknown"))
    case OtherEvent => Ok(v)
    case MalformedEvent => Ok(v)
  }

  /** A batch: all of its events, or an error. */
  function ApplyAll(v: View, events: seq<Event>): Result<View>
    decreases |events|
  {
    if events == [] then Ok(v)
    else
      var before := ApplyAll(v, events[..|events| - 1]);
      if before.Err? then before else Apply(before.value, events[|events| - 1])
  }

  // ----- the window stays bounded, exact and duplicate-free -----

  lemma {:induction false} SameSizes(a: seq<Row>, b: seq<Row>)
    requires |a| == |b| && forall i :: 0 <= i < |a| ==> Size(a[i]) == Size(b[i])
    ensures Total(a, Size) == Total(b, Size)
  {
    if a != [] { SameSizes(a[1..], b[1..]); }
  }

  lemma WithRowsKeeps(v: View, rows: seq<Row>)
    requires DistinctIds(rows)
    ensures Window(WithRows(v, rows))
  {
    var n := LongestSuffix(rows, Size, BOUND);
  }

  lemma AppendRowKeeps(v: View, uuid: string, role: string, text: string)
    requires Window(v)
    ensures AppendRow(v, uuid, role, text).Ok? ==> Window(AppendRow(v, uuid, role, text).value)
  {
    if IndexOf(v.rows, RowKey, Uuid(uuid)) == |v.rows| {
      WithRowsKeeps(v, v.rows + [Row(Uuid(uuid), role, text, "", None)]);
    }
  }

  lemma ProjectBlockKeeps(v: View, turn: string, b: Block)
    requires Window(v)
    ensures ProjectBlock(v, turn, b).Ok? ==> Window(ProjectBlock(v, turn, b).value)
  {
    var row := BlockRow(turn, b);
    var k := IndexOf(v.rows, RowKey, row.id);
    WithRowsKeeps(v, if k == |v.rows| then v.rows + [row] else v.rows[k := row]);
  }

  lemma FinishKeeps(v: View, turn: string, aborted: bool)
    requires Window(v)
    ensures Window(v.(rows := FinishRows(v.rows, turn, aborted)))
  {
    SameSizes(v.rows, FinishRows(v.rows, turn, aborted));
  }

  lemma ApplyKeeps(v: View, e: Event)
    requires Window(v) && Apply(v, e).Ok?
    ensures Window(Apply(v, e).value)
  {
    match e
    case RowEvent(uuid, role, text, _) => AppendRowKeeps(v, uuid, role, text);
    case BlockEvent(turn, block) => ProjectBlockKeeps(v, turn, block);
    case CompleteEvent(turn, aborted) => FinishKeeps(v, turn, aborted);
    case _ => assert Apply(v, e).value.rows == v.rows && Apply(v, e).value.rowBytes == v.rowBytes;
  }

  lemma {:induction false} ApplyAllKeeps(v: View, events: seq<Event>)
    requires Window(v) && ApplyAll(v, events).Ok?
    ensures Window(ApplyAll(v, events).value)
    decreases |events|
  {
    if events != [] {
      ApplyAllKeeps(v, events[..|events| - 1]);
      ApplyKeeps(ApplyAll(v, events[..|events| - 1]).value, events[|events| - 1]);
    }
  }

  /** What an event shows of itself. */
  predicate Carries(row: Row, e: Event) {
    match e
    case RowEvent(uuid, role, text, _) => row.id == Uuid(uuid) && row.role == role && row.text == text
    case BlockEvent(turn, b) =>
      && row.id == BlockId(turn, b) && row.turn == turn && row.text == b.text && (row.activity.None? <==> b.kind == "text")
      && (row.activity.Some? ==> row.activity.value == Activity(b.kind, b.state, b.tool, b.arguments, b.result))
    case _ => false
  }

  function EventRow(e: Event): Row
    requires e.RowEvent? || e.BlockEvent?
  {
    if e.RowEvent? then Row(Uuid(e.uuid), e.role, e.text, "", None) else BlockRow(e.turn, e.block)
  }

  /** The rows an accepted row or block event leaves: the old ones with the event's at k, less the n oldest. */
  lemma Placement(v: View, e: Event) returns (rows: seq<Row>, k: nat, n: nat)
    requires Apply(v, e).Ok? && (e.RowEvent? || e.BlockEvent?)
    ensures k < |rows| && Carries(rows[k], e) && n <= |rows| && Apply(v, e).value.rows == rows[n..]
    ensures rows == v.rows || (k < |v.rows| && rows == v.rows[k := rows[k]]) || (k == |v.rows| && rows == v.rows + [EventRow(e)])
    ensures forall i :: 0 <= i < |v.rows| ==> i < |rows| && rows[i].id == v.rows[i].id
  {
    var row := EventRow(e);
    k := IndexOf(v.rows, RowKey, row.id);
    if e.RowEvent? && k < |v.rows| {
      rows, n := v.rows, 0;
      assert rows[0..] == rows;
    } else {
      rows := if k == |v.rows| then v.rows + [row] else v.rows[k := row];
      n := LongestSuffix(rows, Size, BOUND);
    }
  }

  /** A valid row or new block is never evicted by its own arrival: it is in the window afterwards, with the event's content. */
  lemma NewestSurvives(v: View, e: Event, desktop: bool)
    requires Window(v) && ValidEvent(e, desktop) && Apply(v, e).Ok?
    requires e.RowEvent? || (e.BlockEvent? && IndexOf(v.rows, RowKey, BlockId(e.turn, e.block)) == |v.rows|)
    ensures exists k :: 0 <= k < |Apply(v, e).value.rows| && Carries(Apply(v, e).value.rows[k], e)
  {
    var row := EventRow(e);
    var k := IndexOf(v.rows, RowKey, row.id);
    if k == |v.rows| {
      TotalOne(row, Size);
      Eviction.NewestSurvives(v.rows, row, Size, BOUND);
      var after := Apply(v, e).value.rows;
      assert after == Trimmed(v.rows + [row]) && Carries(after[|after| - 1], e);
    } else {
      assert Carries(Apply(v, e).value.rows[k], e);
    }
  }

  /** Nothing is invented: after a row or block event every row is the event's or one that was there, unchanged,
      and only rows older than all that stayed are gone. */
  lemma OnlyOldestGo(v: View, e: Event) returns (n: nat)
    requires Apply(v, e).Ok? && (e.RowEvent? || e.BlockEvent?)
    ensures var after := Apply(v, e).value.rows;
      && (forall i :: 0 <= i < |after| ==> Carries(after[i], e) || after[i] in v.rows)
      && (forall i :: n <= i < |v.rows| ==> i - n < |after| && after[i - n].id == v.rows[i].id)
      && |after| <= |v.rows| + 1 - n
  {
    hide Apply; hide Carries;
    var rows, k, gone := Placement(v, e);
    n := gone;
    var after := Apply(v, e).value.rows;
    forall i | 0 <= i < |after| ensures Carries(after[i], e) || after[i] in v.rows {
      assert after[i] == rows[n + i];
      if n + i != k { assert n + i < |v.rows| && rows[n + i] == v.rows[n + i]; }
    }
    assert forall i :: n <= i < |v.rows| ==> i - n < |after| && after[i - n] == rows[i];
  }

  // ----- the code's loops -----

  /** trimObservedRows as written. */
  method TrimObservedRows(rows: seq<Row>, rowBytes: int, dropped: bool) returns (kept: seq<Row>, bytes: int, lost: bool)
    requires rowBytes == Total(rows, Size)
    ensures kept == Trimmed(rows) && bytes == Total(kept, Size) && lost == (dropped || kept != rows)
  {
    kept, bytes, lost := rows, rowBytes, dropped;
    while |kept| > MAX_ROWS || bytes > MAX_SESSION_BYTES
      invariant bytes == Total(kept, Size) && Trimmed(kept) == Trimmed(rows)
      invariant |kept| <= |rows| && (|kept| == |rows| <==> kept == rows) && lost == (dropped || kept != rows)
      decreases |kept|
    {
      bytes := bytes - Size(kept[0]);
      kept := kept[1..];
      lost := true;
    }
  }

  method FinishObservedBlocks(rows: seq<Row>, turn: string, aborted: bool) returns (done: seq<Row>)
    ensures done == FinishRows(rows, turn, aborted)
  {
    done := rows;
    for i := 0 to |rows|
      invariant |done| == |rows|
      invariant forall j :: 0 <= j < i ==> done[j] == FinishRow(rows[j], turn, aborted)
      invariant forall j :: i <= j < |rows| ==> done[j] == rows[j]
    {
      var row := rows[i];
      if row.turn != turn || row.activity.None? || row.activity.value.state != "running" { continue; }
      done := done[i := row.(activity := Some(row.activity.value.(state := if aborted then "stopped" else "")))];
    }
  }

  method FindRow(rows: seq<Row>, id: RowId) returns (k: nat)
    ensures k == IndexOf(rows, RowKey, id)
  {
    k := 0;
    while k < |rows| && rows[k].id != id
      invariant k <= |rows| && forall i :: 0 <= i < k ==> rows[i].id != id
    {
      k := k + 1;
    }
    FirstIndex(rows, RowKey, id, k);
  }

  /** appendLocked as written, on the working copy. */
  method AppendLocked(v: View, uuid: string, role: string, text: string) returns (r: Result<View>)
    requires Window(v)
    ensures r == AppendRow(v, uuid, role, text)
  {
    var k := FindRow(v.rows, Uuid(uuid));
    if k < |v.rows| {
      if v.rows[k].role != role || v.rows[k].text != text { return Err("Native row UUID content changed"); }
      return Ok(v);
    }
    var row := Row(Uuid(uuid), role, text, "", None);
    TotalSnoc(v.rows, row, Size);
    var rows, bytes, dropped := TrimObservedRows(v.rows + [row], v.rowBytes + |text|, v.dropped);
    return Ok(v.(rows := rows, rowBytes := bytes, dropped := dropped));
  }

  /** projectBlock as written, on the working copy. */
  method ProjectBlockLocked(v: View, turn: string, b: Block) returns (r: Result<View>)
    requires Window(v)
    ensures r == ProjectBlock(v, turn, b)
  {
    var row := BlockRow(turn, b);
    var k := FindRow(v.rows, row.id);
    var rows, bytes, dropped;
    if k < |v.rows| {
      if !SameShape(v.rows[k], row) { return Err("Native block identity changed"); }
      TotalReplaced(v.rows, k, row, Size);
      rows, bytes, dropped := TrimObservedRows(v.rows[k := row], v.rowBytes - Size(v.rows[k]) + Size(row), v.dropped);
    } else {
      TotalSnoc(v.rows, row, Size);
      rows, bytes, dropped := TrimObservedRows(v.rows + [row], v.rowBytes + Size(row), v.dropped);
    }
    return Ok(v.(rows := rows, rowBytes := bytes, dropped := dropped));
  }
}
