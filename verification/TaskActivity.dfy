/** The bounded live buffer of one native turn. */
module ActivityBuffer {
  import opened Common
  import opened Concatenation
  import opened Distinctness
  import opened Eviction

  type Id = string

  /** A public message; `chars` is its serialized size in UTF-16 units. */
  datatype Message = Message(id: Id, turn: Id, text: string, activity: bool, chars: nat)

  datatype Entry = Entry(message: Message, complete: bool)

  function Chars(e: Entry): nat { e.message.chars }

  /** At most this many entries and characters. */
  function Limits(maxItems: nat, maxChars: nat): Bound { Bound(Some(maxItems), maxChars) }

  function Ids(live: seq<Entry>): (r: seq<Id>)
    ensures |r| == |live| && forall i :: 0 <= i < |live| ==> r[i] == live[i].message.id
  {
    seq(|live|, i requires 0 <= i < |live| => live[i].message.id)
  }

  /** In place if the id is known, else last. */
  function Upsert(live: seq<Entry>, e: Entry): seq<Entry> {
    if live == [] then [e]
    else if live[0].message.id == e.message.id then [e] + live[1..]
    else [live[0]] + Upsert(live[1..], e)
  }

  /** None when the message alone is too large: the buffer stops instead of keeping a part. */
  function Accept(live: seq<Entry>, e: Entry, paragraphs: nat, maxItems: nat, maxChars: nat): Option<seq<Entry>> {
    if e.message.chars > maxChars || paragraphs > maxItems then None else Some(Evict(Upsert(live, e), Chars, Limits(maxItems, maxChars)))
  }

  lemma IdsCons(e: Entry, live: seq<Entry>)
    ensures Ids([e] + live) == [e.message.id] + Ids(live)
  {
    assert forall i :: 1 <= i < |live| + 1 ==> ([e] + live)[i] == live[i - 1];
  }

  lemma {:induction false} UpsertIds(live: seq<Entry>, e: Entry)
    ensures Ids(Upsert(live, e)) == if e.message.id in Ids(live) then Ids(live) else Ids(live) + [e.message.id]
  {
    hide Ids;
    if live == [] {
      IdsCons(e, []);
      NoIds();
      assert [e] + [] == [e] && [e.message.id] + [] == [e.message.id];
    } else {
      var head, rest := live[0], live[1..];
      IdsCons(head, rest);
      assert live == [head] + rest;
      if head.message.id != e.message.id {
        UpsertIds(rest, e);
        IdsCons(head, Upsert(rest, e));
        if e.message.id !in Ids(rest) { Assoc([head.message.id], Ids(rest), [e.message.id]); }
      } else {
        IdsCons(e, rest);
      }
    }
  }

  lemma NoIds()
    ensures Ids([]) == []
  {
  }

  /** A new message that is accepted is still there after making room for it, unless no item may be kept at all. */
  lemma NewMessageSurvives(live: seq<Entry>, e: Entry, paragraphs: nat, maxItems: nat, maxChars: nat)
    requires e.message.id !in Ids(live) && Accept(live, e, paragraphs, maxItems, maxChars).Some? && maxItems > 0
    ensures var r := Accept(live, e, paragraphs, maxItems, maxChars).value; r != [] && r[|r| - 1] == e
  {
    UpsertNew(live, e);
    TotalOne(e, Chars);
    NewestSurvives(live, e, Chars, Limits(maxItems, maxChars));
  }

  lemma {:induction false} UpsertNew(live: seq<Entry>, e: Entry)
    requires e.message.id !in Ids(live)
    ensures Upsert(live, e) == live + [e]
  {
    if live != [] {
      assert Ids(live) == [live[0].message.id] + Ids(live[1..]);
      UpsertNew(live[1..], e);
    }
  }

  lemma {:induction false} UpsertKnown(live: seq<Entry>, e: Entry, i: nat)
    requires i < |live| && live[i].message.id == e.message.id && forall k :: 0 <= k < i ==> live[k].message.id != e.message.id
    ensures Upsert(live, e) == live[i := e]
  {
    if i > 0 {
      UpsertKnown(live[1..], e, i - 1);
      assert live[i := e] == [live[0]] + live[1..][i - 1 := e];
    } else {
      assert live[0 := e] == [e] + live[1..];
    }
  }

  class TaskActivity {
    const maxItems: nat
    const maxChars: nat
    var entries: map<Id, Entry>
    var order: seq<Id>
    var chars: nat
    var overflowed: bool
    var turnID: Id

    /** `order` lists the keys of `entries` once each, and `chars` is their exact total. */
    ghost predicate Consistent()
      reads this
    {
      && Distinct(order) && (forall id :: id in entries <==> id in order)
      && (forall i :: 0 <= i < |order| ==> order[i] in entries && entries[order[i]].message.id == order[i])
      && chars == Total(Live(), Chars)
    }

    ghost predicate Valid()
      reads this
    {
      Consistent() && Within(Live(), Chars, Limits(maxItems, maxChars))
    }

    ghost function Live(): (live: seq<Entry>)
      reads this
      ensures |live| == |order|
    {
      seq(|order|, i requires 0 <= i < |order| reads this => if order[i] in entries then entries[order[i]] else Entry(Message([], [], [], false, 0), false))
    }

    constructor (items: nat, size: nat)
      ensures Valid() && Live() == [] && !overflowed && turnID == [] && maxItems == items && maxChars == size
    {
      maxItems, maxChars := items, size;
      entries, order, chars, overflowed, turnID := map[], [], 0, false, [];
    }

    method Clear()
      modifies this
      ensures Valid() && Live() == [] && overflowed == old(overflowed) && turnID == old(turnID)
    {
      entries, order, chars := map[], [], 0;
    }

    /** The turn gate of Receive: only its own start opens a later turn, and an overflow closes this one. */
    method Observe(turn: Id, started: bool) returns (open: bool)
      requires Valid() && turn != []
      modifies this
      ensures Valid()
      ensures if turn == old(turnID) || (old(turnID) != [] && !started)
        then Live() == old(Live()) && turnID == old(turnID) && overflowed == old(overflowed) && open == (turn == turnID && !overflowed)
        else Live() == [] && turnID == turn && !overflowed && open
    {
      if turn != turnID {
        if turnID != [] && !started { return false; }
        Clear();
        turnID, overflowed := turn, false;
      }
      open := !overflowed;
    }

    method Insert(e: Entry)
      requires Consistent()
      modifies this
      ensures Consistent() && Live() == Upsert(old(Live()), e) && overflowed == old(overflowed) && turnID == old(turnID)
    {
      hide Upsert; hide Total;
      ghost var live := Live();
      var id := e.message.id;
      if id in entries {
        ghost var i :| 0 <= i < |order| && order[i] == id;
        UpsertKnown(live, e, i);
        TotalReplaced(live, i, e, Chars);
        chars := chars - entries[id].message.chars + e.message.chars;
        entries := entries[id := e];
        assert Live() == live[i := e];
      } else {
        assert id !in Ids(live) by { assert forall k :: 0 <= k < |order| ==> Ids(live)[k] == order[k]; }
        UpsertNew(live, e);
        TotalSnoc(live, e, Chars);
        order := order + [id];
        entries := entries[id := e];
        chars := chars + e.message.chars;
        assert Live() == live + [e];
      }
    }

    method DropOldest()
      requires Consistent() && order != []
      modifies this
      ensures Consistent() && Live() == old(Live())[1..] && overflowed == old(overflowed) && turnID == old(turnID)
    {
      ghost var live := Live();
      assert live[..0] + live[1..] == live[1..];
      TotalWithout(live, 0, Chars);
      var oldest := order[0];
      assert live[0] == entries[oldest];
      DistinctTail(order);
      order := order[1..];
      chars := chars - entries[oldest].message.chars;
      entries := entries - {oldest};
      assert Live() == live[1..];
    }

    /** put */
    method Put(message: Message, complete: bool, paragraphs: nat)
      requires Valid()
      modifies this
      ensures Valid()
      ensures var r := Accept(old(Live()), Entry(message, complete), paragraphs, maxItems, maxChars);
        if r.None? then Live() == [] && overflowed else Live() == r.value && overflowed == old(overflowed)
      ensures turnID == old(turnID)
    {
      if message.chars > maxChars || paragraphs > maxItems {
        Clear();
        overflowed := true;
        return;
      }
      ghost var start := Upsert(Live(), Entry(message, complete));
      Insert(Entry(message, complete));
      while |order| > maxItems || chars > maxChars
        invariant Consistent() && overflowed == old(overflowed) && turnID == old(turnID)
        invariant Evict(Live(), Chars, Limits(maxItems, maxChars)) == Evict(start, Chars, Limits(maxItems, maxChars))
        decreases |order|
      {
        DropOldest();
      }
    }
  }
}

/** Folding the live buffer into a persisted page. */
module ActivityMerge {
  import opened Common
  import opened Concatenation
  import opened ActivityBuffer

  /** Where a merged message comes from: the page, or the live buffer alone. */
  datatype Item = Page(k: nat) | Live(j: nat)

  predicate InPage(page: seq<Message>, id: Id) { exists k :: 0 <= k < |page| && page[k].id == id }

  function Position(live: seq<Entry>, id: Id): (r: Option<nat>)
    ensures r.Some? ==> r.value < |live| && live[r.value].message.id == id
    ensures r.Some? ==> forall j :: r.value < j < |live| ==> live[j].message.id != id
    ensures r.None? ==> forall j :: 0 <= j < |live| ==> live[j].message.id != id
    decreases |live|
  {
    if live == [] then None
    else if live[|live| - 1].message.id == id then Some(|live| - 1)
    else Position(live[..|live| - 1], id)
  }

  lemma InPageSplit(page: seq<Message>)
    requires page != []
    ensures forall id :: InPage(page, id) <==> InPage(page[..|page| - 1], id) || page[|page| - 1].id == id
  {
    var n := |page| - 1;
    forall id ensures InPage(page, id) <==> InPage(page[..n], id) || page[n].id == id {
      if InPage(page, id) {
        var k :| 0 <= k < |page| && page[k].id == id;
        assert k < n ==> page[..n][k] == page[k];
      }
      if InPage(page[..n], id) {
        var k :| 0 <= k < n && page[..n][k].id == id;
        assert page[k].id == id;
      }
    }
  }

  /** The last live position the page also holds; -1 if none. */
  function Anchor(page: seq<Message>, live: seq<Entry>): (a: int)
    ensures -1 <= a < |live|
    ensures a >= 0 ==> InPage(page, live[a].message.id)
    ensures forall j :: a < j < |live| ==> !InPage(page, live[j].message.id)
  {
    if page == [] then -1
    else
      var n := |page| - 1;
      var a := Anchor(page[..n], live);
      var p := Position(live, page[n].id);
      assert a >= 0 ==> exists k :: 0 <= k < n && page[..n][k] == page[k] && page[k].id == live[a].message.id;
      assert forall id :: InPage(page, id) ==> InPage(page[..n], id) || page[n].id == id by { InPageSplit(page); }
      if p.Some? && p.value > a then p.value else a
  }

  predicate Persisted(page: seq<Message>, turn: Id) { exists k :: 0 <= k < |page| && page[k].turn == turn }

  /** A live block the page does not hold is shown while it is incomplete, after the last anchor, or while
      nothing of the turn is persisted. */
  predicate Kept(page: seq<Message>, live: seq<Entry>, turn: Id, j: nat)
    requires j < |live|
  {
    && !InPage(page, live[j].message.id)
    && (live[j].complete && Persisted(page, turn) ==> Anchor(page, live) >= 0 && j > Anchor(page, live))
  }

  /** The kept live positions right before position i, back to the previous shared one. */
  function Segment(page: seq<Message>, live: seq<Entry>, turn: Id, i: nat): seq<nat>
    requires i <= |live|
    decreases i
  {
    if i == 0 || InPage(page, live[i - 1].message.id) then []
    else Segment(page, live, turn, i - 1) + if Kept(page, live, turn, i - 1) then [i - 1] else []
  }

  function Lives(js: seq<nat>): (r: seq<Item>)
    ensures |r| == |js| && forall i :: 0 <= i < |js| ==> r[i] == Live(js[i])
  {
    seq(|js|, i requires 0 <= i < |js| => Live(js[i]))
  }

  /** A page message with the live blocks that belong before it. */
  function Row(page: seq<Message>, live: seq<Entry>, turn: Id, k: nat): seq<Item>
    requires k <= |page|
  {
    if k == |page| then Lives(Segment(page, live, turn, |live|))
    else
      var p := Position(live, page[k].id);
      (if p.Some? then Lives(Segment(page, live, turn, p.value)) else []) + [Page(k)]
  }

  function Rows(page: seq<Message>, live: seq<Entry>, turn: Id): (rows: seq<seq<Item>>)
    ensures |rows| == |page| + 1 && forall k :: 0 <= k <= |page| ==> rows[k] == Row(page, live, turn, k)
  {
    seq(|page| + 1, k requires 0 <= k <= |page| => Row(page, live, turn, k))
  }

  function Plan(page: seq<Message>, live: seq<Entry>, turn: Id): seq<Item> {
    Flat(Rows(page, live, turn))
  }

  // ----- segments -----

  lemma {:induction false} SegmentAt(page: seq<Message>, live: seq<Entry>, turn: Id, i: nat, k: nat)
    requires i <= |live| && k < |Segment(page, live, turn, i)|
    ensures var j := Segment(page, live, turn, i)[k];
      j < i && Kept(page, live, turn, j) && forall s :: j <= s < i ==> !InPage(page, live[s].message.id)
    decreases i
  {
    hide Kept; hide InPage;
    if k < |Segment(page, live, turn, i - 1)| { SegmentAt(page, live, turn, i - 1, k); }
    KeptIsMissing(page, live, turn, i - 1);
  }

  lemma KeptIsMissing(page: seq<Message>, live: seq<Entry>, turn: Id, j: nat)
    requires j < |live|
    ensures Kept(page, live, turn, j) ==> !InPage(page, live[j].message.id)
  {
  }

  lemma {:induction false} SegmentAscends(page: seq<Message>, live: seq<Entry>, turn: Id, i: nat, a: nat, b: nat)
    requires i <= |live| && a < b < |Segment(page, live, turn, i)|
    ensures Segment(page, live, turn, i)[a] < Segment(page, live, turn, i)[b]
    decreases i
  {
    hide Kept; hide InPage;
    var before := Segment(page, live, turn, i - 1);
    if b < |before| { SegmentAscends(page, live, turn, i - 1, a, b); } else { SegmentAt(page, live, turn, i - 1, a); }
  }

  lemma {:induction false} SegmentHas(page: seq<Message>, live: seq<Entry>, turn: Id, i: nat, j: nat)
    requires j < i <= |live| && Kept(page, live, turn, j) && forall s :: j <= s < i ==> !InPage(page, live[s].message.id)
    ensures j in Segment(page, live, turn, i)
    decreases i
  {
    hide Kept; hide InPage;
    if j < i - 1 { SegmentHas(page, live, turn, i - 1, j); }
  }

  // ----- the rows -----

  /** The live position of a merged item, if it has one. */
  function LiveAt(page: seq<Message>, live: seq<Entry>, item: Item): Option<nat> {
    match item
    case Live(j) => Some(j)
    case Page(k) => if k < |page| then Position(live, page[k].id) else None
  }

  /** The live position a row ends at. */
  function RowEnd(page: seq<Message>, live: seq<Entry>, k: nat): Option<nat>
    requires k <= |page|
  {
    if k == |page| then Some(|live|) else Position(live, page[k].id)
  }

  lemma RowItem(page: seq<Message>, live: seq<Entry>, turn: Id, k: nat, x: nat)
    requires k <= |page| && x < |Row(page, live, turn, k)|
    ensures var item := Row(page, live, turn, k)[x];
      && (item.Page? <==> k < |page| && x == |Row(page, live, turn, k)| - 1) && (item.Page? ==> item.k == k)
      && (item.Live? ==> RowEnd(page, live, k).Some? && x < |Segment(page, live, turn, RowEnd(page, live, k).value)|
                         && item.j == Segment(page, live, turn, RowEnd(page, live, k).value)[x])
  {
    hide Segment; hide Position;
  }

  /** A block alone belongs to the row of the next shared position. */
  lemma LiveInRow(page: seq<Message>, live: seq<Entry>, turn: Id, k: nat, x: nat)
    requires k <= |page| && x < |Row(page, live, turn, k)| && Row(page, live, turn, k)[x].Live?
    ensures RowEnd(page, live, k).Some? &&
      var j, end := Row(page, live, turn, k)[x].j, RowEnd(page, live, k).value;
      j < end <= |live| && Kept(page, live, turn, j) && forall s :: j <= s < end ==> !InPage(page, live[s].message.id)
  {
    hide Segment; hide Position; hide Kept; hide Row;
    RowItem(page, live, turn, k, x);
    SegmentAt(page, live, turn, RowEnd(page, live, k).value, x);
  }

  ghost predicate DistinctPage(page: seq<Message>) { forall a, b :: 0 <= a < b < |page| ==> page[a].id != page[b].id }

  ghost predicate DistinctLive(live: seq<Entry>) { forall a, b :: 0 <= a < b < |live| ==> live[a].message.id != live[b].message.id }

  lemma SameEnd(page: seq<Message>, live: seq<Entry>, turn: Id, a: nat, b: nat, j: nat)
    requires DistinctPage(page) && a <= b <= |page| && RowEnd(page, live, a).Some? && RowEnd(page, live, b).Some?
    requires var x, y := RowEnd(page, live, a).value, RowEnd(page, live, b).value;
      && j < x <= |live| && j < y <= |live|
      && (forall s :: j <= s < x ==> !InPage(page, live[s].message.id)) && (forall s :: j <= s < y ==> !InPage(page, live[s].message.id))
    ensures a == b
  {
    var x, y := RowEnd(page, live, a).value, RowEnd(page, live, b).value;
    if a < |page| { assert page[a].id == live[x].message.id; assert InPage(page, live[x].message.id); }
    if b < |page| { assert page[b].id == live[y].message.id; assert InPage(page, live[y].message.id); }
    assert x == y;
  }

  /** Where an item of the plan stands. */
  lemma PlanAt(page: seq<Message>, live: seq<Entry>, turn: Id, p: nat) returns (k: nat, x: nat)
    requires p < |Plan(page, live, turn)|
    ensures k <= |page| && x < |Row(page, live, turn, k)| && Plan(page, live, turn)[p] == Row(page, live, turn, k)[x]
    ensures p == Before(Rows(page, live, turn), k) + x
  {
    hide Row;
    k, x := Locate(Rows(page, live, turn), p);
  }

  lemma RowsAscend(page: seq<Message>, live: seq<Entry>, turn: Id, k: nat, x: nat, k': nat, x': nat)
    requires k <= |page| && x < |Row(page, live, turn, k)| && k' <= |page| && x' < |Row(page, live, turn, k')|
    requires Before(Rows(page, live, turn), k) + x < Before(Rows(page, live, turn), k') + x'
    ensures k < k' || (k == k' && x < x')
  {
    hide Row;
    if k' < k { BeforeGrows(Rows(page, live, turn), k', k); }
  }

  /** No block is shown twice. */
  lemma PlanDistinct(page: seq<Message>, live: seq<Entry>, turn: Id, p: nat, q: nat)
    requires DistinctPage(page) && p < q < |Plan(page, live, turn)|
    ensures Plan(page, live, turn)[p] != Plan(page, live, turn)[q]
  {
    hide Row; hide Plan; hide Rows; hide Kept; hide Segment; hide RowEnd;
    var k, x := PlanAt(page, live, turn, p);
    var k', x' := PlanAt(page, live, turn, q);
    RowsAscend(page, live, turn, k, x, k', x');
    RowItem(page, live, turn, k, x);
    RowItem(page, live, turn, k', x');
    var a, b := Row(page, live, turn, k)[x], Row(page, live, turn, k')[x'];
    if a.Live? && a == b {
      LiveInRow(page, live, turn, k, x);
      LiveInRow(page, live, turn, k', x');
      SameEnd(page, live, turn, k, k', a.j);
      SegmentAscends(page, live, turn, RowEnd(page, live, k).value, x, x');
    }
  }

  /** The whole page is there, in its order. */
  lemma PlanHasPage(page: seq<Message>, live: seq<Entry>, turn: Id, k: nat) returns (p: nat)
    requires k < |page|
    ensures p < |Plan(page, live, turn)| && Plan(page, live, turn)[p] == Page(k)
    ensures forall m, q :: k < m < |page| && 0 <= q < |Plan(page, live, turn)| && Plan(page, live, turn)[q] == Page(m) ==> p < q
  {
    hide Segment; hide Position;
    var rows := Rows(page, live, turn);
    var last := |rows[k]| - 1;
    Place(rows, k, last);
    p := Before(rows, k) + last;
    forall m, q | k < m < |page| && 0 <= q < |Plan(page, live, turn)| && Plan(page, live, turn)[q] == Page(m) ensures p < q {
      var k', x' := PlanAt(page, live, turn, q);
      RowItem(page, live, turn, k', x');
      BeforeGrows(rows, k, k');
    }
  }

  /** A missing block is shown exactly when it is incomplete, after the last anchor, or of a turn not persisted yet. */
  lemma PlanHasLive(page: seq<Message>, live: seq<Entry>, turn: Id, j: nat)
    requires j < |live| && DistinctLive(live)
    ensures Live(j) in Plan(page, live, turn) <==> Kept(page, live, turn, j)
  {
    hide Segment; hide Position; hide Kept; hide Row; hide Plan;
    if Live(j) in Plan(page, live, turn) {
      var p :| 0 <= p < |Plan(page, live, turn)| && Plan(page, live, turn)[p] == Live(j);
      var k, x := PlanAt(page, live, turn, p);
      LiveInRow(page, live, turn, k, x);
    }
    if Kept(page, live, turn, j) {
      KeptIsMissing(page, live, turn, j);
      var end := NextShared(page, live, j);
      SegmentHas(page, live, turn, end, j);
      RowHas(page, live, turn, end, j);
    }
  }

  lemma {:induction false} NextShared(page: seq<Message>, live: seq<Entry>, j: nat) returns (end: nat)
    requires j < |live| && !InPage(page, live[j].message.id)
    ensures j < end <= |live| && (forall s :: j <= s < end ==> !InPage(page, live[s].message.id))
    ensures end == |live| || InPage(page, live[end].message.id)
    decreases |live| - j
  {
    if j + 1 == |live| || InPage(page, live[j + 1].message.id) {
      end := j + 1;
    } else {
      end := NextShared(page, live, j + 1);
    }
  }

  lemma RowHas(page: seq<Message>, live: seq<Entry>, turn: Id, end: nat, j: nat)
    requires end <= |live| && DistinctLive(live) && j in Segment(page, live, turn, end)
    requires end == |live| || InPage(page, live[end].message.id)
    ensures Live(j) in Plan(page, live, turn)
  {
    hide Segment;
    var segment := Segment(page, live, turn, end);
    var x :| 0 <= x < |segment| && segment[x] == j;
    var k := |page|;
    if end < |live| {
      k :| 0 <= k < |page| && page[k].id == live[end].message.id;
      assert Position(live, page[k].id) == Some(end);
    }
    assert Row(page, live, turn, k)[x] == Live(j);
    Place(Rows(page, live, turn), k, x);
  }

  /** The page and the buffer agree on the order of what they share. */
  ghost predicate Agree(page: seq<Message>, live: seq<Entry>) {
    forall a, b :: 0 <= a < b < |page| && Position(live, page[a].id).Some? && Position(live, page[b].id).Some? ==>
      Position(live, page[a].id).value < Position(live, page[b].id).value
  }

  /** Live order is kept among everything the buffer knows, shared or not. */
  lemma PlanKeepsLiveOrder(page: seq<Message>, live: seq<Entry>, turn: Id, p: nat, q: nat)
    requires DistinctPage(page) && Agree(page, live) && p < q < |Plan(page, live, turn)|
    requires LiveAt(page, live, Plan(page, live, turn)[p]).Some? && LiveAt(page, live, Plan(page, live, turn)[q]).Some?
    ensures LiveAt(page, live, Plan(page, live, turn)[p]).value < LiveAt(page, live, Plan(page, live, turn)[q]).value
  {
    hide Row; hide Plan; hide Rows; hide Kept; hide Segment; hide Position;
    var k, x := PlanAt(page, live, turn, p);
    var k', x' := PlanAt(page, live, turn, q);
    RowsAscend(page, live, turn, k, x, k', x');
    InRow(page, live, turn, k, x);
    InRow(page, live, turn, k', x');
    if k == k' {
      RowItem(page, live, turn, k, x);
      RowItem(page, live, turn, k, x');
      if Row(page, live, turn, k)[x'].Live? { SegmentAscends(page, live, turn, RowEnd(page, live, k).value, x, x'); }
    } else {
      var end := RowEnd(page, live, k).value;
      assert page[k].id == live[end].message.id;
      assert InPage(page, live[end].message.id);
    }
  }

  /** An item with a live position lies at its row's end or in the stretch without shared blocks before it. */
  lemma InRow(page: seq<Message>, live: seq<Entry>, turn: Id, k: nat, x: nat)
    requires k <= |page| && x < |Row(page, live, turn, k)| && LiveAt(page, live, Row(page, live, turn, k)[x]).Some?
    ensures RowEnd(page, live, k).Some? &&
      var end, j := RowEnd(page, live, k).value, LiveAt(page, live, Row(page, live, turn, k)[x]).value;
      && j <= end <= |live| && (Row(page, live, turn, k)[x].Live? <==> j < end)
      && forall s :: j <= s < end ==> !InPage(page, live[s].message.id)
  {
    hide Row; hide Kept; hide Segment;
    RowItem(page, live, turn, k, x);
    if Row(page, live, turn, k)[x].Live? { LiveInRow(page, live, turn, k, x); }
  }

  // ----- the merged messages -----

  /** A shared block still streaming is shown live, unless the page is preferred. */
  function Shown(page: seq<Message>, live: seq<Entry>, prefer: bool, item: Item): Message
    requires item.Page? ==> item.k < |page|
    requires item.Live? ==> item.j < |live|
  {
    match item
    case Live(j) => live[j].message
    case Page(k) =>
      var p := Position(live, page[k].id);
      if p.Some? && !live[p.value].complete && !prefer then live[p.value].message else page[k]
  }

  predicate Sound(page: seq<Message>, live: seq<Entry>, items: seq<Item>) {
    forall i :: 0 <= i < |items| ==> (items[i].Page? ==> items[i].k < |page|) && (items[i].Live? ==> items[i].j < |live|)
  }

  function Messages(page: seq<Message>, live: seq<Entry>, prefer: bool, items: seq<Item>): (r: seq<Message>)
    requires Sound(page, live, items)
    ensures |r| == |items| && forall i :: 0 <= i < |items| ==> r[i] == Shown(page, live, prefer, items[i])
  {
    seq(|items|, i requires 0 <= i < |items| => Shown(page, live, prefer, items[i]))
  }

  lemma PlanSound(page: seq<Message>, live: seq<Entry>, turn: Id)
    ensures Sound(page, live, Plan(page, live, turn))
  {
    hide Row; hide Rows; hide Plan; hide Kept; hide Segment;
    forall p | 0 <= p < |Plan(page, live, turn)|
      ensures var item := Plan(page, live, turn)[p]; (item.Page? ==> item.k < |page|) && (item.Live? ==> item.j < |live|)
    {
      var k, x := PlanAt(page, live, turn, p);
      RowItem(page, live, turn, k, x);
      if Row(page, live, turn, k)[x].Live? { LiveInRow(page, live, turn, k, x); }
    }
  }

  function Merged(page: seq<Message>, live: seq<Entry>, turn: Id, prefer: bool): seq<Message> {
    PlanSound(page, live, turn);
    Messages(page, live, prefer, Plan(page, live, turn))
  }

  /** The merged page never shows an id twice. */
  lemma MergedDistinct(page: seq<Message>, live: seq<Entry>, turn: Id, prefer: bool, p: nat, q: nat)
    requires DistinctPage(page) && DistinctLive(live) && p < q < |Merged(page, live, turn, prefer)|
    ensures Merged(page, live, turn, prefer)[p].id != Merged(page, live, turn, prefer)[q].id
  {
    hide Plan;
    PlanSound(page, live, turn);
    var a, b := Plan(page, live, turn)[p], Plan(page, live, turn)[q];
    PlanDistinct(page, live, turn, p, q);
    ShownId(page, live, turn, prefer, a);
    ShownId(page, live, turn, prefer, b);
  }

  lemma ShownId(page: seq<Message>, live: seq<Entry>, turn: Id, prefer: bool, item: Item)
    requires DistinctLive(live) && item in Plan(page, live, turn) && (item.Page? ==> item.k < |page|) && (item.Live? ==> item.j < |live|)
    ensures item.Page? ==> Shown(page, live, prefer, item).id == page[item.k].id
    ensures item.Live? ==> Shown(page, live, prefer, item).id == live[item.j].message.id && !InPage(page, live[item.j].message.id)
  {
    hide Plan;
    if item.Live? { PlanHasLive(page, live, turn, item.j); }
  }

  /** The page message k is shown as persisted: the page is preferred, or no live block of its id still streams. */
  ghost predicate ShownAsPersisted(page: seq<Message>, live: seq<Entry>, prefer: bool, k: nat)
    requires k < |page|
  {
    prefer || forall j :: 0 <= j < |live| && live[j].message.id == page[k].id ==> live[j].complete
  }

  /** The live message j is shown: in place of a persisted one while it streams and the page is not preferred; if the
      page lacks it, while it streams, while nothing of the turn is persisted, or behind everything the page shares. */
  ghost predicate ShownLive(page: seq<Message>, live: seq<Entry>, turn: Id, prefer: bool, j: nat)
    requires j < |live|
  {
    if InPage(page, live[j].message.id) then !live[j].complete && !prefer
    else !live[j].complete || !Persisted(page, turn) ||
         ((exists a :: 0 <= a < j && InPage(page, live[a].message.id)) && forall s :: j <= s < |live| ==> !InPage(page, live[s].message.id))
  }

  /** What stands at the place of a page message. */
  lemma PageTextAt(page: seq<Message>, live: seq<Entry>, turn: Id, prefer: bool, k: nat) returns (p: nat)
    requires k < |page| && DistinctLive(live)
    ensures p < |Merged(page, live, turn, prefer)|
    ensures var m := Merged(page, live, turn, prefer)[p];
      && (ShownAsPersisted(page, live, prefer, k) ==> m == page[k])
      && forall j :: 0 <= j < |live| && live[j].message.id == page[k].id && !live[j].complete && !prefer ==> m == live[j].message
  {
    hide Plan;
    p := PlanHasPage(page, live, turn, k);
    PlanSound(page, live, turn);
  }

  lemma KeptIff(page: seq<Message>, live: seq<Entry>, turn: Id, prefer: bool, j: nat)
    requires j < |live| && !InPage(page, live[j].message.id)
    ensures Kept(page, live, turn, j) <==> ShownLive(page, live, turn, prefer, j)
  {
    hide InPage; hide Persisted;
    var a := Anchor(page, live);
    assert a >= 0 ==> InPage(page, live[a].message.id);
    if a >= 0 && j > a { assert forall s :: j <= s < |live| ==> !InPage(page, live[s].message.id); }
  }

  lemma InPlan(page: seq<Message>, live: seq<Entry>, turn: Id, prefer: bool, item: Item)
    requires item in Plan(page, live, turn) && (item.Page? ==> item.k < |page|) && (item.Live? ==> item.j < |live|)
    ensures Shown(page, live, prefer, item) in Merged(page, live, turn, prefer)
  {
    hide Plan; hide Shown;
    PlanSound(page, live, turn);
    var p :| 0 <= p < |Plan(page, live, turn)| && Plan(page, live, turn)[p] == item;
    assert Merged(page, live, turn, prefer)[p] == Shown(page, live, prefer, item);
  }

  /** The messages of the merged page are these and no others. */
  lemma MergedIff(page: seq<Message>, live: seq<Entry>, turn: Id, prefer: bool, m: Message)
    requires DistinctLive(live)
    ensures m in Merged(page, live, turn, prefer) <==>
      || (exists k :: 0 <= k < |page| && page[k] == m && ShownAsPersisted(page, live, prefer, k))
      || (exists j :: 0 <= j < |live| && live[j].message == m && ShownLive(page, live, turn, prefer, j))
  {
    hide Plan; hide Kept; hide Persisted; hide Position; hide Anchor;
    PlanSound(page, live, turn);
    if m in Merged(page, live, turn, prefer) {
      var p :| 0 <= p < |Plan(page, live, turn)| && Shown(page, live, prefer, Plan(page, live, turn)[p]) == m;
      var item := Plan(page, live, turn)[p];
      assert item in Plan(page, live, turn);
      if item.Live? {
        PlanHasLive(page, live, turn, item.j);
        KeptIsMissing(page, live, turn, item.j);
        KeptIff(page, live, turn, prefer, item.j);
      } else {
        var q := Position(live, page[item.k].id);
        if q.Some? && !live[q.value].complete && !prefer {
          assert InPage(page, live[q.value].message.id);
          assert ShownLive(page, live, turn, prefer, q.value);
        } else {
          assert ShownAsPersisted(page, live, prefer, item.k);
        }
      }
    }
    if k :| 0 <= k < |page| && page[k] == m && ShownAsPersisted(page, live, prefer, k) {
      var p := PageTextAt(page, live, turn, prefer, k);
    }
    if j :| 0 <= j < |live| && live[j].message == m && ShownLive(page, live, turn, prefer, j) {
      if InPage(page, live[j].message.id) {
        var k :| 0 <= k < |page| && page[k].id == live[j].message.id;
        var p := PageTextAt(page, live, turn, prefer, k);
      } else {
        KeptIff(page, live, turn, prefer, j);
        PlanHasLive(page, live, turn, j);
        InPlan(page, live, turn, prefer, Live(j));
      }
    }
  }

  function Visible(messages: seq<Message>, activity: bool): seq<Message>
    decreases |messages|
  {
    if messages == [] then []
    else
      var n := |messages| - 1;
      Visible(messages[..n], activity) + if activity || !messages[n].activity then [messages[n]] else []
  }

  lemma {:induction false} VisibleAll(messages: seq<Message>)
    ensures Visible(messages, true) == messages
    decreases |messages|
  {
    if messages != [] {
      VisibleAll(messages[..|messages| - 1]);
      assert messages == messages[..|messages| - 1] + [messages[|messages| - 1]];
    }
  }
}

/** Merge as it runs: maps and accumulators over the buffer and the page. */
module ActivityMerging {
  import opened Common
  import opened Concatenation
  import opened ActivityBuffer
  import opened ActivityMerge

  lemma LiveIds(a: TaskActivity)
    requires a.Valid()
    ensures DistinctLive(a.Live()) && forall j :: 0 <= j < |a.order| ==> a.Live()[j].message.id == a.order[j]
  {
  }

  /** id -> index over the live order */
  method Positions(live: seq<Entry>, order: seq<Id>) returns (positions: map<Id, nat>)
    requires DistinctLive(live) && |order| == |live| && forall j :: 0 <= j < |live| ==> live[j].message.id == order[j]
    ensures forall id :: Position(live, id) == if id in positions then Some(positions[id]) else None
  {
    positions := map[];
    for i := 0 to |order|
      invariant forall id :: id in positions ==> positions[id] < i && order[positions[id]] == id
      invariant forall j :: 0 <= j < i ==> order[j] in positions
    {
      positions := positions[order[i] := i];
    }
  }

  method Scan(page: seq<Message>, live: seq<Entry>, positions: map<Id, nat>, turn: Id) returns (anchor: int, present: set<Id>, persisted: bool)
    requires forall id :: Position(live, id) == if id in positions then Some(positions[id]) else None
    ensures anchor == Anchor(page, live) && persisted == Persisted(page, turn)
    ensures forall id :: id in present <==> InPage(page, id)
  {
    hide Position; hide InPage; hide Persisted; hide Anchor;
    anchor, present, persisted := -1, {}, false;
    ScanNothing(live, turn);
    for k := 0 to |page|
      invariant anchor == Anchor(page[..k], live) && persisted == Persisted(page[..k], turn)
      invariant forall id :: id in present <==> InPage(page[..k], id)
    {
      var message := page[k];
      assert page[..k + 1][..k] == page[..k];
      ScanOne(page[..k + 1], live, turn);
      assert Position(live, message.id) == if message.id in positions then Some(positions[message.id]) else None;
      if message.id in positions && positions[message.id] > anchor { anchor := positions[message.id]; }
      present := present + {message.id};
      if message.turn == turn { persisted := true; }
    }
    assert page[..|page|] == page;
  }

  lemma ScanNothing(live: seq<Entry>, turn: Id)
    ensures Anchor([], live) == -1 && !Persisted([], turn) && forall id :: !InPage([], id)
  {
  }

  lemma ScanOne(page: seq<Message>, live: seq<Entry>, turn: Id)
    requires page != []
    ensures var n := |page| - 1; var a, p := Anchor(page[..n], live), Position(live, page[n].id);
      && Anchor(page, live) == (if p.Some? && p.value > a then p.value else a)
      && (Persisted(page, turn) <==> Persisted(page[..n], turn) || page[n].turn == turn)
      && (forall id :: InPage(page, id) <==> InPage(page[..n], id) || page[n].id == id)
  {
    hide Position; hide InPage; hide Persisted;
    InPageSplit(page);
    PersistedSplit(page, turn);
  }

  lemma PersistedSplit(page: seq<Message>, turn: Id)
    requires page != []
    ensures Persisted(page, turn) <==> Persisted(page[..|page| - 1], turn) || page[|page| - 1].turn == turn
  {
    var n := |page| - 1;
    if Persisted(page, turn) {
      var k :| 0 <= k < |page| && page[k].turn == turn;
      assert k < n ==> page[..n][k] == page[k];
    }
    if Persisted(page[..n], turn) {
      var k :| 0 <= k < n && page[..n][k].turn == turn;
      assert page[k].turn == turn;
    }
  }

  /** The blocks placed before each shared one so far. */
  ghost predicate Placed(before: map<Id, seq<Message>>, page: seq<Message>, live: seq<Entry>, turn: Id, i: nat)
    requires i <= |live|
  {
    && (forall p :: 0 <= p < i && InPage(page, live[p].message.id) ==>
          Blocks(before, live[p].message.id) == Texts(live, Segment(page, live, turn, p)))
    && (forall id :: id in before ==> exists p :: 0 <= p < i && live[p].message.id == id)
  }

  function Blocks(before: map<Id, seq<Message>>, id: Id): seq<Message> {
    if id in before then before[id] else []
  }

  function Texts(live: seq<Entry>, js: seq<nat>): (r: seq<Message>)
    ensures |r| == |js| && forall i :: 0 <= i < |js| && js[i] < |live| ==> r[i] == live[js[i]].message
  {
    seq(|js|, i requires 0 <= i < |js| => if js[i] < |live| then live[js[i]].message else Message([], [], [], false, 0))
  }

  method PlaceBlocks(page: seq<Message>, live: seq<Entry>, turn: Id, present: set<Id>, anchor: int, persisted: bool)
    returns (before: map<Id, seq<Message>>, pending: seq<Message>)
    requires DistinctLive(live) && anchor == Anchor(page, live) && persisted == Persisted(page, turn)
    requires forall id :: id in present <==> InPage(page, id)
    ensures Placed(before, page, live, turn, |live|) && pending == Texts(live, Segment(page, live, turn, |live|))
  {
    hide InPage; hide Persisted; hide Anchor; hide Placed; hide Segment; hide Texts;
    before, pending := map[], [];
    NothingPlaced(page, live, turn);
    for i := 0 to |live|
      invariant Placed(before, page, live, turn, i) && pending == Texts(live, Segment(page, live, turn, i))
    {
      var id := live[i].message.id;
      SegmentStep(page, live, turn, i);
      if id in present {
        ghost var was := before;
        if |pending| > 0 { before := before[id := pending]; }
        PlacedStep(was, before, page, live, turn, i);
        pending := [];
      } else {
        PlacedSkip(before, page, live, turn, i);
        if !(live[i].complete && persisted && !(anchor >= 0 && i > anchor)) { pending := pending + [live[i].message]; }
      }
    }
  }

  lemma NothingPlaced(page: seq<Message>, live: seq<Entry>, turn: Id)
    ensures Placed(map[], page, live, turn, 0) && Texts(live, Segment(page, live, turn, 0)) == []
  {
  }

  lemma SegmentStep(page: seq<Message>, live: seq<Entry>, turn: Id, i: nat)
    requires i < |live|
    ensures var pending := Texts(live, Segment(page, live, turn, i)); var next := Texts(live, Segment(page, live, turn, i + 1));
      if InPage(page, live[i].message.id) then next == []
      else if !(live[i].complete && Persisted(page, turn) && !(Anchor(page, live) >= 0 && i > Anchor(page, live)))
      then next == pending + [live[i].message] else next == pending
  {
    hide InPage; hide Persisted; hide Anchor;
  }

  lemma PlacedSkip(before: map<Id, seq<Message>>, page: seq<Message>, live: seq<Entry>, turn: Id, i: nat)
    requires i < |live| && Placed(before, page, live, turn, i) && !InPage(page, live[i].message.id)
    ensures Placed(before, page, live, turn, i + 1)
  {
    hide Segment; hide InPage;
  }

  lemma PlacedStep(was: map<Id, seq<Message>>, before: map<Id, seq<Message>>, page: seq<Message>, live: seq<Entry>, turn: Id, i: nat)
    requires i < |live| && DistinctLive(live) && Placed(was, page, live, turn, i)
    requires var pending := Texts(live, Segment(page, live, turn, i));
      before == if |pending| > 0 then was[live[i].message.id := pending] else was
    ensures Placed(before, page, live, turn, i + 1)
  {
    hide Segment; hide InPage;
    assert live[i].message.id !in was;
  }

  lemma SegmentTexts(page: seq<Message>, live: seq<Entry>, turn: Id, prefer: bool, i: nat)
    requires i <= |live|
    ensures Sound(page, live, Lives(Segment(page, live, turn, i)))
    ensures Messages(page, live, prefer, Lives(Segment(page, live, turn, i))) == Texts(live, Segment(page, live, turn, i))
  {
    var js := Segment(page, live, turn, i);
    forall k | 0 <= k < |js| ensures js[k] < |live| { SegmentAt(page, live, turn, i, k); }
  }

  lemma MessagesAppend(page: seq<Message>, live: seq<Entry>, prefer: bool, a: seq<Item>, b: seq<Item>)
    requires Sound(page, live, a) && Sound(page, live, b)
    ensures Sound(page, live, a + b) && Messages(page, live, prefer, a + b) == Messages(page, live, prefer, a) + Messages(page, live, prefer, b)
  {
  }

  /** One page message with the blocks before it. */
  lemma RowMessages(page: seq<Message>, live: seq<Entry>, turn: Id, prefer: bool, before: map<Id, seq<Message>>, k: nat)
    requires k < |page| && Placed(before, page, live, turn, |live|)
    ensures Sound(page, live, Row(page, live, turn, k))
    ensures Messages(page, live, prefer, Row(page, live, turn, k)) == Blocks(before, page[k].id) + [Shown(page, live, prefer, Page(k))]
  {
    hide Segment; hide Shown; hide Lives; hide Kept; hide Anchor; hide Texts;
    var p := Position(live, page[k].id);
    var front := if p.Some? then Lives(Segment(page, live, turn, p.value)) else [];
    if p.Some? {
      assert InPage(page, live[p.value].message.id);
      SegmentTexts(page, live, turn, prefer, p.value);
    }
    MessagesAppend(page, live, prefer, front, [Page(k)]);
  }

  ghost predicate Assembled(merged: seq<Message>, page: seq<Message>, live: seq<Entry>, turn: Id, prefer: bool, k: nat)
    requires k <= |page| + 1
  {
    var items := Flat(Rows(page, live, turn)[..k]);
    Sound(page, live, items) && merged == Messages(page, live, prefer, items)
  }

  lemma AssembledStep(merged: seq<Message>, page: seq<Message>, live: seq<Entry>, turn: Id, prefer: bool, k: nat)
    requires k <= |page| && Assembled(merged, page, live, turn, prefer, k) && Sound(page, live, Row(page, live, turn, k))
    ensures Assembled(merged + Messages(page, live, prefer, Row(page, live, turn, k)), page, live, turn, prefer, k + 1)
  {
    hide Segment; hide Row;
    var rows := Rows(page, live, turn);
    assert rows[..k + 1] == rows[..k] + [rows[k]];
    FlatSnoc(rows[..k], rows[k]);
    MessagesAppend(page, live, prefer, Flat(rows[..k]), rows[k]);
  }

  lemma AssembledAll(merged: seq<Message>, page: seq<Message>, live: seq<Entry>, turn: Id, prefer: bool)
    requires Assembled(merged, page, live, turn, prefer, |page| + 1)
    ensures merged == Merged(page, live, turn, prefer)
  {
    var rows := Rows(page, live, turn);
    assert rows[..|page| + 1] == rows;
  }

  method Assemble(page: seq<Message>, live: seq<Entry>, turn: Id, prefer: bool, positions: map<Id, nat>,
                  before: map<Id, seq<Message>>, pending: seq<Message>) returns (merged: seq<Message>)
    requires forall id :: Position(live, id) == if id in positions then Some(positions[id]) else None
    requires Placed(before, page, live, turn, |live|) && pending == Texts(live, Segment(page, live, turn, |live|))
    ensures merged == Merged(page, live, turn, prefer)
  {
    hide Segment; hide Placed; hide Position; hide Assembled; hide Merged; hide Row; hide Messages; hide Texts;
    merged := [];
    assert Assembled(merged, page, live, turn, prefer, 0) by { NothingAssembled(page, live, turn, prefer); }
    for k := 0 to |page|
      invariant Assembled(merged, page, live, turn, prefer, k)
    {
      var message := page[k];
      ghost var was := merged;
      RowMessages(page, live, turn, prefer, before, k);
      AssembledStep(merged, page, live, turn, prefer, k);
      Assoc(was, Blocks(before, message.id), [Shown(page, live, prefer, Page(k))]);
      merged := merged + if message.id in before then before[message.id] else [];
      assert Position(live, message.id) == if message.id in positions then Some(positions[message.id]) else None;
      if message.id in positions && !live[positions[message.id]].complete && !prefer {
        merged := merged + [live[positions[message.id]].message];
      } else {
        merged := merged + [message];
      }
    }
    SegmentTexts(page, live, turn, prefer, |live|);
    LastRow(page, live, turn);
    AssembledStep(merged, page, live, turn, prefer, |page|);
    merged := merged + pending;
    AssembledAll(merged, page, live, turn, prefer);
  }

  lemma NothingAssembled(page: seq<Message>, live: seq<Entry>, turn: Id, prefer: bool)
    ensures Assembled([], page, live, turn, prefer, 0)
  {
  }

  lemma LastRow(page: seq<Message>, live: seq<Entry>, turn: Id)
    ensures Row(page, live, turn, |page|) == Lives(Segment(page, live, turn, |live|))
  {
  }

  method Filter(messages: seq<Message>, activity: bool) returns (r: seq<Message>)
    ensures r == Visible(messages, activity)
  {
    if activity {
      VisibleAll(messages);
      return messages;
    }
    r := [];
    for i := 0 to |messages|
      invariant r == Visible(messages[..i], activity)
    {
      assert messages[..i + 1][..i] == messages[..i];
      if !messages[i].activity { r := r + [messages[i]]; }
    }
    assert messages[..|messages|] == messages;
  }

  method Merge(a: TaskActivity, page: seq<Message>, current: Option<Id>, activity: bool, prefer: bool) returns (r: seq<Message>)
    requires a.Valid()
    ensures r == if a.turnID == [] || current != Some(a.turnID) then page
                 else Visible(Merged(page, a.Live(), a.turnID, prefer), activity)
  {
    if a.turnID == [] || current != Some(a.turnID) { return page; }
    var live := seq(|a.order|, i requires 0 <= i < |a.order| && a.order[i] in a.entries reads a => a.entries[a.order[i]]);
    LiveIds(a);
    assert live == a.Live();
    var positions := Positions(live, a.order);
    var anchor, present, persisted := Scan(page, live, positions, a.turnID);
    var before, pending := PlaceBlocks(page, live, a.turnID, present, anchor, persisted);
    var merged := Assemble(page, live, a.turnID, prefer, positions, before, pending);
    r := Filter(merged, activity);
  }
}
