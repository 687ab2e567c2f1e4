/** Newline-terminated records read from the end of a file, one fixed buffer at a time. */
module Records {
  import opened Common
  import opened Concatenation

  const NEWLINE: byte := 10

  datatype Span = Span(start: nat, end: nat)

  /** One byte at a time from `p` down to `lower`; `end` is the newline the current record ends at, if known. */
  function Scan(file: seq<byte>, p: nat, lower: nat, end: int): seq<Span>
    requires lower <= p <= |file|
    decreases p
  {
    if p == lower then (if lower == 0 && end > 0 then [Span(0, end)] else [])
    else if file[p - 1] != NEWLINE then Scan(file, p - 1, lower, end)
    else (if end >= 0 && end > p then [Span(p, end)] else []) + Scan(file, p - 1, lower, p - 1)
  }

  /** One byte of the scan. */
  lemma ScanByte(file: seq<byte>, p: nat, lower: nat, end: int)
    requires lower <= p <= |file|
    ensures p > lower && file[p - 1] != NEWLINE ==> Scan(file, p, lower, end) == Scan(file, p - 1, lower, end)
    ensures p > lower && file[p - 1] == NEWLINE ==>
      Scan(file, p, lower, end) == (if end >= 0 && end > p then [Span(p, end)] else []) + Scan(file, p - 1, lower, p - 1)
    ensures p == lower ==> Scan(file, p, lower, end) == if lower == 0 && end > 0 then [Span(0, end)] else []
  {
  }

  ghost predicate Remains(file: seq<byte>, yielded: seq<Span>, p: nat, before: nat, lower: nat, end: int)
    requires lower <= p <= before <= |file|
  {
    yielded + Scan(file, p, lower, end) == Scan(file, before, lower, -1)
  }

  lemma RemainsByte(file: seq<byte>, yielded: seq<Span>, p: nat, before: nat, lower: nat, end: int)
    requires lower < p <= before <= |file| && Remains(file, yielded, p, before, lower, end)
    ensures file[p - 1] != NEWLINE ==> Remains(file, yielded, p - 1, before, lower, end)
    ensures file[p - 1] == NEWLINE ==>
      Remains(file, if end >= 0 && end > p then yielded + [Span(p, end)] else yielded, p - 1, before, lower, p - 1)
  {
    hide Scan;
    ScanByte(file, p, lower, end);
    Assoc(yielded, [Span(p, Max(0, end))], Scan(file, p - 1, lower, p - 1));
    assert [] + Scan(file, p - 1, lower, p - 1) == Scan(file, p - 1, lower, p - 1);
  }

  /** records: everything before `before`, not below `lower` */
  method ScanBackward(file: seq<byte>, before: nat, lowerBound: int, size: nat) returns (yielded: seq<Span>)
    requires before <= |file| && size > 0
    ensures yielded == Scan(file, before, Min(before, Max(0, lowerBound)), -1)
  {
    var lower := Min(before, Max(0, lowerBound));
    yielded := [];
    assert Remains(file, [], before, before, lower, -1) by { assert [] + Scan(file, before, lower, -1) == Scan(file, before, lower, -1); }
    hide Scan; hide Remains;
    var position, end: int := before, -1;
    while position > lower
      invariant lower <= position <= before && -1 <= end
      invariant Remains(file, yielded, position, before, lower, end)
    {
      var start := Max(lower, position - size);
      var buffer := file[start..position];
      var i := position - start - 1;
      while i >= 0
        invariant -1 <= i < |buffer| && -1 <= end
        invariant Remains(file, yielded, start + i + 1, before, lower, end)
        decreases i
      {
        assert buffer[i] == file[start + i];
        RemainsByte(file, yielded, start + i + 1, before, lower, end);
        if buffer[i] == NEWLINE {
          var at := start + i;
          if end >= 0 && end > at + 1 { yielded := yielded + [Span(at + 1, end)]; }
          end := at;
        }
        i := i - 1;
      }
      position := start;
    }
    NothingRemains(file, yielded, before, lower, end);
    if lower == 0 && end > 0 { yielded := yielded + [Span(0, end)]; }
  }

  lemma NothingRemains(file: seq<byte>, yielded: seq<Span>, before: nat, lower: nat, end: int)
    requires lower <= before <= |file| && Remains(file, yielded, lower, before, lower, end)
    ensures Scan(file, before, lower, -1) == if lower == 0 && end > 0 then yielded + [Span(0, end)] else yielded
  {
    hide Scan;
    ScanByte(file, lower, lower, end);
    assert yielded + [] == yielded;
  }

  /** A complete, non-empty record whose terminator is before `before` and whose start lies in the range; a
      record starting exactly at a positive lower bound is not seen, because its own newline is below it. */
  ghost predicate Record(file: seq<byte>, lower: nat, before: nat, x: Span) {
    && x.start < x.end < before <= |file| && file[x.end] == NEWLINE
    && (forall k :: x.start <= k < x.end ==> file[k] != NEWLINE)
    && ((x.start > lower && file[x.start - 1] == NEWLINE) || (x.start == 0 && lower == 0))
  }

  /** `end` is -1, or the next newline at or after p. */
  ghost predicate Pending(file: seq<byte>, p: nat, end: int) {
    end == -1 || (p <= end < |file| && file[end] == NEWLINE && forall k :: p <= k < end ==> file[k] != NEWLINE)
  }

  lemma {:induction false} ScanExact(file: seq<byte>, p: nat, lower: nat, end: int, x: Span)
    requires lower <= p <= |file| && Pending(file, p, end)
    ensures x in Scan(file, p, lower, end) <==> Record(file, lower, |file|, x) && (x.end < p || x.end == end)
    decreases p
  {
    if p > lower {
      if file[p - 1] != NEWLINE {
        ScanExact(file, p - 1, lower, end, x);
      } else {
        ScanExact(file, p - 1, lower, p - 1, x);
        if x.end == end && Record(file, lower, |file|, x) { assert x.start >= p; }
      }
    }
  }

  /** Every complete non-empty record of the range is yielded, and nothing else. */
  lemma YieldsExactlyTheRecords(file: seq<byte>, before: nat, lower: nat, x: Span)
    requires lower <= before <= |file|
    ensures x in Scan(file, before, lower, -1) <==> Record(file, lower, before, x)
  {
    ScanExact(file, before, lower, -1, x);
  }

  ghost predicate Descends(spans: seq<Span>) {
    forall i, j :: 0 <= i < j < |spans| ==> spans[j].end < spans[i].start
  }

  /** Newest first, and never overlapping. */
  lemma {:induction false} ScanDescends(file: seq<byte>, p: nat, lower: nat, end: int)
    requires lower <= p <= |file| && Pending(file, p, end)
    ensures Descends(Scan(file, p, lower, end))
    decreases p
  {
    if p > lower {
      if file[p - 1] != NEWLINE {
        ScanDescends(file, p - 1, lower, end);
      } else {
        var rest := Scan(file, p - 1, lower, p - 1);
        ScanDescends(file, p - 1, lower, p - 1);
        forall j | 0 <= j < |rest| ensures rest[j].end < p { ScanExact(file, p - 1, lower, p - 1, rest[j]); }
      }
    }
  }

  /** Starting again from a yielded record gives exactly what was left. */
  lemma {:induction false} RestartGivesRemainder(file: seq<byte>, p: nat, lower: nat, end: int, i: nat)
    requires lower <= p <= |file| && Pending(file, p, end) && i < |Scan(file, p, lower, end)|
    ensures var x := Scan(file, p, lower, end)[i];
      lower <= x.start <= |file| && Scan(file, x.start, lower, -1) == Scan(file, p, lower, end)[i + 1..]
    decreases p
  {
    var all := Scan(file, p, lower, end);
    if p == lower {
      assert all[i + 1..] == [];
    } else if file[p - 1] != NEWLINE {
      RestartGivesRemainder(file, p - 1, lower, end, i);
    } else {
      var rest := Scan(file, p - 1, lower, p - 1);
      if end >= 0 && end > p {
        assert all == [Span(p, end)] + rest;
        if i > 0 {
          RestartGivesRemainder(file, p - 1, lower, p - 1, i - 1);
          assert all[i + 1..] == rest[i..];
        } else {
          assert all[1..] == rest;
          assert [] + rest == rest;
        }
      } else {
        assert all == rest;
        RestartGivesRemainder(file, p - 1, lower, p - 1, i);
      }
    }
  }

  // ----- pages of records -----

  /** Pages of any positive lengths, each continuing from the start of the last record of the one before. */
  ghost function Follow(file: seq<byte>, before: nat, lower: nat, cut: seq<Span> -> nat): seq<seq<Span>>
    requires lower <= before <= |file|
    decreases |Scan(file, before, lower, -1)|
  {
    var all := Scan(file, before, lower, -1);
    var n := Min(Max(1, cut(all)), |all|);
    if n == |all| then [all]
    else
      RestartGivesRemainder(file, before, lower, -1, n - 1);
      [all[..n]] + Follow(file, all[n - 1].start, lower, cut)
  }

  /** Following the cursors visits every record once, newest first, whatever decides where a page ends. */
  lemma {:induction false} PagesCoverRecords(file: seq<byte>, before: nat, lower: nat, cut: seq<Span> -> nat)
    requires lower <= before <= |file|
    ensures Flat(Follow(file, before, lower, cut)) == Scan(file, before, lower, -1)
    decreases |Scan(file, before, lower, -1)|
  {
    var all := Scan(file, before, lower, -1);
    var n := Min(Max(1, cut(all)), |all|);
    if n == |all| {
      FlatSnoc([], all);
      assert [] + [all] == [all] && [] + all == all;
    } else {
      RestartGivesRemainder(file, before, lower, -1, n - 1);
      var more := Follow(file, all[n - 1].start, lower, cut);
      PagesCoverRecords(file, all[n - 1].start, lower, cut);
      assert ([all[..n]] + more)[1..] == more;
      assert all[..n] + all[n..] == all;
    }
  }

  /** A record that starts exactly at a positive lower bound is complete and in range, and is not yielded. */
  lemma LowerBoundHidesRecord(file: seq<byte>, lower: nat, end: nat)
    requires 0 < lower < end < |file| && file[lower - 1] == NEWLINE && file[end] == NEWLINE
    requires forall k :: lower <= k < end ==> file[k] != NEWLINE
    ensures Span(lower, end) !in Scan(file, |file|, lower, -1) && Span(lower, end) in Scan(file, |file|, lower - 1, -1)
  {
    YieldsExactlyTheRecords(file, |file|, lower, Span(lower, end));
    YieldsExactlyTheRecords(file, |file|, lower - 1, Span(lower, end));
  }
}

/** Pages of a native transcript: complete lines, newest first, one bounded window at a time. */
module Transcript {
  import opened Common
  import opened Concatenation
  import opened Records

  /** A line is its start and the position of its newline; it may be empty. */
  predicate Boundary(file: seq<byte>, p: nat) { p <= |file| && (p == 0 || file[p - 1] == NEWLINE) }

  /** The last line boundary at or before p. */
  function LastBoundary(file: seq<byte>, p: nat): (b: nat)
    requires p <= |file|
    ensures b <= p && Boundary(file, b) && forall k :: b <= k < p ==> file[k] != NEWLINE
  {
    if p == 0 || file[p - 1] == NEWLINE then p else LastBoundary(file, p - 1)
  }

  /** The complete lines before a boundary, newest first. */
  function LinesBack(file: seq<byte>, p: nat): seq<Span>
    requires Boundary(file, p)
    decreases p
  {
    if p == 0 then [] else
      var start := LastBoundary(file, p - 1);
      [Span(start, p - 1)] + LinesBack(file, start)
  }

  /** A complete line in front of p. */
  ghost predicate Line(file: seq<byte>, p: nat, x: Span) {
    && x.start <= x.end < p <= |file| && file[x.end] == NEWLINE && Boundary(file, x.start)
    && forall k :: x.start <= k < x.end ==> file[k] != NEWLINE
  }

  /** LinesBack lists every complete line and nothing else. */
  lemma {:induction false} LinesBackExact(file: seq<byte>, p: nat, x: Span)
    requires Boundary(file, p)
    ensures x in LinesBack(file, p) <==> Line(file, p, x)
    decreases p
  {
    if p > 0 {
      var start := LastBoundary(file, p - 1);
      LinesBackExact(file, start, x);
      if Line(file, p, x) && x.end == p - 1 { BoundaryBelow(file, p - 1, x.start); }
      if Line(file, p, x) && x.end < p - 1 { BoundaryBelow(file, p - 1, x.end + 1); }
    }
  }

  /** What the page bounds decide: a line too large for any page, and whether one more line fits a page. */
  datatype Budget = Budget(oversized: Span -> bool, fits: (seq<Span>, Span) -> bool)

  datatype PageRead = PageRead(lines: seq<Span>, before: nat)

  const EXCEEDS := "Claude native transcript record exceeds the read bound"
  const ROW := "Claude native transcript row exceeds the page bound"

  /** Lines from `end` down to `floor`, both boundaries, until the page is full; an empty page takes any line that is not oversized. */
  function Fill(file: seq<byte>, end: nat, floor: nat, taken: seq<Span>, budget: Budget): Result<PageRead>
    requires Boundary(file, end)
    decreases end
  {
    if end <= floor then Ok(PageRead(taken, floor))
    else
      var line := Span(LastBoundary(file, end - 1), end - 1);
      if budget.oversized(line) then Err(ROW)
      else if taken != [] && !budget.fits(taken, line) then Ok(PageRead(taken, end))
      else Fill(file, line.start, floor, taken + [line], budget)
  }

  /** Where the window's first whole line starts: the first line is left for the next page unless the window starts the file. */
  function FirstWhole(file: seq<byte>, start: nat, before: nat): (r: Option<nat>)
    requires start <= before <= |file|
    ensures r.Some? && start > 0 ==> start < r.value <= before && file[r.value - 1] == NEWLINE
    ensures r.Some? && start > 0 ==> forall k :: start <= k < r.value - 1 ==> file[k] != NEWLINE
    ensures r.None? ==> start > 0 && forall k :: start <= k < before ==> file[k] != NEWLINE
    ensures start == 0 ==> r == Some(0)
    decreases before - start
  {
    if start == 0 then Some(0)
    else if start == before then None
    else if file[start] == NEWLINE then Some(start + 1)
    else FirstWhole(file, start + 1, before)
  }

  function ReadPage(file: seq<byte>, before: nat, window: nat, budget: Budget): Result<PageRead>
    requires before <= |file| && window > 0
  {
    var start := Max(0, before - window);
    var first := FirstWhole(file, start, before);
    if first.None? || (start > 0 && first.value == before) then Err(EXCEEDS)
    else Fill(file, LastBoundary(file, before), first.value, [], budget)
  }

  /** The lines a walk refuses: too large for a page, or as long as the window and not wholly in the first one. */
  predicate Refused(line: Span, window: nat, budget: Budget) {
    budget.oversized(line) || (line.end + 1 - line.start >= window && line.end + 1 > window)
  }

  // ----- one page -----

  lemma BoundaryLast(file: seq<byte>, p: nat)
    requires Boundary(file, p)
    ensures LastBoundary(file, p) == p
  {
  }

  /** A boundary below the end of a line is not above its start. */
  lemma BoundaryBelow(file: seq<byte>, p: nat, floor: nat)
    requires p <= |file| && Boundary(file, floor) && floor <= p
    ensures floor <= LastBoundary(file, p)
  {
  }

  lemma {:induction false} FillPrefix(file: seq<byte>, end: nat, floor: nat, taken: seq<Span>, budget: Budget)
    requires Boundary(file, end) && Boundary(file, floor) && floor <= end && Fill(file, end, floor, taken, budget).Ok?
    ensures var r := Fill(file, end, floor, taken, budget).value;
      && Boundary(file, r.before) && floor <= r.before <= end && (taken == [] && floor < end ==> r.before < end)
      && taken <= r.lines && r.lines + LinesBack(file, r.before) == taken + LinesBack(file, end)
      && (forall i :: |taken| <= i < |r.lines| ==>
            !budget.oversized(r.lines[i]) && floor <= r.lines[i].start <= r.lines[i].end < end)
    decreases end
  {
    hide LastBoundary;
    if end > floor {
      var line := Span(LastBoundary(file, end - 1), end - 1);
      if !(taken != [] && !budget.fits(taken, line)) {
        BoundaryBelow(file, end - 1, floor);
        FillPrefix(file, line.start, floor, taken + [line], budget);
        Assoc(taken, [line], LinesBack(file, line.start));
      }
    }
  }

  /** A page ends strictly before it began, at a line boundary, and holds exactly the lines between. */
  lemma PageHoldsLines(file: seq<byte>, before: nat, window: nat, budget: Budget)
    requires before <= |file| && window > 0 && ReadPage(file, before, window, budget).Ok?
    ensures var r := ReadPage(file, before, window, budget).value;
      && Boundary(file, r.before) && r.before <= before && (before > 0 ==> r.before < before)
      && r.lines + LinesBack(file, r.before) == LinesBack(file, LastBoundary(file, before))
      && (forall i :: 0 <= i < |r.lines| ==> !Refused(r.lines[i], window, budget))
  {
    hide LinesBack; hide Fill; hide LastBoundary;
    var start := Max(0, before - window);
    var first := FirstWhole(file, start, before).value;
    BoundaryBelow(file, before, first);
    FillPrefix(file, LastBoundary(file, before), first, [], budget);
    assert [] + LinesBack(file, LastBoundary(file, before)) == LinesBack(file, LastBoundary(file, before));
  }

  // ----- following the cursors -----

  /** Pages until the start of the file; None if a page is refused. */
  function Follow(file: seq<byte>, before: nat, window: nat, budget: Budget): Option<seq<seq<Span>>>
    requires before <= |file| && window > 0
    decreases before
  {
    var page := ReadPage(file, before, window, budget);
    if page.Err? then None
    else
      PageHoldsLines(file, before, window, budget);
      if page.value.before == 0 then Some([page.value.lines])
      else
        var rest := Follow(file, page.value.before, window, budget);
        if rest.None? then None else Some([page.value.lines] + rest.value)
  }

  /** Every complete line of the snapshot is on exactly one page, newest first; the unfinished last line on none. */
  lemma {:induction false} PagesCoverLines(file: seq<byte>, before: nat, window: nat, budget: Budget)
    requires before <= |file| && window > 0 && Follow(file, before, window, budget).Some?
    ensures Flat(Follow(file, before, window, budget).value) == LinesBack(file, LastBoundary(file, before))
    decreases before
  {
    hide LinesBack; hide ReadPage;
    var page := ReadPage(file, before, window, budget).value;
    PageHoldsLines(file, before, window, budget);
    if page.before == 0 {
      NoLines(file);
      FlatSnoc([], page.lines);
      assert [] + [page.lines] == [page.lines] && [] + page.lines == page.lines && page.lines + [] == page.lines;
    } else {
      PagesCoverLines(file, page.before, window, budget);
      BoundaryLast(file, page.before);
      var rest := Follow(file, page.before, window, budget).value;
      assert ([page.lines] + rest)[1..] == rest;
    }
  }

  lemma NoLines(file: seq<byte>)
    ensures LinesBack(file, 0) == []
  {
  }

  ghost predicate Readable(file: seq<byte>, p: nat, window: nat, budget: Budget)
    requires Boundary(file, p)
  {
    forall i :: 0 <= i < |LinesBack(file, p)| ==> !Refused(LinesBack(file, p)[i], window, budget)
  }

  lemma {:induction false} FillFails(file: seq<byte>, end: nat, floor: nat, taken: seq<Span>, budget: Budget) returns (i: nat)
    requires Boundary(file, end) && Fill(file, end, floor, taken, budget).Err?
    ensures i < |LinesBack(file, end)| && budget.oversized(LinesBack(file, end)[i])
    decreases end
  {
    var line := Span(LastBoundary(file, end - 1), end - 1);
    if budget.oversized(line) {
      i := 0;
    } else {
      i := FillFails(file, line.start, floor, taken + [line], budget);
      i := i + 1;
    }
  }

  /** A refused page has a refused line in front of it. */
  lemma PageFails(file: seq<byte>, before: nat, window: nat, budget: Budget)
    requires Boundary(file, before) && window > 0 && ReadPage(file, before, window, budget).Err?
    ensures !Readable(file, before, window, budget)
  {
    var start := Max(0, before - window);
    var first := FirstWhole(file, start, before);
    BoundaryLast(file, before);
    if first.None? || (start > 0 && first.value == before) {
      var line := Span(LastBoundary(file, before - 1), before - 1);
      assert LinesBack(file, before)[0] == line;
      assert line.start <= start;
      assert Refused(line, window, budget);
    } else {
      var i := FillFails(file, before, first.value, [], budget);
      assert Refused(LinesBack(file, before)[i], window, budget);
    }
  }

  lemma ReadableSplit(file: seq<byte>, before: nat, after: nat, lines: seq<Span>, window: nat, budget: Budget)
    requires Boundary(file, before) && Boundary(file, after) && lines + LinesBack(file, after) == LinesBack(file, before)
    requires forall i :: 0 <= i < |lines| ==> !Refused(lines[i], window, budget)
    ensures Readable(file, before, window, budget) <==> Readable(file, after, window, budget)
  {
    hide Refused; hide LinesBack;
    var all, rest := LinesBack(file, before), LinesBack(file, after);
    assert forall i :: 0 <= i < |rest| ==> rest[i] == all[|lines| + i];
    assert forall i :: 0 <= i < |all| ==> all[i] == if i < |lines| then lines[i] else rest[i - |lines|];
  }

  /** A walk from a line boundary succeeds if and only if no line in front of it is refused. */
  lemma {:induction false} WalkSucceedsIff(file: seq<byte>, before: nat, window: nat, budget: Budget)
    requires Boundary(file, before) && window > 0
    ensures Follow(file, before, window, budget).Some? <==> Readable(file, before, window, budget)
    decreases before
  {
    hide ReadPage; hide Readable; hide LinesBack;
    var page := ReadPage(file, before, window, budget);
    if page.Err? {
      PageFails(file, before, window, budget);
    } else {
      PageHoldsLines(file, before, window, budget);
      BoundaryLast(file, before);
      ReadableSplit(file, before, page.value.before, page.value.lines, window, budget);
      if page.value.before == 0 {
        NothingRefused(file, window, budget);
      } else {
        WalkSucceedsIff(file, page.value.before, window, budget);
      }
    }
  }

  /** For every window a file whose walk is refused though no line is oversized: its second line, with the
      newline, is as long as the window. */
  lemma WindowLongLine(window: nat) returns (file: seq<byte>, budget: Budget)
    requires window > 0
    ensures Boundary(file, |file|) && LinesBack(file, |file|) == [Span(1, window), Span(0, 0)]
    ensures forall line :: !budget.oversized(line)
    ensures ReadPage(file, |file|, window, budget) == Err(EXCEEDS) && Follow(file, |file|, window, budget).None?
  {
    budget := Budget(_ => false, (_, _) => true);
    file := [NEWLINE] + seq(window - 1, _ => 0) + [NEWLINE];
    OneBoundary(file, window, 1);
    var first := FirstWhole(file, 1, |file|);
    assert file[window] == NEWLINE;
    assert LinesBack(file, 1) == [Span(0, 0)] + LinesBack(file, 0);
  }

  lemma NothingRefused(file: seq<byte>, window: nat, budget: Budget)
    ensures Readable(file, 0, window, budget)
  {
  }

  /** The whole snapshot: also the unfinished last line must be shorter than the window, unless one window holds the file. */
  lemma SnapshotReadableIff(file: seq<byte>, window: nat, budget: Budget)
    requires window > 0
    ensures var top := LastBoundary(file, |file|);
      Follow(file, |file|, window, budget).Some? <==>
        Readable(file, top, window, budget) && (|file| <= window || top == |file| || |file| - top < window)
  {
    var top := LastBoundary(file, |file|);
    if top == |file| {
      WalkSucceedsIff(file, |file|, window, budget);
    } else {
      hide Readable; hide LinesBack;
      var page := ReadPage(file, |file|, window, budget);
      if page.Err? {
        TailFails(file, window, budget);
      } else {
        PageHoldsLines(file, |file|, window, budget);
        ReadableSplit(file, top, page.value.before, page.value.lines, window, budget);
        TailFits(file, window, budget);
        if page.value.before == 0 { NothingRefused(file, window, budget); } else { WalkSucceedsIff(file, page.value.before, window, budget); }
      }
    }
  }

  lemma TailFails(file: seq<byte>, window: nat, budget: Budget)
    requires window > 0 && LastBoundary(file, |file|) < |file| && ReadPage(file, |file|, window, budget).Err?
    ensures var top := LastBoundary(file, |file|);
      !(Readable(file, top, window, budget) && (|file| <= window || |file| - top < window))
  {
    var top := LastBoundary(file, |file|);
    var start := Max(0, |file| - window);
    var first := FirstWhole(file, start, |file|);
    if first.Some? && !(start > 0 && first.value == |file|) {
      var i := FillFails(file, top, first.value, [], budget);
      assert Refused(LinesBack(file, top)[i], window, budget);
    }
  }

  lemma TailFits(file: seq<byte>, window: nat, budget: Budget)
    requires window > 0 && LastBoundary(file, |file|) < |file| && ReadPage(file, |file|, window, budget).Ok?
    ensures |file| <= window || |file| - LastBoundary(file, |file|) < window
  {
    hide Fill; hide LastBoundary;
    if |file| > window {
      BoundaryBelow(file, |file|, FirstWhole(file, |file| - window, |file|).value);
    }
  }

  // ----- readTranscript as it runs -----

  /** bytes.LastIndexByte over a part of the window, as the position after it. */
  method AfterLastNewline(data: seq<byte>, low: nat, high: nat) returns (p: nat)
    requires low <= high <= |data|
    ensures low <= p <= high && (p == low || data[p - 1] == NEWLINE) && forall k :: p <= k < high ==> data[k] != NEWLINE
  {
    p := high;
    while p > low && data[p - 1] != NEWLINE
      invariant low <= p <= high && forall k :: p <= k < high ==> data[k] != NEWLINE
    {
      p := p - 1;
    }
  }

  /** bytes.IndexByte, as the position after it; 0 if there is none. */
  method AfterFirstNewline(data: seq<byte>) returns (p: nat)
    ensures p <= |data| && (p > 0 ==> data[p - 1] == NEWLINE && forall k :: 0 <= k < p - 1 ==> data[k] != NEWLINE)
    ensures p == 0 ==> forall k :: 0 <= k < |data| ==> data[k] != NEWLINE
  {
    for i := 0 to |data|
      invariant forall k :: 0 <= k < i ==> data[k] != NEWLINE
    {
      if data[i] == NEWLINE { return i + 1; }
    }
    p := 0;
  }

  lemma OneBoundary(file: seq<byte>, p: nat, b: nat)
    requires b <= p <= |file| && Boundary(file, b) && forall k :: b <= k < p ==> file[k] != NEWLINE
    ensures LastBoundary(file, p) == b
  {
  }

  method ReadTranscript(file: seq<byte>, before: nat, window: nat, budget: Budget) returns (r: Result<PageRead>)
    requires before <= |file| && window > 0
    ensures r == ReadPage(file, before, window, budget)
  {
    hide Fill; hide FirstWhole; hide LastBoundary;
    var start := Max(0, before - window);
    var data := file[start..before];
    var first := 0;
    if start == 0 { StartsFile(file, before); }
    if start > 0 {
      first := AfterFirstNewline(data);
      WholeIs(file, start, before, first);
      if first == 0 || first == |data| { return Result<PageRead>.Err(EXCEEDS); }
    }
    var end := AfterLastNewline(data, 0, |data|);
    if end > 0 { assert data[end - 1] == file[start + end - 1]; }
    if start > 0 { assert data[first - 1] == file[start + first - 1]; }
    forall k | start + end <= k < before ensures file[k] != NEWLINE { assert file[k] == data[k - start]; }
    OneBoundary(file, before, start + end);
    r := FillWindow(file, data, start, first, end, budget);
  }

  lemma StartsFile(file: seq<byte>, before: nat)
    requires before <= |file|
    ensures FirstWhole(file, 0, before) == Some(0)
  {
  }

  lemma WholeIs(file: seq<byte>, start: nat, before: nat, first: nat)
    requires 0 < start <= before <= |file| && first <= before - start
    requires var data := file[start..before];
      && (first > 0 ==> data[first - 1] == NEWLINE && forall k :: 0 <= k < first - 1 ==> data[k] != NEWLINE)
      && (first == 0 ==> forall k :: 0 <= k < |data| ==> data[k] != NEWLINE)
    ensures FirstWhole(file, start, before) == if first == 0 then None else Some(start + first)
  {
    var data, whole := file[start..before], FirstWhole(file, start, before);
    assert first > 0 ==> file[start + first - 1] == NEWLINE;
    assert whole.Some? ==> data[whole.value - 1 - start] == NEWLINE;
  }

  /** The line loop. */
  method FillWindow(file: seq<byte>, data: seq<byte>, start: nat, first: nat, end: nat, budget: Budget) returns (r: Result<PageRead>)
    requires start + |data| <= |file| && data == file[start..start + |data|] && first <= |data| && end <= |data|
    requires Boundary(file, start + first) && Boundary(file, start + end)
    ensures r == Fill(file, start + end, start + first, [], budget)
  {
    hide LastBoundary;
    var stop, lines := end, [];
    while stop > first
      invariant 0 <= stop <= end && Boundary(file, start + stop)
      invariant Fill(file, start + stop, start + first, lines, budget) == Fill(file, start + end, start + first, [], budget)
    {
      var lineEnd := stop - 1;
      var lineStart := AfterLastNewline(data, first, lineEnd);
      assert lineStart > first ==> file[start + lineStart - 1] == data[lineStart - 1];
      OneBoundary(file, start + lineEnd, start + lineStart);
      var line := Span(start + lineStart, start + lineEnd);
      if budget.oversized(line) { return Result<PageRead>.Err(ROW); }
      if lines != [] && !budget.fits(lines, line) { return Ok(PageRead(lines, start + stop)); }
      lines := lines + [line];
      stop := lineStart;
    }
    r := Ok(PageRead(lines, start + first));
  }
}
