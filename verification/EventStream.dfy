/** A fatal streaming UTF-8 decoder: an unfinished last rune is held back, anything else malformed is an error. */
module EventText {
  import opened Common
  import opened Utf8

  /** How many bytes from the front are complete runes. */
  function Whole(s: seq<byte>): (n: nat)
    ensures n <= |s|
  {
    if s == [] || !WellFormed(s) then 0 else Decode(s).size + Whole(s[Decode(s).size..])
  }

  predicate Valid(s: seq<byte>) { Whole(s) == |s| }

  /** The start of a rune that more bytes could still complete. */
  predicate Unfinished(t: seq<byte>) {
    t != [] && |t| < Width(t[0]) && (|t| >= 2 ==> Second(t[0], t[1])) && (|t| >= 3 ==> Continues(t[2]))
  }

  /** A prefix of well-formed text. */
  predicate TextPrefix(s: seq<byte>) { Valid(s) || Unfinished(s[Whole(s)..]) }

  function AnnouncedLength(lead: byte): nat {
    if lead >= 0xF0 then 4 else if lead >= 0xE0 then 3 else if lead >= 0xC0 then 2 else 1
  }

  function HoldFrom(s: seq<byte>, back: nat): (n: nat)
    requires 1 <= back <= 4
    ensures n <= |s| && n <= 3
    decreases 4 - back
  {
    if back > 3 || back > |s| then 0
    else if Continues(s[|s| - back]) then HoldFrom(s, back + 1)
    else if AnnouncedLength(s[|s| - back]) > back then back else 0
  }

  /** How many trailing bytes decode holds back. */
  function Hold(s: seq<byte>): (n: nat)
    ensures n <= |s| && n <= 3
  {
    HoldFrom(s, 1)
  }

  class TaskEventDecoder {
    var held: seq<byte>

    constructor ()
      ensures held == []
    {
      held := [];
    }

    /** Output and held bytes are the input; at most three bytes are held; the output is well formed. */
    method Decode(chunk: seq<byte>) returns (r: Result<seq<byte>>)
      modifies this
      ensures var all := old(held) + chunk; var n := |all| - Hold(all);
        && held == all[n..] && |held| <= 3
        && (if Valid(all[..n]) then r == Ok(all[..n]) else r.Err?)
    {
      var combined := held + chunk;
      held := [];
      ghost var all := combined;
      var back := 1;
      while back <= 3 && back <= |combined|
        invariant 1 <= back <= 4 && combined == all && held == []
        invariant HoldFrom(all, back) == Hold(all)
        decreases 4 - back
      {
        var start := |combined| - back;
        if Continues(combined[start]) {
          back := back + 1;
        } else {
          if AnnouncedLength(combined[start]) > back {
            held := combined[start..];
            combined := combined[..start];
          }
          break;
        }
      }
      assert combined == all[..|all| - Hold(all)];
      if !Valid(combined) { return Result<seq<byte>>.Err("The encoded data was not valid for encoding utf-8"); }
      r := Ok(combined);
    }
  }

  // ----- cutting text anywhere -----

  lemma WellFormedPrefix(s: seq<byte>, t: seq<byte>)
    requires s != [] && WellFormed(s)
    ensures WellFormed(s + t) && Decode(s + t).size == Decode(s).size
  {
    assert forall i :: 0 <= i < |s| ==> (s + t)[i] == s[i];
  }

  /** Complete runes in front do not change how the rest is cut. */
  lemma {:induction false} WholeAppend(a: seq<byte>, b: seq<byte>)
    requires Valid(a)
    ensures Whole(a + b) == |a| + Whole(b)
    decreases |a|
  {
    if a == [] {
      assert a + b == b;
    } else {
      var k := Decode(a).size;
      WellFormedPrefix(a, b);
      assert (a + b)[k..] == a[k..] + b;
      WholeAppend(a[k..], b);
    }
  }

  lemma WholeStep(s: seq<byte>)
    ensures Whole(s) == if s == [] || !WellFormed(s) then 0 else Decode(s).size + Whole(s[Decode(s).size..])
  {
    hide WellFormed; hide Decode;
  }

  lemma {:induction false} WholeIsValid(s: seq<byte>)
    ensures Valid(s[..Whole(s)])
    decreases |s|
  {
    hide WellFormed; hide Decode; hide Whole;
    WholeStep(s);
    if s != [] && WellFormed(s) {
      var k := Decode(s).size;
      WholeIsValid(s[k..]);
      var n := Whole(s[k..]);
      FirstRune(s);
      assert s[..k + n] == s[..k] + s[k..][..n];
      WholeAppend(s[..k], s[k..][..n]);
    } else {
      WholeStep([]);
      assert s[..0] == [];
    }
  }

  lemma FirstRune(s: seq<byte>)
    requires s != [] && WellFormed(s)
    ensures Valid(s[..Decode(s).size])
  {
    var k := Decode(s).size;
    var rune := s[..k];
    assert WellFormed(rune) && Decode(rune).size == k;
    assert rune[k..] == [];
  }

  lemma TextTail(a: seq<byte>, b: seq<byte>)
    requires Valid(a)
    ensures TextPrefix(a + b) == TextPrefix(b)
    ensures Whole(a + b) == |a| + Whole(b) && (a + b)[Whole(a + b)..] == b[Whole(b)..] && (a + b)[..Whole(a + b)] == a + b[..Whole(b)]
  {
    hide Whole; hide Unfinished;
    WholeAppend(a, b);
    assert (a + b)[Whole(a + b)..] == b[Whole(b)..];
  }

  /** Every prefix of a text prefix is one. */
  lemma {:induction false} PrefixOfPrefix(s: seq<byte>, n: nat)
    requires TextPrefix(s) && n <= |s|
    ensures TextPrefix(s[..n])
    decreases |s|
  {
    hide WellFormed; hide Whole; hide Unfinished;
    if s == [] || n == 0 {
      assert s[..n] == [];
      NothingIsText();
    } else if WellFormed(s) && n >= Decode(s).size {
      hide TextPrefix;
      var k := Decode(s).size;
      FirstRune(s);
      assert s == s[..k] + s[k..] && s[..n] == s[..k] + s[k..][..n - k];
      TextTail(s[..k], s[k..]);
      PrefixOfPrefix(s[k..], n - k);
      TextTail(s[..k], s[k..][..n - k]);
    } else {
      if !WellFormed(s) { NotText(s); }
      CutRune(s, n);
    }
  }

  lemma NothingIsText()
    ensures TextPrefix([])
  {
  }

  lemma NotText(s: seq<byte>)
    requires s != [] && TextPrefix(s) && !WellFormed(s)
    ensures Whole(s) == 0 && Unfinished(s)
  {
    assert s[0..] == s;
  }

  lemma CutRune(s: seq<byte>, n: nat)
    requires s != [] && 0 < n <= |s| && (if WellFormed(s) then n < Decode(s).size else Unfinished(s))
    ensures Unfinished(s[..n]) && Whole(s[..n]) == 0 && TextPrefix(s[..n])
  {
    var t := s[..n];
    assert t[0] == s[0] && (n >= 2 ==> t[1] == s[1]) && (n >= 3 ==> t[2] == s[2]);
    assert !WellFormed(t);
    assert t[0..] == t;
  }

  /** A byte that starts a rune hides everything in front of it from the hold-back scan. */
  lemma {:induction false} HoldTail(a: seq<byte>, t: seq<byte>, back: nat)
    requires 1 <= back <= 4 && t != [] && !Continues(t[0])
    requires back <= |t|
    ensures HoldFrom(a + t, back) == HoldFrom(t, back)
    decreases 4 - back
  {
    assert (a + t)[|a + t| - back] == t[|t| - back];
    if back <= 3 && Continues(t[|t| - back]) { HoldTail(a, t, back + 1); }
  }

  /** On text, the backward scan finds exactly the rune the forward reading left unfinished. */
  lemma {:induction false} HoldIsUnfinished(s: seq<byte>)
    requires TextPrefix(s)
    ensures Hold(s) == |s| - Whole(s)
    decreases |s|
  {
    hide WellFormed; hide Unfinished;
    if s == [] {
    } else if !WellFormed(s) {
      NotText(s);
      HoldUnfinished(s);
    } else {
      hide TextPrefix; hide Whole;
      var k := Decode(s).size;
      var rest := s[k..];
      FirstRune(s);
      assert s == s[..k] + rest;
      TextTail(s[..k], rest);
      HoldIsUnfinished(rest);
      if rest == [] {
        HoldRune(s);
      } else {
        StartsRune(rest);
        HoldTail(s[..k], rest, 1);
      }
    }
  }

  lemma StartsRune(s: seq<byte>)
    requires s != [] && TextPrefix(s)
    ensures !Continues(s[0])
  {
    if !WellFormed(s) { NotText(s); }
  }

  lemma HoldUnfinished(t: seq<byte>)
    requires Unfinished(t)
    ensures Hold(t) == |t|
  {
    assert |t| <= 3;
  }

  lemma HoldRune(s: seq<byte>)
    requires s != [] && WellFormed(s) && Decode(s).size == |s|
    ensures Hold(s) == 0
  {
  }

  /** Feeding a further chunk of a text prefix: nothing is lost and nothing is refused. */
  lemma DecodeText(before: seq<byte>, chunk: seq<byte>)
    requires TextPrefix(before + chunk)
    ensures var held := before[Whole(before)..]; var all := held + chunk; var n := |all| - Hold(all); var whole := before + chunk;
      && Valid(all[..n]) && all[n..] == whole[Whole(whole)..]
      && before[..Whole(before)] + all[..n] == whole[..Whole(whole)]
  {
    hide Hold; hide Whole; hide Unfinished; hide TextPrefix;
    var w, whole := Whole(before), before + chunk;
    var all := before[w..] + chunk;
    WholeIsValid(before);
    assert whole == before[..w] + all;
    TextTail(before[..w], all);
    HoldIsUnfinished(all);
    WholeIsValid(all);
  }
}

/** Server-sent events (section 9.2 of the WHATWG HTML standard) over text that arrives in chunks. */
module EventLines {
  import opened Common
  import opened Concatenation
  import opened Utf8
  import opened EventText

  const NEWLINE: byte := 10
  const DATA: seq<byte> := [100, 97, 116, 97, 58]
  const EVENT: seq<byte> := [101, 118, 101, 110, 116, 58]
  const ERROR: seq<byte> := [101, 114, 114, 111, 114]

  datatype Status = Running | StreamFailed | Refused

  /** The reader between two lines; `delivered` is every event text handed on so far. */
  datatype Reader = Reader(pending: seq<byte>, data: seq<byte>, event: seq<byte>, delivered: seq<seq<byte>>, status: Status)

  const START := Reader([], [], [], [], Running)

  function Stopped(r: Reader, status: Status): Reader { Reader([], [], [], r.delivered, status) }

  predicate Blank(b: byte) { b == 32 || 9 <= b <= 13 }

  function TrimLeft(s: seq<byte>): seq<byte> { if s != [] && Blank(s[0]) then TrimLeft(s[1..]) else s }

  function TrimRight(s: seq<byte>): seq<byte> { if s != [] && Blank(s[|s| - 1]) then TrimRight(s[..|s| - 1]) else s }

  /** One line without its terminator; `accepts` says whether an event decodes and its receiver takes it. */
  function Line(r: Reader, line: seq<byte>, accepts: seq<byte> -> bool): (next: Reader)
    ensures next.status == Running ==> next.pending == r.pending
  {
    if line == [] then
      if r.event == ERROR then Stopped(r, StreamFailed)
      else if r.data != [] && !accepts(r.data) then Stopped(r, Refused)
      else r.(data := [], event := [], delivered := if r.data != [] then r.delivered + [r.data] else r.delivered)
    else if DATA <= line then
      var value := line[|DATA|..];
      var kept := if value != [] && value[0] == 32 then value[1..] else value;
      r.(data := (if r.data != [] then r.data + [NEWLINE] else []) + kept)
    else if EVENT <= line then r.(event := TrimRight(TrimLeft(line[|EVENT|..])))
    else r
  }

  function Find(s: seq<byte>): (i: int)
    ensures -1 <= i < |s|
    ensures i >= 0 ==> s[i] == NEWLINE && forall k :: 0 <= k < i ==> s[k] != NEWLINE
    ensures i < 0 ==> forall k :: 0 <= k < |s| ==> s[k] != NEWLINE
  {
    if s == [] then -1 else if s[0] == NEWLINE then 0 else var i := Find(s[1..]); if i < 0 then -1 else i + 1
  }

  function Chomp(line: seq<byte>): seq<byte> {
    if line != [] && line[|line| - 1] == 13 then line[..|line| - 1] else line
  }

  /** Every complete line of the pending text, until the stream ends itself. */
  function Drain(r: Reader, accepts: seq<byte> -> bool): Reader
    decreases |r.pending|
  {
    var end := Find(r.pending);
    if r.status != Running || end < 0 then r
    else
      var next := Line(r.(pending := r.pending[end + 1..]), Chomp(r.pending[..end]), accepts);
      if next.status != Running then next else Drain(next, accepts)
  }

  function Feed(r: Reader, text: seq<byte>, accepts: seq<byte> -> bool): Reader {
    if r.status != Running then r else Drain(r.(pending := r.pending + text), accepts)
  }

  // ----- lines do not depend on where text is cut -----

  lemma FindAppend(s: seq<byte>, t: seq<byte>)
    requires Find(s) >= 0
    ensures Find(s + t) == Find(s)
  {
    assert forall k :: 0 <= k < |s| ==> (s + t)[k] == s[k];
  }

  lemma {:induction false} DrainSplit(r: Reader, b: seq<byte>, accepts: seq<byte> -> bool)
    requires r.status == Running
    ensures Feed(Drain(r, accepts), b, accepts) == Drain(r.(pending := r.pending + b), accepts)
    decreases |r.pending|
  {
    hide Line; hide Find; hide Chomp;
    var end := Find(r.pending);
    if end >= 0 {
      FindAppend(r.pending, b);
      var line, tail := Chomp(r.pending[..end]), r.pending[end + 1..];
      assert (r.pending + b)[..end] == r.pending[..end] && (r.pending + b)[end + 1..] == tail + b;
      var next := Line(r.(pending := tail), line, accepts);
      SameLine(r, tail, tail + b, line, accepts);
      if next.status == Running { DrainSplit(next, b, accepts); }
    }
  }

  lemma SameLine(r: Reader, a: seq<byte>, b: seq<byte>, line: seq<byte>, accepts: seq<byte> -> bool)
    ensures var x, y := Line(r.(pending := a), line, accepts), Line(r.(pending := b), line, accepts);
      x.status == y.status && (if x.status == Running then y == x.(pending := b) else r.status == Running ==> x == y)
  {
  }

  /** Feeding text in two pieces is feeding it at once. */
  lemma FeedSplit(r: Reader, a: seq<byte>, b: seq<byte>, accepts: seq<byte> -> bool)
    ensures Feed(Feed(r, a, accepts), b, accepts) == Feed(r, a + b, accepts)
  {
    hide Drain;
    if r.status == Running {
      DrainSplit(r.(pending := r.pending + a), b, accepts);
      Assoc(r.pending, a, b);
    }
  }

  // ----- reading what a server writes -----

  /** One event as a server sends it: a data field for each line of its text, then a blank line. */
  function EncodeLines(value: seq<byte>): seq<byte>
    decreases |value|
  {
    var i := Find(value);
    if i < 0 then DATA + [32] + value + [NEWLINE]
    else DATA + [32] + value[..i] + [NEWLINE] + EncodeLines(value[i + 1..])
  }

  function EncodeEvent(value: seq<byte>): seq<byte> { EncodeLines(value) + [NEWLINE] }

  function EncodeAll(values: seq<seq<byte>>): seq<byte> {
    if values == [] then [] else EncodeEvent(values[0]) + EncodeAll(values[1..])
  }

  /** No line of the text ends in a carriage return. */
  predicate Plain(value: seq<byte>) {
    forall i :: 0 <= i < |value| && value[i] == 13 ==> i + 1 < |value| && value[i + 1] != NEWLINE
  }

  /** A reader between events. */
  predicate Between(r: Reader) { r.status == Running && r.pending == [] && r.data == [] && r.event == [] }

  lemma LineFeed(r: Reader, line: seq<byte>, accepts: seq<byte> -> bool)
    requires r.status == Running && r.pending == [] && forall i :: 0 <= i < |line| ==> line[i] != NEWLINE
    ensures Feed(r, line + [NEWLINE], accepts) == Line(r, Chomp(line), accepts)
  {
    hide Line; hide Chomp;
    var t := r.(pending := line + [NEWLINE]);
    assert [] + (line + [NEWLINE]) == line + [NEWLINE];
    assert t.pending[|line|] == NEWLINE && forall k :: 0 <= k < |line| ==> t.pending[k] == line[k];
    assert Find(t.pending) == |line|;
    assert t.pending[..|line|] == line && t.pending[|line| + 1..] == [];
    assert t.(pending := []) == r;
    var next := Line(r, Chomp(line), accepts);
    assert next.status == Running ==> next.pending == [] && Drain(next, accepts) == next;
  }

  /** The data field of one line. */
  lemma DataFeed(r: Reader, line: seq<byte>, accepts: seq<byte> -> bool)
    requires r.status == Running && r.pending == [] && forall i :: 0 <= i < |line| ==> line[i] != NEWLINE
    ensures Feed(r, DATA + [32] + line + [NEWLINE], accepts)
            == r.(data := (if r.data != [] then r.data + [NEWLINE] else []) + Chomp(line))
  {
    hide Feed;
    var field := DATA + [32] + line;
    LineFeed(r, field, accepts);
    assert Chomp(field) == DATA + [32] + Chomp(line);
    assert Chomp(field)[..|DATA|] == DATA && Chomp(field)[|DATA|..] == [32] + Chomp(line) && ([32] + Chomp(line))[1..] == Chomp(line);
  }

  /** What the data fields of a text add up to. */
  function Joined(data: seq<byte>, value: seq<byte>): seq<byte>
    decreases |value|
  {
    var front := if data != [] then data + [NEWLINE] else [];
    var i := Find(value);
    if i < 0 then front + Chomp(value) else Joined(front + Chomp(value[..i]), value[i + 1..])
  }

  lemma {:induction false} LinesFeed(r: Reader, value: seq<byte>, accepts: seq<byte> -> bool)
    requires r.status == Running && r.pending == []
    ensures Feed(r, EncodeLines(value), accepts) == r.(data := Joined(r.data, value))
    decreases |value|
  {
    hide Feed; hide Find; hide Chomp;
    var i := Find(value);
    FindMeans(value);
    if i < 0 {
      DataFeed(r, value, accepts);
    } else {
      var line, rest := value[..i], value[i + 1..];
      DataFeed(r, line, accepts);
      var next := Feed(r, DATA + [32] + line + [NEWLINE], accepts);
      LinesFeed(next, rest, accepts);
      FeedSplit(r, DATA + [32] + line + [NEWLINE], EncodeLines(rest), accepts);
    }
  }

  lemma FindMeans(s: seq<byte>)
    ensures Find(s) < 0 ==> forall k :: 0 <= k < |s| ==> s[k] != NEWLINE
    ensures Find(s) >= 0 ==> s[Find(s)] == NEWLINE && forall k :: 0 <= k < Find(s) ==> s[k] != NEWLINE
  {
  }

  /** The text with one carriage return less at the end of each line that ends in one. */
  function Chomped(value: seq<byte>): seq<byte>
    decreases |value|
  {
    var i := Find(value);
    if i < 0 then Chomp(value) else Chomp(value[..i]) + [NEWLINE] + Chomped(value[i + 1..])
  }

  lemma {:induction false} JoinedAfter(data: seq<byte>, value: seq<byte>)
    requires data != []
    ensures Joined(data, value) == data + [NEWLINE] + Chomped(value)
    decreases |value|
  {
    hide Find; hide Chomp;
    var i := Find(value);
    FindMeans(value);
    if i >= 0 {
      JoinedAfter(data + [NEWLINE] + Chomp(value[..i]), value[i + 1..]);
    }
  }

  /** Empty first lines leave no trace, because a newline is only written between two pieces of data. */
  function Stripped(value: seq<byte>): seq<byte> {
    if value != [] && value[0] == NEWLINE then Stripped(value[1..]) else value
  }

  /** What the reader makes of a text. */
  function Received(value: seq<byte>): seq<byte> { Stripped(Chomped(value)) }

  lemma {:induction false} JoinedFirst(value: seq<byte>)
    ensures Joined([], value) == Received(value)
    decreases |value|
  {
    hide Find;
    var i := Find(value);
    FindMeans(value);
    if i < 0 {
      assert [] + Chomp(value) == Chomp(value);
    } else {
      var first := Chomp(value[..i]);
      assert [] + first == first;
      if first == [] {
        JoinedFirst(value[i + 1..]);
        assert [] + [NEWLINE] + Chomped(value[i + 1..]) == [NEWLINE] + Chomped(value[i + 1..]);
        assert ([NEWLINE] + Chomped(value[i + 1..]))[1..] == Chomped(value[i + 1..]);
      } else {
        JoinedAfter(first, value[i + 1..]);
        assert Chomped(value)[0] == first[0] == value[0];
      }
    }
  }

  lemma {:induction false} StrippedWhole(value: seq<byte>)
    ensures |Stripped(value)| <= |value|
    ensures Stripped(value) == value <==> value == [] || value[0] != NEWLINE
  {
    if value != [] && value[0] == NEWLINE { StrippedWhole(value[1..]); }
  }

  lemma {:induction false} ChompedWhole(value: seq<byte>)
    ensures |Chomped(value)| <= |value|
    ensures Plain(value) ==> Chomped(value) == value
    ensures !Plain(value) ==> |Chomped(value)| < |value|
    decreases |value|
  {
    hide Find;
    var i := Find(value);
    FindMeans(value);
    if i >= 0 {
      var line, rest := value[..i], value[i + 1..];
      ChompedWhole(rest);
      assert value == line + [NEWLINE] + rest;
      PlainLines(value, i);
    }
  }

  lemma PlainLines(value: seq<byte>, i: nat)
    requires i < |value| && value[i] == NEWLINE && forall k :: 0 <= k < i ==> value[k] != NEWLINE
    ensures Plain(value) <==> Chomp(value[..i]) == value[..i] && Plain(value[i + 1..])
  {
    var line, rest := value[..i], value[i + 1..];
    assert forall k :: 0 <= k < |rest| ==> rest[k] == value[i + 1 + k];
    assert forall k :: i < k < |value| ==> value[k] == rest[k - i - 1];
    if i > 0 && value[i - 1] == 13 {
      assert !Plain(value) && |Chomp(line)| < |line|;
    }
  }

  /** A text comes back exactly if it does not start with a newline and none of its lines ends in a carriage return. */
  lemma ReceivedWhole(value: seq<byte>)
    requires value != []
    ensures Received(value) == value <==> value[0] != NEWLINE && Plain(value)
  {
    ChompedWhole(value);
    StrippedWhole(Chomped(value));
  }

  /** An event is delivered as its text with each line chomped and without empty first lines, unless nothing is
      left or its receiver refuses it; so it comes back if and only if it does not start with a newline and none
      of its lines ends in a carriage return. */
  lemma EventRoundTrip(r: Reader, value: seq<byte>, accepts: seq<byte> -> bool)
    requires Between(r) && value != []
    ensures var after, text := Feed(r, EncodeEvent(value), accepts), Received(value);
      if text != [] && !accepts(text) then after == Stopped(r, Refused)
      else
        && Between(after) && after.delivered == r.delivered + (if text == [] then [] else [text])
        && (after.delivered == r.delivered + [value] <==> value[0] != NEWLINE && Plain(value))
  {
    hide Feed; hide Joined; hide Received; hide Plain;
    LinesFeed(r, value, accepts);
    JoinedFirst(value);
    ReceivedWhole(value);
    var text := Received(value);
    var full := r.(data := text);
    FeedSplit(r, EncodeLines(value), [NEWLINE], accepts);
    assert [] + [NEWLINE] == [NEWLINE];
    LineFeed(full, [], accepts);
    if text == [] {
      assert |r.delivered + [value]| == |r.delivered| + 1;
      assert r.delivered + [] == r.delivered;
    } else {
      assert (r.delivered + [text])[|r.delivered|] == text;
      assert (r.delivered + [value])[|r.delivered|] == value;
    }
  }

  /** The text `a` with a carriage return after it is delivered as `a`. */
  lemma ReturnIsDropped(r: Reader, accepts: seq<byte> -> bool)
    requires Between(r) && accepts([97])
    ensures Feed(r, EncodeEvent([97, 13]), accepts).delivered == r.delivered + [[97]]
  {
    hide Feed;
    var value: seq<byte> := [97, 13];
    assert Find(value[1..]) == -1 && Find(value) == -1;
    assert Chomped(value) == [97];
    EventRoundTrip(r, value, accepts);
  }

  // ----- named events -----

  predicate Blanks(s: seq<byte>) { forall i :: 0 <= i < |s| ==> Blank(s[i]) && s[i] != NEWLINE }

  /** A name on one line that neither starts nor ends in white space. */
  predicate Name(name: seq<byte>) {
    name != [] && !Blank(name[0]) && !Blank(name[|name| - 1]) && forall i :: 0 <= i < |name| ==> name[i] != NEWLINE
  }

  lemma {:induction false} TrimsLeft(before: seq<byte>, s: seq<byte>)
    requires Blanks(before) && s != [] && !Blank(s[0])
    ensures TrimLeft(before + s) == s
  {
    if before == [] {
      assert before + s == s;
    } else {
      assert (before + s)[1..] == before[1..] + s;
      TrimsLeft(before[1..], s);
    }
  }

  lemma {:induction false} TrimsRight(s: seq<byte>, after: seq<byte>)
    requires Blanks(after) && s != [] && !Blank(s[|s| - 1])
    ensures TrimRight(s + after) == s
    decreases |after|
  {
    if after == [] {
      assert s + after == s;
    } else {
      assert (s + after)[..|s + after| - 1] == s + after[..|after| - 1];
      TrimsRight(s, after[..|after| - 1]);
    }
  }

  /** A name field sets the event's name, whatever white space is around it. */
  lemma NameFeed(r: Reader, before: seq<byte>, name: seq<byte>, after: seq<byte>, accepts: seq<byte> -> bool)
    requires r.status == Running && r.pending == [] && Blanks(before) && Name(name) && Blanks(after)
    ensures Feed(r, EVENT + before + name + after + [NEWLINE], accepts) == r.(event := name)
  {
    hide Feed; hide TrimLeft; hide TrimRight;
    var kept := if after != [] && after[|after| - 1] == 13 then after[..|after| - 1] else after;
    var field := EVENT + before + name + after;
    LineFeed(r, field, accepts);
    assert Chomp(field) == EVENT + before + name + kept;
    var value := before + (name + kept);
    assert Chomp(field)[..|EVENT|] == EVENT && Chomp(field)[|EVENT|..] == value;
    assert Chomp(field)[0] == EVENT[0] != DATA[0];
    TrimsLeft(before, name + kept);
    TrimsRight(name, kept);
  }

  /** A line that is neither a data nor a name field changes nothing. */
  lemma OtherFeed(r: Reader, line: seq<byte>, accepts: seq<byte> -> bool)
    requires r.status == Running && r.pending == [] && forall i :: 0 <= i < |line| ==> line[i] != NEWLINE
    requires Chomp(line) != [] && !(DATA <= line) && !(EVENT <= line)
    ensures Feed(r, line + [NEWLINE], accepts) == r
  {
    hide Feed;
    LineFeed(r, line, accepts);
  }

  /** An event named error ends the stream and delivers nothing; any other name is as good as none. */
  lemma NamedEvent(r: Reader, before: seq<byte>, name: seq<byte>, after: seq<byte>, value: seq<byte>, accepts: seq<byte> -> bool)
    requires Between(r) && Blanks(before) && Name(name) && Blanks(after)
    ensures Feed(r, EVENT + before + name + after + [NEWLINE] + EncodeEvent(value), accepts) ==
            if name == ERROR then Stopped(r, StreamFailed) else Feed(r, EncodeEvent(value), accepts)
  {
    hide Feed; hide Joined;
    var field, named := EVENT + before + name + after + [NEWLINE], r.(event := name);
    NameFeed(r, before, name, after, accepts);
    FeedSplit(r, field, EncodeEvent(value), accepts);
    LinesFeed(named, value, accepts);
    LinesFeed(r, value, accepts);
    FeedSplit(named, EncodeLines(value), [NEWLINE], accepts);
    FeedSplit(r, EncodeLines(value), [NEWLINE], accepts);
    assert [] + [NEWLINE] == [NEWLINE];
    LineFeed(named.(data := Joined([], value)), [], accepts);
    LineFeed(r.(data := Joined([], value)), [], accepts);
  }

  lemma NothingFed(r: Reader, accepts: seq<byte> -> bool)
    requires Between(r)
    ensures Feed(r, [], accepts) == r
  {
    assert r.(pending := r.pending + []) == r;
  }

  /** A whole stream of such events is delivered in order, nothing lost and nothing added. */
  lemma {:induction false} EventsRoundTrip(r: Reader, values: seq<seq<byte>>, accepts: seq<byte> -> bool)
    requires Between(r)
    requires forall i :: 0 <= i < |values| ==> values[i] != [] && values[i][0] != NEWLINE && Plain(values[i]) && accepts(values[i])
    ensures Between(Feed(r, EncodeAll(values), accepts)) && Feed(r, EncodeAll(values), accepts).delivered == r.delivered + values
    decreases |values|
  {
    hide Feed; hide EncodeEvent; hide Received; hide Plain;
    if values == [] {
      NothingFed(r, accepts);
      assert r.delivered + [] == r.delivered;
    } else {
      ReceivedWhole(values[0]);
      EventRoundTrip(r, values[0], accepts);
      var next := Feed(r, EncodeEvent(values[0]), accepts);
      EventsRoundTrip(next, values[1..], accepts);
      FeedSplit(r, EncodeEvent(values[0]), EncodeAll(values[1..]), accepts);
      assert values == [values[0]] + values[1..];
      Assoc(r.delivered, [values[0]], values[1..]);
    }
  }

  // ----- the whole stream -----

  datatype Outcome = Disconnected | ReadFailed | Failed | NotTaken | BadText | TooLarge

  datatype Progress = Live(held: seq<byte>, reader: Reader) | Over(delivered: seq<seq<byte>>, outcome: Outcome)

  function OutcomeOf(status: Status): Outcome {
    match status
    case Running => Disconnected
    case StreamFailed => Failed
    case Refused => NotTaken
  }

  /** One chunk: decode, check the bound, drain the lines. */
  function Chunk(held: seq<byte>, r: Reader, chunk: seq<byte>, limit: nat, accepts: seq<byte> -> bool): Progress {
    var all := held + chunk;
    var n := |all| - Hold(all);
    if !Valid(all[..n]) then Over(r.delivered, BadText)
    else if |r.pending| + n + |r.data| > limit then Over(r.delivered, TooLarge)
    else
      var next := Feed(r, all[..n], accepts);
      if next.status == Running then Live(all[n..], next) else Over(next.delivered, OutcomeOf(next.status))
  }

  function After(chunks: seq<seq<byte>>, limit: nat, accepts: seq<byte> -> bool): Progress
    decreases |chunks|
  {
    if chunks == [] then Live([], START)
    else
      var before := After(chunks[..|chunks| - 1], limit, accepts);
      if before.Over? then before else Chunk(before.held, before.reader, chunks[|chunks| - 1], limit, accepts)
  }

  /** What was delivered and how it ended, once the connection is gone. */
  function Ended(p: Progress): (seq<seq<byte>>, Outcome) {
    match p
    case Live(_, r) => (r.delivered, Disconnected)
    case Over(d, o) => (d, o)
  }

  /** The stream read as one text. */
  function ReadAll(bytes: seq<byte>, accepts: seq<byte> -> bool): Reader {
    Feed(START, bytes[..Whole(bytes)], accepts)
  }

  function Reference(bytes: seq<byte>, accepts: seq<byte> -> bool): (seq<seq<byte>>, Outcome) {
    var r := ReadAll(bytes, accepts);
    (r.delivered, OutcomeOf(r.status))
  }

  /** The reader after some bytes of text, whatever chunks brought them. */
  ghost predicate Caught(p: Progress, bytes: seq<byte>, accepts: seq<byte> -> bool) {
    match p
    case Live(held, r) => held == bytes[Whole(bytes)..] && r == ReadAll(bytes, accepts) && r.status == Running
    case Over(d, o) => o == TooLarge || ((d, o) == Reference(bytes, accepts) && ReadAll(bytes, accepts).status != Running)
  }

  lemma ChunkCaught(p: Progress, bytes: seq<byte>, chunk: seq<byte>, limit: nat, accepts: seq<byte> -> bool)
    requires p.Live? && Caught(p, bytes, accepts) && TextPrefix(bytes + chunk)
    ensures Caught(Chunk(p.held, p.reader, chunk, limit, accepts), bytes + chunk, accepts)
  {
    hide Feed; hide Whole; hide Hold; hide TextPrefix; hide Valid;
    DecodeText(bytes, chunk);
    var all := p.held + chunk;
    var n := |all| - Hold(all);
    FeedSplit(START, bytes[..Whole(bytes)], all[..n], accepts);
  }

  /** Once a stream has ended itself, more text changes nothing. */
  lemma OverCaught(p: Progress, bytes: seq<byte>, more: seq<byte>, accepts: seq<byte> -> bool)
    requires p.Over? && Caught(p, bytes, accepts) && TextPrefix(bytes + more)
    ensures Caught(p, bytes + more, accepts)
  {
    hide Whole; hide Hold; hide TextPrefix; hide Valid; hide Drain;
    DecodeText(bytes, more);
    var all := bytes[Whole(bytes)..] + more;
    FeedSplit(START, bytes[..Whole(bytes)], all[..|all| - Hold(all)], accepts);
  }

  /** What is delivered and how the stream ends does not depend on how its bytes are cut into chunks, as long
      as no chunk is refused for size. */
  lemma {:induction false} ChunksDoNotMatter(chunks: seq<seq<byte>>, limit: nat, accepts: seq<byte> -> bool)
    requires TextPrefix(Flat(chunks))
    ensures Caught(After(chunks, limit, accepts), Flat(chunks), accepts)
    ensures Ended(After(chunks, limit, accepts)).1 == TooLarge || Ended(After(chunks, limit, accepts)) == Reference(Flat(chunks), accepts)
    decreases |chunks|
  {
    hide ReadAll; hide Chunk; hide Whole; hide TextPrefix;
    if chunks == [] {
      StartCaught(accepts);
    } else {
      var n := |chunks| - 1;
      var before := chunks[..n];
      assert chunks == before + [chunks[n]];
      FlatSnoc(before, chunks[n]);
      PrefixOfPrefix(Flat(chunks), |Flat(before)|);
      assert Flat(chunks)[..|Flat(before)|] == Flat(before);
      ChunksDoNotMatter(before, limit, accepts);
      var p := After(before, limit, accepts);
      if p.Live? {
        ChunkCaught(p, Flat(before), chunks[n], limit, accepts);
      } else {
        OverCaught(p, Flat(before), chunks[n], accepts);
      }
    }
  }

  lemma StartCaught(accepts: seq<byte> -> bool)
    ensures Caught(Live([], START), [], accepts)
  {
  }

  /** Two ways of cutting the same text. */
  lemma SameForAnyCut(a: seq<seq<byte>>, b: seq<seq<byte>>, limit: nat, accepts: seq<byte> -> bool)
    requires Flat(a) == Flat(b) && TextPrefix(Flat(a))
    requires Ended(After(a, limit, accepts)).1 != TooLarge && Ended(After(b, limit, accepts)).1 != TooLarge
    ensures Ended(After(a, limit, accepts)) == Ended(After(b, limit, accepts))
  {
    ChunksDoNotMatter(a, limit, accepts);
    ChunksDoNotMatter(b, limit, accepts);
  }

  // ----- the size bound -----

  /** Chunk k, read into what the text before it left pending, passes the limit. */
  ghost predicate Overfull(chunks: seq<seq<byte>>, k: nat, limit: nat, accepts: seq<byte> -> bool)
    requires k < |chunks|
  {
    Passes(Flat(chunks[..k]), Flat(chunks[..k + 1]), limit, accepts)
  }

  /** The reader after `before` is still running, and the text up to `after` is too much for it at once. */
  ghost predicate Passes(before: seq<byte>, after: seq<byte>, limit: nat, accepts: seq<byte> -> bool) {
    var r := ReadAll(before, accepts);
    r.status == Running && |r.pending| + |r.data| + Whole(after) - Whole(before) > limit
  }

  /** A stream is refused for its size if and only if some chunk passes the limit on top of the text pending then. */
  lemma {:induction false} RefusedIff(chunks: seq<seq<byte>>, limit: nat, accepts: seq<byte> -> bool)
    requires TextPrefix(Flat(chunks))
    ensures Ended(After(chunks, limit, accepts)).1 == TooLarge <==> exists k :: 0 <= k < |chunks| && Overfull(chunks, k, limit, accepts)
    decreases |chunks|
  {
    hide ReadAll; hide Whole; hide TextPrefix; hide Chunk; hide Flat; hide Passes;
    if chunks != [] {
      var n := |chunks| - 1;
      var before := chunks[..n];
      assert chunks == before + [chunks[n]] && chunks[..n + 1] == chunks;
      FlatSnoc(before, chunks[n]);
      PrefixOfPrefix(Flat(chunks), |Flat(before)|);
      assert Flat(chunks)[..|Flat(before)|] == Flat(before);
      RefusedIff(before, limit, accepts);
      forall k | 0 <= k < n ensures Overfull(before, k, limit, accepts) == Overfull(chunks, k, limit, accepts) {
        assert before[..k] == chunks[..k] && before[..k + 1] == chunks[..k + 1];
      }
      ChunksDoNotMatter(before, limit, accepts);
      LastRefused(After(before, limit, accepts), Flat(before), chunks[n], limit, accepts);
      assert Overfull(chunks, n, limit, accepts) == Passes(Flat(before), Flat(chunks), limit, accepts);
    }
  }

  lemma LastRefused(p: Progress, bytes: seq<byte>, chunk: seq<byte>, limit: nat, accepts: seq<byte> -> bool)
    requires Caught(p, bytes, accepts) && TextPrefix(bytes + chunk)
    ensures p.Live? ==> (Ended(Chunk(p.held, p.reader, chunk, limit, accepts)).1 == TooLarge <==> Passes(bytes, bytes + chunk, limit, accepts))
    ensures p.Over? && p.outcome != TooLarge ==> !Passes(bytes, bytes + chunk, limit, accepts)
  {
    hide Feed; hide Whole; hide Hold; hide TextPrefix; hide Valid; hide ReadAll; hide Reference;
    DecodeText(bytes, chunk);
    if p.Live? {
      var all, whole := p.held + chunk, bytes + chunk;
      var n := |all| - Hold(all);
      assert |bytes[..Whole(bytes)] + all[..n]| == Whole(whole);
    }
  }

  /** A cut of the bytes into non-empty chunks of at most `size`. */
  ghost predicate Cut(chunks: seq<seq<byte>>, bytes: seq<byte>, size: nat) {
    Flat(chunks) == bytes && forall i :: 0 <= i < |chunks| ==> 1 <= |chunks[i]| <= size
  }

  /** No stretch of at most `size` bytes passes the limit on top of the text pending where it starts. */
  ghost predicate Snug(bytes: seq<byte>, size: nat, limit: nat, accepts: seq<byte> -> bool) {
    forall n, m :: 0 <= n < m <= |bytes| && m - n <= size ==> !Passes(bytes[..n], bytes[..m], limit, accepts)
  }

  lemma CutBounds(chunks: seq<seq<byte>>, bytes: seq<byte>, size: nat, k: nat) returns (n: nat, m: nat)
    requires Cut(chunks, bytes, size) && k < |chunks|
    ensures n < m <= |bytes| && m - n <= size && Flat(chunks[..k]) == bytes[..n] && Flat(chunks[..k + 1]) == bytes[..m]
  {
    hide Flat;
    assert chunks == chunks[..k] + chunks[k..] && chunks == chunks[..k + 1] + chunks[k + 1..] && chunks[..k + 1] == chunks[..k] + [chunks[k]];
    FlatAppend(chunks[..k], chunks[k..]);
    FlatAppend(chunks[..k + 1], chunks[k + 1..]);
    FlatSnoc(chunks[..k], chunks[k]);
    n, m := |Flat(chunks[..k])|, |Flat(chunks[..k + 1])|;
  }

  /** A cut that has a chunk from n to m. */
  lemma CutAt(bytes: seq<byte>, size: nat, n: nat, m: nat) returns (chunks: seq<seq<byte>>)
    requires n < m <= |bytes| && m - n <= size
    ensures Cut(chunks, bytes, size) && n < |chunks| && Flat(chunks[..n]) == bytes[..n] && Flat(chunks[..n + 1]) == bytes[..m]
  {
    hide Flat;
    var front, middle, back := Singles(bytes[..n]), bytes[n..m], Singles(bytes[m..]);
    FlatSingles(bytes[..n]);
    FlatSingles(bytes[m..]);
    FlatSnoc(front, middle);
    FlatAppend(front + [middle], back);
    chunks := front + [middle] + back;
    assert chunks[..n] == front && chunks[..n + 1] == front + [middle];
    assert bytes[..n] + middle == bytes[..m] && bytes[..m] + bytes[m..] == bytes;
  }

  /** Exactly when the limit never shows: no cut of this text into chunks of at most `size` bytes is refused if and
      only if no stretch of that length passes the limit, and then every such cut gives the reference outcome. */
  lemma NoCutRefusedIff(bytes: seq<byte>, size: nat, limit: nat, accepts: seq<byte> -> bool)
    requires TextPrefix(bytes)
    ensures (forall chunks :: Cut(chunks, bytes, size) ==> Ended(After(chunks, limit, accepts)).1 != TooLarge) <==> Snug(bytes, size, limit, accepts)
    ensures Snug(bytes, size, limit, accepts) ==>
      forall chunks :: Cut(chunks, bytes, size) ==> Ended(After(chunks, limit, accepts)) == Reference(bytes, accepts)
  {
    hide Flat; hide After; hide Passes; hide Reference; hide TextPrefix;
    forall chunks | Cut(chunks, bytes, size)
      ensures Ended(After(chunks, limit, accepts)).1 == TooLarge ==> !Snug(bytes, size, limit, accepts)
      ensures Ended(After(chunks, limit, accepts)).1 != TooLarge ==> Ended(After(chunks, limit, accepts)) == Reference(bytes, accepts)
    {
      RefusedIff(chunks, limit, accepts);
      ChunksDoNotMatter(chunks, limit, accepts);
      if Ended(After(chunks, limit, accepts)).1 == TooLarge {
        var k :| 0 <= k < |chunks| && Overfull(chunks, k, limit, accepts);
        var n, m := CutBounds(chunks, bytes, size, k);
        assert Passes(bytes[..n], bytes[..m], limit, accepts);
      }
    }
    if !Snug(bytes, size, limit, accepts) {
      var n, m :| 0 <= n < m <= |bytes| && m - n <= size && Passes(bytes[..n], bytes[..m], limit, accepts);
      var chunks := CutAt(bytes, size, n, m);
      RefusedIff(chunks, limit, accepts);
      assert Overfull(chunks, n, limit, accepts);
    }
  }

  lemma {:induction false} AsciiText(s: seq<byte>)
    requires forall i :: 0 <= i < |s| ==> s[i] < 0x80
    ensures Valid(s) && Hold(s) == 0
  {
    if s != [] {
      AsciiText(s[1..]);
      assert !Continues(s[|s| - 1]) && AnnouncedLength(s[|s| - 1]) == 1;
    }
  }

  lemma PlainChunk(r: Reader, chunk: seq<byte>, limit: nat, accepts: seq<byte> -> bool)
    requires r.status == Running && forall i :: 0 <= i < |chunk| ==> chunk[i] < 0x80
    ensures Chunk([], r, chunk, limit, accepts) ==
      if |r.pending| + |chunk| + |r.data| > limit then Over(r.delivered, TooLarge)
      else var next := Feed(r, chunk, accepts); if next.status == Running then Live([], next) else Over(next.delivered, OutcomeOf(next.status))
  {
    hide Feed; hide Valid; hide Hold;
    AsciiText(chunk);
    assert [] + chunk == chunk && chunk[..|chunk|] == chunk && chunk[|chunk|..] == [];
  }

  lemma AfterSnoc(chunks: seq<seq<byte>>, chunk: seq<byte>, limit: nat, accepts: seq<byte> -> bool)
    ensures var p := After(chunks, limit, accepts);
      After(chunks + [chunk], limit, accepts) == if p.Over? then p else Chunk(p.held, p.reader, chunk, limit, accepts)
  {
    assert (chunks + [chunk])[..|chunks|] == chunks;
  }

  /** A comment line changes nothing but the pending text. */
  lemma CommentLine(colons: seq<byte>, accepts: seq<byte> -> bool)
    requires forall i :: 0 <= i < |colons| ==> colons[i] == 58
    ensures Feed(START, colons, accepts) == START.(pending := colons)
    ensures Feed(START.(pending := colons), [NEWLINE], accepts) == START
  {
    hide Line;
    assert START.pending + colons == colons;
    assert Feed(START, colons, accepts) == START.(pending := colons);
    LineFeed(START, colons, accepts);
    IgnoredLine(colons, accepts);
    FeedSplit(START, colons, [NEWLINE], accepts);
  }

  lemma IgnoredLine(colons: seq<byte>, accepts: seq<byte> -> bool)
    requires forall i :: 0 <= i < |colons| ==> colons[i] == 58
    ensures Line(START, colons, accepts) == START
  {
    assert colons != [] ==> colons[0] != DATA[0] && colons[0] != EVENT[0];
  }

  /** The bound itself looks at whole chunks: near it, the cut decides. */
  lemma CutDecidesNearLimit(colons: seq<byte>, limit: nat, accepts: seq<byte> -> bool)
    requires limit >= 1 && |colons| == limit - 1 && forall i :: 0 <= i < |colons| ==> colons[i] == 58
    ensures var a := [colons] + [[NEWLINE]] + [[NEWLINE]]; var b := [colons] + [[NEWLINE, NEWLINE]];
      && Flat(a) == Flat(b) == colons + [NEWLINE, NEWLINE]
      && Ended(After(a, limit, accepts)) == ([], Disconnected) && Ended(After(b, limit, accepts)) == ([], TooLarge)
  {
    hide Feed; hide Chunk; hide Hold; hide Valid; hide After; hide Flat;
    var waiting := START.(pending := colons);
    Waits(colons, limit, accepts);
    CommentLine(colons, accepts);
    CommentLine([], accepts);
    PlainChunk(waiting, [NEWLINE], limit, accepts);
    PlainChunk(waiting, [NEWLINE, NEWLINE], limit, accepts);
    PlainChunk(START, [NEWLINE], limit, accepts);
    AfterSnoc([colons], [NEWLINE], limit, accepts);
    AfterSnoc([colons] + [[NEWLINE]], [NEWLINE], limit, accepts);
    AfterSnoc([colons], [NEWLINE, NEWLINE], limit, accepts);
    FlatSnoc([colons], [NEWLINE]);
    FlatSnoc([colons] + [[NEWLINE]], [NEWLINE]);
    FlatSnoc([colons], [NEWLINE, NEWLINE]);
  }

  lemma Waits(colons: seq<byte>, limit: nat, accepts: seq<byte> -> bool)
    requires |colons| <= limit && forall i :: 0 <= i < |colons| ==> colons[i] == 58
    ensures Flat([colons]) == colons && After([colons], limit, accepts) == Live([], START.(pending := colons))
  {
    hide Feed; hide Chunk; hide Hold; hide Valid;
    var none: seq<seq<byte>> := [];
    assert none + [colons] == [colons];
    FlatSnoc(none, colons);
    AfterSnoc(none, colons, limit, accepts);
    PlainChunk(START, colons, limit, accepts);
    CommentLine(colons, accepts);
  }

  /** The line loop over the pending text. */
  method DrainLines(r: Reader, accepts: seq<byte> -> bool) returns (next: Reader)
    requires r.status == Running
    ensures next == Drain(r, accepts)
  {
    var pending, data, event, delivered := r.pending, r.data, r.event, r.delivered;
    while true
      invariant Drain(Reader(pending, data, event, delivered, Running), accepts) == Drain(r, accepts)
      decreases |pending|
    {
      var end := Find(pending);
      if end < 0 { break; }
      var line := Chomp(pending[..end]);
      pending := pending[end + 1..];
      if line == [] {
        if event == ERROR { return Reader([], [], [], delivered, StreamFailed); }
        if data != [] {
          if !accepts(data) { return Reader([], [], [], delivered, Refused); }
          delivered := delivered + [data];
        }
        data, event := [], [];
      } else if DATA <= line {
        var value := line[|DATA|..];
        value := if value != [] && value[0] == 32 then value[1..] else value;
        data := (if data != [] then data + [NEWLINE] else []) + value;
      } else if EVENT <= line {
        event := TrimRight(TrimLeft(line[|EVENT|..]));
      }
    }
    next := Reader(pending, data, event, delivered, Running);
  }

  /** ReadTaskEvents over the chunks the connection delivers, until its end or, if `broken`, a read error. */
  method ReadTaskEvents(chunks: seq<seq<byte>>, broken: bool, limit: nat, accepts: seq<byte> -> bool)
    returns (delivered: seq<seq<byte>>, outcome: Outcome)
    ensures delivered == Ended(After(chunks, limit, accepts)).0
    ensures outcome == if After(chunks, limit, accepts).Live? && broken then ReadFailed else Ended(After(chunks, limit, accepts)).1
  {
    hide Hold; hide Valid; hide Drain;
    var decoder := new TaskEventDecoder();
    var r := START;
    for i := 0 to |chunks|
      invariant r.status == Running && After(chunks[..i], limit, accepts) == Live(decoder.held, r)
    {
      assert chunks[..i + 1][..i] == chunks[..i];
      EndsHere(chunks, i + 1, limit, accepts);
      var text := decoder.Decode(chunks[i]);
      if text.Err? { return r.delivered, BadText; }
      r := r.(pending := r.pending + text.value);
      if |r.pending| + |r.data| > limit { return r.delivered, TooLarge; }
      r := DrainLines(r, accepts);
      if r.status != Running { return r.delivered, OutcomeOf(r.status); }
    }
    assert chunks[..|chunks|] == chunks;
    return r.delivered, if broken then ReadFailed else Disconnected;
  }

  /** A stream that is over stays over. */
  lemma {:induction false} EndsHere(chunks: seq<seq<byte>>, i: nat, limit: nat, accepts: seq<byte> -> bool)
    requires i <= |chunks|
    ensures After(chunks[..i], limit, accepts).Over? ==> After(chunks, limit, accepts) == After(chunks[..i], limit, accepts)
    decreases |chunks|
  {
    if i == |chunks| {
      assert chunks[..i] == chunks;
    } else {
      EndsHere(chunks[..|chunks| - 1], i, limit, accepts);
      assert chunks[..|chunks| - 1][..i] == chunks[..i];
    }
  }
}
