/** One WebSocket frame on the wire (sections 5.2 and 5.3 of RFC 6455). */
module WebSocketFrame {
  import opened Common
  import opened Concatenation

  type octet = bv8

  const CONTROL_BYTES := 125
  const CLOSED := "WebSocket closed"
  const TOO_LONG := "WebSocket message exceeds its bound"

  const CONTINUATION: octet := 0
  const TEXT: octet := 1
  const BINARY: octet := 2
  const CLOSE: octet := 8
  const PING: octet := 9
  const PONG: octet := 10

  datatype Frame = Frame(final: bool, opcode: octet, payload: seq<octet>)

  predicate Control(f: Frame) { f.opcode >= CLOSE }

  // ----- numbers -----

  function Octet(n: int): (b: octet)
    requires 0 <= n < 256
    ensures b as int == n
  {
    n as bv8
  }

  function Power(k: nat): nat { if k == 0 then 1 else 256 * Power(k - 1) }

  function BigEndian(n: nat, k: nat): (s: seq<octet>)
    ensures |s| == k
  {
    if k == 0 then [] else BigEndian(n / 256, k - 1) + [Octet(n % 256)]
  }

  function Number(s: seq<octet>): nat {
    if s == [] then 0 else 256 * Number(s[..|s| - 1]) + (s[|s| - 1] as int)
  }

  lemma {:induction false} NumberOfBigEndian(n: nat, k: nat)
    requires n < Power(k)
    ensures Number(BigEndian(n, k)) == n
  {
    if k > 0 {
      NumberOfBigEndian(n / 256, k - 1);
      assert BigEndian(n, k)[..k - 1] == BigEndian(n / 256, k - 1);
    }
  }

  lemma Powers()
    ensures Power(2) == 65536 && Power(8) == 0x1_0000_0000_0000_0000
  {
    assert Power(4) == 65536 * 65536;
    assert Power(6) == 65536 * Power(4);
  }

  // ----- masking -----

  predicate Key(key: seq<octet>) { |key| == 4 }

  function Masked(payload: seq<octet>, key: seq<octet>): (r: seq<octet>)
    requires Key(key)
    ensures |r| == |payload|
  {
    seq(|payload|, i requires 0 <= i < |payload| => payload[i] ^ key[i % 4])
  }

  lemma XorTwice(a: octet, b: octet)
    ensures (a ^ b) ^ b == a
  {
  }

  lemma MaskedTwice(payload: seq<octet>, key: seq<octet>)
    requires Key(key)
    ensures Masked(Masked(payload, key), key) == payload
  {
    forall i | 0 <= i < |payload| ensures Masked(Masked(payload, key), key)[i] == payload[i] {
      XorTwice(payload[i], key[i % 4]);
    }
  }

  /** The reader unmasks in place. */
  method Unmask(payload: array<octet>, key: seq<octet>)
    requires Key(key)
    modifies payload
    ensures payload[..] == Masked(old(payload[..]), key)
  {
    for index := 0 to payload.Length
      invariant forall i :: 0 <= i < index ==> payload[i] == old(payload[i]) ^ key[i % 4]
      invariant forall i :: index <= i < payload.Length ==> payload[i] == old(payload[i])
    {
      payload[index] := payload[index] ^ key[index % 4];
    }
  }

  // ----- writing -----

  /** The high bit, set or left. */
  function Flag(on: bool, b: octet): octet { if on then 0x80 | b else b }

  function LengthByte(n: nat): octet {
    if n < 126 then Octet(n) else if n <= 65535 then 126 else 127
  }

  function Extended(n: nat): seq<octet> {
    if n < 126 then [] else if n <= 65535 then BigEndian(n, 2) else BigEndian(n, 8)
  }

  function HeadOf(final: bool, opcode: octet, client: bool, n: nat): seq<octet> {
    [Flag(final, opcode), Flag(client, LengthByte(n))] + Extended(n)
  }

  /** A frame as a client (masked) or a server (not masked) sends it. */
  function Encode(f: Frame, client: bool, key: seq<octet>): seq<octet>
    requires Key(key)
  {
    HeadOf(f.final, f.opcode, client, |f.payload|) + (if client then key else []) + (if client then Masked(f.payload, key) else f.payload)
  }

  method WriteHead(client: bool, opcode: octet, n: nat) returns (header: seq<octet>)
    ensures header == HeadOf(true, opcode, client, n)
  {
    hide BigEndian; hide Octet; hide Flag;
    header := [Flag(true, opcode)];
    if n < 126 {
      header := header + [Octet(n)];
    } else if n <= 65535 {
      header := header + [126] + BigEndian(n, 2);
    } else {
      header := header + [127] + BigEndian(n, 8);
    }
    header := header[1 := Flag(client, header[1])];
  }

  method WriteMasked(payload: seq<octet>, key: seq<octet>) returns (body: seq<octet>)
    requires Key(key)
    ensures body == Masked(payload, key)
  {
    body := [];
    for index := 0 to |payload|
      invariant |body| == index && forall i :: 0 <= i < index ==> body[i] == payload[i] ^ key[i % 4]
    {
      body := body + [payload[index] ^ key[index % 4]];
    }
  }

  /** writeFrame: the header is built up, then the body follows it. */
  method WriteFrame(client: bool, opcode: octet, payload: seq<octet>, key: seq<octet>) returns (sent: seq<octet>)
    requires Key(key)
    ensures sent == Encode(Frame(true, opcode, payload), client, key)
  {
    hide HeadOf;
    var header := WriteHead(client, opcode, |payload|);
    var body := payload;
    if client {
      header := header + key;
      body := WriteMasked(payload, key);
    }
    sent := header + body;
  }

  // ----- reading -----

  /** A frame, a discarded one, or the error that ends the connection. */
  datatype FrameRead = Got(frame: Frame, rest: seq<octet>) | Discarded(final: bool, opcode: octet, rest: seq<octet>) | Fail(error: string)

  datatype Head = Head(final: bool, opcode: octet, length: nat, size: nat)

  predicate Reserved(b: octet) { b & 0x70 != 0 }

  predicate HighBit(b: octet) { b & 0x80 != 0 }

  function OpBits(b: octet): octet { b & 0x0f }

  function LowBits(b: octet): nat { (b & 0x7f) as int }

  function ReadHead(s: seq<octet>, client: bool): (r: Result<Head>)
    ensures r.Ok? ==> 2 <= r.value.size <= |s|
  {
    if |s| < 2 then Err(CLOSED)
    else if Reserved(s[0]) then Err("Reserved WebSocket bits are set")
    else if client == HighBit(s[1]) then Err("Invalid WebSocket masking")
    else
      var low := LowBits(s[1]);
      var extra := if low == 126 then 2 else if low == 127 then 8 else 0;
      if |s| < 2 + extra then Err(CLOSED)
      else Ok(Head(HighBit(s[0]), OpBits(s[0]), if extra == 0 then low else Number(s[2..2 + extra]), 2 + extra))
  }

  /** readFrameBounded for a reader in role `client`: with `discard`, data longer than `retain` is skipped. */
  function ReadFrame(s: seq<octet>, client: bool, limit: nat, retain: nat, discard: bool): (r: FrameRead)
    ensures !r.Fail? ==> |r.rest| < |s|
    ensures r.Got? && discard && r.frame.opcode < CLOSE ==> |r.frame.payload| <= retain
  {
    match ReadHead(s, client)
    case Err(e) => Fail(e)
    case Ok(h) =>
      if h.opcode >= CLOSE && (!h.final || h.length > CONTROL_BYTES) then Fail("Invalid WebSocket control frame")
      else if h.length > 0x7fff_ffff_ffff_ffff || (!discard && h.length > limit) then Fail(TOO_LONG)
      else
        var body := h.size + if client then 0 else 4;
        if |s| < body then Fail(CLOSED)
        else if |s| < body + h.length then Fail(CLOSED)
        else
          var rest := s[body + h.length..];
          if discard && h.opcode < CLOSE && h.length > retain then Discarded(h.final, h.opcode, rest)
          else
            var payload := s[body..body + h.length];
            Got(Frame(h.final, h.opcode, if client then payload else Masked(payload, s[h.size..h.size + 4])), rest)
  }

  // ----- the wire form -----

  /** The value of octets in network byte order. */
  function Two(a: octet, b: octet): nat { (a as int) * 256 + (b as int) }

  function Four(a: octet, b: octet, c: octet, d: octet): nat { Two(a, b) * 65536 + Two(c, d) }

  lemma NumberSnoc(s: seq<octet>, b: octet)
    ensures Number(s + [b]) == 256 * Number(s) + (b as int)
  {
    assert (s + [b])[..|s|] == s;
  }

  lemma NumberTwo(s: seq<octet>, a: octet, b: octet)
    ensures Number(s + [a, b]) == 65536 * Number(s) + Two(a, b)
  {
    hide Number;
    NumberSnoc(s, a);
    NumberSnoc(s + [a], b);
    assert s + [a] + [b] == s + [a, b];
  }

  lemma NumberFour(s: seq<octet>, a: octet, b: octet, c: octet, d: octet)
    ensures Number(s + [a, b, c, d]) == 65536 * 65536 * Number(s) + Four(a, b, c, d)
  {
    hide Number; hide Two;
    NumberTwo(s, a, b);
    NumberTwo(s + [a, b], c, d);
    assert s + [a, b] + [c, d] == s + [a, b, c, d];
  }

  lemma NumberNone()
    ensures Number([]) == 0
  {
  }

  lemma ExtendedNone(n: nat)
    ensures n < 126 ==> Extended(n) == []
  {
  }

  /** The extended length is the length in network byte order. */
  lemma ExtendedForm(n: nat)
    requires 126 <= n < 0x1_0000_0000_0000_0000
    ensures var e := Extended(n);
      if n <= 65535 then |e| == 2 && Two(e[0], e[1]) == n
      else |e| == 8 && Four(e[0], e[1], e[2], e[3]) * 0x1_0000_0000 + Four(e[4], e[5], e[6], e[7]) == n
  {
    NumberNone();
    hide Number; hide BigEndian; hide Two; hide Four;
    Powers();
    var e := Extended(n);
    if n <= 65535 {
      NumberOfBigEndian(n, 2);
      NumberTwo([], e[0], e[1]);
      assert e == [] + [e[0], e[1]];
    } else {
      NumberOfBigEndian(n, 8);
      NumberFour([], e[0], e[1], e[2], e[3]);
      NumberFour([] + [e[0], e[1], e[2], e[3]], e[4], e[5], e[6], e[7]);
      assert e == [] + [e[0], e[1], e[2], e[3]] + [e[4], e[5], e[6], e[7]];
    }
  }

  lemma Laid(f: Frame, client: bool, key: seq<octet>)
    requires Key(key)
    ensures var s, e, m := Encode(f, client, key), Extended(|f.payload|), if client then key else [];
      && |s| == 2 + |e| + |m| + |f.payload|
      && s[0] == Flag(f.final, f.opcode) && s[1] == Flag(client, LengthByte(|f.payload|))
      && s[2..2 + |e|] == e && s[2 + |e|..2 + |e| + |m|] == m && s[2 + |e| + |m|..] == if client then Masked(f.payload, key) else f.payload
  {
    hide Flag; hide LengthByte; hide Extended;
    var n := |f.payload|;
    var first, e := [Flag(f.final, f.opcode), Flag(client, LengthByte(n))], Extended(n);
    var m, body := if client then key else [], if client then Masked(f.payload, key) else f.payload;
    FourParts(first, e, m, body);
    assert Encode(f, client, key) == first + e + m + body;
  }

  /** The octets before the payload, as section 5.2 of RFC 6455 lays them out: the final bit, three reserved bits
      that are zero and the opcode; the mask bit and the shortest form of the length in network byte order; and the
      key if the frame is masked. */
  lemma HeadForm(f: Frame, client: bool, key: seq<octet>)
    requires Key(key) && f.opcode < 16 && |f.payload| < 0x1_0000_0000_0000_0000
    ensures var s, n := Encode(f, client, key), |f.payload|;
      var extra := if n < 126 then 0 else if n <= 65535 then 2 else 8;
      var body := 2 + extra + if client then 4 else 0;
      && |s| == body + n
      && (s[0] & 0x80 != 0) == f.final && s[0] & 0x70 == 0 && s[0] & 0x0f == f.opcode
      && (s[1] & 0x80 != 0) == client
      && (s[1] & 0x7f) as int == (if n < 126 then n else if n <= 65535 then 126 else 127)
      && (extra == 2 ==> Two(s[2], s[3]) == n)
      && (extra == 8 ==> Four(s[2], s[3], s[4], s[5]) * 0x1_0000_0000 + Four(s[6], s[7], s[8], s[9]) == n)
      && (client ==> s[2 + extra..body] == key)
  {
    hide Flag; hide LengthByte; hide Extended; hide Two; hide Four; hide Encode; hide Masked;
    var s, e := Encode(f, client, key), Extended(|f.payload|);
    ExtendedNone(|f.payload|);
    FirstBits(f.final, f.opcode);
    LengthBits(client, |f.payload|);
    Laid(f, client, key);
    if |f.payload| >= 126 {
      ExtendedForm(|f.payload|);
      Indexed(s, e);
    }
  }

  lemma Indexed(s: seq<octet>, e: seq<octet>)
    requires |s| >= 2 + |e| && s[2..2 + |e|] == e
    ensures |e| == 2 ==> e[0] == s[2] && e[1] == s[3]
    ensures |e| == 8 ==> e[0] == s[2] && e[1] == s[3] && e[2] == s[4] && e[3] == s[5] && e[4] == s[6] && e[5] == s[7] && e[6] == s[8] && e[7] == s[9]
  {
  }

  lemma MaskedAt(payload: seq<octet>, key: seq<octet>, i: nat)
    requires Key(key) && i < |payload|
    ensures Masked(payload, key)[i] == payload[i] ^ key[i % 4]
  {
  }

  lemma IndexedFrom(s: seq<octet>, from: nat, i: nat)
    requires from + i < |s|
    ensures s[from..][i] == s[from + i]
  {
  }

  /** The payload comes last, its octet i combined with octet i modulo 4 of the key if the frame is masked (section
      5.3 of RFC 6455). */
  lemma BodyForm(f: Frame, client: bool, key: seq<octet>, i: nat)
    requires Key(key) && i < |f.payload| < 0x1_0000_0000_0000_0000
    ensures var s, n := Encode(f, client, key), |f.payload|;
      var body := 2 + (if n < 126 then 0 else if n <= 65535 then 2 else 8) + if client then 4 else 0;
      |s| == body + n && s[body + i] == if client then f.payload[i] ^ key[i % 4] else f.payload[i]
  {
    hide Flag; hide LengthByte; hide Encode; hide Extended; hide Masked;
    var s, e := Encode(f, client, key), Extended(|f.payload|);
    ExtendedReads(|f.payload|);
    Laid(f, client, key);
    MaskedAt(f.payload, key, i);
    IndexedFrom(s, 2 + |e| + if client then 4 else 0, i);
  }

  // ----- the round trip -----

  lemma FirstBits(final: bool, opcode: octet)
    requires opcode < 16
    ensures var b := Flag(final, opcode); !Reserved(b) && HighBit(b) == final && OpBits(b) == opcode
  {
  }

  lemma SecondBits(masked: bool, b: octet)
    requires b < 0x80
    ensures HighBit(Flag(masked, b)) == masked && LowBits(Flag(masked, b)) == b as int
  {
    assert Flag(masked, b) & 0x7f == b;
  }

  lemma SmallOctet(b: octet)
    ensures b as int < 128 <==> b < 0x80
  {
  }

  lemma LengthBits(masked: bool, n: nat)
    ensures var b := Flag(masked, LengthByte(n));
      HighBit(b) == masked && LowBits(b) == if n < 126 then n else if n <= 65535 then 126 else 127
  {
    hide LowBits; hide HighBit; hide Flag;
    SmallOctet(LengthByte(n));
    SecondBits(masked, LengthByte(n));
  }

  lemma ExtendedReads(n: nat)
    requires n < 0x1_0000_0000_0000_0000
    ensures |Extended(n)| == if n < 126 then 0 else if n <= 65535 then 2 else 8
    ensures n >= 126 ==> Number(Extended(n)) == n
  {
    hide BigEndian; hide Number; hide Power;
    Powers();
    if n >= 126 { NumberOfBigEndian(n, |Extended(n)|); }
  }

  lemma HeadReads(f: Frame, client: bool, tail: seq<octet>)
    requires f.opcode < 16 && |f.payload| < 0x1_0000_0000_0000_0000
    ensures var head := HeadOf(f.final, f.opcode, client, |f.payload|);
      ReadHead(head + tail, !client) == Ok(Head(f.final, f.opcode, |f.payload|, |head|))
  {
    hide Reserved; hide HighBit; hide OpBits; hide LowBits; hide Flag; hide LengthByte; hide Extended; hide Number;
    var n := |f.payload|;
    var s := HeadOf(f.final, f.opcode, client, n) + tail;
    FirstBits(f.final, f.opcode);
    LengthBits(client, n);
    assert s[0] == Flag(f.final, f.opcode) && s[1] == Flag(client, LengthByte(n));
    ExtendedReads(n);
    assert s[2..2 + |Extended(n)|] == Extended(n);
  }

  /** A frame one role writes is read by the other as the same flag, opcode and payload in all three length
      forms, exactly when it is a legal frame within the reader's bound. */
  lemma FrameRoundTrip(f: Frame, client: bool, key: seq<octet>, rest: seq<octet>, limit: nat)
    requires Key(key) && f.opcode < 16 && limit <= 0x7fff_ffff_ffff_ffff && |f.payload| < 0x1_0000_0000_0000_0000
    ensures var r := ReadFrame(Encode(f, client, key) + rest, !client, limit, limit, false);
      if Control(f) && (!f.final || |f.payload| > CONTROL_BYTES) then r.Fail?
      else if |f.payload| > limit then r == Fail(TOO_LONG)
      else r == Got(f, rest)
  {
    FrameReads(f, client, key, rest, limit, limit, false);
  }

  lemma FrameReads(f: Frame, client: bool, key: seq<octet>, rest: seq<octet>, limit: nat, retain: nat, discard: bool)
    requires Key(key) && f.opcode < 16 && |f.payload| < 0x1_0000_0000_0000_0000
    ensures var r := ReadFrame(Encode(f, client, key) + rest, !client, limit, retain, discard); var n := |f.payload|;
      if Control(f) && (!f.final || n > CONTROL_BYTES) then r.Fail?
      else if n > 0x7fff_ffff_ffff_ffff || (!discard && n > limit) then r == Fail(TOO_LONG)
      else if discard && !Control(f) && n > retain then r == Discarded(f.final, f.opcode, rest)
      else r == Got(f, rest)
  {
    hide ReadHead; hide HeadOf; hide Masked;
    var head := HeadOf(f.final, f.opcode, client, |f.payload|);
    var mask := if client then key else [];
    var body := if client then Masked(f.payload, key) else f.payload;
    FourParts(head, mask, body, rest);
    HeadReads(f, client, mask + body + rest);
    if client { MaskedTwice(f.payload, key); }
  }
}

/** Reassembling messages from fragments (sections 5.4 and 5.5 of RFC 6455). */
module WebSocketMessages {
  import opened Common
  import opened Concatenation
  import opened WebSocketFrame

  /** What one read gives: a whole message, or the end of the connection; `replies` are the control frames sent back. */
  datatype MessageRead =
    | Whole(payload: seq<octet>, rest: seq<octet>, replies: seq<Frame>)
    | Ended(error: string, replies: seq<Frame>)

  /** What a frame is to a reader that has or has not started a message. */
  datatype Role = Answer(reply: Frame) | Skip | Hangup | Data | Broken(error: string)

  function RoleOf(opcode: octet, payload: seq<octet>, started: bool): (r: Role)
    ensures r.Data? ==> opcode < CLOSE
  {
    if opcode == PING then Answer(Frame(true, PONG, payload))
    else if opcode == PONG then Skip
    else if opcode == CLOSE then Hangup
    else if opcode == CONTINUATION then if started then Data else Broken("Unexpected WebSocket continuation")
    else if opcode == TEXT || opcode == BINARY then if started then Broken("Interleaved WebSocket message") else Data
    else Broken("Unsupported WebSocket opcode")
  }

  function ReadMessage(s: seq<octet>, client: bool, limit: nat, body: seq<octet>, started: bool, replies: seq<Frame>): MessageRead
    decreases |s|
  {
    match ReadFrame(s, client, limit, limit, false)
    case Fail(e) => Ended(e, replies)
    case Discarded(_, _, _) => Ended("Observer frame discarded", replies)
    case Got(f, rest) =>
      match RoleOf(f.opcode, f.payload, started)
      case Answer(pong) => ReadMessage(rest, client, limit, body, started, replies + [pong])
      case Skip => ReadMessage(rest, client, limit, body, started, replies)
      case Hangup => Ended(CLOSED, replies + [Frame(true, CLOSE, f.payload)])
      case Broken(e) => Ended(e, replies)
      case Data =>
        if |body| + |f.payload| > limit then Ended(TOO_LONG, replies)
        else if f.final then Whole(body + f.payload, rest, replies)
        else ReadMessage(rest, client, limit, body + f.payload, true, replies)
  }

  /** A reader that keeps only messages of at most `small` bytes. */
  function ReadSmall(s: seq<octet>, client: bool, limit: nat, small: nat, body: seq<octet>, started: bool, oversized: bool,
                     replies: seq<Frame>): MessageRead
    requires |body| <= small
    decreases |s|
  {
    match ReadFrame(s, client, limit, if oversized then 0 else small - |body|, true)
    case Fail(e) => Ended(e, replies)
    case Discarded(final, opcode, rest) =>
      (match RoleOf(opcode, [], started)
       case Answer(pong) => ReadSmall(rest, client, limit, small, [], started, true, replies + [pong])
       case Skip => ReadSmall(rest, client, limit, small, [], started, true, replies)
       case Hangup => Ended(CLOSED, replies + [Frame(true, CLOSE, [])])
       case Broken(e) => Ended(e, replies)
       case Data =>
         if final then ReadSmall(rest, client, limit, small, [], false, false, replies)
         else ReadSmall(rest, client, limit, small, [], true, true, replies))
    case Got(f, rest) =>
      match RoleOf(f.opcode, f.payload, started)
      case Answer(pong) => ReadSmall(rest, client, limit, small, body, started, oversized, replies + [pong])
      case Skip => ReadSmall(rest, client, limit, small, body, started, oversized, replies)
      case Hangup => Ended(CLOSED, replies + [Frame(true, CLOSE, f.payload)])
      case Broken(e) => Ended(e, replies)
      case Data =>
        var next := if oversized then body else body + f.payload;
        if !f.final then ReadSmall(rest, client, limit, small, next, true, oversized, replies)
        else if oversized then ReadSmall(rest, client, limit, small, [], false, false, replies)
        else Whole(next, rest, replies)
  }

  // ----- what a legal peer sends -----

  datatype Sent = Sent(frame: Frame, key: seq<octet>)

  predicate Fits(f: Sent) { Key(f.key) && |f.frame.payload| <= 0x7fff_ffff_ffff_ffff }

  predicate Interleaved(f: Frame) { f.final && (f.opcode == PING || f.opcode == PONG) && |f.payload| <= CONTROL_BYTES }

  predicate Fragment(f: Frame, started: bool) {
    if started then f.opcode == CONTINUATION else f.opcode == TEXT || f.opcode == BINARY
  }

  /** The frames of one message from here on: fragments in order, the last one final, pings and pongs anywhere between. */
  predicate Legal(frames: seq<Sent>, started: bool)
    decreases |frames|
  {
    frames != [] && Fits(frames[0]) &&
    var f := frames[0].frame;
    if Interleaved(f) then Legal(frames[1..], started)
    else Fragment(f, started) && if f.final then |frames| == 1 else Legal(frames[1..], true)
  }

  function Content(frames: seq<Sent>): seq<octet> {
    if frames == [] then [] else (if Interleaved(frames[0].frame) then [] else frames[0].frame.payload) + Content(frames[1..])
  }

  function Replies(frames: seq<Sent>): seq<Frame> {
    if frames == [] then []
    else (if frames[0].frame.opcode == PING then [Frame(true, PONG, frames[0].frame.payload)] else []) + Replies(frames[1..])
  }

  /** The bytes of these frames, sent by a peer in role `client`. */
  function Bytes(frames: seq<Sent>, client: bool): seq<octet>
    requires forall i :: 0 <= i < |frames| ==> Fits(frames[i])
  {
    if frames == [] then [] else
      assert Fits(frames[0]);
      Encode(frames[0].frame, client, frames[0].key) + Bytes(frames[1..], client)
  }

  lemma {:induction false} LegalFits(frames: seq<Sent>, started: bool)
    requires Legal(frames, started)
    ensures forall i :: 0 <= i < |frames| ==> Fits(frames[i])
    decreases |frames|
  {
    if |frames| > 1 {
      LegalFits(frames[1..], started || !Interleaved(frames[0].frame));
      assert forall i :: 1 <= i < |frames| ==> frames[i] == frames[1..][i - 1];
    }
  }

  /** One frame of a legal message in front of the rest of the stream. */
  lemma FirstFrame(frames: seq<Sent>, started: bool, client: bool, rest: seq<octet>)
    requires Legal(frames, started) && forall i :: 0 <= i < |frames| ==> Fits(frames[i])
    ensures Bytes(frames, client) + rest == Encode(frames[0].frame, client, frames[0].key) + (Bytes(frames[1..], client) + rest)
    ensures var f := frames[0].frame;
      f.opcode < 16 && if Interleaved(f) then Control(f) && f.final && |f.payload| <= CONTROL_BYTES else !Control(f)
  {
    hide Encode;
    Assoc(Encode(frames[0].frame, client, frames[0].key), Bytes(frames[1..], client), rest);
  }

  lemma RoleOfFrame(f: Frame, started: bool)
    requires Interleaved(f) || Fragment(f, started)
    ensures var role := RoleOf(f.opcode, f.payload, started);
      if !Interleaved(f) then role == Data
      else if f.opcode == PING then role == Answer(Frame(true, PONG, f.payload)) else role == Skip
    ensures !Interleaved(f) ==> RoleOf(f.opcode, [], started) == Data
  {
  }

  /** Every ping and pong between the fragments is within the reader's bound. */
  ghost predicate ControlsFit(frames: seq<Sent>, limit: nat) {
    forall i :: 0 <= i < |frames| && Interleaved(frames[i].frame) ==> |frames[i].frame.payload| <= limit
  }

  lemma ControlsFitTail(frames: seq<Sent>, limit: nat)
    requires frames != []
    ensures ControlsFit(frames, limit) <==>
      (Interleaved(frames[0].frame) ==> |frames[0].frame.payload| <= limit) && ControlsFit(frames[1..], limit)
  {
    hide Interleaved;
    var tail := frames[1..];
    assert forall i :: 1 <= i < |frames| ==> frames[i] == tail[i - 1];
    assert forall i :: 0 <= i < |tail| ==> tail[i] == frames[i + 1];
  }

  /** ReadMessage gives each message's fragments joined, answers each ping in turn, and refuses exactly the
      messages that are over its bound or carry a ping or pong over it. */
  lemma {:induction false} MessageReads(frames: seq<Sent>, started: bool, client: bool, rest: seq<octet>, limit: nat, body: seq<octet>, replies: seq<Frame>)
    requires Legal(frames, started) && |body| <= limit <= 0x7fff_ffff_ffff_ffff
    requires forall i :: 0 <= i < |frames| ==> Fits(frames[i])
    ensures var r := ReadMessage(Bytes(frames, client) + rest, !client, limit, body, started, replies);
      if |body| + |Content(frames)| <= limit && ControlsFit(frames, limit)
      then r == Whole(body + Content(frames), rest, replies + Replies(frames))
      else r.Ended? && r.error == TOO_LONG
    decreases |frames|
  {
    hide ReadFrame; hide Encode; hide RoleOf; hide Interleaved; hide Fragment; hide Bytes; hide ControlsFit;
    var f, tail := frames[0].frame, Bytes(frames[1..], client) + rest;
    FirstFrame(frames, started, client, rest);
    ControlsFitTail(frames, limit);
    FrameReads(f, client, frames[0].key, tail, limit, limit, false);
    RoleOfFrame(f, started);
    PingIsInterleaved(f, started);
    MessageStep(f, frames[0].key, started, client, tail, limit, body, replies);
    if Interleaved(f) {
      var more := if f.opcode == PING then [Frame(true, PONG, f.payload)] else [];
      if |f.payload| <= limit { MessageReads(frames[1..], started, client, rest, limit, body, replies + more); }
      Assoc(replies, more, Replies(frames[1..]));
      assert replies + [] == replies && [] + Content(frames[1..]) == Content(frames[1..]);
    } else {
      Assoc(body, f.payload, Content(frames[1..]));
      assert replies + ([] + Replies(frames[1..])) == replies + Replies(frames[1..]);
      if f.final {
        NoFrames(client, rest);
        NoControls(limit);
        assert frames[1..] == [] && replies + [] == replies && f.payload + [] == f.payload;
      } else if |body| + |f.payload| <= limit {
        MessageReads(frames[1..], true, client, rest, limit, body + f.payload, replies);
      }
    }
  }

  lemma NoControls(limit: nat)
    ensures ControlsFit([], limit)
  {
  }

  lemma NoFrames(client: bool, rest: seq<octet>)
    ensures Bytes([], client) + rest == rest && Content([]) == [] && Replies([]) == []
  {
  }

  lemma PingIsInterleaved(f: Frame, started: bool)
    requires Interleaved(f) || Fragment(f, started)
    ensures f.opcode == PING ==> Interleaved(f)
  {
  }

  lemma MessageStep(f: Frame, key: seq<octet>, started: bool, client: bool, tail: seq<octet>, limit: nat, body: seq<octet>, replies: seq<Frame>)
    requires Key(key) && |body| <= limit
    requires ReadFrame(Encode(f, client, key) + tail, !client, limit, limit, false) == (if |f.payload| > limit then Fail(TOO_LONG) else Got(f, tail))
    requires var role := RoleOf(f.opcode, f.payload, started); role.Data? || role.Answer? || role.Skip?
    ensures var r := ReadMessage(Encode(f, client, key) + tail, !client, limit, body, started, replies); var role := RoleOf(f.opcode, f.payload, started);
      if |f.payload| > limit then r == Ended(TOO_LONG, replies)
      else if role.Answer? then r == ReadMessage(tail, !client, limit, body, started, replies + [role.reply])
      else if role.Skip? then r == ReadMessage(tail, !client, limit, body, started, replies)
      else if |body| + |f.payload| > limit then r == Ended(TOO_LONG, replies)
      else if f.final then r == Whole(body + f.payload, tail, replies)
      else r == ReadMessage(tail, !client, limit, body + f.payload, true, replies)
  {
    hide ReadFrame; hide Encode; hide RoleOf;
  }

  // ----- the observer's reader -----

  /** A message is kept exactly when all of it is within the bound; a larger one is consumed and the next begins. */
  lemma {:induction false} SmallReads(frames: seq<Sent>, started: bool, client: bool, rest: seq<octet>, limit: nat, small: nat,
                                       body: seq<octet>, oversized: bool, replies: seq<Frame>)
    requires Legal(frames, started) && |body| <= small && (oversized ==> body == [])
    requires forall i :: 0 <= i < |frames| ==> Fits(frames[i])
    ensures ReadSmall(Bytes(frames, client) + rest, !client, limit, small, body, started, oversized, replies) ==
      if !oversized && |body| + |Content(frames)| <= small then Whole(body + Content(frames), rest, replies + Replies(frames))
      else ReadSmall(rest, !client, limit, small, [], false, false, replies + Replies(frames))
    decreases |frames|
  {
    hide ReadFrame; hide Encode; hide RoleOf; hide Interleaved; hide Fragment; hide Bytes; hide ReadSmall;
    var f, tail := frames[0].frame, Bytes(frames[1..], client) + rest;
    var more := if f.opcode == PING then [Frame(true, PONG, f.payload)] else [];
    FirstFrame(frames, started, client, rest);
    FrameReads(f, client, frames[0].key, tail, limit, if oversized then 0 else small - |body|, true);
    RoleOfFrame(f, started);
    PingIsInterleaved(f, started);
    SmallStep(f, frames[0].key, started, client, tail, limit, small, body, oversized, replies);
    Assoc(replies, more, Replies(frames[1..]));
    assert replies + [] == replies && [] + Content(frames[1..]) == Content(frames[1..]);
    if Interleaved(f) {
      SmallReads(frames[1..], started, client, rest, limit, small, body, oversized, replies + more);
    } else {
      var over := oversized || |body| + |f.payload| > small;
      var next := if over then [] else body + f.payload;
      Assoc(body, f.payload, Content(frames[1..]));
      if f.final {
        NoFrames(client, rest);
        assert frames[1..] == [] && f.payload + [] == f.payload;
      } else {
        SmallReads(frames[1..], true, client, rest, limit, small, next, over, replies);
      }
    }
  }

  lemma SmallStep(f: Frame, key: seq<octet>, started: bool, client: bool, tail: seq<octet>, limit: nat, small: nat, body: seq<octet>,
                  oversized: bool, replies: seq<Frame>)
    requires Key(key) && |body| <= small && (oversized ==> body == []) && (Interleaved(f) || Fragment(f, started))
    requires var retain := if oversized then 0 else small - |body|;
      ReadFrame(Encode(f, client, key) + tail, !client, limit, retain, true)
      == if !Interleaved(f) && |f.payload| > retain then Discarded(f.final, f.opcode, tail) else Got(f, tail)
    ensures var r := ReadSmall(Encode(f, client, key) + tail, !client, limit, small, body, started, oversized, replies);
      var over := oversized || |body| + |f.payload| > small;
      if Interleaved(f) then
        r == ReadSmall(tail, !client, limit, small, body, started, oversized,
                       if f.opcode == PING then replies + [Frame(true, PONG, f.payload)] else replies)
      else if !f.final then r == ReadSmall(tail, !client, limit, small, if over then [] else body + f.payload, true, over, replies)
      else if over then r == ReadSmall(tail, !client, limit, small, [], false, false, replies)
      else r == Whole(body + f.payload, tail, replies)
  {
    hide ReadFrame; hide Encode; hide RoleOf; hide Interleaved; hide Fragment;
    RoleOfFrame(f, started);
  }

  predicate LegalMessages(messages: seq<seq<Sent>>) {
    forall i :: 0 <= i < |messages| ==> Legal(messages[i], false)
  }

  /** The bytes of a run of messages. */
  function StreamOf(messages: seq<seq<Sent>>, client: bool): seq<octet>
    requires LegalMessages(messages)
  {
    if messages == [] then [] else
      LegalFits(messages[0], false);
      Bytes(messages[0], client) + StreamOf(messages[1..], client)
  }

  function AllReplies(messages: seq<seq<Sent>>): seq<Frame> {
    if messages == [] then [] else Replies(messages[0]) + AllReplies(messages[1..])
  }

  /** ReadSmallMessage gives exactly the first message within its bound, however large the ones before it,
      and has answered every ping up to there. */
  lemma {:induction false} FirstSmallMessage(messages: seq<seq<Sent>>, client: bool, rest: seq<octet>, limit: nat, small: nat, k: nat, replies: seq<Frame>)
    requires LegalMessages(messages) && k < |messages| && |Content(messages[k])| <= small
    requires forall i :: 0 <= i < k ==> |Content(messages[i])| > small
    ensures ReadSmall(StreamOf(messages, client) + rest, !client, limit, small, [], false, false, replies) ==
            Whole(Content(messages[k]), StreamOf(messages[k + 1..], client) + rest, replies + AllReplies(messages[..k + 1]))
    decreases k
  {
    hide ReadSmall; hide Bytes; hide Content; hide Replies; hide Legal;
    var first, after := messages[0], StreamOf(messages[1..], client) + rest;
    LegalFits(first, false);
    Assoc(Bytes(first, client), StreamOf(messages[1..], client), rest);
    SmallReads(first, false, client, after, limit, small, [], false, replies);
    assert messages[..k + 1][0] == first && messages[..k + 1][1..] == messages[1..][..k];
    if k == 0 {
      assert [] + Content(first) == Content(first) && messages[1..][..0] == [];
      assert Replies(first) + [] == Replies(first);
    } else {
      assert messages[1..][k..] == messages[k + 1..];
      FirstSmallMessage(messages[1..], client, rest, limit, small, k - 1, replies + Replies(first));
      Assoc(replies, Replies(first), AllReplies(messages[1..][..k]));
    }
  }

  // ----- the connection -----

  class WebSocket {
    const client: bool
    const limit: nat
    var input: seq<octet>
    var replies: seq<Frame>
    var closed: bool

    constructor (role: bool, bound: nat, data: seq<octet>)
      ensures client == role && limit == bound && input == data && replies == [] && !closed
    {
      client, limit, input, replies, closed := role, bound, data, [], false;
    }

    method ReadFull(n: nat) returns (data: Option<seq<octet>>)
      modifies this`input
      ensures if n <= |old(input)| then data == Some(old(input)[..n]) && input == old(input)[n..] else data == None
    {
      if |input| < n { return None; }
      data := Some(input[..n]);
      input := input[n..];
    }

    /** The fixed part of a header and its extended length. */
    method ReadHeader() returns (r: Result<Head>)
      modifies this`input
      ensures r == ReadHead(old(input), client)
      ensures r.Ok? ==> input == old(input)[r.value.size..]
    {
      hide Reserved; hide HighBit; hide OpBits; hide LowBits; hide Number;
      var header := ReadFull(2);
      if header.None? { return Result<Head>.Err(CLOSED); }
      var a, b := header.value[0], header.value[1];
      if Reserved(a) { return Result<Head>.Err("Reserved WebSocket bits are set"); }
      if client == HighBit(b) { return Result<Head>.Err("Invalid WebSocket masking"); }
      var length, size := LowBits(b), 2;
      if length == 126 || length == 127 {
        var more := if length == 126 then 2 else 8;
        var extended := ReadFull(more);
        if extended.None? { return Result<Head>.Err(CLOSED); }
        assert extended.value == old(input)[2..2 + more];
        length, size := Number(extended.value), 2 + more;
      }
      r := Ok(Head(HighBit(a), OpBits(a), length, size));
    }

    /** The masking key, if the peer masks, and the bytes of the body as sent. */
    method ReadBody(length: nat) returns (r: Option<(seq<octet>, seq<octet>)>)
      modifies this`input
      ensures var k := if client then 0 else 4;
        if k + length <= |old(input)|
        then r == Some((old(input)[..k], old(input)[k..k + length])) && input == old(input)[k + length..]
        else r == None
    {
      var key := ReadFull(if client then 0 else 4);
      if key.None? { return None; }
      var data := ReadFull(length);
      if data.None? { return None; }
      Slices(old(input), if client then 0 else 4, length, 0);
      r := Some((key.value, data.value));
    }

    method UnmaskCopy(payload: seq<octet>, key: seq<octet>) returns (r: seq<octet>)
      requires Key(key)
      ensures r == Masked(payload, key)
    {
      var buffer := new octet[|payload|](i requires 0 <= i < |payload| => payload[i]);
      assert buffer[..] == payload;
      Unmask(buffer, key);
      r := buffer[..];
    }

    method ReadFrameBounded(retain: nat, discard: bool) returns (r: FrameRead)
      modifies this`input
      ensures r == ReadFrame(old(input), client, limit, retain, discard)
      ensures !r.Fail? ==> input == r.rest
    {
      hide ReadHead; hide Masked; hide ReadFrame;
      var head := ReadHeader();
      FrameParts(old(input), client, limit, retain, discard);
      if head.Err? { return Fail(head.error); }
      var h := head.value;
      if h.opcode >= CLOSE && (!h.final || h.length > CONTROL_BYTES) { return Fail("Invalid WebSocket control frame"); }
      if h.length > 0x7fff_ffff_ffff_ffff || (!discard && h.length > limit) { return Fail(TOO_LONG); }
      var body := ReadBody(h.length);
      if body.None? { return Fail(CLOSED); }
      if discard && h.opcode < CLOSE && h.length > retain { return Discarded(h.final, h.opcode, input); }
      var payload := body.value.1;
      if !client { payload := UnmaskCopy(payload, body.value.0); }
      r := Got(Frame(h.final, h.opcode, payload), input);
    }

    /** ReadSmallMessage: one message at a time, until one was small enough to keep. */
    method ReadSmallMessage(small: nat) returns (r: Result<seq<octet>>)
      modifies this
      ensures small == 0 || small > limit ==> r.Err? && input == old(input) && replies == old(replies)
      ensures 0 < small <= limit ==>
        Follows(ReadSmall(old(input), client, limit, small, [], false, false, old(replies)), r, input, replies)
    {
      hide ReadFrame; hide RoleOf;
      if small == 0 || small > limit { return Result<seq<octet>>.Err("Invalid observer message bound"); }
      ghost var spec := ReadSmall(input, client, limit, small, [], false, false, replies);
      var body: seq<octet> := [];
      var started, oversized := false, false;
      while true
        invariant |body| <= small && (oversized ==> body == [])
        invariant ReadSmall(input, client, limit, small, body, started, oversized, replies) == spec
        decreases |input|
      {
        var read := ReadFrameBounded(if oversized then 0 else small - |body|, true);
        if read.Fail? { return Result<seq<octet>>.Err(read.error); }
        var opcode, payload := if read.Got? then read.frame.opcode else read.opcode, if read.Got? then read.frame.payload else [];
        var final := if read.Got? then read.frame.final else read.final;
        if read.Discarded? { oversized, body := true, []; }
        match RoleOf(opcode, payload, started)
        case Answer(pong) => replies := replies + [pong];
        case Skip =>
        case Hangup =>
          replies, closed := replies + [Frame(true, CLOSE, payload)], true;
          return Result<seq<octet>>.Err(CLOSED);
        case Broken(e) => return Result<seq<octet>>.Err(e);
        case Data =>
          started := true;
          if !oversized { body := body + payload; }
          if final {
            if !oversized { return Ok(body); }
            body, started, oversized := [], false, false;
          }
      }
    }

    method ReadWhole() returns (r: Result<seq<octet>>)
      modifies this
      ensures Follows(ReadMessage(old(input), client, limit, [], false, old(replies)), r, input, replies)
    {
      hide ReadFrame;
      var assembled: seq<octet> := [];
      var started := false;
      ghost var spec := ReadMessage(input, client, limit, [], false, replies);
      while true
        invariant ReadMessage(input, client, limit, assembled, started, replies) == spec
        decreases |input|
      {
        var read := ReadFrameBounded(limit, false);
        if read.Fail? { return Result<seq<octet>>.Err(read.error); }
        if read.Discarded? { return Result<seq<octet>>.Err("Observer frame discarded"); }
        var f := read.frame;
        match RoleOf(f.opcode, f.payload, started)
        case Answer(pong) => replies := replies + [pong];
        case Skip =>
        case Hangup =>
          replies, closed := replies + [Frame(true, CLOSE, f.payload)], true;
          return Result<seq<octet>>.Err(CLOSED);
        case Broken(e) => return Result<seq<octet>>.Err(e);
        case Data =>
          started := true;
          assembled := assembled + f.payload;
          if |assembled| > limit { return Result<seq<octet>>.Err(TOO_LONG); }
          if f.final { return Ok(assembled); }
      }
    }
  }

  lemma Slices(s: seq<octet>, a: nat, k: nat, n: nat)
    requires a + k + n <= |s|
    ensures s[a..][..k] == s[a..a + k] && s[a..][k..k + n] == s[a + k..a + k + n] && s[a..][k + n..] == s[a + k + n..]
  {
  }

  /** ReadFrame by the parts that follow the header. */
  lemma FrameParts(s: seq<octet>, client: bool, limit: nat, retain: nat, discard: bool)
    ensures var head := ReadHead(s, client); var r := ReadFrame(s, client, limit, retain, discard);
      if head.Err? then r == Fail(head.error)
      else
        var h, k := head.value, if client then 0 else 4;
        var after := s[h.size..];
        if h.opcode >= CLOSE && (!h.final || h.length > CONTROL_BYTES) then r == Fail("Invalid WebSocket control frame")
        else if h.length > 0x7fff_ffff_ffff_ffff || (!discard && h.length > limit) then r == Fail(TOO_LONG)
        else if |after| < k + h.length then r == Fail(CLOSED)
        else if discard && h.opcode < CLOSE && h.length > retain then r == Discarded(h.final, h.opcode, after[k + h.length..])
        else
          var payload := after[k..k + h.length];
          r == Got(Frame(h.final, h.opcode, if client then payload else Masked(payload, after[..k])), after[k + h.length..])
  {
    hide ReadHead; hide Masked;
    var head, k := ReadHead(s, client), if client then 0 else 4;
    if head.Ok? && head.value.size + k + head.value.length <= |s| { Slices(s, head.value.size, k, head.value.length); }
  }

  ghost predicate Follows(spec: MessageRead, r: Result<seq<octet>>, input: seq<octet>, replies: seq<Frame>) {
    && replies == spec.replies
    && (spec.Whole? ==> r == Ok(spec.payload) && input == spec.rest)
    && (spec.Ended? ==> r == Result<seq<octet>>.Err(spec.error))
  }
}
