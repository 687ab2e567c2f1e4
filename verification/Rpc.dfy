/**
 The JSONL RPC transport. Any number of callers, the one writer, the one reader,
 deadlines and closing all take the same lock. A state is what that lock
 protects plus the local variables the writer and the reader hold between two
 critical sections; an action is one critical section, or one piece of I/O done
 outside the lock.
 */
module RpcState {
  import opened Common
  import opened Search

  const MAX_WRITES := 64
  const MAX_QUEUED_BYTES := 64 * 1024 * 1024

  datatype Key = NoKey | NumKey(id: nat) | TextKey(text: string)

  datatype Status = Queued | Writing | Written | Cancelled

  datatype Reply = Value(value: string) | Failed(cause: string)

  /** One write. `packet` and `begun` are history: the bytes handed to enqueue, and
      whether the writer ever started on them. `results` is every send on the
      one-slot result channel. */
  datatype Write = Write(packet: seq<byte>, data: seq<byte>, key: Key, status: Status,
                         begun: bool, results: seq<Option<string>>)

  /** Where the writer goroutine is between two critical sections. */
  datatype Writer =
    | Waiting
    | Late(w: nat)                       // popped after its deadline, expire not yet called
    | Sending(w: nat, data: seq<byte>)   // state is rpcWriting, output.Write not yet done
    | Sent(w: nat)
    | Broken(w: nat, cause: string)
    | Stopped

  datatype State = State(
    nextId: nat,
    callers: set<nat>,                   // ids drawn by callers that have not enqueued yet
    closed: Option<string>,
    pending: map<Key, nat>,              // response key to reply channel
    records: seq<Write>,                 // every write, in enqueue order; its index is its identity
    writes: set<nat>,
    queue: seq<nat>,
    queuedBytes: int,
    replies: map<nat, seq<Reply>>,       // every send on each one-slot reply channel
    hand: Option<(nat, Reply)>,          // channel and reply the reader took out of pending
    writer: Writer,
    output: seq<(nat, seq<byte>)>)       // what output.Write was given, in order

  const Initial := State(0, {}, None, map[], [], {}, [], 0, map[], None, Waiting, [])

  // ----- critical sections -----

  /** finishWriteLocked */
  function Finish(s: State, w: nat, err: Option<string>): State
    requires w < |s.records|
  {
    if w !in s.writes then s
    else
      var write := s.records[w];
      s.(writes := s.writes - {w},
         queuedBytes := s.queuedBytes - |write.data|,
         records := s.records[w := write.(data := [], status := if err.Some? then Cancelled else Written,
                                          results := write.results + [err])])
  }

  function Self(w: nat): nat { w }

  function Send(replies: map<nat, seq<Reply>>, channel: nat, reply: Reply): map<nat, seq<Reply>> {
    replies[channel := (if channel in replies then replies[channel] else []) + [reply]]
  }

  /** expire up to its unlock; the caller then closes the transport if the write was being written. */
  function Expire(s: State, w: nat, cause: string): State
    requires w < |s.records|
  {
    var write := s.records[w];
    if write.key != NoKey && write.key !in s.pending then s
    else
      var settled :=
        if write.key == NoKey then s
        else s.(pending := s.pending - {write.key},
                replies := Send(s.replies, s.pending[write.key], Failed(cause)));
      if write.status.Queued?
      then Finish(settled.(queue := WithoutFirst(s.queue, Self, w)), w, Some(cause))
      else settled
  }

  /** CloseWithError up to its unlock */
  function Close(s: State, cause: string): State {
    if s.closed.Some? then s
    else s.(closed := Some(cause), pending := map[], writes := {}, queue := [], queuedBytes := 0,
            replies := map c | c in s.replies ::
              if c in s.pending.Values then s.replies[c] + [Failed(cause)] else s.replies[c],
            records := seq(|s.records|, i requires 0 <= i < |s.records| =>
              if i in s.writes then CloseWrite(s.records[i], cause) else s.records[i]))
  }

  function CloseWrite(write: Write, cause: string): Write {
    write.(data := [], status := Cancelled, results := write.results + [Some(cause)])
  }

  /** enqueue: refused when closed, late, or over one of the three bounds */
  predicate Admits(s: State, packet: seq<byte>, reply: bool, late: bool) {
    && s.closed.None?
    && !late
    && |s.writes| < MAX_WRITES
    && (reply ==> |s.pending| < MAX_WRITES)
    && |packet| <= MAX_QUEUED_BYTES - s.queuedBytes
  }

  function Enqueue(s: State, packet: seq<byte>, key: Key, channel: Option<nat>, late: bool): State {
    if !Admits(s, packet, channel.Some?, late) then s
    else
      var queued := Appended(s, packet, key);
      if channel.None? then queued
      else queued.(pending := s.pending[key := channel.value], replies := s.replies[channel.value := []])
  }

  /** One more write at the end of the queue. */
  function Appended(s: State, packet: seq<byte>, key: Key): State {
    var w := |s.records|;
    s.(records := s.records + [Write(packet, packet, key, Queued, false, [])],
       writes := s.writes + {w}, queue := s.queue + [w], queuedBytes := s.queuedBytes + |packet|)
  }

  // ----- actions -----

  datatype Action =
    | Draw                                              // RequestContext takes the next id
    | Request(id: nat, packet: seq<byte>, late: bool)
    | Notify(packet: seq<byte>, late: bool)
    | Timeout(w: nat, cause: string)                    // a caller's timer or context
    | Pop(late: bool)
    | WriterExpire(cause: string)
    | Output(err: Option<string>)
    | WriterDone
    | Response(key: Key, reply: Reply)
    | Deliver
    | CloseAll(cause: string)

  predicate Enabled(s: State, a: Action) {
    match a
    case Draw => s.closed.None?
    case Request(id, _, _) => id in s.callers
    case Notify(_, _) => true
    case Timeout(w, _) => w < |s.records|
    case Pop(_) => s.writer == Waiting && (s.closed.Some? || (s.queue != [] && s.queue[0] < |s.records|))
    case WriterExpire(_) => s.writer.Late? && s.writer.w < |s.records|
    case Output(_) => s.writer.Sending?
    case WriterDone => (s.writer.Sent? && s.writer.w < |s.records|) || s.writer.Broken?
    case Response(_, _) => s.hand.None?
    case Deliver => s.hand.Some?
    case CloseAll(_) => true
  }

  function Popped(s: State, late: bool): State
    requires s.queue != [] && s.queue[0] < |s.records|
  {
    var w := s.queue[0];
    var rest := s.(queue := s.queue[1..]);
    if late then rest.(writer := Late(w))
    else rest.(writer := Sending(w, s.records[w].data),
               records := s.records[w := s.records[w].(status := Writing, begun := true)])
  }

  function Step(s: State, a: Action): State
    requires Enabled(s, a)
  {
    match a
    case Draw => s.(nextId := s.nextId + 1, callers := s.callers + {s.nextId + 1})
    case Request(id, packet, late) => Enqueue(s.(callers := s.callers - {id}), packet, NumKey(id), Some(id), late)
    case Notify(packet, late) => Enqueue(s, packet, NoKey, None, late)
    case Timeout(w, cause) => Expire(s, w, cause)
    case Pop(late) => if s.closed.Some? then s.(writer := Stopped) else Popped(s, late)
    case WriterExpire(cause) => Expire(s, s.writer.w, cause).(writer := Waiting)
    case Output(err) =>
      s.(output := s.output + [(s.writer.w, s.writer.data)],
         writer := if err.Some? then Broken(s.writer.w, err.value) else Sent(s.writer.w))
    case WriterDone =>
      if s.writer.Broken? then Close(s, s.writer.cause).(writer := Stopped)
      else Finish(s, s.writer.w, None).(writer := Waiting)
    case Response(key, reply) =>
      if key in s.pending then s.(pending := s.pending - {key}, hand := Some((s.pending[key], reply))) else s
    case Deliver => s.(hand := None, replies := Send(s.replies, s.hand.value.0, s.hand.value.1))
    case CloseAll(cause) => Close(s, cause)
  }

  /** An action that is not enabled is simply not taken. */
  function Next(s: State, a: Action): State {
    if Enabled(s, a) then Step(s, a) else s
  }

  /** Every interleaving is a sequence of actions. */
  function Run(s: State, actions: seq<Action>): State
    decreases |actions|
  {
    if actions == [] then s
    else Next(Run(s, actions[..|actions| - 1]), actions[|actions| - 1])
  }
}

/** What every reachable transport state satisfies. */
module RpcInvariant {
  import opened Common
  import opened Search
  import opened RpcState

  /** Bytes still charged by the first n writes. */
  ghost function Charged(records: seq<Write>, writes: set<nat>, n: nat): (sum: nat)
    requires n <= |records|
  {
    if n == 0 then 0
    else Charged(records, writes, n - 1) + if n - 1 in writes then |records[n - 1].data| else 0
  }

  /** A write is charged and unanswered exactly while it is a member of `writes`. */
  ghost predicate WriteOk(write: Write, member: bool, channels: set<nat>) {
    && (if member then write.results == [] && write.data == write.packet && (write.status.Queued? || write.status.Writing?)
        else |write.results| == 1 && write.data == [] && (write.status.Written? || write.status.Cancelled?))
    && (write.status.Queued? ==> !write.begun)
    && (write.status.Writing? || write.status.Written? ==> write.begun)
    && (write.status.Written? <==> write.results == [None])
    && !write.key.TextKey?
    && (write.key.NumKey? ==> write.key.id in channels)
  }

  ghost predicate WritesOk(records: seq<Write>, writes: set<nat>, channels: set<nat>) {
    && (forall i :: i in writes ==> i < |records|)
    && (forall i :: 0 <= i < |records| ==> WriteOk(records[i], i in writes, channels))
  }

  ghost predicate BytesOk(records: seq<Write>, writes: set<nat>, bytes: int) {
    bytes == Charged(records, writes, |records|) && bytes <= MAX_QUEUED_BYTES && |writes| <= MAX_WRITES
  }

  ghost predicate Ascending(q: seq<nat>) {
    forall i, j :: 0 <= i < j < |q| ==> q[i] < q[j]
  }

  ghost predicate QueueOk(queue: seq<nat>, records: seq<Write>, writes: set<nat>) {
    && Ascending(queue)
    && (forall i :: 0 <= i < |queue| ==> queue[i] in writes && queue[i] < |records| && records[queue[i]].status.Queued?)
  }

  ghost predicate Held(hand: Option<(nat, Reply)>, c: nat) {
    hand.Some? && hand.value.0 == c
  }

  /** Each reply channel is empty exactly while its key is pending or the reader holds its reply. */
  ghost predicate ChannelOk(sent: seq<Reply>, pending: bool, held: bool) {
    && |sent| <= 1
    && (sent == [] <==> pending || held)
    && !(pending && held)
  }

  ghost predicate ChannelsOk(nextId: nat, callers: set<nat>, pending: map<Key, nat>,
                             replies: map<nat, seq<Reply>>, hand: Option<(nat, Reply)>)
  {
    && (forall c :: c in replies ==>
          0 < c <= nextId && c !in callers && ChannelOk(replies[c], NumKey(c) in pending, Held(hand, c)))
    && (forall k :: k in pending ==> k.NumKey? && pending[k] == k.id && k.id in replies)
    && (hand.Some? ==> hand.value.0 in replies)
    && (forall id :: id in callers ==> 0 < id <= nextId)
    && |pending| <= MAX_WRITES
  }

  ghost predicate InOutput(output: seq<(nat, seq<byte>)>, i: nat) {
    exists k :: 0 <= k < |output| && output[k].0 == i
  }

  /** What was sent: distinct packets in enqueue order, all begun, none still queued. */
  ghost predicate OutputOk(output: seq<(nat, seq<byte>)>, records: seq<Write>, queue: seq<nat>, writer: Writer) {
    && (forall k :: 0 <= k < |output| ==> output[k].0 < |records| && output[k].1 == records[output[k].0].packet)
    && (forall j, k :: 0 <= j < k < |output| ==> output[j].0 < output[k].0)
    && (forall k :: 0 <= k < |output| && queue != [] ==> output[k].0 < queue[0])
    && (forall i :: 0 <= i < |records| ==> (records[i].begun <==> InOutput(output, i) || IsSending(writer, i)))
  }

  ghost predicate IsSending(writer: Writer, i: nat) {
    writer.Sending? && writer.w == i
  }

  ghost predicate Holds(writer: Writer, i: nat) {
    (writer.Sending? || writer.Sent? || writer.Broken?) && writer.w == i
  }

  ghost predicate WriterOk(writer: Writer, records: seq<Write>, queue: seq<nat>, output: seq<(nat, seq<byte>)>) {
    && (!writer.Waiting? && !writer.Stopped? ==> writer.w < |records| && (queue != [] ==> writer.w < queue[0]))
    && (writer.Sending? ==>
          && writer.data == records[writer.w].packet
          && (forall k :: 0 <= k < |output| ==> output[k].0 < writer.w))
    && (writer.Late? ==> (records[writer.w].status.Queued? || records[writer.w].status.Cancelled?))
    && (writer.Sending? || writer.Sent? || writer.Broken? ==> records[writer.w].begun && (records[writer.w].status.Writing? || records[writer.w].status.Cancelled?))
    && (forall i :: 0 <= i < |records| && records[i].status.Writing? ==> Holds(writer, i))
  }

  ghost predicate ClosedOk(s: State) {
    s.closed.Some? ==> s.pending == map[] && s.writes == {} && s.queue == []
  }

  ghost predicate Inv(s: State) {
    && WritesOk(s.records, s.writes, s.replies.Keys)
    && BytesOk(s.records, s.writes, s.queuedBytes)
    && QueueOk(s.queue, s.records, s.writes)
    && ChannelsOk(s.nextId, s.callers, s.pending, s.replies, s.hand)
    && OutputOk(s.output, s.records, s.queue, s.writer)
    && WriterOk(s.writer, s.records, s.queue, s.output)
    && ClosedOk(s)
  }

  // ----- byte accounting -----

  lemma ChargedExt(r: seq<Write>, t: seq<Write>, ws: set<nat>, vs: set<nat>, n: nat)
    requires n <= |r| && n <= |t|
    requires forall i :: 0 <= i < n ==> (i in ws <==> i in vs) && (i in ws ==> |r[i].data| == |t[i].data|)
    ensures Charged(r, ws, n) == Charged(t, vs, n)
  {
    if n > 0 { ChargedExt(r, t, ws, vs, n - 1); }
  }

  lemma {:induction false} ChargedDrop(r: seq<Write>, t: seq<Write>, ws: set<nat>, w: nat, n: nat)
    requires n <= |r| == |t| && w in ws && w < n
    requires forall i :: 0 <= i < n && i != w ==> |r[i].data| == |t[i].data|
    ensures Charged(t, ws - {w}, n) == Charged(r, ws, n) - |r[w].data|
  {
    if w == n - 1 {
      ChargedExt(r, t, ws, ws - {w}, n - 1);
    } else {
      ChargedDrop(r, t, ws, w, n - 1);
    }
  }

  lemma ClosedCharge(records: seq<Write>, n: nat)
    requires n <= |records|
    ensures Charged(records, {}, n) == 0
  {
  }

  // ----- each critical section keeps the invariant -----

  lemma {:induction false} WithoutKeeps(queue: seq<nat>, w: nat, records: seq<Write>, writes: set<nat>)
    requires QueueOk(queue, records, writes)
    ensures var r := WithoutFirst(queue, Self, w);
      QueueOk(r, records, writes) && w !in r && (r != [] ==> queue != [] && queue[0] <= r[0])
  {
    hide IndexOf;
    var k, r := IndexOf(queue, Self, w), WithoutFirst(queue, Self, w);
    if k < |queue| { assert forall i :: 0 <= i < |r| ==> r[i] == queue[if i < k then i else i + 1]; }
  }

  /** Replacing one record that is not queued. */
  lemma ReplaceKeeps(records: seq<Write>, writes: set<nat>, writes': set<nat>, queue: seq<nat>, channels: set<nat>, w: nat, write: Write)
    requires w < |records| && w !in queue && writes' - {w} == writes - {w}
    requires WritesOk(records, writes, channels) && QueueOk(queue, records, writes)
    requires WriteOk(write, w in writes', channels)
    ensures WritesOk(records[w := write], writes', channels) && QueueOk(queue, records[w := write], writes')
  {
    assert forall i :: i != w ==> (i in writes' <==> i in writes' - {w}) && (i in writes <==> i in writes - {w});
  }

  /** A record whose packet and begun flag stay, and which is not left in the middle of a write. */
  lemma ReplaceKeepsOutput(s: State, w: nat, write: Write, writer: Writer)
    requires w < |s.records| && write.packet == s.records[w].packet && write.begun == s.records[w].begun
    requires OutputOk(s.output, s.records, s.queue, s.writer) && WriterOk(s.writer, s.records, s.queue, s.output)
    requires (write.status.Written? || write.status.Cancelled?)
    requires writer == s.writer || (s.writer == Sent(w) && writer == Waiting)
    requires s.writer == writer && Holds(writer, w) ==> write.status.Cancelled?
    requires s.writer == Late(w) ==> write.status.Cancelled?
    ensures OutputOk(s.output, s.records[w := write], s.queue, writer)
    ensures WriterOk(writer, s.records[w := write], s.queue, s.output)
  {
  }

  /** finishWriteLocked, called either on a cancelled queued write or by the writer that just sent it */
  lemma FinishKeeps(s: State, w: nat, err: Option<string>)
    requires Inv(s) && w < |s.records| && w !in s.queue
    requires s.writer == Sent(w) || (err.Some? && s.records[w].status.Queued?)
    ensures Inv(Finish(s, w, err).(writer := if s.writer == Sent(w) then Waiting else s.writer))
  {
    hide QueueOk; hide OutputOk; hide WriterOk; hide ChannelsOk; hide WritesOk; hide BytesOk; hide WriteOk;
    WriteIsOk(s.records, s.writes, s.replies.Keys, w);
    if s.writer == Sent(w) { SentWrite(s, w); }
    if w in s.writes {
      var t := Finish(s, w, err);
      FinishedWriteOk(s.records[w], err, s.replies.Keys);
      ReplaceKeeps(s.records, s.writes, t.writes, s.queue, s.replies.Keys, w, t.records[w]);
      ReplaceKeepsOutput(s, w, t.records[w], if s.writer == Sent(w) then Waiting else s.writer);
      FinishedBytes(s.records, s.writes, s.queuedBytes, w, t.records[w]);
    }
  }

  lemma WriteIsOk(records: seq<Write>, writes: set<nat>, channels: set<nat>, w: nat)
    requires WritesOk(records, writes, channels) && w < |records|
    ensures WriteOk(records[w], w in writes, channels) && (w !in writes ==> !records[w].status.Queued? && !records[w].status.Writing?)
  {
  }

  lemma FinishedBytes(records: seq<Write>, writes: set<nat>, bytes: int, w: nat, write: Write)
    requires BytesOk(records, writes, bytes) && w < |records| && w in writes && write.data == []
    ensures BytesOk(records[w := write], writes - {w}, bytes - |records[w].data|)
  {
    ChargedDrop(records, records[w := write], writes, w, |records|);
  }

  /** The write the writer has just sent was begun, and if it is no longer open the writer may let go of it. */
  lemma SentWrite(s: State, w: nat)
    requires w < |s.records| && s.writer == Sent(w)
    requires OutputOk(s.output, s.records, s.queue, s.writer) && WriterOk(s.writer, s.records, s.queue, s.output)
    ensures s.records[w].begun
    ensures !s.records[w].status.Writing? ==>
      OutputOk(s.output, s.records, s.queue, Waiting) && WriterOk(Waiting, s.records, s.queue, s.output)
  {
  }

  lemma FinishedWriteOk(write: Write, err: Option<string>, channels: set<nat>)
    requires WriteOk(write, true, channels) && (err.Some? || write.begun)
    ensures WriteOk(write.(data := [], status := if err.Some? then Cancelled else Written, results := write.results + [err]), false, channels)
  {
    assert [] + [err] == [err];
  }

  lemma SettleKeeps(s: State, k: Key, cause: string)
    requires Inv(s) && k in s.pending
    ensures Inv(s.(pending := s.pending - {k}, replies := Send(s.replies, s.pending[k], Failed(cause))))
  {
    var t := s.(pending := s.pending - {k}, replies := Send(s.replies, s.pending[k], Failed(cause)));
    assert t.pending.Keys == s.pending.Keys - {k};
    assert t.replies.Keys == s.replies.Keys;
  }

  lemma ExpireKeeps(s: State, w: nat, cause: string)
    requires Inv(s) && w < |s.records|
    ensures Inv(Expire(s, w, cause))
  {
    hide Inv; hide Send; hide Finish; hide WithoutFirst;
    var write := s.records[w];
    if write.key == NoKey || write.key in s.pending {
      var settled := if write.key == NoKey then s
                     else s.(pending := s.pending - {write.key},
                             replies := Send(s.replies, s.pending[write.key], Failed(cause)));
      if write.key != NoKey { SettleKeeps(s, write.key, cause); }
      if write.status.Queued? { UnqueuedKeeps(settled, w, cause); }
    }
  }

  /** A queued write leaves the queue and is cancelled. */
  lemma UnqueuedKeeps(s: State, w: nat, cause: string)
    requires Inv(s) && w < |s.records| && s.records[w].status.Queued?
    ensures Inv(Finish(s.(queue := WithoutFirst(s.queue, Self, w)), w, Some(cause)))
  {
    hide WritesOk; hide BytesOk; hide ChannelsOk; hide Finish; hide WithoutFirst; hide QueueOk;
    var t := s.(queue := WithoutFirst(s.queue, Self, w));
    WithoutKeeps(s.queue, w, s.records, s.writes);
    LaterQueue(s.output, s.records, s.queue, t.queue, s.writer);
    if t.closed.Some? { NoQueue(w); }
    FinishKeeps(t, w, Some(cause));
    FinishWriter(t, w, Some(cause));
  }

  lemma FinishWriter(s: State, w: nat, err: Option<string>)
    requires w < |s.records|
    ensures Finish(s, w, err).(writer := s.writer) == Finish(s, w, err)
  {
  }

  lemma NoQueue(w: nat)
    ensures WithoutFirst<nat, nat>([], Self, w) == []
  {
  }

  lemma LaterQueue(output: seq<(nat, seq<byte>)>, records: seq<Write>, queue: seq<nat>, rest: seq<nat>, writer: Writer)
    requires OutputOk(output, records, queue, writer) && WriterOk(writer, records, queue, output)
    requires rest != [] ==> queue != [] && queue[0] <= rest[0]
    ensures OutputOk(output, records, rest, writer) && WriterOk(writer, records, rest, output)
  {
  }

  lemma CloseKeepsWrites(s: State, cause: string)
    requires WritesOk(s.records, s.writes, s.replies.Keys) && s.closed.None?
    ensures WritesOk(Close(s, cause).records, {}, s.replies.Keys)
  {
    assert [] + [Some(cause)] == [Some(cause)];
  }

  lemma CloseKeepsChannels(s: State, cause: string)
    requires ChannelsOk(s.nextId, s.callers, s.pending, s.replies, s.hand) && s.closed.None?
    ensures var t := Close(s, cause); t.replies.Keys == s.replies.Keys && ChannelsOk(t.nextId, t.callers, t.pending, t.replies, t.hand)
  {
    var t := Close(s, cause);
    forall c | c in t.replies
      ensures ChannelOk(t.replies[c], NumKey(c) in t.pending, Held(t.hand, c))
    {
      if NumKey(c) in s.pending { assert s.pending[NumKey(c)] == c; }
      assert c in s.pending.Values <==> NumKey(c) in s.pending;
    }
  }

  lemma CloseKeepsOutput(s: State, cause: string)
    requires OutputOk(s.output, s.records, s.queue, s.writer) && WriterOk(s.writer, s.records, s.queue, s.output)
    requires WritesOk(s.records, s.writes, s.replies.Keys) && s.closed.None?
    ensures OutputOk(s.output, Close(s, cause).records, [], s.writer)
    ensures WriterOk(s.writer, Close(s, cause).records, [], s.output)
  {
    var r := Close(s, cause).records;
    assert forall i :: 0 <= i < |r| ==> r[i].packet == s.records[i].packet && r[i].begun == s.records[i].begun;
    assert forall i :: 0 <= i < |r| ==> r[i].status == (if i in s.writes then Cancelled else s.records[i].status);
  }

  lemma CloseKeeps(s: State, cause: string)
    requires Inv(s)
    ensures Inv(Close(s, cause))
    ensures Close(s, cause).closed.Some?
  {
    if s.closed.None? {
      CloseKeepsWrites(s, cause);
      CloseKeepsChannels(s, cause);
      CloseKeepsOutput(s, cause);
      ClosedCharge(Close(s, cause).records, |s.records|);
    }
  }

  lemma AppendKeeps(s: State, write: Write, channels: set<nat>)
    requires WritesOk(s.records, s.writes, s.replies.Keys) && QueueOk(s.queue, s.records, s.writes)
    requires s.replies.Keys <= channels && WriteOk(write, true, channels) && write.status.Queued?
    ensures WritesOk(s.records + [write], s.writes + {|s.records|}, channels)
    ensures QueueOk(s.queue + [|s.records|], s.records + [write], s.writes + {|s.records|})
  {
  }

  lemma AppendKeepsOutput(s: State, write: Write)
    requires OutputOk(s.output, s.records, s.queue, s.writer) && WriterOk(s.writer, s.records, s.queue, s.output)
    requires write.status.Queued? && !write.begun
    ensures OutputOk(s.output, s.records + [write], s.queue + [|s.records|], s.writer)
    ensures WriterOk(s.writer, s.records + [write], s.queue + [|s.records|], s.output)
  {
  }

  lemma AppendKeepsBytes(records: seq<Write>, writes: set<nat>, bytes: int, write: Write)
    requires BytesOk(records, writes, bytes) && forall i :: i in writes ==> i < |records|
    requires |writes| < MAX_WRITES && |write.data| <= MAX_QUEUED_BYTES - bytes
    ensures BytesOk(records + [write], writes + {|records|}, bytes + |write.data|)
  {
    ChargedExt(records, records + [write], writes, writes + {|records|}, |records|);
  }

  /** The parts of enqueue that every accepted write shares. */
  lemma EnqueueKeepsWrites(s: State, packet: seq<byte>, key: Key, channels: set<nat>)
    requires WritesOk(s.records, s.writes, s.replies.Keys) && QueueOk(s.queue, s.records, s.writes)
    requires BytesOk(s.records, s.writes, s.queuedBytes)
    requires OutputOk(s.output, s.records, s.queue, s.writer) && WriterOk(s.writer, s.records, s.queue, s.output)
    requires Admits(s, packet, false, false) && s.replies.Keys <= channels
    requires key == NoKey || (key.NumKey? && key.id in channels)
    ensures var write := Write(packet, packet, key, Queued, false, []); var w := |s.records|;
      && WritesOk(s.records + [write], s.writes + {w}, channels)
      && BytesOk(s.records + [write], s.writes + {w}, s.queuedBytes + |packet|)
      && QueueOk(s.queue + [w], s.records + [write], s.writes + {w})
      && OutputOk(s.output, s.records + [write], s.queue + [w], s.writer)
      && WriterOk(s.writer, s.records + [write], s.queue + [w], s.output)
  {
    var write := Write(packet, packet, key, Queued, false, []);
    AppendKeeps(s, write, channels);
    AppendKeepsOutput(s, write);
    AppendKeepsBytes(s.records, s.writes, s.queuedBytes, write);
  }

  lemma NotifyKeeps(s: State, packet: seq<byte>, late: bool)
    requires Inv(s)
    ensures Inv(Enqueue(s, packet, NoKey, None, late))
  {
    if Admits(s, packet, false, late) { EnqueueKeepsWrites(s, packet, NoKey, s.replies.Keys); }
  }

  lemma RequestKeeps(s: State, packet: seq<byte>, c: nat, late: bool)
    requires Inv(s) && 0 < c <= s.nextId && c !in s.callers && c !in s.replies
    ensures Inv(Enqueue(s, packet, NumKey(c), Some(c), late))
  {
    if Admits(s, packet, true, late) {
      var t := Enqueue(s, packet, NumKey(c), Some(c), late);
      EnqueueKeepsChannels(s.nextId, s.callers, s.pending, s.replies, s.hand, c);
      EnqueueKeepsWrites(s, packet, NumKey(c), t.replies.Keys);
    }
  }

  lemma EnqueueKeepsChannels(nextId: nat, callers: set<nat>, pending: map<Key, nat>,
                             replies: map<nat, seq<Reply>>, hand: Option<(nat, Reply)>, c: nat)
    requires ChannelsOk(nextId, callers, pending, replies, hand)
    requires 0 < c <= nextId && c !in callers && c !in replies && |pending| < MAX_WRITES
    ensures ChannelsOk(nextId, callers, pending[NumKey(c) := c], replies[c := []], hand)
  {
    PendingGrows(pending, NumKey(c), c);
  }

  lemma PendingGrows(pending: map<Key, nat>, k: Key, c: nat)
    ensures |pending[k := c]| <= |pending| + 1
  {
    assert pending[k := c].Keys == pending.Keys + {k};
  }

  lemma PopKeepsOutput(s: State, late: bool)
    requires QueueOk(s.queue, s.records, s.writes) && s.queue != [] && s.writer == Waiting
    requires OutputOk(s.output, s.records, s.queue, s.writer) && WriterOk(s.writer, s.records, s.queue, s.output)
    requires s.records[s.queue[0]].data == s.records[s.queue[0]].packet && !s.records[s.queue[0]].begun
    ensures var t := Popped(s, late);
      OutputOk(t.output, t.records, t.queue, t.writer) && WriterOk(t.writer, t.records, t.queue, t.output)
  {
  }

  lemma PopKeeps(s: State, late: bool)
    requires Inv(s) && s.writer == Waiting && s.queue != [] && s.closed.None?
    ensures s.queue[0] < |s.records| && Inv(Popped(s, late))
  {
    var w := s.queue[0];
    var t := Popped(s, late);
    assert w !in s.queue[1..];
    assert WriteOk(s.records[w], w in s.writes, s.replies.Keys);
    PopKeepsOutput(s, late);
    if !late {
      ReplaceKeeps(s.records, s.writes, s.writes, s.queue[1..], s.replies.Keys, w, t.records[w]);
      ChargedExt(s.records, t.records, s.writes, t.writes, |s.records|);
    }
  }

  lemma OutputKeeps(s: State, err: Option<string>)
    requires Inv(s) && s.writer.Sending?
    ensures Inv(Step(s, Output(err)))
  {
    SendingKeepsOutput(s.output, s.records, s.queue, s.writer, Step(s, Output(err)).writer);
  }

  lemma InOutputSnoc(output: seq<(nat, seq<byte>)>, e: (nat, seq<byte>), i: nat)
    ensures InOutput(output + [e], i) <==> InOutput(output, i) || e.0 == i
  {
    assert (output + [e])[|output|].0 == e.0;
    if InOutput(output, i) {
      var k :| 0 <= k < |output| && output[k].0 == i;
      assert (output + [e])[k].0 == i;
    }
  }

  lemma SendingKeepsOutput(output: seq<(nat, seq<byte>)>, records: seq<Write>, queue: seq<nat>, writer: Writer, next: Writer)
    requires writer.Sending? && (next == Sent(writer.w) || (next.Broken? && next.w == writer.w))
    requires OutputOk(output, records, queue, writer) && WriterOk(writer, records, queue, output)
    ensures OutputOk(output + [(writer.w, writer.data)], records, queue, next)
    ensures WriterOk(next, records, queue, output + [(writer.w, writer.data)])
  {
    forall i: nat | i < |records|
      ensures records[i].begun <==> InOutput(output + [(writer.w, writer.data)], i) || IsSending(next, i)
    {
      InOutputSnoc(output, (writer.w, writer.data), i);
      assert records[i].begun <==> InOutput(output, i) || IsSending(writer, i);
    }
  }

  lemma DeliverKeeps(s: State)
    requires Inv(s) && s.hand.Some?
    ensures Inv(Step(s, Deliver))
  {
    assert Step(s, Deliver).replies.Keys == s.replies.Keys;
  }

  lemma ResponseKeeps(s: State, key: Key, reply: Reply)
    requires Inv(s) && s.hand.None?
    ensures Inv(Step(s, Response(key, reply)))
  {
    if key in s.pending {
      assert (s.pending - {key}).Keys == s.pending.Keys - {key};
    }
  }

  lemma PopStepKeeps(s: State, late: bool)
    requires Inv(s) && Enabled(s, Pop(late))
    ensures Inv(Step(s, Pop(late)))
  {
    if s.closed.None? { PopKeeps(s, late); }
  }

  lemma WriterExpireKeeps(s: State, cause: string)
    requires Inv(s) && s.writer.Late? && s.writer.w < |s.records|
    ensures Inv(Step(s, WriterExpire(cause)))
  {
    ExpireKeeps(s, s.writer.w, cause);
    var t := Expire(s, s.writer.w, cause);
    LateToWaiting(t.writer, t.records, t.queue, t.output);
  }

  lemma LateToWaiting(writer: Writer, records: seq<Write>, queue: seq<nat>, output: seq<(nat, seq<byte>)>)
    requires writer.Late? && OutputOk(output, records, queue, writer) && WriterOk(writer, records, queue, output)
    ensures OutputOk(output, records, queue, Waiting) && WriterOk(Waiting, records, queue, output)
  {
  }

  lemma WriterDoneKeeps(s: State)
    requires Inv(s) && Enabled(s, WriterDone)
    ensures Inv(Step(s, WriterDone))
  {
    if s.writer.Broken? { CloseKeeps(s, s.writer.cause); } else { FinishKeeps(s, s.writer.w, None); }
  }

  /** The invariant is inductive. */
  lemma StepKeeps(s: State, a: Action)
    requires Inv(s) && Enabled(s, a)
    ensures Inv(Step(s, a))
  {
    hide WritesOk; hide BytesOk; hide QueueOk; hide OutputOk; hide WriterOk; hide Enqueue; hide Expire; hide Close; hide Finish;
    match a
    case Draw =>
    case Request(id, packet, late) =>
      RequestKeeps(s.(callers := s.callers - {id}), packet, id, late);
    case Notify(packet, late) => NotifyKeeps(s, packet, late);
    case Timeout(w, cause) => ExpireKeeps(s, w, cause);
    case Pop(late) => PopStepKeeps(s, late);
    case WriterExpire(cause) => WriterExpireKeeps(s, cause);
    case Output(err) => OutputKeeps(s, err);
    case WriterDone => WriterDoneKeeps(s);
    case Response(key, reply) => ResponseKeeps(s, key, reply);
    case Deliver => DeliverKeeps(s);
    case CloseAll(cause) => CloseKeeps(s, cause);
  }

  lemma NextKeeps(s: State, a: Action)
    requires Inv(s)
    ensures Inv(Next(s, a))
  {
    if Enabled(s, a) { StepKeeps(s, a); }
  }

  lemma RunSnoc(s: State, actions: seq<Action>, more: seq<Action>)
    requires more != []
    ensures Run(s, actions + more) == Next(Run(s, actions + more[..|more| - 1]), more[|more| - 1])
  {
    var all := actions + more;
    assert all[..|all| - 1] == actions + more[..|more| - 1];
  }

  /** Every interleaving keeps it. */
  lemma {:induction false} Reachable(actions: seq<Action>)
    ensures Inv(Run(Initial, actions))
    decreases |actions|
  {
    if actions != [] {
      Reachable(actions[..|actions| - 1]);
      NextKeeps(Run(Initial, actions[..|actions| - 1]), actions[|actions| - 1]);
    }
  }
}

/** What the transport promises its callers, over every interleaving. */
module RpcSafety {
  import opened Common
  import opened RpcState
  import opened RpcInvariant

  /** t comes after s: settled writes, sent replies, the output and a close are all permanent. */
  ghost predicate Later(s: State, t: State) {
    && |s.records| <= |t.records|
    && (forall i :: 0 <= i < |s.records| ==> WriteLater(s.records[i], t.records[i]))
    && (forall c :: c in s.replies ==> c in t.replies && s.replies[c] <= t.replies[c])
    && s.output <= t.output
    && (s.closed.Some? ==> t.closed == s.closed)
  }

  ghost predicate WriteLater(a: Write, b: Write) {
    && a.packet == b.packet && a.key == b.key && (a.begun ==> b.begun)
    && a.results <= b.results
    && (a.status.Written? || a.status.Cancelled? ==> a == b)
  }

  lemma FinishLater(s: State, w: nat, err: Option<string>)
    requires Inv(s) && w < |s.records|
    ensures Later(s, Finish(s, w, err))
  {
  }

  lemma ExpireLater(s: State, w: nat, cause: string)
    requires Inv(s) && w < |s.records|
    ensures Later(s, Expire(s, w, cause))
  {
  }

  lemma CloseLater(s: State, cause: string)
    requires Inv(s)
    ensures Later(s, Close(s, cause))
  {
  }

  lemma PopLater(s: State, late: bool)
    requires Inv(s) && Enabled(s, Pop(late))
    ensures Later(s, Step(s, Pop(late)))
  {
  }

  lemma EnqueueLater(s: State, packet: seq<byte>, key: Key, channel: Option<nat>, late: bool)
    requires channel.Some? ==> channel.value !in s.replies
    ensures Later(s, Enqueue(s, packet, key, channel, late))
  {
    hide WriteLater;
    var t := Enqueue(s, packet, key, channel, late);
    forall i | 0 <= i < |s.records| ensures WriteLater(s.records[i], t.records[i]) {
      assert t.records[i] == s.records[i];
      SameWrite(s.records[i]);
    }
  }

  lemma SameWrite(write: Write)
    ensures WriteLater(write, write)
  {
  }

  lemma WriterDoneLater(s: State)
    requires Inv(s) && Enabled(s, WriterDone)
    ensures Later(s, Step(s, WriterDone))
  {
    if s.writer.Broken? { CloseLater(s, s.writer.cause); } else { FinishLater(s, s.writer.w, None); }
  }

  lemma QuietLater(s: State, a: Action)
    requires Inv(s) && Enabled(s, a) && (a.Draw? || a.Output? || a.Response? || a.Deliver?)
    ensures Later(s, Step(s, a))
  {
    assert Step(s, a).records == s.records;
    assert forall i :: 0 <= i < |s.records| ==> WriteLater(s.records[i], s.records[i]);
  }

  lemma WriterExpireLater(s: State, cause: string)
    requires Inv(s) && Enabled(s, WriterExpire(cause))
    ensures Later(s, Step(s, WriterExpire(cause)))
  {
    hide Expire;
    ExpireLater(s, s.writer.w, cause);
  }

  lemma RequestLater(s: State, id: nat, packet: seq<byte>, late: bool)
    requires Inv(s) && id in s.callers
    ensures Later(s, Step(s, Request(id, packet, late)))
  {
    hide Enqueue;
    EnqueueLater(s.(callers := s.callers - {id}), packet, NumKey(id), Some(id), late);
  }

  lemma NextLater(s: State, a: Action)
    requires Inv(s)
    ensures Later(s, Next(s, a))
  {
    hide Inv; hide Later; hide Expire; hide Enqueue; hide Close;
    if !Enabled(s, a) {
      LaterSame(s);
    } else {
      match a
      case Request(id, packet, late) => RequestLater(s, id, packet, late);
      case Notify(packet, late) => EnqueueLater(s, packet, NoKey, None, late);
      case Timeout(w, cause) => ExpireLater(s, w, cause);
      case Pop(late) => PopLater(s, late);
      case WriterExpire(cause) => WriterExpireLater(s, cause);
      case WriterDone => WriterDoneLater(s);
      case CloseAll(cause) => CloseLater(s, cause);
      case _ => QuietLater(s, a);
    }
  }

  lemma LaterSame(s: State)
    ensures Later(s, s)
  {
  }

  lemma LaterTransitive(s: State, t: State, u: State)
    requires Later(s, t) && Later(t, u)
    ensures Later(s, u)
  {
    forall i | 0 <= i < |s.records| ensures WriteLater(s.records[i], u.records[i]) {
      assert WriteLater(s.records[i], t.records[i]) && WriteLater(t.records[i], u.records[i]);
    }
  }

  lemma {:induction false} RunLater(actions: seq<Action>, more: seq<Action>)
    ensures Later(Run(Initial, actions), Run(Initial, actions + more))
    decreases |more|
  {
    if more == [] {
      assert actions + more == actions;
    } else {
      var shorter := more[..|more| - 1];
      RunLater(actions, shorter);
      RunSnoc(Initial, actions, more);
      Reachable(actions + shorter);
      NextLater(Run(Initial, actions + shorter), more[|more| - 1]);
      LaterTransitive(Run(Initial, actions), Run(Initial, actions + shorter), Run(Initial, actions + more));
    }
  }

  /** Each request's one-slot channel is sent to at most once, so no sender ever blocks, and it
      has its reply as soon as the key left `pending` and the reader let go of it. */
  lemma ExactlyOneReply(actions: seq<Action>, c: nat)
    requires c in Run(Initial, actions).replies
    ensures var s := Run(Initial, actions);
      && |s.replies[c]| <= 1
      && (NumKey(c) !in s.pending && !Held(s.hand, c) <==> |s.replies[c]| == 1)
      && (NumKey(c) in s.pending ==> s.pending[NumKey(c)] == c)
      && (Held(s.hand, c) ==> s.replies[c] == [] && |Step(s, Deliver).replies[c]| == 1)
  {
    Reachable(actions);
  }

  /** After its own expiry a call finds a reply, at once or when the reader sends the one it already
      took; no later step sends another. */
  lemma ExpiredCallIsAnswered(actions: seq<Action>, w: nat, cause: string, more: seq<Action>)
    requires w < |Run(Initial, actions).records| && Run(Initial, actions).records[w].key.NumKey?
    ensures var c := Run(Initial, actions).records[w].key.id;
      var s := Run(Initial, actions + [Timeout(w, cause)] + more);
      && c in s.replies && NumKey(c) !in s.pending
      && (Held(s.hand, c) || |s.replies[c]| == 1)
  {
    var s := Run(Initial, actions);
    Reachable(actions);
    var c := s.records[w].key.id;
    var a := actions + [Timeout(w, cause)];
    RunSnoc(Initial, actions, [Timeout(w, cause)]);
    assert actions + [] == actions;
    assert WriteOk(s.records[w], w in s.writes, s.replies.Keys);
    GoneStaysGone(a, more, c);
    Reachable(a + more);
  }

  /** A settled key never becomes pending again. */
  lemma NextKeepsGone(s: State, a: Action, c: nat)
    requires ChannelsOk(s.nextId, s.callers, s.pending, s.replies, s.hand)
    requires c in s.replies && NumKey(c) !in s.pending
    ensures c in Next(s, a).replies && NumKey(c) !in Next(s, a).pending
  {
    if Enabled(s, a) {
      match a
      case Timeout(w, cause) => ExpireKeepsGone(s, w, cause, c);
      case WriterExpire(cause) => ExpireKeepsGone(s, s.writer.w, cause, c);
      case WriterDone =>
        if s.writer.Broken? { CloseKeepsGone(s, s.writer.cause, c); }
      case CloseAll(cause) => CloseKeepsGone(s, cause, c);
      case _ =>
    }
  }

  lemma ExpireKeepsGone(s: State, w: nat, cause: string, c: nat)
    requires w < |s.records| && c in s.replies && NumKey(c) !in s.pending
    ensures c in Expire(s, w, cause).replies && NumKey(c) !in Expire(s, w, cause).pending
  {
  }

  lemma CloseKeepsGone(s: State, cause: string, c: nat)
    requires c in s.replies && NumKey(c) !in s.pending
    ensures c in Close(s, cause).replies && NumKey(c) !in Close(s, cause).pending
  {
  }

  lemma {:induction false} GoneStaysGone(actions: seq<Action>, more: seq<Action>, c: nat)
    requires var s := Run(Initial, actions); c in s.replies && NumKey(c) !in s.pending
    ensures var s := Run(Initial, actions + more); c in s.replies && NumKey(c) !in s.pending
    decreases |more|
  {
    if more == [] {
      assert actions + more == actions;
    } else {
      var shorter := more[..|more| - 1];
      GoneStaysGone(actions, shorter, c);
      RunSnoc(Initial, actions, more);
      Reachable(actions + shorter);
      NextKeepsGone(Run(Initial, actions + shorter), more[|more| - 1], c);
    }
  }

  /** A sender that times out always finds its result. Expire and the close that follows it for a write under
      way are two critical sections: whatever happens between them, a queued write has its one result at once,
      and after the close every write has. */
  lemma TimedOutSendReturns(actions: seq<Action>, w: nat, cause: string, more: seq<Action>)
    requires var s := Run(Initial, actions); w < |s.records| && s.records[w].key == NoKey
    ensures var s, t := Run(Initial, actions), Run(Initial, actions + [Timeout(w, cause)] + more);
      && w < |t.records|
      && (!s.records[w].status.Writing? ==> |t.records[w].results| == 1 && w !in t.writes)
      && |Next(t, CloseAll(cause)).records[w].results| == 1 && w !in Next(t, CloseAll(cause)).writes
  {
    hide Inv; hide Later; hide Close; hide Expire;
    var timed := actions + [Timeout(w, cause)];
    var s, e, t := Run(Initial, actions), Run(Initial, timed), Run(Initial, timed + more);
    RunSnoc(Initial, actions, [Timeout(w, cause)]);
    assert actions + [] == actions && [Timeout(w, cause)][..0] == [];
    assert e == Next(s, Timeout(w, cause));
    Reachable(actions);
    Reachable(timed);
    ExpiredNotice(s, w, cause);
    RunLater(timed, more);
    Reachable(timed + more);
    ResultStays(e, t, w);
    NextKeeps(t, CloseAll(cause));
    ClosedResult(t, w, cause);
  }

  lemma ExpiredNotice(s: State, w: nat, cause: string)
    requires Inv(s) && w < |s.records| && s.records[w].key == NoKey
    ensures w < |Expire(s, w, cause).records|
    ensures !s.records[w].status.Writing? ==> |Expire(s, w, cause).records[w].results| == 1
  {
    assert WriteOk(s.records[w], w in s.writes, s.replies.Keys);
    assert [] + [Some(cause)] == [Some(cause)];
  }

  lemma ResultStays(e: State, t: State, w: nat)
    requires Inv(e) && Inv(t) && Later(e, t) && w < |e.records|
    ensures w < |t.records| && (|e.records[w].results| == 1 ==> |t.records[w].results| == 1 && w !in t.writes)
  {
    assert WriteOk(e.records[w], w in e.writes, e.replies.Keys) && WriteOk(t.records[w], w in t.writes, t.replies.Keys);
    assert WriteLater(e.records[w], t.records[w]);
  }

  lemma ClosedResult(t: State, w: nat, cause: string)
    requires w < |t.records| && Inv(Next(t, CloseAll(cause)))
    ensures |Next(t, CloseAll(cause)).records[w].results| == 1 && w !in Next(t, CloseAll(cause)).writes
  {
    var after := Next(t, CloseAll(cause));
    assert WriteOk(after.records[w], w in after.writes, after.replies.Keys);
  }

  /** Byte accounting and the three bounds. */
  lemma Bounded(actions: seq<Action>)
    ensures var s := Run(Initial, actions);
      && s.queuedBytes == Charged(s.records, s.writes, |s.records|) <= MAX_QUEUED_BYTES
      && |s.writes| <= MAX_WRITES && |s.pending| <= MAX_WRITES
      && (forall i, j :: 0 <= i < j < |s.queue| ==> s.queue[i] != s.queue[j])
      && (forall i :: 0 <= i < |s.queue| ==>
            s.queue[i] in s.writes && s.queue[i] < |s.records| && s.records[s.queue[i]].status.Queued?)
  {
    Reachable(actions);
  }

  /** In every run the output is whole packets in enqueue order, none of them twice; a write
      reported as written was sent; and one cancelled before the writer began is never sent. */
  lemma SentOnceInOrder(actions: seq<Action>, more: seq<Action>, w: nat)
    requires w < |Run(Initial, actions).records|
    ensures var s := Run(Initial, actions); var t := Run(Initial, actions + more);
      && (forall j, k :: 0 <= j < k < |t.output| ==> t.output[j].0 < t.output[k].0)
      && (forall k :: 0 <= k < |t.output| ==>
            t.output[k].0 < |t.records| && t.output[k].1 == t.records[t.output[k].0].packet)
      && s.output <= t.output
      && (s.records[w].results == [None] ==> InOutput(s.output, w))
      && (s.records[w].status.Cancelled? && !s.records[w].begun ==> !InOutput(t.output, w))
  {
    RunLater(actions, more);
    Reachable(actions);
    Reachable(actions + more);
    var s, t := Run(Initial, actions), Run(Initial, actions + more);
    assert WriteLater(s.records[w], t.records[w]);
    assert WriteOk(s.records[w], w in s.writes, s.replies.Keys);
  }

  /** A write popped after its deadline stays charged in `writes` exactly when it is a request
      whose response or close already took its key: expire returns before finishing it. */
  lemma LateWriteLeak(actions: seq<Action>, cause: string)
    requires Run(Initial, actions).writer.Late?
    ensures var s := Run(Initial, actions); var w := s.writer.w;
      && w < |s.records|
      && (w in Step(s, WriterExpire(cause)).writes <==>
            w in s.writes && s.records[w].key != NoKey && s.records[w].key !in s.pending)
  {
    var s := Run(Initial, actions);
    Reachable(actions);
    assert WriteOk(s.records[s.writer.w], s.writer.w in s.writes, s.replies.Keys);
  }

  /** Such a run: the response arrives while the request is still queued. */
  lemma LateWriteLeakExists() returns (actions: seq<Action>)
    ensures var s := Run(Initial, actions);
      s.queue == [] && s.writer == Waiting && s.closed.None? && 0 in s.writes && s.pending == map[]
  {
    actions := [];
    DrawnAndQueued();
    actions := RunTwo(actions, Initial, Draw, Request(1, [123], false));
    ResponseTaken();
    actions := RunTwo(actions, Charge1(), Response(NumKey(1), Value("")), Deliver);
    LatePop();
    actions := RunTwo(actions, Charge2(), Pop(true), WriterExpire("late"));
  }

  lemma DrawnAndQueued()
    ensures Charge1() == Next(Next(Initial, Draw), Request(1, [123], false))
  {
    assert {1} - {1} == {};
  }

  lemma ResponseTaken()
    ensures Charge2() == Next(Next(Charge1(), Response(NumKey(1), Value(""))), Deliver)
  {
    assert map[NumKey(1) := 1] - {NumKey(1)} == map[];
    assert [] + [Value("")] == [Value("")];
  }

  lemma LatePop()
    ensures Next(Next(Charge2(), Pop(true)), WriterExpire("late")) == Charge2().(queue := [])
  {
  }

  /** One request queued, and the same after its early response. */
  ghost function Charge1(): State {
    State(1, {}, None, map[NumKey(1) := 1], [Write([123], [123], NumKey(1), Queued, false, [])],
          {0}, [0], 1, map[1 := []], None, Waiting, [])
  }

  ghost function Charge2(): State {
    Charge1().(pending := map[], replies := map[1 := [Value("")]])
  }

  lemma RunTwo(actions: seq<Action>, s: State, a: Action, b: Action) returns (longer: seq<Action>)
    requires Run(Initial, actions) == s
    ensures Run(Initial, longer) == Next(Next(s, a), b)
  {
    longer := actions + [a, b];
    RunSnoc(Initial, actions, [a, b]);
    RunSnoc(Initial, actions, [a]);
    assert [a, b][..1] == [a] && actions + [] == actions;
  }
}

/** Which reply, which result and which bytes: everything that is sent, traced to the action it comes from. */
module RpcOrigins {
  import opened Common
  import opened Search
  import opened RpcState
  import opened RpcInvariant
  import opened RpcSafety

  /** The reply that this action settles channel c with: a response with its result, anything else with its cause. */
  function Settles(s: State, a: Action, c: nat): Option<Reply> {
    if NumKey(c) !in s.pending then None
    else
      match a
      case Response(key, reply) => if key == NumKey(c) && s.hand.None? then Some(reply) else None
      case Timeout(w, cause) => if w < |s.records| && s.records[w].key == NumKey(c) then Some(Failed(cause)) else None
      case WriterExpire(cause) =>
        if s.writer.Late? && s.writer.w < |s.records| && s.records[s.writer.w].key == NumKey(c) then Some(Failed(cause)) else None
      case WriterDone => if s.writer.Broken? then Some(Failed(s.writer.cause)) else None
      case CloseAll(cause) => Some(Failed(cause))
      case _ => None
  }

  /** The reply is on the channel, or on its way in the reader's hand. */
  predicate Carries(s: State, c: nat, r: Reply) {
    (c in s.replies && s.replies[c] == [r]) || s.hand == Some((c, r))
  }

  lemma ResponseCarries(s: State, a: Action, c: nat, r: Reply)
    requires ChannelsOk(s.nextId, s.callers, s.pending, s.replies, s.hand) && (a.Response? || a.Deliver? || a.Draw?)
    ensures Carries(Next(s, a), c, r) <==> Carries(s, c, r) || Settles(s, a, c) == Some(r)
  {
    assert forall x: Reply :: [] + [x] == [x];
  }

  lemma EnqueueCarries(s: State, a: Action, c: nat, r: Reply)
    requires ChannelsOk(s.nextId, s.callers, s.pending, s.replies, s.hand) && (a.Request? || a.Notify?)
    ensures Carries(Next(s, a), c, r) <==> Carries(s, c, r) || Settles(s, a, c) == Some(r)
  {
    hide Appended; hide Admits;
    if a.Request? {
      var t := s.(callers := s.callers - {a.id});
      AppendedRest(t, a.packet, NumKey(a.id));
    } else {
      AppendedRest(s, a.packet, NoKey);
    }
  }

  lemma AppendedRest(s: State, packet: seq<byte>, key: Key)
    ensures Appended(s, packet, key).replies == s.replies && Appended(s, packet, key).hand == s.hand
  {
  }

  lemma ExpireCarries(s: State, w: nat, cause: string, c: nat, r: Reply)
    requires ChannelsOk(s.nextId, s.callers, s.pending, s.replies, s.hand) && w < |s.records|
    ensures Carries(Expire(s, w, cause), c, r) <==> Carries(s, c, r) || Settles(s, Timeout(w, cause), c) == Some(r)
  {
    hide WithoutFirst;
    assert forall x: Reply :: [] + [x] == [x];
  }

  lemma CloseCarries(s: State, cause: string, c: nat, r: Reply)
    requires ChannelsOk(s.nextId, s.callers, s.pending, s.replies, s.hand) && ClosedOk(s)
    ensures Carries(Close(s, cause), c, r) <==> Carries(s, c, r) || Settles(s, CloseAll(cause), c) == Some(r)
  {
    assert [] + [Failed(cause)] == [Failed(cause)];
    if s.closed.None? && c in s.replies {
      if NumKey(c) in s.pending { assert s.pending[NumKey(c)] == c && c in s.pending.Values; }
      if c in s.pending.Values {
        var k :| k in s.pending && s.pending[k] == c;
        assert k == NumKey(c);
      }
    }
  }

  lemma SameCarries(s: State, t: State, c: nat, r: Reply)
    requires s.replies == t.replies && s.hand == t.hand
    ensures Carries(t, c, r) <==> Carries(s, c, r)
  {
  }

  lemma NextCarries(s: State, a: Action, c: nat, r: Reply)
    requires Inv(s)
    ensures Carries(Next(s, a), c, r) <==> Carries(s, c, r) || Settles(s, a, c) == Some(r)
  {
    hide WritesOk; hide BytesOk; hide QueueOk; hide OutputOk; hide WriterOk; hide Enqueue; hide Expire; hide Close; hide Carries;
    match a
    case Request(_, _, _) => EnqueueCarries(s, a, c, r);
    case Notify(_, _) => EnqueueCarries(s, a, c, r);
    case Timeout(w, cause) => if w < |s.records| { ExpireCarries(s, w, cause, c, r); }
    case Pop(late) => SameCarries(s, Next(s, a), c, r);
    case Output(_) => SameCarries(s, Next(s, a), c, r);
    case WriterExpire(cause) =>
      if Enabled(s, a) {
        ExpireCarries(s, s.writer.w, cause, c, r);
        SameCarries(Expire(s, s.writer.w, cause), Next(s, a), c, r);
      }
    case WriterDone =>
      if Enabled(s, a) {
        if s.writer.Broken? {
          CloseCarries(s, s.writer.cause, c, r);
          SameCarries(Close(s, s.writer.cause), Next(s, a), c, r);
        } else {
          SameCarries(s, Next(s, a), c, r);
        }
      }
    case CloseAll(cause) => CloseCarries(s, cause, c, r);
    case _ => ResponseCarries(s, a, c, r);
  }

  /** Some action of the run settled channel c with r. */
  ghost predicate SettledBy(actions: seq<Action>, c: nat, r: Reply) {
    exists k :: 0 <= k < |actions| && Settles(Run(Initial, actions[..k]), actions[k], c) == Some(r)
  }

  lemma SettledThen(actions: seq<Action>, a: Action, c: nat, r: Reply)
    ensures SettledBy(actions + [a], c, r) <==> SettledBy(actions, c, r) || Settles(Run(Initial, actions), a, c) == Some(r)
  {
    hide Run; hide Settles;
    var all := actions + [a];
    assert all[..|actions|] == actions && all[|actions|] == a;
    assert forall k :: 0 <= k < |actions| ==> all[..k] == actions[..k] && all[k] == actions[k];
  }

  lemma NothingCarried(c: nat, r: Reply)
    ensures !Carries(Initial, c, r)
  {
  }

  /** Over every run: a channel has, or is about to get, the reply r exactly if some action settled it with r: the
      response of its own key that the reader received, or the cause of the timeout, close or broken output. */
  lemma {:induction false} ReplyIsOwn(actions: seq<Action>, c: nat, r: Reply)
    ensures Carries(Run(Initial, actions), c, r) <==> SettledBy(actions, c, r)
    decreases |actions|
  {
    hide Next; hide Inv; hide Settles; hide Carries;
    if actions == [] {
      NothingCarried(c, r);
    } else {
      var n := |actions| - 1;
      var before := actions[..n];
      hide SettledBy;
      Reachable(before);
      ReplyIsOwn(before, c, r);
      NextCarries(Run(Initial, before), actions[n], c, r);
      assert actions == before + [actions[n]];
      SettledThen(before, actions[n], c, r);
    }
  }

  /** The cause with which this action closes an open transport. */
  function Closes(s: State, a: Action): Option<string> {
    if s.closed.Some? then None
    else
      match a
      case CloseAll(cause) => Some(cause)
      case WriterDone => if s.writer.Broken? then Some(s.writer.cause) else None
      case _ => None
  }

  lemma NextCloses(s: State, a: Action)
    ensures Next(s, a).closed == if Closes(s, a).Some? then Closes(s, a) else s.closed
  {
    hide Enqueue; hide Expire;
    match a
    case Request(_, packet, late) => EnqueueOpen(s.(callers := s.callers - {a.id}), packet, NumKey(a.id), Some(a.id), late);
    case Notify(packet, late) => EnqueueOpen(s, packet, NoKey, None, late);
    case Timeout(w, cause) => if w < |s.records| { ExpireOpen(s, w, cause); }
    case WriterExpire(cause) => if Enabled(s, a) { ExpireOpen(s, s.writer.w, cause); }
    case _ =>
  }

  lemma EnqueueOpen(s: State, packet: seq<byte>, key: Key, channel: Option<nat>, late: bool)
    ensures Enqueue(s, packet, key, channel, late).closed == s.closed
  {
  }

  lemma ExpireOpen(s: State, w: nat, cause: string)
    requires w < |s.records|
    ensures Expire(s, w, cause).closed == s.closed
  {
  }

  lemma OpenCloses(s: State, a: Action)
    ensures Closes(s, a).Some? ==> s.closed.None?
  {
  }

  /** Some action of the run closed the open transport with this cause. */
  ghost predicate ClosedBy(actions: seq<Action>, cause: string) {
    exists k :: 0 <= k < |actions| && Closes(Run(Initial, actions[..k]), actions[k]) == Some(cause)
  }

  lemma ClosedThen(actions: seq<Action>, a: Action, cause: string)
    ensures ClosedBy(actions + [a], cause) <==> ClosedBy(actions, cause) || Closes(Run(Initial, actions), a) == Some(cause)
  {
    hide Run; hide Closes;
    var all := actions + [a];
    assert all[..|actions|] == actions && all[|actions|] == a;
    assert forall k :: 0 <= k < |actions| ==> all[..k] == actions[..k] && all[k] == actions[k];
  }

  /** Over every run: the transport is closed with a cause exactly if the first action to close it gave that one. */
  lemma {:induction false} ClosedByFirst(actions: seq<Action>, cause: string)
    ensures Run(Initial, actions).closed == Some(cause) <==> ClosedBy(actions, cause)
    decreases |actions|
  {
    if actions != [] {
      var n := |actions| - 1;
      var before := actions[..n];
      OpenCloses(Run(Initial, before), actions[n]);
      hide ClosedBy; hide Next; hide Closes;
      ClosedByFirst(before, cause);
      NextCloses(Run(Initial, before), actions[n]);
      assert actions == before + [actions[n]];
      ClosedThen(before, actions[n], cause);
    }
  }

  /** A requested key is pending exactly until some action settles it, and no two settle it differently. */
  lemma PendingUntilSettled(actions: seq<Action>, c: nat)
    requires c in Run(Initial, actions).replies
    ensures NumKey(c) in Run(Initial, actions).pending <==> forall r :: !SettledBy(actions, c, r)
    ensures forall r, q :: SettledBy(actions, c, r) && SettledBy(actions, c, q) ==> r == q
  {
    hide SettledBy; hide Run;
    var s := Run(Initial, actions);
    Reachable(actions);
    assert ChannelOk(s.replies[c], NumKey(c) in s.pending, Held(s.hand, c));
    forall r ensures Carries(s, c, r) <==> SettledBy(actions, c, r) { ReplyIsOwn(actions, c, r); }
    if NumKey(c) !in s.pending {
      var r := if Held(s.hand, c) then s.hand.value.1 else s.replies[c][0];
      assert Carries(s, c, r);
    }
  }

  /** The cause of a broken output is the error of the output that the writer was sending. */
  lemma {:induction false} BrokenBy(actions: seq<Action>) returns (j: nat)
    requires Run(Initial, actions).writer.Broken?
    ensures j < |actions| && actions[j] == Output(Some(Run(Initial, actions).writer.cause))
    ensures Run(Initial, actions[..j]).writer.Sending? && Run(Initial, actions[..j]).writer.w == Run(Initial, actions).writer.w
    decreases |actions|
  {
    var n := |actions| - 1;
    var before := actions[..n];
    if Run(Initial, before).writer.Broken? {
      BrokenStays(Run(Initial, before), actions[n]);
      j := BrokenBy(before);
      assert before[..j] == actions[..j];
    } else {
      NewlyBroken(Run(Initial, before), actions[n]);
      j := n;
    }
  }

  lemma BrokenStays(s: State, a: Action)
    requires s.writer.Broken?
    ensures Next(s, a).writer == s.writer || Next(s, a).writer.Stopped?
  {
  }

  lemma NewlyBroken(s: State, a: Action)
    requires !s.writer.Broken? && Next(s, a).writer.Broken?
    ensures a.Output? && s.writer.Sending? && a == Output(Some(Next(s, a).writer.cause)) && Next(s, a).writer.w == s.writer.w
  {
  }

  // ----- results of a write -----

  /** The result that this action gives write w. */
  function Finishes(s: State, a: Action, w: nat): Option<Option<string>> {
    if w !in s.writes || w >= |s.records| then None
    else
      var write := s.records[w];
      var expires := write.status.Queued? && (write.key == NoKey || write.key in s.pending);
      match a
      case Timeout(v, cause) => if v == w && expires then Some(Some(cause)) else None
      case WriterExpire(cause) => if s.writer == Late(w) && expires then Some(Some(cause)) else None
      case WriterDone =>
        if s.writer.Broken? then Some(Some(s.writer.cause)) else if s.writer == Sent(w) then Some(None) else None
      case CloseAll(cause) => Some(Some(cause))
      case _ => None
  }

  predicate Resulted(s: State, w: nat, r: Option<string>) { w < |s.records| && s.records[w].results == [r] }

  lemma FinishResult(s: State, v: nat, err: Option<string>, w: nat, r: Option<string>)
    requires WritesOk(s.records, s.writes, s.replies.Keys) && v < |s.records|
    ensures Resulted(Finish(s, v, err), w, r) <==> Resulted(s, w, r) || (v == w && w in s.writes && err == r)
  {
    assert [] + [err] == [err];
    if w < |s.records| { assert WriteOk(s.records[w], w in s.writes, s.replies.Keys); }
  }

  lemma ExpireResult(s: State, v: nat, cause: string, w: nat, r: Option<string>)
    requires WritesOk(s.records, s.writes, s.replies.Keys) && v < |s.records|
    requires ChannelsOk(s.nextId, s.callers, s.pending, s.replies, s.hand)
    ensures Resulted(Expire(s, v, cause), w, r) <==> Resulted(s, w, r) || Finishes(s, Timeout(v, cause), w) == Some(r)
  {
    hide WithoutFirst;
    assert [] + [Some(cause)] == [Some(cause)];
    if w < |s.records| { assert WriteOk(s.records[w], w in s.writes, s.replies.Keys); }
  }

  lemma CloseResult(s: State, cause: string, w: nat, r: Option<string>)
    requires WritesOk(s.records, s.writes, s.replies.Keys) && ClosedOk(s)
    ensures Resulted(Close(s, cause), w, r) <==> Resulted(s, w, r) || Finishes(s, CloseAll(cause), w) == Some(r)
  {
    assert [] + [Some(cause)] == [Some(cause)];
    if w < |s.records| { assert WriteOk(s.records[w], w in s.writes, s.replies.Keys); }
  }

  lemma EnqueueResult(s: State, packet: seq<byte>, key: Key, channel: Option<nat>, late: bool, w: nat, r: Option<string>)
    ensures Resulted(Enqueue(s, packet, key, channel, late), w, r) <==> Resulted(s, w, r)
  {
  }

  lemma SameResulted(s: State, t: State, w: nat, r: Option<string>)
    requires s.records == t.records
    ensures Resulted(t, w, r) <==> Resulted(s, w, r)
  {
  }

  lemma PoppedResult(s: State, late: bool, w: nat, r: Option<string>)
    requires s.queue != [] && s.queue[0] < |s.records|
    ensures Resulted(Popped(s, late), w, r) <==> Resulted(s, w, r)
  {
  }

  lemma NextResult(s: State, a: Action, w: nat, r: Option<string>)
    requires Inv(s)
    ensures Resulted(Next(s, a), w, r) <==> Resulted(s, w, r) || Finishes(s, a, w) == Some(r)
  {
    hide BytesOk; hide QueueOk; hide OutputOk; hide ChannelsOk; hide WritesOk; hide Enqueue; hide Expire; hide Close; hide Finish; hide Resulted;
    if Enabled(s, a) {
      match a
      case Request(id, packet, late) =>
        EnqueueResult(s.(callers := s.callers - {id}), packet, NumKey(id), Some(id), late, w, r);
        SameResulted(s, s.(callers := s.callers - {id}), w, r);
      case Notify(packet, late) => EnqueueResult(s, packet, NoKey, None, late, w, r);
      case Timeout(v, cause) => ExpireResult(s, v, cause, w, r);
      case WriterExpire(cause) =>
        ExpireResult(s, s.writer.w, cause, w, r);
        SameResulted(Expire(s, s.writer.w, cause), Next(s, a), w, r);
      case WriterDone =>
        if s.writer.Broken? {
          CloseResult(s, s.writer.cause, w, r);
          SameResulted(Close(s, s.writer.cause), Next(s, a), w, r);
        } else {
          FinishResult(s, s.writer.w, None, w, r);
          SameResulted(Finish(s, s.writer.w, None), Next(s, a), w, r);
        }
      case CloseAll(cause) => CloseResult(s, cause, w, r);
      case Pop(late) => if s.closed.None? { PoppedResult(s, late, w, r); } else { SameResulted(s, Next(s, a), w, r); }
      case _ => SameResulted(s, Next(s, a), w, r);
    } else {
      assert Finishes(s, a, w).None? || a.Timeout? || a.WriterExpire? || a.WriterDone?;
      NotEnabledFinishesNothing(s, a, w);
    }
  }

  lemma NotEnabledFinishesNothing(s: State, a: Action, w: nat)
    requires Inv(s) && !Enabled(s, a)
    ensures Finishes(s, a, w).None?
  {
  }

  /** Some action of the run gave write w the result r. */
  ghost predicate FinishedBy(actions: seq<Action>, w: nat, r: Option<string>) {
    exists k :: 0 <= k < |actions| && Finishes(Run(Initial, actions[..k]), actions[k], w) == Some(r)
  }

  lemma FinishedThen(actions: seq<Action>, a: Action, w: nat, r: Option<string>)
    ensures FinishedBy(actions + [a], w, r) <==> FinishedBy(actions, w, r) || Finishes(Run(Initial, actions), a, w) == Some(r)
  {
    hide Run; hide Finishes;
    var all := actions + [a];
    assert all[..|actions|] == actions && all[|actions|] == a;
    assert forall k :: 0 <= k < |actions| ==> all[..k] == actions[..k] && all[k] == actions[k];
  }

  lemma NothingResulted(w: nat, r: Option<string>)
    ensures !Resulted(Initial, w, r)
  {
  }

  /** Over every run: a write has the result r exactly if some action gave it r: no error after the output of its
      own packet, or the cause of its expiry, of a close or of a broken output. */
  lemma {:induction false} ResultIsOwn(actions: seq<Action>, w: nat, r: Option<string>)
    ensures Resulted(Run(Initial, actions), w, r) <==> FinishedBy(actions, w, r)
    decreases |actions|
  {
    hide Next; hide Inv; hide Finishes; hide Resulted;
    if actions == [] {
      NothingResulted(w, r);
    } else {
      var n := |actions| - 1;
      var before := actions[..n];
      hide FinishedBy;
      Reachable(before);
      ResultIsOwn(before, w, r);
      NextResult(Run(Initial, before), actions[n], w, r);
      assert actions == before + [actions[n]];
      FinishedThen(before, actions[n], w, r);
    }
  }

  // ----- bytes -----

  /** The call that became write w. */
  predicate Submits(s: State, a: Action, packet: seq<byte>, key: Key) {
    || (a == Notify(packet, false) && key == NoKey)
    || (key.NumKey? && a == Request(key.id, packet, false) && key.id in s.callers)
  }

  /** Every write carries the bytes and the key of one call, and writes are numbered in the order of their calls. */
  lemma {:induction false} PacketIsOwn(actions: seq<Action>, w: nat) returns (k: nat)
    requires w < |Run(Initial, actions).records|
    ensures k < |actions| && |Run(Initial, actions[..k]).records| == w
    ensures var write := Run(Initial, actions).records[w]; Submits(Run(Initial, actions[..k]), actions[k], write.packet, write.key)
    decreases |actions|
  {
    var n := |actions| - 1;
    var before := actions[..n];
    Reachable(before);
    NextLater(Run(Initial, before), actions[n]);
    if w < |Run(Initial, before).records| {
      k := PacketIsOwn(before, w);
      assert before[..k] == actions[..k];
      assert WriteLater(Run(Initial, before).records[w], Run(Initial, actions).records[w]);
    } else {
      NewWrite(Run(Initial, before), actions[n], w);
      k := n;
    }
  }

  lemma NewWrite(s: State, a: Action, w: nat)
    requires |s.records| <= w < |Next(s, a).records|
    ensures w == |s.records| && Submits(s, a, Next(s, a).records[w].packet, Next(s, a).records[w].key)
  {
  }

  /** A packet popped in time is the next one to reach the output, whatever happens before the output is done. */
  lemma {:induction false} TimelyPopIsSent(actions: seq<Action>, more: seq<Action>, err: Option<string>)
    requires var s := Run(Initial, actions); s.closed.None? && s.writer == Waiting && s.queue != []
    requires forall k :: 0 <= k < |more| ==> !more[k].Output?
    ensures var s := Run(Initial, actions);
      && s.queue[0] < |s.records|
      && Run(Initial, actions + ([Pop(false)] + more + [Output(err)])).output == s.output + [(s.queue[0], s.records[s.queue[0]].packet)]
  {
    var s, popped := Run(Initial, actions), [Pop(false)] + more;
    Reachable(actions);
    var w := s.queue[0];
    assert w in s.writes && WriteOk(s.records[w], true, s.replies.Keys);
    SendingUntilOutput(actions, more);
    RunSnoc(Initial, actions, popped + [Output(err)]);
    assert (popped + [Output(err)])[..|popped|] == popped;
  }

  lemma {:induction false} SendingUntilOutput(actions: seq<Action>, more: seq<Action>)
    requires var s := Run(Initial, actions); s.closed.None? && s.writer == Waiting && s.queue != [] && s.queue[0] < |s.records|
    requires forall k :: 0 <= k < |more| ==> !more[k].Output?
    ensures var s, t := Run(Initial, actions), Run(Initial, actions + ([Pop(false)] + more));
      t.writer == Sending(s.queue[0], s.records[s.queue[0]].data) && t.output == s.output
    decreases |more|
  {
    var all := [Pop(false)] + more;
    RunSnoc(Initial, actions, all);
    if more == [] {
      assert all[..0] == [] && actions + [] == actions;
    } else {
      var shorter := more[..|more| - 1];
      SendingUntilOutput(actions, shorter);
      assert all[..|all| - 1] == [Pop(false)] + shorter;
      SendingStays(Run(Initial, actions + ([Pop(false)] + shorter)), more[|more| - 1]);
    }
  }

  lemma SendingStays(s: State, a: Action)
    requires s.writer.Sending? && !a.Output?
    ensures Next(s, a).writer == s.writer && Next(s, a).output == s.output
  {
  }

  /** A packet popped after its deadline never reaches the output. */
  lemma {:induction false} LatePopIsNotSent(actions: seq<Action>, more: seq<Action>)
    requires var s := Run(Initial, actions); s.closed.None? && s.writer == Waiting && s.queue != []
    ensures !InOutput(Run(Initial, actions + ([Pop(true)] + more)).output, Run(Initial, actions).queue[0])
  {
    var s, all := Run(Initial, actions), [Pop(true)] + more;
    Reachable(actions);
    Reachable(actions + all);
    LateStays(actions, more);
  }

  /** Neither begun nor queued. */
  predicate Passed(s: State, w: nat) { w < |s.records| && !s.records[w].begun && w !in s.queue }

  lemma {:induction false} LateStays(actions: seq<Action>, more: seq<Action>)
    requires var s := Run(Initial, actions); s.closed.None? && s.writer == Waiting && s.queue != []
    ensures Passed(Run(Initial, actions + ([Pop(true)] + more)), Run(Initial, actions).queue[0])
    decreases |more|
  {
    var s, all := Run(Initial, actions), [Pop(true)] + more;
    RunSnoc(Initial, actions, all);
    Reachable(actions);
    if more == [] {
      assert all[..0] == [] && actions + [] == actions;
    } else {
      var shorter := more[..|more| - 1];
      LateStays(actions, shorter);
      assert all[..|all| - 1] == [Pop(true)] + shorter;
      Reachable(actions + ([Pop(true)] + shorter));
      PassedStays(Run(Initial, actions + ([Pop(true)] + shorter)), more[|more| - 1], s.queue[0]);
    }
  }

  lemma ExpirePassed(s: State, v: nat, cause: string, w: nat)
    requires QueueOk(s.queue, s.records, s.writes) && v < |s.records| && Passed(s, w)
    ensures Passed(Expire(s, v, cause), w)
  {
    hide WithoutFirst;
    WithoutSubset(s.queue, v, w);
  }

  lemma OtherPassed(s: State, a: Action, w: nat)
    requires QueueOk(s.queue, s.records, s.writes) && Passed(s, w) && (a.Pop? || a.Output? || a.Response? || a.Deliver? || a.Draw?)
    ensures Passed(Next(s, a), w)
  {
  }

  lemma EnqueuePassed(s: State, packet: seq<byte>, key: Key, channel: Option<nat>, late: bool, w: nat)
    requires Passed(s, w)
    ensures Passed(Enqueue(s, packet, key, channel, late), w)
  {
    hide Admits;
  }

  lemma PassedStays(s: State, a: Action, w: nat)
    requires Inv(s) && Passed(s, w)
    ensures Passed(Next(s, a), w)
  {
    hide WritesOk; hide BytesOk; hide ChannelsOk; hide OutputOk; hide WriterOk; hide QueueOk; hide Expire; hide Enqueue;
    match a
    case Timeout(v, cause) => if v < |s.records| { ExpirePassed(s, v, cause, w); }
    case WriterExpire(cause) => if Enabled(s, a) { ExpirePassed(s, s.writer.w, cause, w); }
    case Request(id, packet, late) => EnqueuePassed(s.(callers := s.callers - {id}), packet, NumKey(id), Some(id), late, w);
    case Notify(packet, late) => EnqueuePassed(s, packet, NoKey, None, late, w);
    case WriterDone =>
    case CloseAll(_) =>
    case _ => OtherPassed(s, a, w);
  }

  lemma WithoutSubset(queue: seq<nat>, v: nat, w: nat)
    requires w !in queue
    ensures w !in WithoutFirst(queue, Self, v)
  {
  }
}

/** The transport as the code has it: one object whose critical sections update its fields. */
module RpcTransport {
  import opened Common
  import opened Search
  import opened RpcState

  class Rpc {
    var nextId: nat
    var callers: set<nat>
    var closed: Option<string>
    var pending: map<Key, nat>
    var records: seq<Write>
    var writes: set<nat>
    var queue: seq<nat>
    var queuedBytes: int
    var replies: map<nat, seq<Reply>>
    var hand: Option<(nat, Reply)>
    var writer: Writer
    var output: seq<(nat, seq<byte>)>

    ghost function Abs(): State
      reads this
    {
      State(nextId, callers, closed, pending, records, writes, queue, queuedBytes, replies, hand, writer, output)
    }

    /** The part of RpcInvariant.Inv the loops below rely on; RpcInvariant.StepKeeps keeps all of it. */
    ghost predicate Valid()
      reads this
    {
      && (forall k :: k in pending ==> k.NumKey? && pending[k] == k.id && k.id in replies)
      && (forall i :: i in writes ==> i < |records|)
    }

    constructor ()
      ensures Abs() == Initial
    {
      nextId, callers, closed, pending, records, writes, queue := 0, {}, None, map[], [], {}, [];
      queuedBytes, replies, hand, writer, output := 0, map[], None, Waiting, [];
    }

    method Enqueue(packet: seq<byte>, key: Key, channel: Option<nat>, late: bool) returns (accepted: bool)
      modifies this
      ensures Abs() == RpcState.Enqueue(old(Abs()), packet, key, channel, late)
      ensures accepted == Admits(old(Abs()), packet, channel.Some?, late)
    {
      hide Appended;
      accepted := closed.None? && !late && |writes| < MAX_WRITES && (channel.None? || |pending| < MAX_WRITES) &&
        |packet| <= MAX_QUEUED_BYTES - queuedBytes;
      if !accepted { return; }
      Append(packet, key);
      if channel.Some? {
        pending := pending[key := channel.value];
        replies := replies[channel.value := []];
      }
    }

    method Append(packet: seq<byte>, key: Key)
      modifies this`records, this`writes, this`queue, this`queuedBytes
      ensures Abs() == Appended(old(Abs()), packet, key)
    {
      writes := writes + {|records|};
      queue := queue + [|records|];
      queuedBytes := queuedBytes + |packet|;
      records := records + [Write(packet, packet, key, Queued, false, [])];
    }

    method FinishWriteLocked(w: nat, err: Option<string>)
      requires w < |records|
      modifies this`writes, this`queuedBytes, this`records
      ensures Abs() == Finish(old(Abs()), w, err)
    {
      if w !in writes { return; }
      writes := writes - {w};
      queuedBytes := queuedBytes - |records[w].data|;
      records := records[w := records[w].(data := [], status := if err.Some? then Cancelled else Written,
                                          results := records[w].results + [err])];
    }

    /** Removes unsent work; the caller closes the transport when the write was under way. */
    method Expire(w: nat, cause: string) returns (wasWriting: bool)
      requires w < |records|
      modifies this
      ensures Abs() == RpcState.Expire(old(Abs()), w, cause)
      ensures wasWriting ==> old(records[w].status.Writing?)
      ensures old(records[w].status.Writing? && (records[w].key == NoKey || records[w].key in pending)) ==> wasWriting
    {
      hide WithoutFirst; hide Finish;
      if records[w].key != NoKey {
        if records[w].key !in pending { return false; }
        replies := Send(replies, pending[records[w].key], Failed(cause));
        pending := pending - {records[w].key};
      }
      wasWriting := records[w].status.Writing?;
      if records[w].status.Queued? {
        Unqueue(w);
        FinishWriteLocked(w, Some(cause));
      }
    }

    /** The loop that takes a write out of the queue. */
    method Unqueue(w: nat)
      modifies this`queue
      ensures queue == WithoutFirst(old(queue), Self, w)
    {
      var i := 0;
      while i < |queue| && queue[i] != w
        invariant 0 <= i <= |queue| && queue == old(queue)
        invariant forall j :: 0 <= j < i ==> queue[j] != w
      {
        i := i + 1;
      }
      FirstIndex(queue, Self, w, i);
      if i < |queue| { queue := queue[..i] + queue[i + 1..]; }
    }

    /** Rejects every pending call and finishes every write; the first cause wins. */
    method CloseWithError(cause: string)
      requires Valid()
      modifies this
      ensures Abs() == Close(old(Abs()), cause)
    {
      if closed.Some? { return; }
      ghost var s := Abs();
      RejectPending(cause);
      closed := Some(cause);
      pending := map[];
      FinishAll(cause);
      queue := [];
      queuedBytes := 0;
      assert records == Close(s, cause).records;
    }

    method RejectPending(cause: string)
      requires Valid()
      modifies this`replies
      ensures replies == map c | c in old(replies) ::
        if c in pending.Values then old(replies)[c] + [Failed(cause)] else old(replies)[c]
    {
      var left := pending.Keys;
      while left != {}
        invariant left <= pending.Keys
        invariant replies.Keys == old(replies).Keys
        invariant forall c :: c in replies ==>
          replies[c] == if NumKey(c) in pending && NumKey(c) !in left then old(replies)[c] + [Failed(cause)] else old(replies)[c]
        decreases left
      {
        var key :| key in left;
        replies := Send(replies, pending[key], Failed(cause));
        left := left - {key};
      }
      assert forall c :: c in replies && NumKey(c) in pending ==> pending[NumKey(c)] in pending.Values;
    }

    method FinishAll(cause: string)
      requires forall i :: i in writes ==> i < |records|
      modifies this`writes, this`queuedBytes, this`records
      ensures writes == {} && |records| == |old(records)|
      ensures forall i :: 0 <= i < |records| ==>
        records[i] == if i in old(writes) then CloseWrite(old(records)[i], cause) else old(records)[i]
    {
      while writes != {}
        invariant writes <= old(writes) && |records| == |old(records)|
        invariant forall i :: 0 <= i < |records| ==>
          records[i] == if i in old(writes) && i !in writes then CloseWrite(old(records)[i], cause) else old(records)[i]
        decreases writes
      {
        var w :| w in writes;
        FinishWriteLocked(w, Some(cause));
      }
    }

    /** One turn of the write loop up to its I/O. */
    method PopWrite(late: bool)
      requires Enabled(Abs(), Pop(late))
      modifies this
      ensures Abs() == Step(old(Abs()), Pop(late))
    {
      if closed.Some? {
        writer := Stopped;
        return;
      }
      var w := queue[0];
      queue := queue[1..];
      if late {
        writer := Late(w);
        return;
      }
      writer := Sending(w, records[w].data);
      records := records[w := records[w].(status := Writing, begun := true)];
    }

    /** dispatch for a response packet, up to its unlock. */
    method TakeResponse(key: Key, reply: Reply) returns (found: bool)
      requires hand.None?
      modifies this`pending, this`hand
      ensures Abs() == Step(old(Abs()), Response(key, reply))
      ensures found == (key in old(pending))
    {
      found := key in pending;
      if found {
        hand := Some((pending[key], reply));
        pending := pending - {key};
      }
    }
  }
}
