/** The recoverable cache of message bodies: least recently used first, bounded in bytes. */
module PayloadCache {
  import opened Common
  import opened Eviction
  import opened Search

  type Id = string

  datatype Message = Message(id: Id, body: string, size: nat)

  /** A revision is a digest of the wire form, taken as injective; a scoped session hashes its own name in. */
  datatype Revision = Digest(message: Message) | ScopedDigest(session: string, revision: Revision)

  const SCOPED_PREFIX := "filo.adapter."

  predicate Scoped(session: string) { SCOPED_PREFIX <= session }

  function RevisionOf(session: string, message: Message): Revision {
    ScopedTo(session, Digest(message))
  }

  function ScopedTo(session: string, revision: Revision): Revision {
    if Scoped(session) then ScopedDigest(session, revision) else revision
  }

  /** Equal revisions, equal bodies. */
  lemma RevisionInjective(session: string, a: Message, b: Message)
    requires RevisionOf(session, a) == RevisionOf(session, b)
    ensures a == b
  {
  }

  datatype Key = Key(session: string, id: Id, revision: Revision)

  datatype Entry = Entry(key: Key, message: Message)

  predicate Exact(e: Entry) {
    e.key.id == e.message.id && e.key.revision == RevisionOf(e.key.session, e.message)
  }

  function Bytes(e: Entry): nat { e.message.size }

  function EntryKey(e: Entry): Key { e.key }

  function Remember(order: seq<Entry>, e: Entry, bound: int): seq<Entry> {
    var rest := Without(order, EntryKey, e.key);
    if e.message.size <= bound then Evict(rest + [e], Bytes, Bound(None, bound)) else rest
  }

  ghost predicate Keyed(order: seq<Entry>) {
    forall i, j :: 0 <= i < j < |order| ==> order[i].key != order[j].key
  }

  /** List and map correspond one to one. */
  ghost predicate Links(entries: map<Key, Entry>, order: seq<Entry>) {
    && Keyed(order)
    && (forall i :: 0 <= i < |order| ==> order[i].key in entries && entries[order[i].key] == order[i])
    && (forall key :: key in entries ==> entries[key].key == key && exists i :: 0 <= i < |order| && order[i] == entries[key])
  }

  // ----- facts about the list -----

  lemma {:induction false} WithoutMembers(order: seq<Entry>, key: Key)
    ensures forall e :: e in Without(order, EntryKey, key) <==> e in order && e.key != key
  {
    if order != [] {
      WithoutMembers(order[1..], key);
      assert forall e :: e in order <==> e == order[0] || e in order[1..];
    }
  }

  lemma {:induction false} WithoutIndex(order: seq<Entry>, i: nat)
    requires Keyed(order) && i < |order|
    ensures Without(order, EntryKey, order[i].key) == order[..i] + order[i + 1..]
  {
    if i == 0 {
      WithoutAbsent(order[1..], EntryKey, order[0].key);
      assert order[..0] + order[1..] == order[1..];
      assert Without(order, EntryKey, order[0].key) == order[1..];
    } else {
      WithoutIndex(order[1..], i - 1);
      assert order[0].key != order[i].key;
      var rest := Without(order[1..], EntryKey, order[i].key);
      assert order[1..][..i - 1] + order[1..][i..] == rest;
      assert [order[0]] + rest == order[..i] + order[i + 1..];
    }
  }

  lemma WithoutAt(order: seq<Entry>, i: nat)
    requires Keyed(order) && i < |order|
    ensures Without(order, EntryKey, order[i].key) == order[..i] + order[i + 1..]
    ensures Total(order, Bytes) == Total(Without(order, EntryKey, order[i].key), Bytes) + order[i].message.size
  {
    WithoutIndex(order, i);
    TotalWithout(order, i, Bytes);
  }

  lemma LinksKeyed(entries: map<Key, Entry>, order: seq<Entry>)
    requires Links(entries, order)
    ensures Keyed(order)
  {
  }

  lemma LinksMeans(entries: map<Key, Entry>, order: seq<Entry>, key: Key)
    requires Links(entries, order)
    ensures key in entries ==> entries[key].key == key && exists i :: 0 <= i < |order| && order[i] == entries[key]
    ensures key !in entries ==> forall i :: 0 <= i < |order| ==> order[i].key != key
  {
  }

  lemma LinksRemoved(entries: map<Key, Entry>, order: seq<Entry>, i: nat)
    requires Links(entries, order) && i < |order|
    ensures Links(entries - {order[i].key}, order[..i] + order[i + 1..])
  {
    var rest, key := order[..i] + order[i + 1..], order[i].key;
    forall k | k in entries && k != key ensures exists j :: 0 <= j < |rest| && rest[j] == entries[k] {
      var j :| 0 <= j < |order| && order[j] == entries[k];
      assert rest[if j < i then j else j - 1] == order[j];
    }
  }

  lemma LinksPushed(entries: map<Key, Entry>, order: seq<Entry>, e: Entry)
    requires Links(entries, order) && e.key !in entries
    ensures Links(entries[e.key := e], order + [e])
  {
    var all, next := order + [e], entries[e.key := e];
    assert all[|order|] == e;
    forall k | k in entries ensures exists j :: 0 <= j < |all| && all[j] == next[k] {
      var j :| 0 <= j < |order| && order[j] == entries[k];
      assert all[j] == order[j];
    }
  }

  /** A body that is cached at all survives the eviction it causes, as the newest entry. */
  lemma NewBodySurvives(order: seq<Entry>, e: Entry, bound: int)
    requires 0 <= e.message.size <= bound
    ensures var r := Remember(order, e, bound); r != [] && r[|r| - 1] == e
  {
    TotalOne(e, Bytes);
    NewestSurvives(Without(order, EntryKey, e.key), e, Bytes, Bound(None, bound));
  }

  // ----- the cache -----

  class ConversationPayloads {
    var entries: map<Key, Entry>
    var order: seq<Entry>
    var bytes: nat
    const maxBytes: int

    /** The byte count is exact. */
    ghost predicate Linked()
      reads this
    {
      Links(entries, order) && bytes == Total(order, Bytes)
    }

    ghost predicate Valid()
      reads this
    {
      Linked() && bytes <= Max(0, maxBytes) && forall i :: 0 <= i < |order| ==> Exact(order[i])
    }

    constructor (bound: int)
      ensures Valid() && order == [] && maxBytes == bound
    {
      entries, order, bytes, maxBytes := map[], [], 0, bound;
    }

    method Unlink(key: Key)
      requires Linked()
      modifies this
      ensures Linked() && order == Without(old(order), EntryKey, key) && key !in entries
    {
      hide Links; hide Without;
      LinksMeans(entries, order, key);
      if key in entries {
        ghost var i :| 0 <= i < |order| && order[i] == entries[key];
        LinksKeyed(entries, order);
        WithoutAt(order, i);
        LinksRemoved(entries, order, i);
        bytes := bytes - entries[key].message.size;
        order := Without(order, EntryKey, key);
        entries := entries - {key};
      } else {
        WithoutAbsent(order, EntryKey, key);
      }
    }

    method PushBack(e: Entry)
      requires Linked() && e.key !in entries
      modifies this
      ensures Linked() && order == old(order) + [e]
    {
      hide Links;
      TotalSnoc(order, e, Bytes);
      LinksPushed(entries, order, e);
      entries := entries[e.key := e];
      order := order + [e];
      bytes := bytes + e.message.size;
    }

    method DropFront()
      requires Linked() && order != []
      modifies this
      ensures Linked() && order == old(order)[1..]
    {
      hide Links;
      var first := order[0];
      LinksRemoved(entries, order, 0);
      assert order[..0] + order[1..] == order[1..];
      TotalWithout(order, 0, Bytes);
      order := order[1..];
      entries := entries - {first.key};
      bytes := bytes - first.message.size;
    }

    /** remember: `node` is the revision the pager has already computed for this message, if it has */
    method Store(session: string, message: Message, node: Option<Revision>) returns (revision: Revision)
      requires Valid() && (node.Some? ==> node.value == Digest(message))
      modifies this
      ensures Valid() && revision == RevisionOf(session, message)
      ensures order == Remember(old(order), Entry(Key(session, message.id, revision), message), maxBytes)
    {
      hide Links;
      revision := if node.Some? then node.value else Digest(message);
      if Scoped(session) { revision := ScopedDigest(session, revision); }
      var e := Entry(Key(session, message.id, revision), message);
      WithoutMembers(order, e.key);
      Unlink(e.key);
      ghost var rest := order;
      assert forall i :: 0 <= i < |order| ==> order[i] in order;
      if message.size <= maxBytes {
        PushBack(e);
        while bytes > maxBytes
          invariant Linked() && Evict(order, Bytes, Bound(None, maxBytes)) == Evict(rest + [e], Bytes, Bound(None, maxBytes))
          invariant forall i :: 0 <= i < |order| ==> Exact(order[i])
          decreases |order|
        {
          DropFront();
        }
      } else {
        assert bytes <= old(bytes) by { WithoutLighter(old(order), e.key); }
      }
    }

    /** take: a hit becomes the newest entry */
    method Take(key: Key) returns (hit: Option<Message>)
      requires Valid()
      modifies this
      ensures Valid()
      ensures hit.None? ==> order == old(order) && forall i :: 0 <= i < |order| ==> order[i].key != key
      ensures hit.Some? ==> hit.value.id == key.id && RevisionOf(key.session, hit.value) == key.revision
      ensures hit.Some? ==> Entry(key, hit.value) in old(order) && order == Without(old(order), EntryKey, key) + [Entry(key, hit.value)]
    {
      hide Links;
      LinksMeans(entries, order, key);
      if key !in entries { return None; }
      var e := entries[key];
      WithoutMembers(order, key);
      ghost var i :| 0 <= i < |order| && order[i] == e;
      LinksKeyed(entries, order);
      WithoutAt(order, i);
      Unlink(key);
      TotalSnoc(order, e, Bytes);
      PushBack(e);
      hit := Some(e.message);
    }
  }

  /** The list after remembering these bodies in turn. */
  function RememberAll(order: seq<Entry>, session: string, messages: seq<Message>, bound: int): seq<Entry>
    decreases |messages|
  {
    if messages == [] then order
    else
      var m := messages[|messages| - 1];
      Remember(RememberAll(order, session, messages[..|messages| - 1], bound),
               Entry(Key(session, m.id, RevisionOf(session, m)), m), bound)
  }

  /** Page: the pager's own nodes, where it gave any, are scoped and handed back. */
  method CachePage(p: ConversationPayloads, session: string, messages: seq<Message>, nodes: seq<Revision>) returns (projected: seq<Revision>)
    requires p.Valid() && |nodes| <= |messages| && forall i :: 0 <= i < |nodes| ==> nodes[i] == Digest(messages[i])
    modifies p
    ensures p.Valid() && p.order == RememberAll(old(p.order), session, messages, p.maxBytes)
    ensures |projected| == |nodes| && forall i :: 0 <= i < |nodes| ==> projected[i] == RevisionOf(session, messages[i])
  {
    hide Remember; hide RevisionOf; hide ScopedTo;
    projected := nodes;
    for index := 0 to |messages|
      invariant p.Valid() && p.order == RememberAll(old(p.order), session, messages[..index], p.maxBytes)
      invariant |projected| == |nodes|
      invariant forall i :: 0 <= i < |nodes| ==> projected[i] == if i < index then RevisionOf(session, messages[i]) else nodes[i]
    {
      assert messages[..index + 1][..index] == messages[..index];
      var node := if index < |projected| then Some(projected[index]) else None;
      var revision := p.Store(session, messages[index], node);
      if index < |projected| { projected := projected[index := revision]; }
    }
    assert messages[..|messages|] == messages;
  }

  /** Topology: the same revisions and the same cache, without the pager's nodes. */
  method CacheTopology(p: ConversationPayloads, session: string, messages: seq<Message>) returns (nodes: seq<Revision>)
    requires p.Valid()
    modifies p
    ensures p.Valid() && p.order == RememberAll(old(p.order), session, messages, p.maxBytes)
    ensures |nodes| == |messages| && forall i :: 0 <= i < |nodes| ==> nodes[i] == RevisionOf(session, messages[i])
  {
    hide Remember; hide RevisionOf; hide ScopedTo;
    nodes := [];
    for index := 0 to |messages|
      invariant p.Valid() && p.order == RememberAll(old(p.order), session, messages[..index], p.maxBytes)
      invariant |nodes| == index && forall i :: 0 <= i < index ==> nodes[i] == RevisionOf(session, messages[i])
    {
      assert messages[..index + 1][..index] == messages[..index];
      var revision := p.Store(session, messages[index], None);
      nodes := nodes + [revision];
    }
    assert messages[..|messages|] == messages;
  }

  /** What other callers do to the cache between two critical sections of one. */
  datatype Op = Stores(session: string, message: Message) | Takes(key: Key)

  method Others(p: ConversationPayloads, ops: seq<Op>)
    requires p.Valid()
    modifies p
    ensures p.Valid() && (ops == [] ==> p.order == old(p.order))
  {
    for i := 0 to |ops|
      invariant p.Valid() && (i == 0 ==> p.order == old(p.order))
    {
      match ops[i]
      case Stores(session, message) => var _ := p.Store(session, message, None);
      case Takes(key) => var _ := p.Take(key);
    }
  }

  lemma {:induction false} WithoutLighter(order: seq<Entry>, key: Key)
    ensures Total(Without(order, EntryKey, key), Bytes) <= Total(order, Bytes)
  {
    if order != [] {
      WithoutLighter(order[1..], key);
      var rest := Without(order[1..], EntryKey, key);
      assert ([order[0]] + rest)[1..] == rest;
      assert [] + rest == rest;
    }
  }
}

/** Loading bodies by identity and revision, from the cache or by reading the history again. */
module PayloadLoad {
  import opened Common
  import opened Search
  import opened PayloadCache

  type Cursor = string

  datatype Page = Page(messages: seq<Message>, next: Option<Cursor>)

  /** What reading each cursor gives; a cursor that is not there is a failed read. */
  type Source = map<Cursor, Page>

  /** `revision` is None when the text is no revision at all. */
  datatype Request = Request(id: Id, revision: Option<Revision>)

  const MAX_REQUESTS := 3
  const MAX_ID_UNITS := 512

  const INVALID := "Expected 1-3 distinct message identities and revisions"

  predicate Distinguished(requests: seq<Request>) {
    && 0 < |requests| <= MAX_REQUESTS
    && (forall i :: 0 <= i < |requests| ==> requests[i].id != [] && |requests[i].id| <= MAX_ID_UNITS && requests[i].revision.Some?)
    && (forall i, j :: 0 <= i < j < |requests| ==> requests[i].id != requests[j].id)
  }

  /** One page's worth of bodies; `strict` refuses a body of another revision. */
  function Collect(messages: seq<Message>, wanted: map<Id, Revision>, found: map<Id, Message>, strict: bool, session: string)
    : Result<map<Id, Message>>
    decreases |messages|
  {
    if messages == [] then Ok(found)
    else
      var m := messages[0];
      if m.id !in wanted || m.id in found then Collect(messages[1..], wanted, found, strict, session)
      else if strict && wanted[m.id] != RevisionOf(session, m) then Err("Image changed; reload its message")
      else Collect(messages[1..], wanted, found[m.id := m], strict, session)
  }

  function Walk(source: Source, cursor: Cursor, visited: set<Cursor>, wanted: map<Id, Revision>, found: map<Id, Message>, strict: bool,
                session: string): Result<map<Id, Message>>
    decreases |source.Keys - visited|
  {
    if |found| >= |wanted| then Ok(found)
    else if cursor in visited then Err("Filo history cursor did not advance")
    else if cursor !in source then Err("read failed")
    else
      var next := Collect(source[cursor].messages, wanted, found, strict, session);
      if next.Err? then next
      else if source[cursor].next.None? || source[cursor].next.value == [] then next
      else
        Smaller(source.Keys, visited, cursor);
        Walk(source, source[cursor].next.value, visited + {cursor}, wanted, next.value, strict, session)
  }

  lemma Smaller(all: set<Cursor>, visited: set<Cursor>, cursor: Cursor)
    requires cursor in all && cursor !in visited
    ensures |all - (visited + {cursor})| < |all - visited|
  {
    assert all - (visited + {cursor}) == (all - visited) - {cursor};
  }

  function Answer(requests: seq<Request>, found: Result<map<Id, Message>>, fits: seq<Message> -> bool): Result<seq<Message>> {
    if found.Err? then Err(found.error)
    else if exists i :: 0 <= i < |requests| && requests[i].id !in found.value then Err("Message changed; reload its topology")
    else
      var messages := seq(|requests|, i requires 0 <= i < |requests| && requests[i].id in found.value => found.value[requests[i].id]);
      if fits(messages) then Ok(messages) else Err("Filo payload response exceeds its bound")
  }

  function Wanted(requests: seq<Request>): (w: map<Id, Revision>)
    requires Distinguished(requests)
    ensures forall i :: 0 <= i < |requests| ==> requests[i].id in w && w[requests[i].id] == requests[i].revision.value
    ensures forall id :: id in w ==> exists i :: 0 <= i < |requests| && requests[i].id == id
    ensures |w| == |requests|
  {
    WantedPart(requests, |requests|)
  }

  function WantedPart(requests: seq<Request>, n: nat): (w: map<Id, Revision>)
    requires Distinguished(requests) && n <= |requests|
    ensures forall i :: 0 <= i < n ==> requests[i].id in w && w[requests[i].id] == requests[i].revision.value
    ensures forall id :: id in w ==> exists i :: 0 <= i < n && requests[i].id == id
    ensures |w| == n
  {
    if n == 0 then map[]
    else
      var w := WantedPart(requests, n - 1);
      assert requests[n - 1].id !in w;
      w[requests[n - 1].id := requests[n - 1].revision.value]
  }

  /** Every body held is one that was asked for, in exactly the revision asked for. */
  ghost predicate Right(found: map<Id, Message>, wanted: map<Id, Revision>, session: string) {
    forall id :: id in found ==> id in wanted && found[id].id == id && RevisionOf(session, found[id]) == wanted[id]
  }

  ghost predicate Named(found: map<Id, Message>, wanted: map<Id, Revision>) {
    forall id :: id in found ==> id in wanted && found[id].id == id
  }

  lemma {:induction false} CollectRight(messages: seq<Message>, wanted: map<Id, Revision>, found: map<Id, Message>, strict: bool, session: string)
    requires Named(found, wanted) && Collect(messages, wanted, found, strict, session).Ok?
    ensures Named(Collect(messages, wanted, found, strict, session).value, wanted)
    ensures strict && Right(found, wanted, session) ==> Right(Collect(messages, wanted, found, strict, session).value, wanted, session)
    decreases |messages|
  {
    if messages != [] {
      var m := messages[0];
      CollectRight(messages[1..], wanted, if m.id !in wanted || m.id in found then found else found[m.id := m], strict, session);
    }
  }

  lemma {:induction false} WalkRight(source: Source, cursor: Cursor, visited: set<Cursor>, wanted: map<Id, Revision>, found: map<Id, Message>,
                                      strict: bool, session: string)
    requires Named(found, wanted) && Walk(source, cursor, visited, wanted, found, strict, session).Ok?
    ensures var all := Walk(source, cursor, visited, wanted, found, strict, session).value;
      Named(all, wanted) && (strict && Right(found, wanted, session) ==> Right(all, wanted, session))
    decreases |source.Keys - visited|
  {
    if |found| < |wanted| {
      hide Collect;
      CollectRight(source[cursor].messages, wanted, found, strict, session);
      var next := source[cursor].next;
      if next.Some? && next.value != [] {
        Smaller(source.Keys, visited, cursor);
        WalkRight(source, next.value, visited + {cursor}, wanted, Collect(source[cursor].messages, wanted, found, strict, session).value, strict, session);
      }
    }
  }

  // ----- the cache is transparent -----

  ghost predicate Within(a: map<Id, Message>, b: map<Id, Message>) {
    forall id :: id in a ==> id in b && a[id] == b[id]
  }

  /** Right bodies for the same ids are the same bodies. */
  lemma SameBodies(a: map<Id, Message>, b: map<Id, Message>, wanted: map<Id, Revision>, session: string)
    requires Right(a, wanted, session) && Right(b, wanted, session) && a.Keys == b.Keys
    ensures a == b
  {
    forall id | id in a ensures a[id] == b[id] { RevisionInjective(session, a[id], b[id]); }
  }

  lemma {:induction false} CollectMore(messages: seq<Message>, wanted: map<Id, Revision>, found: map<Id, Message>, more: map<Id, Message>, session: string)
    requires Right(found, wanted, session) && Right(more, wanted, session) && Within(found, more)
    requires Collect(messages, wanted, found, true, session).Ok?
    ensures var c := Collect(messages, wanted, more, true, session); c.Ok? && Within(Collect(messages, wanted, found, true, session).value, c.value)
    decreases |messages|
  {
    if messages != [] {
      var m := messages[0];
      if m.id in wanted && m.id !in found {
        if m.id in more {
          RevisionInjective(session, m, more[m.id]);
          CollectMore(messages[1..], wanted, found[m.id := m], more, session);
        } else {
          CollectMore(messages[1..], wanted, found[m.id := m], more[m.id := m], session);
        }
      } else {
        CollectMore(messages[1..], wanted, found, more, session);
      }
    }
  }

  lemma Complete(found: map<Id, Message>, wanted: map<Id, Revision>, session: string)
    requires Right(found, wanted, session)
    ensures Named(found, wanted) && |found| <= |wanted| && (|found| == |wanted| <==> found.Keys == wanted.Keys)
  {
    Sizes(found.Keys, wanted.Keys);
    assert |found.Keys| == |found| && |wanted.Keys| == |wanted|;
  }

  lemma WithinSizes(a: map<Id, Message>, b: map<Id, Message>)
    requires Within(a, b)
    ensures a.Keys <= b.Keys && |a| <= |b|
  {
    Sizes(a.Keys, b.Keys);
    assert |a.Keys| == |a| && |b.Keys| == |b|;
  }

  lemma Sizes(a: set<Id>, b: set<Id>)
    requires a <= b
    ensures |a| <= |b| && (|a| == |b| <==> a == b)
  {
    assert b == a + (b - a);
  }

  /** Whatever right bodies the cache supplies, a strict load that succeeds without it finds the same bodies with it. */
  lemma {:induction false} WalkWithCache(source: Source, cursor: Cursor, visited: set<Cursor>, wanted: map<Id, Revision>, found: map<Id, Message>,
                                          more: map<Id, Message>, session: string)
    requires Right(found, wanted, session) && Right(more, wanted, session) && Within(found, more)
    requires var all := Walk(source, cursor, visited, wanted, found, true, session); all.Ok? && all.value.Keys == wanted.Keys
    ensures Walk(source, cursor, visited, wanted, more, true, session) == Walk(source, cursor, visited, wanted, found, true, session)
    decreases |source.Keys - visited|
  {
    hide Collect; hide Right; hide Within; hide Named;
    var all := Walk(source, cursor, visited, wanted, found, true, session).value;
    Complete(more, wanted, session);
    Complete(found, wanted, session);
    WalkRight(source, cursor, visited, wanted, found, true, session);
    WithinSizes(found, more);
    if |more| >= |wanted| {
      SameBodies(more, all, wanted, session);
    } else {
      var page := source[cursor];
      CollectMore(page.messages, wanted, found, more, session);
      CollectRight(page.messages, wanted, found, true, session);
      CollectRight(page.messages, wanted, more, true, session);
      var a, b := Collect(page.messages, wanted, found, true, session).value, Collect(page.messages, wanted, more, true, session).value;
      if page.next.Some? && page.next.value != [] {
        Smaller(source.Keys, visited, cursor);
        WalkWithCache(source, page.next.value, visited + {cursor}, wanted, a, b, session);
      } else {
        Complete(b, wanted, session);
        WithinSizes(a, b);
        NamedKeys(b, wanted);
        SameBodies(b, all, wanted, session);
      }
    }
  }

  lemma NamedKeys(found: map<Id, Message>, wanted: map<Id, Revision>)
    requires Named(found, wanted)
    ensures found.Keys <= wanted.Keys
  {
  }

  // ----- what Load promises -----

  /** With exact revisions every returned body has the revision asked for, in request order. */
  lemma LoadIsExact(requests: seq<Request>, source: Source, hits: map<Id, Message>, session: string, fits: seq<Message> -> bool)
    requires Distinguished(requests) && Right(hits, Wanted(requests), session)
    requires Answer(requests, Walk(source, [], {}, Wanted(requests), hits, true, session), fits).Ok?
    ensures var r := Answer(requests, Walk(source, [], {}, Wanted(requests), hits, true, session), fits).value;
      |r| == |requests| &&
      forall i :: 0 <= i < |requests| ==> r[i].id == requests[i].id && RevisionOf(session, r[i]) == requests[i].revision.value
  {
    hide Walk;
    Complete(hits, Wanted(requests), session);
    WalkRight(source, [], {}, Wanted(requests), hits, true, session);
  }

  /** A strict load that succeeds without the cache gives the same answer with any cache. */
  lemma CacheIsTransparent(requests: seq<Request>, source: Source, hits: map<Id, Message>, session: string, fits: seq<Message> -> bool)
    requires Distinguished(requests) && Right(hits, Wanted(requests), session)
    requires Answer(requests, Walk(source, [], {}, Wanted(requests), map[], true, session), fits).Ok?
    ensures Answer(requests, Walk(source, [], {}, Wanted(requests), hits, true, session), fits)
            == Answer(requests, Walk(source, [], {}, Wanted(requests), map[], true, session), fits)
  {
    hide Walk; hide Distinguished; hide Right;
    var wanted := Wanted(requests);
    var all := Walk(source, [], {}, wanted, map[], true, session).value;
    NothingRight(wanted, hits, session);
    Complete(map[], wanted, session);
    WalkRight(source, [], {}, wanted, map[], true, session);
    NamedKeys(all, wanted);
    assert all.Keys == wanted.Keys;
    WalkWithCache(source, [], {}, wanted, map[], hits, session);
  }

  lemma NothingRight(wanted: map<Id, Revision>, hits: map<Id, Message>, session: string)
    ensures Right(map[], wanted, session) && Within(map[], hits)
  {
  }

  // ----- an unchanged history is found -----

  function PageIds(messages: seq<Message>): set<Id>
    decreases |messages|
  {
    if messages == [] then {} else {messages[0].id} + PageIds(messages[1..])
  }

  /** Every wanted body in these messages is of the wanted revision. */
  ghost predicate Unchanged(messages: seq<Message>, wanted: map<Id, Revision>, session: string)
    decreases |messages|
  {
    messages != [] ==>
      (messages[0].id in wanted ==> RevisionOf(session, messages[0]) == wanted[messages[0].id]) && Unchanged(messages[1..], wanted, session)
  }

  lemma {:induction false} CollectFinds(messages: seq<Message>, wanted: map<Id, Revision>, found: map<Id, Message>, session: string)
    requires Unchanged(messages, wanted, session)
    ensures var r := Collect(messages, wanted, found, true, session);
      r.Ok? && forall id :: id in found || (id in wanted && id in PageIds(messages)) ==> id in r.value
    decreases |messages|
  {
    if messages != [] {
      var m := messages[0];
      CollectFinds(messages[1..], wanted, if m.id in wanted && m.id !in found then found[m.id := m] else found, session);
    }
  }

  /** The pages from here on, each once, ending where there is no older page, all unchanged. */
  ghost predicate Chain(source: Source, cursors: seq<Cursor>, visited: set<Cursor>, wanted: map<Id, Revision>, session: string)
    decreases |cursors|
  {
    && cursors != [] && cursors[0] in source && cursors[0] !in visited
    && var page := source[cursors[0]];
    && Unchanged(page.messages, wanted, session)
    && if |cursors| == 1 then page.next.None? || page.next == Some([])
       else page.next == Some(cursors[1]) && cursors[1] != [] && Chain(source, cursors[1..], visited + {cursors[0]}, wanted, session)
  }

  function ChainIds(source: Source, cursors: seq<Cursor>): set<Id>
    decreases |cursors|
  {
    if cursors == [] then {}
    else (if cursors[0] in source then PageIds(source[cursors[0]].messages) else {}) + ChainIds(source, cursors[1..])
  }

  lemma WalkStep(source: Source, cursor: Cursor, visited: set<Cursor>, wanted: map<Id, Revision>, found: map<Id, Message>, session: string)
    requires cursor in source && cursor !in visited
    ensures var r := Walk(source, cursor, visited, wanted, found, true, session); var page := source[cursor];
      var next := Collect(page.messages, wanted, found, true, session);
      if |found| >= |wanted| then r == Ok(found)
      else if next.Err? || page.next.None? || page.next.value == [] then r == next
      else r == Walk(source, page.next.value, visited + {cursor}, wanted, next.value, true, session)
  {
    hide Collect;
    Smaller(source.Keys, visited, cursor);
  }

  lemma LeftToFind(source: Source, cursors: seq<Cursor>, wanted: map<Id, Revision>, found: map<Id, Message>, next: map<Id, Message>)
    requires cursors != [] && cursors[0] in source
    requires forall id :: id in wanted ==> id in found || id in ChainIds(source, cursors)
    requires forall id :: id in found || (id in wanted && id in PageIds(source[cursors[0]].messages)) ==> id in next
    ensures forall id :: id in wanted ==> id in next || id in ChainIds(source, cursors[1..])
    ensures |cursors| == 1 ==> forall id :: id in wanted ==> id in next
  {
    hide PageIds;
  }

  /** A history that still holds every requested revision is read until all are found. */
  lemma {:induction false} WalkFinds(source: Source, cursors: seq<Cursor>, visited: set<Cursor>, wanted: map<Id, Revision>,
                                      found: map<Id, Message>, session: string)
    requires Chain(source, cursors, visited, wanted, session) && Right(found, wanted, session)
    requires forall id :: id in wanted ==> id in found || id in ChainIds(source, cursors)
    ensures var r := Walk(source, cursors[0], visited, wanted, found, true, session); r.Ok? && r.value.Keys == wanted.Keys
    decreases |cursors|
  {
    hide Collect; hide Right; hide Unchanged; hide PageIds; hide ChainIds; hide Named; hide Walk;
    Complete(found, wanted, session);
    WalkStep(source, cursors[0], visited, wanted, found, session);
    if |found| < |wanted| {
      var page := source[cursors[0]];
      CollectFinds(page.messages, wanted, found, session);
      CollectRight(page.messages, wanted, found, true, session);
      var next := Collect(page.messages, wanted, found, true, session);
      NamedKeys(next.value, wanted);
      LeftToFind(source, cursors, wanted, found, next.value);
      if |cursors| == 1 {
        assert next.value.Keys == wanted.Keys;
      } else {
        WalkFinds(source, cursors[1..], visited + {cursors[0]}, wanted, next.value, session);
      }
    }
  }

  /** So a strict load of revisions the history still holds is answered, if the answer fits. */
  lemma LoadSucceeds(requests: seq<Request>, source: Source, cursors: seq<Cursor>, hits: map<Id, Message>, session: string, fits: seq<Message> -> bool)
    requires Distinguished(requests) && Right(hits, Wanted(requests), session)
    requires Chain(source, cursors, {}, Wanted(requests), session) && cursors[0] == []
    requires forall id :: id in Wanted(requests) ==> id in ChainIds(source, cursors)
    ensures var r := Answer(requests, Walk(source, [], {}, Wanted(requests), hits, true, session), fits);
      r.Ok? || r.error == "Filo payload response exceeds its bound"
  {
    hide Walk; hide Right; hide Chain; hide ChainIds; hide Distinguished;
    WalkFinds(source, cursors, {}, Wanted(requests), hits, session);
  }

  // ----- Load as it runs -----

  function KeyOf(session: string, request: Request): Key
    requires request.revision.Some?
  {
    Key(session, request.id, request.revision.value)
  }

  ghost predicate Cached(order: seq<Entry>, key: Key) { exists i :: 0 <= i < |order| && order[i].key == key }

  /** The bodies found so far are exactly the cached ones among the first n requests. */
  ghost predicate HitsOf(hits: map<Id, Message>, order: seq<Entry>, requests: seq<Request>, session: string, n: nat)
    requires Distinguished(requests) && n <= |requests|
  {
    && Right(hits, Wanted(requests), session)
    && (forall i :: 0 <= i < n ==> (requests[i].id in hits <==> Cached(order, KeyOf(session, requests[i]))))
    && (forall i :: n <= i < |requests| ==> requests[i].id !in hits)
  }

  /** `others(n)` is what other callers do before the n-th request is looked up. */
  method TakeHits(p: ConversationPayloads, session: string, requests: seq<Request>, others: nat -> seq<Op>) returns (hits: map<Id, Message>)
    requires p.Valid() && Distinguished(requests)
    modifies p
    ensures p.Valid() && Right(hits, Wanted(requests), session)
    ensures (forall n :: others(n) == []) ==> HitsOf(hits, old(p.order), requests, session, |requests|)
  {
    hide HitsOf; hide Cached; hide Wanted; hide Right;
    hits := map[];
    ghost var quiet := forall n :: others(n) == [];
    NoHits(p.order, requests, session);
    for n := 0 to |requests|
      invariant p.Valid() && Right(hits, Wanted(requests), session)
      invariant quiet ==> HitsOf(hits, old(p.order), requests, session, n)
      invariant quiet ==> forall key :: Cached(p.order, key) <==> Cached(old(p.order), key)
    {
      var key := KeyOf(session, requests[n]);
      Others(p, others(n));
      ghost var before := p.order;
      ghost var was := hits;
      var hit := p.Take(key);
      CachedMeans(p.order, key);
      if hit.Some? {
        StillCached(before, key, hit.value);
        assert p.order[|p.order| - 1].key == key;
        hits := hits[requests[n].id := hit.value];
        RightGrows(was, requests, session, n, hit.value);
        if quiet { HitsGrow(was, old(p.order), requests, session, n, hit.value); }
      } else if quiet {
        HitsMissed(was, old(p.order), requests, session, n);
      }
    }
  }

  lemma RightGrows(hits: map<Id, Message>, requests: seq<Request>, session: string, n: nat, m: Message)
    requires Distinguished(requests) && n < |requests| && Right(hits, Wanted(requests), session)
    requires m.id == requests[n].id && RevisionOf(session, m) == requests[n].revision.value
    ensures Right(hits[requests[n].id := m], Wanted(requests), session)
  {
    hide Distinguished; hide RevisionOf;
  }

  lemma NoHits(order: seq<Entry>, requests: seq<Request>, session: string)
    requires Distinguished(requests)
    ensures HitsOf(map[], order, requests, session, 0) && Right(map[], Wanted(requests), session)
  {
  }

  lemma CachedMeans(order: seq<Entry>, key: Key)
    ensures Cached(order, key) <==> !(forall i :: 0 <= i < |order| ==> order[i].key != key)
  {
  }

  lemma HitsGrow(hits: map<Id, Message>, order: seq<Entry>, requests: seq<Request>, session: string, n: nat, m: Message)
    requires Distinguished(requests) && n < |requests| && HitsOf(hits, order, requests, session, n)
    requires Cached(order, KeyOf(session, requests[n])) && m.id == requests[n].id && RevisionOf(session, m) == requests[n].revision.value
    ensures HitsOf(hits[requests[n].id := m], order, requests, session, n + 1)
  {
    hide Cached; hide Distinguished; hide RevisionOf;
    var id, next := requests[n].id, hits[requests[n].id := m];
    OtherIds(requests, n);
    assert Right(next, Wanted(requests), session);
    forall i | 0 <= i < |requests| ensures requests[i].id in next <==> i == n || requests[i].id in hits {
      assert i != n ==> requests[i].id != id;
    }
  }

  lemma OtherIds(requests: seq<Request>, n: nat)
    requires Distinguished(requests) && n < |requests|
    ensures forall i :: 0 <= i < |requests| && i != n ==> requests[i].id != requests[n].id
  {
  }

  lemma HitsMissed(hits: map<Id, Message>, order: seq<Entry>, requests: seq<Request>, session: string, n: nat)
    requires Distinguished(requests) && n < |requests| && HitsOf(hits, order, requests, session, n)
    requires !Cached(order, KeyOf(session, requests[n]))
    ensures HitsOf(hits, order, requests, session, n + 1)
  {
    hide Cached;
  }

  lemma StillCached(order: seq<Entry>, key: Key, m: Message)
    requires Entry(key, m) in order
    ensures forall k :: Cached(Without(order, EntryKey, key) + [Entry(key, m)], k) <==> Cached(order, k)
  {
    var next := Without(order, EntryKey, key) + [Entry(key, m)];
    WithoutMembers(order, key);
    forall k ensures Cached(next, k) <==> Cached(order, k) {
      if Cached(order, k) {
        var i :| 0 <= i < |order| && order[i].key == k;
        assert order[i] in order;
        if k == key {
          assert next[|next| - 1].key == k;
        } else {
          var j :| 0 <= j < |Without(order, EntryKey, key)| && Without(order, EntryKey, key)[j] == order[i];
          assert next[j].key == k;
        }
      }
      if Cached(next, k) {
        var j :| 0 <= j < |next| && next[j].key == k;
        var e := if j < |next| - 1 then next[j] else Entry(key, m);
        assert e in order;
        var i :| 0 <= i < |order| && order[i] == e;
      }
    }
  }

  /** One page: every body is cached, the wanted ones are kept. */
  method CollectPage(p: ConversationPayloads, session: string, messages: seq<Message>, wanted: map<Id, Revision>, found: map<Id, Message>, strict: bool,
                     others: nat -> seq<Op>)
    returns (r: Result<map<Id, Message>>)
    requires p.Valid()
    modifies p
    ensures p.Valid() && r == Collect(messages, wanted, found, strict, session)
  {
    var now := found;
    assert messages[0..] == messages;
    for i := 0 to |messages|
      invariant p.Valid() && Collect(messages[i..], wanted, now, strict, session) == Collect(messages, wanted, found, strict, session)
    {
      var m := messages[i];
      assert messages[i..][0] == m && messages[i..][1..] == messages[i + 1..];
      Others(p, others(i));
      var revision := p.Store(session, m, None);
      if m.id in wanted && m.id !in now {
        if strict && wanted[m.id] != revision { return Result<map<Id, Message>>.Err("Image changed; reload its message"); }
        now := now[m.id := m];
      }
    }
    r := Ok(now);
  }

  /** `others` is what other callers do to the cache before each lookup and, page by page, before each body. */
  method Load(p: ConversationPayloads, source: Source, session: string, requests: seq<Request>, exactRevision: bool, fits: seq<Message> -> bool,
              others: (Option<Cursor>, nat) -> seq<Op>)
    returns (r: Result<seq<Message>>, ghost hits: map<Id, Message>)
    requires p.Valid()
    modifies p
    ensures p.Valid()
    ensures !Distinguished(requests) ==> r == Result<seq<Message>>.Err(INVALID)
    ensures Distinguished(requests) ==>
      && Right(hits, Wanted(requests), session)
      && ((forall n :: others(None, n) == []) ==> HitsOf(hits, old(p.order), requests, session, |requests|))
      && r == Answer(requests, Walk(source, [], {}, Wanted(requests), hits, exactRevision || Scoped(session), session), fits)
  {
    hits := map[];
    if !Distinguished(requests) { return Result<seq<Message>>.Err(INVALID), map[]; }
    var wanted := Wanted(requests);
    var strict := exactRevision || Scoped(session);
    var found := TakeHits(p, session, requests, (n: nat) => others(None, n));
    hits := found;
    hide HitsOf; hide Wanted; hide Collect; hide Answer; hide Right;
    ghost var spec := Walk(source, [], {}, wanted, found, strict, session);
    var cursor: Cursor := [];
    var visited: set<Cursor> := {};
    while |found| < |wanted|
      invariant p.Valid() && Walk(source, cursor, visited, wanted, found, strict, session) == spec
      decreases |source.Keys - visited|
    {
      if cursor in visited { return Answer(requests, Result<map<Id, Message>>.Err("Filo history cursor did not advance"), fits), hits; }
      if cursor !in source { return Answer(requests, Result<map<Id, Message>>.Err("read failed"), fits), hits; }
      Smaller(source.Keys, visited, cursor);
      visited := visited + {cursor};
      var page := source[cursor];
      var next := CollectPage(p, session, page.messages, wanted, found, strict, (i: nat) => others(Some(cursor), i));
      if next.Err? { return Answer(requests, next, fits), hits; }
      found := next.value;
      if page.next.None? || page.next.value == [] { break; }
      cursor := page.next.value;
    }
    r := Answer(requests, Ok(found), fits);
  }
}
