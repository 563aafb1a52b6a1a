/** The web event broker: a bounded replay buffer per session and lossy bounded channels. */
module Broker {

  const BUFFER_PER_SESSION: nat := 1000
  const SUB_CHAN_SIZE: nat := 64

  /** `call` identifies the Emit call.  The program has no such field; it lets the proofs tell two
      events with equal content apart. */
  datatype Event = Event(session: string, messageId: string, body: string, call: nat)

  function LastN(s: seq<Event>, n: nat): seq<Event> {
    if |s| <= n then s else s[|s| - n..]
  }

  function BufferOf(buffers: map<string, seq<Event>>, session: string): seq<Event> {
    if session in buffers then buffers[session] else []
  }

  /** A non-blocking send on a channel's queue. */
  function Offer(queue: seq<Event>, e: Event): seq<Event> {
    if |queue| < SUB_CHAN_SIZE then queue + [e] else queue
  }

  function OfferAll(queue: seq<Event>, es: seq<Event>): seq<Event> {
    if es == [] then queue else Offer(OfferAll(queue, es[..|es| - 1]), es[|es| - 1])
  }

  /** The position of the last event that carries the cursor's message id, or -1. */
  function CursorIndex(buf: seq<Event>, cursor: string): (i: int)
    ensures -1 <= i < |buf|
    ensures i >= 0 ==> buf[i].messageId == cursor
    ensures forall j :: i < j < |buf| ==> buf[j].messageId != cursor
  {
    if buf == [] then -1
    else if buf[|buf| - 1].messageId == cursor then |buf| - 1
    else CursorIndex(buf[..|buf| - 1], cursor)
  }

  /** The buffered events that a subscriber resuming at the cursor has not seen. */
  function Missed(buf: seq<Event>, cursor: string): seq<Event> {
    if cursor == "" || CursorIndex(buf, cursor) < 0 then [] else buf[CursorIndex(buf, cursor) + 1..]
  }

  predicate Carries(buf: seq<Event>, cursor: string) {
    exists i :: 0 <= i < |buf| && buf[i].messageId == cursor
  }

  /** The last event that carries the cursor. */
  predicate LastAt(buf: seq<Event>, cursor: string, i: nat) {
    i < |buf| && buf[i].messageId == cursor && !Carries(buf[i + 1..], cursor)
  }

  /** Exactly the events behind the last one that carries the cursor; none without a cursor, or if no event
      carries it. */
  ghost predicate AllBehind(missed: seq<Event>, buf: seq<Event>, cursor: string) {
    && (cursor == "" || !Carries(buf, cursor) ==> missed == [])
    && forall i: nat :: cursor != "" && LastAt(buf, cursor, i) ==> missed == buf[i + 1..]
  }

  /** The first 64 of them. */
  ghost predicate FirstBehind(queue: seq<Event>, buf: seq<Event>, cursor: string) {
    exists missed :: AllBehind(missed, buf, cursor) && queue == missed[..if |missed| < 64 then |missed| else 64]
  }

  lemma MissedIsBehind(buf: seq<Event>, cursor: string)
    ensures AllBehind(Missed(buf, cursor), buf, cursor)
  {
    var at := CursorIndex(buf, cursor);
    if at >= 0 {
      assert buf[at].messageId == cursor;
    }
    forall i: nat | cursor != "" && LastAt(buf, cursor, i) ensures Missed(buf, cursor) == buf[i + 1..] {
      assert buf[i].messageId == cursor;
      forall j | i < j < |buf| ensures buf[j].messageId != cursor {
        assert buf[i + 1..][j - (i + 1)] == buf[j];
      }
    }
  }

  /** So of a buffer that ends in some events behind one that carries the cursor, and of which none carries it
      again, a reconnecting subscriber misses just these. */
  lemma MissedBehind(a: seq<Event>, e: Event, b: seq<Event>, cursor: string)
    requires cursor != "" && e.messageId == cursor && !Carries(b, cursor)
    ensures Missed(a + [e] + b, cursor) == b
  {
    var buf := a + [e] + b;
    MissedIsBehind(buf, cursor);
    assert buf[|a| + 1..] == b;
    assert LastAt(buf, cursor, |a|);
  }

  class Subscription {
    const session: string
    const id: nat
    var queue: seq<Event>
    var closed: bool

    ghost predicate OpenFor(session: string, id: nat)
      reads this
    {
      && this.session == session && this.id == id && !closed
      && OfSession(queue, session) && |queue| <= SUB_CHAN_SIZE
    }

    constructor (session: string, id: nat)
      ensures this.session == session && this.id == id && queue == [] && !closed
    {
      this.session, this.id := session, id;
      queue, closed := [], false;
    }

    /** The select with a default branch: sends unless the channel is full.  Sending on a closed
        channel is a crash, which the precondition rules out. */
    method TrySend(e: Event)
      requires !closed
      modifies `queue
      ensures queue == Offer(old(queue), e)
    {
      if |queue| < SUB_CHAN_SIZE {
        queue := queue + [e];
      }
    }

    method Replay(missed: seq<Event>)
      requires !closed && queue == []
      modifies `queue
      ensures queue == OfferAll([], missed)
    {
      var k := 0;
      while k < |missed|
        invariant 0 <= k <= |missed|
        invariant queue == OfferAll([], missed[..k])
      {
        assert missed[..k + 1][..k] == missed[..k];
        TrySend(missed[k]);
        k := k + 1;
      }
      assert missed[..k] == missed;
    }
  }

  method FindMissed(buf: seq<Event>, cursor: string) returns (missed: seq<Event>)
    requires cursor != ""
    ensures missed == Missed(buf, cursor) && AllBehind(missed, buf, cursor)
  {
    var start := -1;
    var i := 0;
    while i < |buf|
      invariant 0 <= i <= |buf|
      invariant start == CursorIndex(buf[..i], cursor)
    {
      assert buf[..i + 1][..i] == buf[..i];
      if buf[i].messageId == cursor {
        start := i;
      }
      i := i + 1;
    }
    assert buf[..i] == buf;
    missed := if start >= 0 then buf[start + 1..] else [];
    MissedIsBehind(buf, cursor);
  }

  /** A new channel that holds what was missed behind the cursor. */
  method Open(session: string, id: nat, buf: seq<Event>, cursor: string) returns (sub: Subscription)
    requires OfSession(buf, session)
    ensures fresh(sub) && sub.OpenFor(session, id)
    ensures sub.queue == OfferAll([], Missed(buf, cursor))
  {
    sub := new Subscription(session, id);
    if cursor != "" {
      var missed := FindMissed(buf, cursor);
      sub.Replay(missed);
      ReplayTakesFirst(buf, cursor);
    }
  }

  class EventBroker {
    var buffers: map<string, seq<Event>>
    var subs: map<string, map<nat, Subscription>>
    var nextId: nat

    ghost function Repr(): set<Subscription>
      reads this
    {
      set session, id | session in subs && id in subs[session] :: subs[session][id]
    }

    // Registered subscriptions are open, sit under their own session and id, and only hold, like the
    // buffers, events of their session.
    ghost predicate Valid()
      reads this, Repr()
    {
      && (forall session, id :: session in subs && id in subs[session] ==>
            id <= nextId && subs[session][id].OpenFor(session, id))
      && (forall session :: session in buffers ==>
            OfSession(buffers[session], session) && |buffers[session]| <= BUFFER_PER_SESSION)
    }

    constructor ()
      ensures Valid() && buffers == map[] && subs == map[] && nextId == 0
    {
      buffers, subs, nextId := map[], map[], 0;
    }

    /** One Emit that no other Emit overlaps. */
    method Emit(e: Event)
      requires Valid()
      modifies this, Repr()
      ensures Valid() && subs == old(subs) && nextId == old(nextId)
      ensures buffers == old(buffers)[e.session := LastN(BufferOf(old(buffers), e.session) + [e], BUFFER_PER_SESSION)]
      ensures forall sub :: sub in Repr() ==>
                sub.queue == if sub.session == e.session then Offer(old(sub.queue), e) else old(sub.queue)
    {
      var buf := BufferOf(buffers, e.session) + [e];
      if |buf| > BUFFER_PER_SESSION {
        buf := buf[|buf| - BUFFER_PER_SESSION..];
      }
      buffers := buffers[e.session := buf];
      if e.session in subs {
        FanOut(e);
      }
    }

    method FanOut(e: Event)
      requires Valid() && e.session in subs
      modifies Repr()
      ensures Valid()
      ensures forall sub :: sub in Repr() ==>
                sub.queue == if sub.session == e.session then Offer(old(sub.queue), e) else old(sub.queue)
    {
      var targets := subs[e.session];
      var todo := targets.Keys;
      while todo != {}
        invariant todo <= targets.Keys
        invariant Valid()
        invariant forall sub :: sub in Repr() ==>
                    sub.queue == if sub.session == e.session && sub.id !in todo
                                 then Offer(old(sub.queue), e) else old(sub.queue)
        decreases todo
      {
        var id :| id in todo;
        Deliver(targets[id], e);
        todo := todo - {id};
      }
    }

    /** One send of a fan-out. */
    method Deliver(sub: Subscription, e: Event)
      requires Valid() && e.session in subs && sub.id in subs[e.session] && subs[e.session][sub.id] == sub
      modifies sub`queue
      ensures Valid() && sub.queue == Offer(old(sub.queue), e)
    {
      assert sub in Repr();
      sub.TrySend(e);
    }

    method Subscribe(session: string, cursor: string) returns (sub: Subscription)
      requires Valid()
      modifies this
      ensures Valid() && fresh(sub) && buffers == old(buffers) && nextId == old(nextId) + 1
      ensures sub.session == session && sub.id == nextId && !sub.closed
      ensures sub.queue == OfferAll([], Missed(BufferOf(buffers, session), cursor))
      ensures FirstBehind(sub.queue, BufferOf(buffers, session), cursor)
      ensures subs == old(subs)[session := Registered(old(subs), session)[sub.id := sub]]
    {
      sub := Open(session, nextId + 1, BufferOf(buffers, session), cursor);
      ReplayIsFirstBehind(BufferOf(buffers, session), cursor);
      Register(sub);
    }

    method Register(sub: Subscription)
      requires Valid() && sub.OpenFor(sub.session, nextId + 1)
      modifies this
      ensures Valid() && buffers == old(buffers) && nextId == old(nextId) + 1
      ensures subs == old(subs)[sub.session := Registered(old(subs), sub.session)[sub.id := sub]]
    {
      nextId := nextId + 1;
      subs := subs[sub.session := Registered(subs, sub.session)[sub.id := sub]];
    }

    /** Each subscription is unsubscribed once: closing a channel twice is a crash. */
    method Unsubscribe(sub: Subscription)
      requires Valid() && !sub.closed
      requires sub.session in subs && sub.id in subs[sub.session] ==> subs[sub.session][sub.id] == sub
      modifies this, sub`closed
      ensures Valid() && sub.closed && buffers == old(buffers) && nextId == old(nextId)
      ensures subs == if sub.session in old(subs)
                      then old(subs)[sub.session := old(subs)[sub.session] - {sub.id}] else old(subs)
    {
      if sub.session in subs {
        subs := subs[sub.session := subs[sub.session] - {sub.id}];
      }
      sub.closed := true;
    }
  }

  function Registered(subs: map<string, map<nat, Subscription>>, session: string): map<nat, Subscription> {
    if session in subs then subs[session] else map[]
  }

  predicate OfSession(es: seq<Event>, session: string) {
    forall i :: 0 <= i < |es| ==> es[i].session == session
  }

  // ---------------------------------------------------------------------------
  // One channel
  // ---------------------------------------------------------------------------

  lemma {:induction false} OfferAllTakes(queue: seq<Event>, es: seq<Event>)
    requires |queue| <= SUB_CHAN_SIZE
    ensures var room := SUB_CHAN_SIZE - |queue|;
            OfferAll(queue, es) == queue + es[..if |es| < room then |es| else room]
  {
    if es != [] {
      OfferAllTakes(queue, es[..|es| - 1]);
    }
  }

  /** Replay contributes exactly the first min(64, k) of the k missed events. */
  lemma ReplayTakesFirst(buf: seq<Event>, cursor: string)
    ensures var missed := Missed(buf, cursor);
            OfferAll([], missed) == missed[..if |missed| < 64 then |missed| else 64]
  {
    OfferAllTakes([], Missed(buf, cursor));
  }

  lemma ReplayIsFirstBehind(buf: seq<Event>, cursor: string)
    ensures FirstBehind(OfferAll([], Missed(buf, cursor)), buf, cursor)
  {
    MissedIsBehind(buf, cursor);
    ReplayTakesFirst(buf, cursor);
  }

  predicate Subsequence(a: seq<Event>, b: seq<Event>) {
    if a == [] then true
    else if b == [] then false
    else if a[|a| - 1] == b[|b| - 1] then Subsequence(a[..|a| - 1], b[..|b| - 1])
    else Subsequence(a, b[..|b| - 1])
  }

  lemma {:induction false} SubsequenceSkips(a: seq<Event>, b: seq<Event>, e: Event)
    requires Subsequence(a, b)
    ensures Subsequence(a, b + [e])
    decreases |b|, 1
  {
    assert (b + [e])[..|b|] == b;
    if a != [] && a[|a| - 1] == e {
      SubsequenceDrops(a, b);
    }
  }

  lemma {:induction false} SubsequenceDrops(a: seq<Event>, b: seq<Event>)
    requires a != [] && Subsequence(a, b)
    ensures Subsequence(a[..|a| - 1], b)
    decreases |b|, 0
  {
    var b' := b[..|b| - 1];
    assert b == b' + [b[|b| - 1]];
    if a[|a| - 1] == b[|b| - 1] {
      SubsequenceSkips(a[..|a| - 1], b', b[|b| - 1]);
    } else {
      SubsequenceDrops(a, b');
      SubsequenceSkips(a[..|a| - 1], b', b[|b| - 1]);
    }
  }

  lemma {:induction false} SubsequenceLength(a: seq<Event>, b: seq<Event>)
    requires Subsequence(a, b)
    ensures |a| <= |b|
    ensures |a| == |b| ==> a == b
    decreases |b|
  {
    if a != [] {
      if a[|a| - 1] == b[|b| - 1] {
        SubsequenceLength(a[..|a| - 1], b[..|b| - 1]);
      } else {
        SubsequenceLength(a, b[..|b| - 1]);
      }
    }
  }

  lemma {:induction false} SubsequenceOfSelf(a: seq<Event>)
    ensures Subsequence(a, a)
  {
    if a != [] { SubsequenceOfSelf(a[..|a| - 1]); }
  }

  /** A subscription's consumer side: what was received, what is queued, how many sends found no room. */
  datatype Feed = Feed(received: seq<Event>, queue: seq<Event>, drops: nat)

  function Subscribed(missed: seq<Event>): Feed {
    var queue := OfferAll([], missed);
    Feed([], queue, if |missed| > |queue| then |missed| - |queue| else 0)
  }

  function Offered(f: Feed, e: Event): Feed {
    f.(queue := Offer(f.queue, e), drops := f.drops + if |f.queue| < SUB_CHAN_SIZE then 0 else 1)
  }

  function Received(f: Feed): Feed
    requires f.queue != []
  {
    f.(received := f.received + [f.queue[0]], queue := f.queue[1..])
  }

  /** The stream seen so far is an in-order subsequence of the wanted one, short by the drops. */
  predicate Follows(f: Feed, wanted: seq<Event>) {
    && |f.queue| <= SUB_CHAN_SIZE
    && Subsequence(f.received + f.queue, wanted)
    && |f.received| + |f.queue| + f.drops == |wanted|
  }

  lemma OfferFollows(f: Feed, wanted: seq<Event>, e: Event)
    requires Follows(f, wanted)
    ensures Follows(Offered(f, e), wanted + [e])
  {
    var stream := f.received + f.queue;
    assert (wanted + [e])[..|wanted|] == wanted;
    if |f.queue| < SUB_CHAN_SIZE {
      assert f.received + (f.queue + [e]) == stream + [e];
      assert (stream + [e])[..|stream|] == stream;
    } else {
      SubsequenceSkips(stream, wanted, e);
    }
  }

  lemma ReplayFollows(missed: seq<Event>)
    ensures Follows(Subscribed(missed), missed)
  {
    OfferAllTakes([], missed);
    var k := if |missed| < SUB_CHAN_SIZE then |missed| else SUB_CHAN_SIZE;
    assert [] + missed[..k] == missed[..k];
    PrefixFollows(missed, k);
  }

  lemma {:induction false} PrefixFollows(s: seq<Event>, n: nat)
    requires n <= |s|
    ensures Subsequence(s[..n], s)
    decreases |s|
  {
    if n == |s| {
      assert s[..n] == s;
      SubsequenceOfSelf(s);
    } else {
      var s' := s[..|s| - 1];
      PrefixFollows(s', n);
      assert s'[..n] == s[..n];
      SubsequenceSkips(s[..n], s', s[|s| - 1]);
      assert s == s' + [s[|s| - 1]];
    }
  }

  lemma ReceiveFollows(f: Feed, wanted: seq<Event>)
    requires Follows(f, wanted) && f.queue != []
    ensures Follows(Received(f), wanted)
  {
    assert f.received + [f.queue[0]] + f.queue[1..] == f.received + f.queue;
  }

  /** A stream that follows the wanted one equals it exactly when nothing was dropped. */
  lemma CompleteIff(f: Feed, wanted: seq<Event>)
    requires Follows(f, wanted)
    ensures f.drops == 0 <==> f.received + f.queue == wanted
  {
    SubsequenceLength(f.received + f.queue, wanted);
  }
}
