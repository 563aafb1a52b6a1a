/** The message bus: two bounded channels, and a read lock that a publisher holds while its send blocks. */
module Bus {
  import opened Strings
  import opened Wrappers

  const CAPACITY: nat := 100

  datatype Message = Message(channel: string, chatId: string, content: string)

  /** What a receive on a closed and empty channel yields. */
  const ZERO: Message := Message("", "", "")

  datatype Direction = Inbound | Outbound

  datatype Pending = Pending(dir: Direction, msg: Message)

  /** An enqueued message with its publisher. */
  datatype Post = Post(publisher: nat, msg: Message)

  /** One direction.  `accepted` and `consumed` are its history; `zeros` counts the receives after the end. */
  datatype Channel = Channel(queue: seq<Message>, accepted: seq<Post>, consumed: seq<Message>, zeros: nat)

  /** `holding` has the publishers that hold the read lock, past the closed check and before their send. */
  datatype State = State(inbound: Channel, outbound: Channel, closed: bool, holding: map<nat, Pending>, crashed: bool)

  datatype Label =
    | Begin(publisher: nat, dir: Direction, msg: Message)
    | Send(publisher: nat)
    | Consume(dir: Direction)
    | Close

  const EMPTY: Channel := Channel([], [], [], 0)
  const INITIAL: State := State(EMPTY, EMPTY, false, map[], false)

  function ChannelOf(s: State, dir: Direction): Channel {
    if dir.Inbound? then s.inbound else s.outbound
  }

  function WithChannel(s: State, dir: Direction, c: Channel): State {
    if dir.Inbound? then s.(inbound := c) else s.(outbound := c)
  }

  /** A send blocks while the channel is open and full, a receive while it is open and empty, and Close
      until no publisher holds the read lock. */
  predicate Enabled(s: State, l: Label) {
    match l
    case Begin(p, _, _) => p !in s.holding
    case Send(p) => p in s.holding && (s.closed || |ChannelOf(s, s.holding[p].dir).queue| < CAPACITY)
    case Consume(dir) => s.closed || ChannelOf(s, dir).queue != []
    case Close => s.holding == map[]
  }

  function Enqueue(c: Channel, p: nat, msg: Message): Channel {
    c.(queue := c.queue + [msg], accepted := c.accepted + [Post(p, msg)])
  }

  function Dequeue(c: Channel): Channel {
    if c.queue == [] then c.(zeros := c.zeros + 1)
    else c.(queue := c.queue[1..], consumed := c.consumed + [c.queue[0]])
  }

  function Next(s: State, l: Label): State
    requires Enabled(s, l)
  {
    match l
    case Begin(p, dir, msg) => if s.closed then s else s.(holding := s.holding[p := Pending(dir, msg)])
    case Send(p) =>
      var pending := s.holding[p];
      if s.closed then s.(crashed := true)
      else
        WithChannel(s, pending.dir, Enqueue(ChannelOf(s, pending.dir), p, pending.msg)).(holding := s.holding - {p})
    case Consume(dir) => WithChannel(s, dir, Dequeue(ChannelOf(s, dir)))
    case Close => s.(closed := true)
  }

  /** The state after a run, or None when some step was blocked. */
  function Exec(s: State, ls: seq<Label>): Option<State> {
    if ls == [] then Some(s)
    else match Exec(s, ls[..|ls| - 1])
      case None => None
      case Some(before) => if Enabled(before, ls[|ls| - 1]) then Some(Next(before, ls[|ls| - 1])) else None
  }

  // ---------------------------------------------------------------------------
  // The bus object, one atomic step a method
  // ---------------------------------------------------------------------------

  class MessageBus {
    var inbound: seq<Message>
    var outbound: seq<Message>
    var closed: bool
    var readers: map<nat, Pending> // the holders of the read lock
    ghost var record: State

    ghost predicate Valid()
      reads this
    {
      && record.inbound.queue == inbound && record.outbound.queue == outbound
      && record.closed == closed && record.holding == readers && Sound(record)
    }

    constructor ()
      ensures Valid() && record == INITIAL
    {
      inbound, outbound, closed, readers := [], [], false, map[];
      record := INITIAL;
    }

    /** Takes the read lock, and gives it back at once when the bus is closed. */
    method StartPublish(publisher: nat, dir: Direction, msg: Message) returns (admitted: bool)
      requires Valid() && Enabled(record, Begin(publisher, dir, msg))
      modifies this
      ensures Valid() && record == Next(old(record), Begin(publisher, dir, msg))
      ensures admitted <==> publisher in readers
    {
      record := Next(record, Begin(publisher, dir, msg));
      if closed {
        return false;
      }
      readers := readers[publisher := Pending(dir, msg)];
      admitted := true;
    }

    /** The send that the publisher was blocked in, and the release of the lock. */
    method FinishPublish(publisher: nat)
      requires Valid() && Enabled(record, Send(publisher))
      modifies this
      ensures Valid() && record == Next(old(record), Send(publisher))
    {
      var pending := readers[publisher];
      StepIsSound(record, Send(publisher));
      record := Next(record, Send(publisher));
      if pending.dir.Inbound? {
        inbound := inbound + [pending.msg];
      } else {
        outbound := outbound + [pending.msg];
      }
      readers := readers - {publisher};
    }

    /** `cancelled` tells which branch of the select is taken. */
    method ConsumeInbound(cancelled: bool) returns (msg: Message, ok: bool)
      requires Valid() && (!cancelled ==> Enabled(record, Consume(Inbound)))
      modifies this
      ensures Valid() && record == if cancelled then old(record) else Next(old(record), Consume(Inbound))
      ensures ok == !cancelled && msg == if ok && old(inbound) != [] then old(inbound)[0] else ZERO
    {
      if cancelled {
        return ZERO, false;
      }
      StepIsSound(record, Consume(Inbound));
      record := Next(record, Consume(Inbound));
      if inbound == [] {
        return ZERO, true;
      }
      msg, ok := inbound[0], true;
      inbound := inbound[1..];
    }

    /** `cancelled` tells which branch of the select is taken. */
    method SubscribeOutbound(cancelled: bool) returns (msg: Message, ok: bool)
      requires Valid() && (!cancelled ==> Enabled(record, Consume(Outbound)))
      modifies this
      ensures Valid() && record == if cancelled then old(record) else Next(old(record), Consume(Outbound))
      ensures ok == !cancelled && msg == if ok && old(outbound) != [] then old(outbound)[0] else ZERO
    {
      if cancelled {
        return ZERO, false;
      }
      StepIsSound(record, Consume(Outbound));
      record := Next(record, Consume(Outbound));
      if outbound == [] {
        return ZERO, true;
      }
      msg, ok := outbound[0], true;
      outbound := outbound[1..];
    }

    method CloseBus()
      requires Valid() && Enabled(record, Close)
      modifies this
      ensures Valid() && record == Next(old(record), Close)
    {
      record := Next(record, Close);
      if closed {
        return;
      }
      closed := true;
    }
  }

  // ---------------------------------------------------------------------------
  // Every run
  // ---------------------------------------------------------------------------

  function Messages(posts: seq<Post>): seq<Message> {
    if posts == [] then [] else Messages(posts[..|posts| - 1]) + [posts[|posts| - 1].msg]
  }

  /** Nothing lost, nothing added, nothing reordered between the send and the receive. */
  predicate Conserves(c: Channel) {
    c.consumed + c.queue == Messages(c.accepted) && |c.queue| <= 100
  }

  predicate Sound(s: State) {
    && !s.crashed && (s.closed ==> s.holding == map[])
    && Conserves(s.inbound) && Conserves(s.outbound)
    && (s.inbound.zeros > 0 ==> s.closed && s.inbound.queue == [])
    && (s.outbound.zeros > 0 ==> s.closed && s.outbound.queue == [])
  }

  lemma EnqueueConserves(c: Channel, p: nat, msg: Message)
    requires Conserves(c) && |c.queue| < CAPACITY
    ensures Conserves(Enqueue(c, p, msg))
  {
    assert (c.accepted + [Post(p, msg)])[..|c.accepted|] == c.accepted;
    assert c.consumed + (c.queue + [msg]) == c.consumed + c.queue + [msg];
  }

  lemma DequeueConserves(c: Channel)
    requires Conserves(c)
    ensures Conserves(Dequeue(c))
  {
    if c.queue != [] {
      assert c.consumed + [c.queue[0]] + c.queue[1..] == c.consumed + c.queue;
    }
  }

  lemma StepIsSound(s: State, l: Label)
    requires Sound(s) && Enabled(s, l)
    ensures Sound(Next(s, l))
  {
    if l.Send? {
      EnqueueConserves(ChannelOf(s, s.holding[l.publisher].dir), l.publisher, s.holding[l.publisher].msg);
    } else if l.Consume? {
      DequeueConserves(ChannelOf(s, l.dir));
    }
  }

  /** In every interleaving of publishers, consumers and Close: each direction's received and queued
      messages are the accepted ones in the order of their sends, at most 100 of them queued; no send
      meets a closed channel; and a receive after the end happens only when everything was received. */
  lemma {:induction false} EveryRunConserves(ls: seq<Label>)
    requires Exec(INITIAL, ls).Some?
    ensures Sound(Exec(INITIAL, ls).value)
  {
    if ls != [] {
      EveryRunConserves(ls[..|ls| - 1]);
      StepIsSound(Exec(INITIAL, ls[..|ls| - 1]).value, ls[|ls| - 1]);
    }
  }

  /** The messages of one publisher among the accepted. */
  function By(posts: seq<Post>, p: nat): seq<Message> {
    if posts == [] then []
    else By(posts[..|posts| - 1], p) + (if posts[|posts| - 1].publisher == p then [posts[|posts| - 1].msg] else [])
  }

  /** What a publisher began to publish in a direction before the bus was closed. */
  function Published(ls: seq<Label>, p: nat, dir: Direction): seq<Message> {
    if ls == [] then []
    else
      var past, l := ls[..|ls| - 1], ls[|ls| - 1];
      Published(past, p, dir) + (if l.Begin? && l.publisher == p && l.dir == dir && Close !in past then [l.msg] else [])
  }

  function InFlight(s: State, p: nat, dir: Direction): seq<Message> {
    if p in s.holding && s.holding[p].dir == dir then [s.holding[p].msg] else []
  }

  lemma ByNext(posts: seq<Post>, post: Post, p: nat)
    ensures By(posts + [post], p) == By(posts, p) + if post.publisher == p then [post.msg] else []
  {
    assert (posts + [post])[..|posts|] == posts;
  }

  lemma {:induction false} ClosedByClose(ls: seq<Label>)
    requires Exec(INITIAL, ls).Some?
    ensures Exec(INITIAL, ls).value.closed <==> Close in ls
  {
    if ls != [] { ClosedByClose(ls[..|ls| - 1]); }
  }

  function Begun(s: State, p: nat, dir: Direction): seq<Message> {
    By(ChannelOf(s, dir).accepted, p) + InFlight(s, p, dir)
  }

  lemma BeginKeepsOrder(s: State, l: Label, p: nat, dir: Direction)
    requires l.Begin? && Enabled(s, l)
    ensures Begun(Next(s, l), p, dir)
         == Begun(s, p, dir) + if l.publisher == p && l.dir == dir && !s.closed then [l.msg] else []
  {
    var more := if l.publisher == p && l.dir == dir && !s.closed then [l.msg] else [];
    assert InFlight(Next(s, l), p, dir) == InFlight(s, p, dir) + more;
    assert ChannelOf(Next(s, l), dir) == ChannelOf(s, dir);
    Associative(By(ChannelOf(s, dir).accepted, p), InFlight(s, p, dir), more);
  }

  lemma SendAccepts(s: State, l: Label, dir: Direction)
    requires l.Send? && Enabled(s, l) && Sound(s)
    ensures Next(s, l).holding == s.holding - {l.publisher}
    ensures var pending := s.holding[l.publisher];
            ChannelOf(Next(s, l), dir).accepted
            == ChannelOf(s, dir).accepted + if pending.dir == dir then [Post(l.publisher, pending.msg)] else []
  {
  }

  lemma SendKeepsOrder(s: State, l: Label, p: nat, dir: Direction)
    requires l.Send? && Enabled(s, l) && Sound(s)
    ensures Begun(Next(s, l), p, dir) == Begun(s, p, dir)
  {
    var pending := s.holding[l.publisher];
    var accepted := ChannelOf(s, dir).accepted;
    SendAccepts(s, l, dir);
    if pending.dir == dir {
      ByNext(accepted, Post(l.publisher, pending.msg), p);
    }
    if pending.dir == dir && l.publisher == p {
      assert InFlight(s, p, dir) == [pending.msg] && InFlight(Next(s, l), p, dir) == [];
    } else {
      assert InFlight(Next(s, l), p, dir) == InFlight(s, p, dir);
      assert By(ChannelOf(Next(s, l), dir).accepted, p) == By(accepted, p);
    }
  }

  /** What one publisher began before the close is accepted, in its order and once; only the message it is
      still sending is missing.  What it began after the close is dropped. */
  lemma {:induction false} PublishersKeepOrder(ls: seq<Label>, p: nat, dir: Direction)
    requires Exec(INITIAL, ls).Some?
    ensures Begun(Exec(INITIAL, ls).value, p, dir) == Published(ls, p, dir)
  {
    if ls != [] {
      var past, l := ls[..|ls| - 1], ls[|ls| - 1];
      PublishersKeepOrder(past, p, dir);
      var before := Exec(INITIAL, past).value;
      if l.Begin? {
        ClosedByClose(past);
        BeginKeepsOrder(before, l, p, dir);
      } else if l.Send? {
        EveryRunConserves(past);
        SendKeepsOrder(before, l, p, dir);
      } else {
        OtherKeepsOrder(before, l, p, dir);
      }
    }
  }

  lemma OthersAcceptNothing(s: State, l: Label, dir: Direction)
    requires !l.Begin? && !l.Send? && Enabled(s, l)
    ensures ChannelOf(Next(s, l), dir).accepted == ChannelOf(s, dir).accepted && Next(s, l).holding == s.holding
  {
  }

  lemma OtherKeepsOrder(s: State, l: Label, p: nat, dir: Direction)
    requires !l.Begin? && !l.Send? && Enabled(s, l)
    ensures Begun(Next(s, l), p, dir) == Begun(s, p, dir)
  {
    OthersAcceptNothing(s, l, dir);
  }

  /** After the close nothing more is accepted; receives drain the queue and then yield empty messages. */
  lemma {:induction false} CloseEndsIntake(s: State, ls: seq<Label>, dir: Direction)
    requires Sound(s) && s.closed && Exec(s, ls).Some?
    ensures var s' := Exec(s, ls).value;
            Sound(s') && s'.closed && ChannelOf(s', dir).accepted == ChannelOf(s, dir).accepted
  {
    if ls != [] {
      CloseEndsIntake(s, ls[..|ls| - 1], dir);
      StepIsSound(Exec(s, ls[..|ls| - 1]).value, ls[|ls| - 1]);
    }
  }

  /** Close waits for the consumers: while a publisher is blocked on a full channel, no run without a
      receive from that channel closes the bus. */
  lemma {:induction false} CloseNeedsAConsumer(s: State, ls: seq<Label>, p: nat)
    requires !s.closed && p in s.holding && |ChannelOf(s, s.holding[p].dir).queue| == 100
    requires Exec(s, ls).Some? && Consume(s.holding[p].dir) !in ls
    ensures var s' := Exec(s, ls).value;
            !s'.closed && p in s'.holding && s'.holding[p] == s.holding[p]
            && |ChannelOf(s', s.holding[p].dir).queue| == 100
  {
    if ls != [] {
      var past := ls[..|ls| - 1];
      CloseNeedsAConsumer(s, past, p);
      assert ls[|ls| - 1] != Consume(s.holding[p].dir);
    }
  }

  /** What never blocks: a send into a channel with fewer than a hundred messages, a receive from one that holds a
      message, and a close while no publisher is on its way. */
  lemma NeverBlocks(s: State, p: nat, dir: Direction)
    ensures p in s.holding && |ChannelOf(s, s.holding[p].dir).queue| < 100 ==> Enabled(s, Send(p))
    ensures ChannelOf(s, dir).queue != [] ==> Enabled(s, Consume(dir))
    ensures s.holding == map[] ==> Enabled(s, Close)
  {
  }

  /** A receive takes the oldest message of its direction; on an empty queue it counts as one after the end. */
  lemma ConsumeIs(s: State, dir: Direction)
    requires Enabled(s, Consume(dir))
    ensures var c, c' := ChannelOf(s, dir), ChannelOf(Next(s, Consume(dir)), dir);
            && c'.accepted == c.accepted
            && (c.queue != [] ==>
                  c.queue == [c.queue[0]] + c'.queue && c'.consumed == c.consumed + [c.queue[0]] && c'.zeros == c.zeros)
            && (c.queue == [] ==> c'.queue == [] && c'.consumed == c.consumed && c'.zeros == c.zeros + 1)
  {
  }
}
