/** The broker under arbitrary interleaving.  An Emit is two critical sections, the buffer update under
    the exclusive lock and the fan-out under the shared lock; Subscribe and Unsubscribe run under the
    exclusive lock.  Fan-outs may overlap each other send by send, and consumers receive at any time. */
module BrokerRuns {
  import opened Broker
  import opened Wrappers

  /** When a subscription ended: the number of events buffered by then, and those among them that had not
      begun their fan-out. */
  datatype End = End(emitted: nat, waiting: set<nat>)

  /** `missed` was replayed at the beginning, `offered` was attempted by fan-outs since.  `born` is the
      number of events buffered when the subscription began, `racing` those among them that had not begun
      their fan-out. */
  datatype Sub = Sub(session: string, cursor: string, feed: Feed, missed: seq<Event>, offered: seq<Event>,
                     born: nat, racing: set<nat>, ended: Option<End>)

  datatype Kind = Replayed | FannedOut

  datatype Attempt = Attempt(sub: nat, call: nat, kind: Kind)

  datatype State = State(
    buffers: map<string, seq<Event>>,
    subs: map<nat, Sub>,
    nextId: nat,
    emitted: seq<Event>,            // every buffered event, in order; the c-th carries call number c
    waiting: set<nat>,              // buffered, fan-out not begun
    fans: map<nat, set<nat>>,       // running fan-outs, which hold the shared lock: subscriptions to go
    targets: map<nat, set<nat>>,    // begun fan-outs: all the subscriptions they go to
    log: multiset<Attempt>,         // every attempt to send
    crashed: bool)                  // a send on a closed channel happened

  datatype Label =
    | Buffer(session: string, messageId: string, body: string)
    | BeginFan(call: nat)
    | Send(call: nat, sub: nat)
    | EndFan(call: nat)
    | Subscribe(session: string, cursor: string)
    | Unsubscribe(sub: nat)
    | Receive(sub: nat)

  function OpenSubs(s: State, session: string): set<nat> {
    set id | id in s.subs && s.subs[id].ended.None? && s.subs[id].session == session
  }

  function Replays(sub: nat, es: seq<Event>): multiset<Attempt> {
    if es == [] then multiset{}
    else Replays(sub, es[..|es| - 1]) + multiset{Attempt(sub, es[|es| - 1].call, Replayed)}
  }

  /** When a step can be taken: the locks, and that each subscription is unsubscribed once. */
  predicate Enabled(s: State, l: Label) {
    match l
    case Buffer(_, _, _) => s.fans == map[]
    case BeginFan(call) => call in s.waiting && call < |s.emitted|
    case Send(call, sub) => call in s.fans && sub in s.fans[call] && sub in s.subs && call < |s.emitted|
    case EndFan(call) => call in s.fans && s.fans[call] == {}
    case Subscribe(_, _) => s.fans == map[]
    case Unsubscribe(sub) => s.fans == map[] && sub in s.subs && s.subs[sub].ended.None?
    case Receive(sub) => sub in s.subs && s.subs[sub].feed.queue != []
  }

  function Next(s: State, l: Label): State
    requires Enabled(s, l)
  {
    match l
    case Buffer(session, messageId, body) =>
      var e := Event(session, messageId, body, |s.emitted|);
      s.(buffers := s.buffers[session := LastN(BufferOf(s.buffers, session) + [e], BUFFER_PER_SESSION)],
         emitted := s.emitted + [e],
         waiting := s.waiting + {|s.emitted|})
    case BeginFan(call) =>
      var open := OpenSubs(s, s.emitted[call].session);
      s.(waiting := s.waiting - {call}, fans := s.fans[call := open], targets := s.targets[call := open])
    case Send(call, id) =>
      var sub := s.subs[id];
      s.(fans := s.fans[call := s.fans[call] - {id}],
         subs := s.subs[id := sub.(feed := Offered(sub.feed, s.emitted[call]),
                                   offered := sub.offered + [s.emitted[call]])],
         log := s.log + multiset{Attempt(id, call, FannedOut)},
         crashed := s.crashed || sub.ended.Some?)
    case EndFan(call) => s.(fans := s.fans - {call})
    case Subscribe(session, cursor) =>
      var missed := Missed(BufferOf(s.buffers, session), cursor);
      var id := s.nextId + 1;
      s.(nextId := id,
         subs := s.subs[id := Sub(session, cursor, Subscribed(missed), missed, [], |s.emitted|, s.waiting, None)],
         log := s.log + Replays(id, missed))
    case Unsubscribe(id) => s.(subs := s.subs[id := s.subs[id].(ended := Some(End(|s.emitted|, s.waiting)))])
    case Receive(id) => s.(subs := s.subs[id := s.subs[id].(feed := Received(s.subs[id].feed))])
  }

  const Initial: State := State(map[], map[], 0, [], {}, map[], map[], multiset{}, false)

  /** The state after a run; a label whose step cannot be taken is skipped, so the lists of labels cover
      exactly the interleavings. */
  function After(run: seq<Label>): State {
    if run == [] then Initial
    else
      var s, l := After(run[..|run| - 1]), run[|run| - 1];
      if Enabled(s, l) then Next(s, l) else s
  }

  // ---------------------------------------------------------------------------
  // What every step keeps
  // ---------------------------------------------------------------------------

  /** Events are numbered in increasing order. */
  predicate Increasing(es: seq<Event>, limit: nat) {
    && (forall i, j :: 0 <= i < j < |es| ==> es[i].call < es[j].call)
    && (forall i :: 0 <= i < |es| ==> es[i].call < limit)
  }

  ghost predicate BuffersOk(s: State) {
    && (forall session :: session in s.buffers ==>
          Increasing(s.buffers[session], |s.emitted|) && OfSession(s.buffers[session], session))
  }

  /** Each call is either waiting or has begun its fan-out. */
  ghost predicate CallsOk(s: State) {
    && (forall c: nat :: c in s.waiting ==> c !in s.targets)
    && (forall c: nat :: c in s.waiting || c in s.targets <==> c < |s.emitted|)
    && (forall c :: c in s.fans ==> c in s.targets && s.fans[c] <= s.targets[c])
  }

  /** While a fan-out holds the shared lock, the subscriptions it still goes to stay open. */
  ghost predicate FansOk(s: State) {
    forall c, id :: c in s.fans && id in s.fans[c] ==>
      id in s.subs && s.subs[id].ended.None? && c < |s.emitted| && s.subs[id].session == s.emitted[c].session
  }

  ghost predicate SubsOk(s: State) {
    forall id :: id in s.subs ==>
      && id <= s.nextId && s.subs[id].born <= |s.emitted| && |s.subs[id].feed.queue| <= SUB_CHAN_SIZE
      && OfSession(s.subs[id].feed.queue, s.subs[id].session)
  }

  predicate Sent(s: State, id: nat, c: nat) {
    c in s.targets && id in s.targets[c] && !(c in s.fans && id in s.fans[c])
  }

  /** The log holds one fan-out attempt for each target that a fan-out is done with, and no other. */
  ghost predicate FanLogOk(s: State) {
    forall id, c :: s.log[Attempt(id, c, FannedOut)] == if Sent(s, id, c) then 1 else 0
  }

  ghost predicate ReplayLogOk(s: State) {
    forall id, c :: s.log[Attempt(id, c, Replayed)] <= 1
      && (s.log[Attempt(id, c, Replayed)] > 0 ==> id in s.subs && c < s.subs[id].born)
  }

  /** Fan-outs go only to subscriptions of the event's session, and of the events buffered before a
      subscription began only the racing ones are fanned out to it. */
  ghost predicate TargetsOk(s: State) {
    forall c, id :: c in s.targets && id in s.targets[c] ==>
      && id in s.subs && (c >= s.subs[id].born || c in s.subs[id].racing)
      && c < |s.emitted| && s.emitted[c].session == s.subs[id].session
  }

  ghost predicate RacingOk(s: State) {
    forall c, id :: c in s.waiting && id in s.subs ==> c >= s.subs[id].born || c in s.subs[id].racing
  }

  /** The event is one of the subscription's session, and either newer than the subscription or racing. */
  predicate Wants(s: State, id: nat, c: nat) {
    && id in s.subs && c < |s.emitted| && s.emitted[c].session == s.subs[id].session
    && (c >= s.subs[id].born || c in s.subs[id].racing)
  }

  /** The subscription goes on, or the event's fan-out began before it ended. */
  predicate InTime(s: State, id: nat, c: nat)
    requires id in s.subs
  {
    match s.subs[id].ended
    case None => true
    case Some(end) => c < end.emitted && c !in end.waiting
  }

  /** Every begun fan-out goes to all subscriptions that want its event and have not ended before. */
  ghost predicate Complete(s: State) {
    forall c, id :: c in s.targets && Wants(s, id, c) && InTime(s, id, c) ==> id in s.targets[c]
  }

  /** What waits for its fan-out comes too late for the subscriptions that have ended. */
  ghost predicate LateOk(s: State) {
    forall c, id :: c in s.waiting && id in s.subs && s.subs[id].ended.Some? ==> !InTime(s, id, c)
  }

  /** No begun fan-out went to a subscription that had ended. */
  ghost predicate TimelyOk(s: State) {
    forall c, id :: c in s.targets && id in s.targets[c] && id in s.subs ==> InTime(s, id, c)
  }

  ghost predicate EndsOk(s: State) {
    forall id :: id in s.subs && s.subs[id].ended.Some? ==> s.subs[id].ended.value.emitted <= |s.emitted|
  }

  ghost predicate Inv(s: State) {
    && !s.crashed
    && BuffersOk(s) && CallsOk(s) && FansOk(s) && SubsOk(s)
    && FanLogOk(s) && ReplayLogOk(s) && RacingOk(s) && TargetsOk(s) && Complete(s) && LateOk(s) && TimelyOk(s)
    && EndsOk(s)
  }

  lemma LastNIncreasing(es: seq<Event>, limit: nat, e: Event)
    requires Increasing(es, limit) && e.call == limit
    ensures Increasing(LastN(es + [e], BUFFER_PER_SESSION), limit + 1)
  {
  }

  lemma BuffersStep(s: State, l: Label)
    requires BuffersOk(s) && Enabled(s, l)
    ensures BuffersOk(Next(s, l))
  {
    if l.Buffer? {
      LastNIncreasing(BufferOf(s.buffers, l.session), |s.emitted|,
                      Event(l.session, l.messageId, l.body, |s.emitted|));
    }
  }

  lemma CallsStep(s: State, l: Label)
    requires CallsOk(s) && Enabled(s, l)
    ensures CallsOk(Next(s, l))
  {
  }

  lemma FansStep(s: State, l: Label)
    requires CallsOk(s) && FansOk(s) && SubsOk(s) && Enabled(s, l)
    ensures FansOk(Next(s, l))
  {
  }

  lemma {:induction false} OfferAllSession(es: seq<Event>, session: string)
    requires OfSession(es, session)
    ensures OfSession(OfferAll([], es), session) && |OfferAll([], es)| <= SUB_CHAN_SIZE
  {
    if es != [] { OfferAllSession(es[..|es| - 1], session); }
  }

  lemma SubsStep(s: State, l: Label)
    requires BuffersOk(s) && CallsOk(s) && FansOk(s) && SubsOk(s) && Enabled(s, l)
    ensures SubsOk(Next(s, l))
  {
    if l.Subscribe? {
      OfferAllSession(Missed(BufferOf(s.buffers, l.session), l.cursor), l.session);
    }
  }

  lemma {:induction false} ReplaysCount(sub: nat, es: seq<Event>, limit: nat, x: Attempt)
    requires Increasing(es, limit)
    ensures Replays(sub, es)[x] <= 1
    ensures Replays(sub, es)[x] > 0 ==> x.sub == sub && x.kind == Replayed && x.call < limit
    ensures Replays(sub, es)[x] > 0 ==> exists i :: 0 <= i < |es| && es[i].call == x.call
  {
    if es != [] {
      var past := es[..|es| - 1];
      ReplaysCount(sub, past, limit, x);
      if Replays(sub, past)[x] > 0 {
        var i :| 0 <= i < |past| && past[i].call == x.call;
        assert es[i].call == x.call;
      }
      if x == Attempt(sub, es[|es| - 1].call, Replayed) {
        assert es[|es| - 1].call == x.call;
      }
    }
  }

  /** How a step changes the number of times one attempt is logged. */
  lemma LogChange(s: State, l: Label, x: Attempt)
    requires BuffersOk(s) && Enabled(s, l)
    ensures l.Send? ==> Next(s, l).log[x] == s.log[x] + if x == Attempt(l.sub, l.call, FannedOut) then 1 else 0
    ensures l.Subscribe? ==> s.log[x] <= Next(s, l).log[x] <= s.log[x] + 1
    ensures l.Subscribe? && Next(s, l).log[x] > s.log[x] ==>
              x.sub == s.nextId + 1 && x.kind == Replayed && x.call < |s.emitted|
    ensures !l.Send? && !l.Subscribe? ==> Next(s, l).log[x] == s.log[x]
  {
    if l.Subscribe? {
      ReplaysCount(s.nextId + 1, Missed(BufferOf(s.buffers, l.session), l.cursor), |s.emitted|, x);
    }
  }

  lemma SentChange(s: State, l: Label, id: nat, c: nat)
    requires CallsOk(s) && Enabled(s, l)
    ensures Sent(Next(s, l), id, c) <==> Sent(s, id, c) || (l == Send(c, id))
    ensures l == Send(c, id) ==> !Sent(s, id, c)
  {
  }

  lemma FanLogStep(s: State, l: Label)
    requires BuffersOk(s) && CallsOk(s) && FanLogOk(s) && Enabled(s, l)
    ensures FanLogOk(Next(s, l))
  {
    var s' := Next(s, l);
    forall id, c ensures s'.log[Attempt(id, c, FannedOut)] == if Sent(s', id, c) then 1 else 0 {
      LogChange(s, l, Attempt(id, c, FannedOut));
      SentChange(s, l, id, c);
    }
  }

  lemma ReplayLogStep(s: State, l: Label)
    requires BuffersOk(s) && SubsOk(s) && ReplayLogOk(s) && Enabled(s, l)
    ensures ReplayLogOk(Next(s, l))
  {
    var s' := Next(s, l);
    forall id: nat, c: nat
      ensures s'.log[Attempt(id, c, Replayed)] <= 1
      ensures s'.log[Attempt(id, c, Replayed)] > 0 ==> id in s'.subs && c < s'.subs[id].born
    {
      LogChange(s, l, Attempt(id, c, Replayed));
    }
  }

  lemma RacingStep(s: State, l: Label)
    requires CallsOk(s) && SubsOk(s) && RacingOk(s) && Enabled(s, l)
    ensures RacingOk(Next(s, l))
  {
  }

  lemma TargetsStep(s: State, l: Label)
    requires SubsOk(s) && RacingOk(s) && TargetsOk(s) && Enabled(s, l)
    ensures TargetsOk(Next(s, l))
  {
  }

  /** A step ends at most the subscription that it unsubscribes, and with what waits at that moment. */
  lemma EndedStep(s: State, l: Label, id: nat)
    requires SubsOk(s) && Enabled(s, l) && id in Next(s, l).subs
    ensures id !in s.subs ==> Next(s, l).subs[id].ended.None?
    ensures id in s.subs ==>
              Next(s, l).subs[id].ended
              == if l == Unsubscribe(id) then Some(End(|s.emitted|, s.waiting)) else s.subs[id].ended
  {
  }

  lemma CompleteStep(s: State, l: Label)
    requires CallsOk(s) && SubsOk(s) && Complete(s) && LateOk(s) && Enabled(s, l)
    ensures Complete(Next(s, l))
  {
    var s' := Next(s, l);
    forall c, id | c in s'.targets && Wants(s', id, c) && InTime(s', id, c) ensures id in s'.targets[c] {
      CompleteAt(s, l, c, id);
    }
  }

  lemma CompleteAt(s: State, l: Label, c: nat, id: nat)
    requires CallsOk(s) && SubsOk(s) && Complete(s) && LateOk(s) && Enabled(s, l)
    requires c in Next(s, l).targets && Wants(Next(s, l), id, c) && InTime(Next(s, l), id, c)
    ensures id in Next(s, l).targets[c]
  {
    EndedStep(s, l, id);
    if l == BeginFan(c) {
      assert id in s.subs && s.subs[id].ended.Some? ==> !InTime(s, id, c);
    } else {
      assert c in s.targets && Next(s, l).targets[c] == s.targets[c];
      assert id in s.subs ==> Wants(s, id, c) && InTime(s, id, c);
    }
  }

  lemma EndsStep(s: State, l: Label)
    requires SubsOk(s) && EndsOk(s) && Enabled(s, l)
    ensures EndsOk(Next(s, l))
  {
    forall id | id in Next(s, l).subs && Next(s, l).subs[id].ended.Some?
      ensures Next(s, l).subs[id].ended.value.emitted <= |Next(s, l).emitted|
    {
      EndedStep(s, l, id);
    }
  }

  lemma LateStep(s: State, l: Label)
    requires SubsOk(s) && EndsOk(s) && LateOk(s) && Enabled(s, l)
    ensures LateOk(Next(s, l))
  {
    var s' := Next(s, l);
    forall c, id | c in s'.waiting && id in s'.subs && s'.subs[id].ended.Some? ensures !InTime(s', id, c) {
      EndedStep(s, l, id);
      assert c in s.waiting || (l.Buffer? && c == |s.emitted|);
      if c in s.waiting && l != Unsubscribe(id) {
        assert !InTime(s, id, c);
      }
    }
  }

  lemma TimelyStep(s: State, l: Label)
    requires CallsOk(s) && SubsOk(s) && TimelyOk(s) && Enabled(s, l)
    ensures TimelyOk(Next(s, l))
  {
    var s' := Next(s, l);
    forall c, id | c in s'.targets && id in s'.targets[c] && id in s'.subs ensures InTime(s', id, c) {
      TimelyAt(s, l, c, id);
    }
  }

  lemma TimelyAt(s: State, l: Label, c: nat, id: nat)
    requires CallsOk(s) && SubsOk(s) && TimelyOk(s) && Enabled(s, l)
    requires c in Next(s, l).targets && id in Next(s, l).targets[c] && id in Next(s, l).subs
    ensures InTime(Next(s, l), id, c)
  {
    EndedStep(s, l, id);
    if c in s.targets && l != BeginFan(c) {
      assert Next(s, l).targets[c] == s.targets[c];
    }
  }

  lemma NextKeeps(s: State, l: Label)
    requires Inv(s) && Enabled(s, l)
    ensures Inv(Next(s, l))
  {
    BuffersStep(s, l);
    CallsStep(s, l);
    FansStep(s, l);
    SubsStep(s, l);
    FanLogStep(s, l);
    ReplayLogStep(s, l);
    RacingStep(s, l);
    TargetsStep(s, l);
    CompleteStep(s, l);
    EndsStep(s, l);
    LateStep(s, l);
    TimelyStep(s, l);
  }

  lemma {:induction false} Reachable(run: seq<Label>)
    ensures Inv(After(run))
  {
    if run != [] {
      Reachable(run[..|run| - 1]);
      var s, l := After(run[..|run| - 1]), run[|run| - 1];
      if Enabled(s, l) { NextKeeps(s, l); }
    }
  }

  // ---------------------------------------------------------------------------
  // The guarantees
  // ---------------------------------------------------------------------------

  /** In every interleaving the broker never sends on a closed channel, and no channel overflows. */
  lemma NeverSendsOnClosed(run: seq<Label>)
    ensures !After(run).crashed
    ensures forall id :: id in After(run).subs ==> |After(run).subs[id].feed.queue| <= SUB_CHAN_SIZE
  {
    Reachable(run);
  }

  function Attempts(s: State, id: nat, c: nat): nat {
    s.log[Attempt(id, c, Replayed)] + s.log[Attempt(id, c, FannedOut)]
  }

  /** Each event is attempted on a subscription at most twice, once by replay and once by fan-out. */
  lemma AtMostTwice(run: seq<Label>, id: nat, c: nat)
    ensures After(run).log[Attempt(id, c, Replayed)] <= 1
    ensures After(run).log[Attempt(id, c, FannedOut)] <= 1
  {
    Reachable(run);
  }

  /** Once its fan-out is over, an event of the subscription's session was attempted twice exactly when it
      was replayed and was racing, that is, had not begun its fan-out when the subscription began, and the
      fan-out began before the subscription ended. */
  lemma TwiceIff(run: seq<Label>, id: nat, c: nat)
    requires var s := After(run);
             && id in s.subs && c < |s.emitted| && s.emitted[c].session == s.subs[id].session
             && c !in s.waiting && c !in s.fans
    ensures var s := After(run);
            Attempts(s, id, c) == 2
            <==> s.log[Attempt(id, c, Replayed)] == 1 && c in s.subs[id].racing && InTime(s, id, c)
  {
    Reachable(run);
    var s := After(run);
    AtMostTwice(run, id, c);
    FannedOutIff(run, id, c);
    if c >= s.subs[id].born {
      assert s.log[Attempt(id, c, Replayed)] == 0;
    }
  }

  /** Once its fan-out is over, an event of the session was attempted by it on exactly the subscriptions that
      want it and had not ended when it began. */
  lemma FannedOutIff(run: seq<Label>, id: nat, c: nat)
    requires var s := After(run);
             && id in s.subs && c < |s.emitted| && s.emitted[c].session == s.subs[id].session
             && c !in s.waiting && c !in s.fans
    ensures var s := After(run);
            s.log[Attempt(id, c, FannedOut)] == if Wants(s, id, c) && InTime(s, id, c) then 1 else 0
  {
    Reachable(run);
    var s := After(run);
    assert s.log[Attempt(id, c, FannedOut)] == if Sent(s, id, c) then 1 else 0;
    assert Sent(s, id, c) <==> id in s.targets[c];
  }

  /** Every event of its session that is buffered after a subscription began has been attempted on it
      exactly once as soon as its fan-out is over, if that fan-out began before the subscription ended, and
      otherwise never; and not at all before the fan-out begins. */
  lemma AttemptedExactlyOnce(run: seq<Label>, id: nat, c: nat)
    requires var s := After(run);
             && id in s.subs && s.subs[id].born <= c < |s.emitted|
             && s.emitted[c].session == s.subs[id].session
    ensures var s := After(run);
            && (c !in s.waiting && c !in s.fans ==> Attempts(s, id, c) == if InTime(s, id, c) then 1 else 0)
            && (c in s.waiting ==> Attempts(s, id, c) == 0)
  {
    Reachable(run);
    var s := After(run);
    assert s.log[Attempt(id, c, Replayed)] == 0;
    if c in s.waiting {
      assert !Sent(s, id, c);
    } else if c !in s.fans {
      FannedOutIff(run, id, c);
    }
  }

  /** After a subscription has ended nothing is attempted on it any more. */
  lemma NothingAfterTheEnd(run: seq<Label>, l: Label, id: nat, c: nat)
    requires id in After(run).subs && After(run).subs[id].ended.Some? && Enabled(After(run), l)
    ensures Attempts(Next(After(run), l), id, c) == Attempts(After(run), id, c)
    ensures id in Next(After(run), l).subs && Next(After(run), l).subs[id].ended.Some?
  {
    Reachable(run);
    LogChange(After(run), l, Attempt(id, c, Replayed));
    LogChange(After(run), l, Attempt(id, c, FannedOut));
  }

  /** An attempt of a fan-out fails only when that channel is full; no other queue changes. */
  lemma FailsOnlyWhenFull(run: seq<Label>, c: nat, id: nat)
    requires Enabled(After(run), Send(c, id))
    ensures var s, s' := After(run), Next(After(run), Send(c, id));
            && s'.subs[id].feed.queue
               == s.subs[id].feed.queue + (if |s.subs[id].feed.queue| == SUB_CHAN_SIZE then [] else [s.emitted[c]])
            && forall i :: i in s.subs && i != id ==> i in s'.subs && s'.subs[i] == s.subs[i]
  {
    Reachable(run);
  }

  /** Only events of a subscription's own session are ever in its channel. */
  lemma OnlyOwnSession(run: seq<Label>, id: nat)
    requires id in After(run).subs
    ensures OfSession(After(run).subs[id].feed.queue, After(run).subs[id].session)
  {
    Reachable(run);
  }

  lemma AfterSnoc(run: seq<Label>, l: Label)
    ensures After(run + [l]) == if Enabled(After(run), l) then Next(After(run), l) else After(run)
  {
    assert (run + [l])[..|run|] == run;
  }

  /** Overlapping Emits deliver an event twice: one that was replayed to a new subscriber while it was
      still waiting for its fan-out is sent again by the fan-out. */
  lemma ReplayedRacingEventArrivesTwice(run: seq<Label>, id: nat, c: nat)
    requires var s := After(run);
             && id in s.subs && s.subs[id].ended.None? && c in s.waiting && c < |s.emitted|
             && s.emitted[c].session == s.subs[id].session
             && s.log[Attempt(id, c, Replayed)] == 1
    ensures Attempts(After(run + [BeginFan(c)] + [Send(c, id)]), id, c) == 2
  {
    Reachable(run);
    AfterSnoc(run, BeginFan(c));
    AfterSnoc(run + [BeginFan(c)], Send(c, id));
    assert !Sent(After(run), id, c);
  }

  /** Such a state is reached by two overlapping Emits and a subscription that resumes at the first. */
  lemma RacingReplayHappens() returns (run: seq<Label>)
    ensures var s := After(run);
            && 1 in s.subs && s.subs[1].ended.None? && 1 in s.waiting && 1 < |s.emitted|
            && s.emitted[1].session == s.subs[1].session && s.log[Attempt(1, 1, Replayed)] == 1
  {
    var emits := [] + [Buffer("s", "m", "a")] + [Buffer("s", "n", "b")];
    TwoBuffered();
    MissedSecond();
    AfterSnoc(emits, Subscribe("s", "m"));
    SubscribeReplays(After(emits), "s", "m", Event("s", "n", "b", 1));
    run := emits + [Subscribe("s", "m")];
  }

  lemma MissedSecond()
    ensures Missed([Event("s", "m", "a", 0), Event("s", "n", "b", 1)], "m") == [Event("s", "n", "b", 1)]
  {
    var buf := [Event("s", "m", "a", 0), Event("s", "n", "b", 1)];
    assert "n"[0] != "m"[0];
    assert CursorIndex(buf, "m") == 0;
  }

  lemma SubscribeReplays(s: State, session: string, cursor: string, e: Event)
    requires Enabled(s, Subscribe(session, cursor)) && Missed(BufferOf(s.buffers, session), cursor) == [e]
    requires s.log == multiset{}
    ensures var s', id := Next(s, Subscribe(session, cursor)), s.nextId + 1;
            && id in s'.subs && s'.subs[id].ended.None? && s'.subs[id].session == session
            && s'.waiting == s.waiting && s'.emitted == s.emitted && s'.log[Attempt(id, e.call, Replayed)] == 1
  {
    var id := s.nextId + 1;
    assert Replays(id, [e]) == multiset{Attempt(id, e.call, Replayed)} by {
      assert [e][..0] == [];
    }
  }

  lemma TwoBuffered()
    ensures var s := After([] + [Buffer("s", "m", "a")] + [Buffer("s", "n", "b")]);
            var a, b := Event("s", "m", "a", 0), Event("s", "n", "b", 1);
            && s.emitted == [a, b] && BufferOf(s.buffers, "s") == [a, b] && s.waiting == {0, 1}
            && s.fans == map[] && s.subs == map[] && s.nextId == 0 && s.log == multiset{}
  {
    var a, b := Event("s", "m", "a", 0), Event("s", "n", "b", 1);
    AfterSnoc([], Buffer("s", "m", "a"));
    assert [] + [a] == [a] && [a] + [b] == [a, b];
    AfterSnoc([] + [Buffer("s", "m", "a")], Buffer("s", "n", "b"));
  }
}
