/** What buffers hold and subscribers get over whole runs of the broker. */
module BrokerFeeds {
  import opened Broker
  import opened BrokerRuns
  import opened Wrappers

  /** The events of one session among those numbered from lo to hi. */
  function Events(es: seq<Event>, session: string, lo: nat, hi: nat): seq<Event>
    requires hi <= |es|
  {
    if hi <= lo then []
    else Events(es, session, lo, hi - 1) + (if es[hi - 1].session == session then [es[hi - 1]] else [])
  }

  lemma {:induction false} EventsPrefix(es: seq<Event>, e: Event, session: string, lo: nat, hi: nat)
    requires hi <= |es|
    ensures Events(es + [e], session, lo, hi) == Events(es, session, lo, hi)
  {
    if hi > lo { EventsPrefix(es, e, session, lo, hi - 1); }
  }

  lemma LastNAgain(es: seq<Event>, e: Event, n: nat)
    ensures LastN(LastN(es, n) + [e], n) == LastN(es + [e], n)
  {
  }

  predicate BufferOk(s: State, session: string) {
    BufferOf(s.buffers, session) == LastN(Events(s.emitted, session, 0, |s.emitted|), BUFFER_PER_SESSION)
  }

  lemma BufferStep(s: State, l: Label, session: string)
    requires BufferOk(s, session) && Enabled(s, l)
    ensures BufferOk(Next(s, l), session)
  {
    if l.Buffer? {
      var e := Event(l.session, l.messageId, l.body, |s.emitted|);
      var events := Events(s.emitted, session, 0, |s.emitted|);
      EventsPrefix(s.emitted, e, session, 0, |s.emitted|);
      assert Events(s.emitted + [e], session, 0, |s.emitted| + 1) == events + if e.session == session then [e] else [];
      LastNAgain(events, e, BUFFER_PER_SESSION);
    }
  }

  /** In every interleaving, overlapping Emits included, a session's buffer is exactly the last
      min(n, 1000) of its n events. */
  lemma BufferIsLastEvents(run: seq<Label>, session: string)
    ensures BufferOk(After(run), session)
    ensures var s := After(run);
            var buf, events := BufferOf(s.buffers, session), Events(s.emitted, session, 0, |s.emitted|);
            && |buf| == (if |events| < 1000 then |events| else 1000)
            && buf == events[|events| - |buf|..]
  {
    BufferAlwaysOk(run, session);
  }

  lemma {:induction false} BufferAlwaysOk(run: seq<Label>, session: string)
    ensures BufferOk(After(run), session)
  {
    if run != [] {
      var s, l := After(run[..|run| - 1]), run[|run| - 1];
      BufferAlwaysOk(run[..|run| - 1], session);
      if Enabled(s, l) { BufferStep(s, l, session); }
    }
  }

  /** What a subscription was offered by replay and by fan-outs. */
  function Wanted(sub: Sub): seq<Event> {
    sub.missed + sub.offered
  }

  lemma FeedStep(s: State, l: Label, id: nat)
    requires SubsOk(s) && Enabled(s, l) && id in Next(s, l).subs
    requires id in s.subs ==> Follows(s.subs[id].feed, Wanted(s.subs[id]))
    ensures Follows(Next(s, l).subs[id].feed, Wanted(Next(s, l).subs[id]))
  {
    if id !in s.subs {
      var missed := Missed(BufferOf(s.buffers, l.session), l.cursor);
      ReplayFollows(missed);
      assert missed + [] == missed;
    } else if l.Send? && l.sub == id {
      var sub := s.subs[id];
      OfferFollows(sub.feed, Wanted(sub), s.emitted[l.call]);
      assert sub.missed + (sub.offered + [s.emitted[l.call]]) == Wanted(sub) + [s.emitted[l.call]];
    } else if l == Receive(id) {
      ReceiveFollows(s.subs[id].feed, Wanted(s.subs[id]));
    }
  }

  /** In every interleaving, what a subscriber has received and has queued is an in-order subsequence of what
      it was offered, replayed events first; it is shorter by the number of sends that found the channel
      full, and so equals it exactly when there was none. */
  lemma {:induction false} FeedFollows(run: seq<Label>, id: nat)
    requires id in After(run).subs
    ensures var sub := After(run).subs[id];
            && Follows(sub.feed, Wanted(sub))
            && (sub.feed.drops == 0 <==> sub.feed.received + sub.feed.queue == Wanted(sub))
  {
    var s, l := After(run[..|run| - 1]), run[|run| - 1];
    Reachable(run[..|run| - 1]);
    if id in s.subs {
      FeedFollows(run[..|run| - 1], id);
    }
    if Enabled(s, l) {
      FeedStep(s, l, id);
    }
    CompleteIff(After(run).subs[id].feed, Wanted(After(run).subs[id]));
  }

  function Buffered(s: State, session: string, n: nat): seq<Event>
    requires n <= |s.emitted|
  {
    LastN(Events(s.emitted, session, 0, n), BUFFER_PER_SESSION)
  }

  lemma MissedStep(s: State, l: Label, id: nat)
    requires SubsOk(s) && Enabled(s, l) && id in s.subs && s.subs[id].born <= |s.emitted|
    ensures var sub, sub' := s.subs[id], Next(s, l).subs[id];
            && sub'.session == sub.session && sub'.cursor == sub.cursor
            && sub'.missed == sub.missed && sub'.born == sub.born
            && Buffered(Next(s, l), sub.session, sub.born) == Buffered(s, sub.session, sub.born)
  {
    if l.Buffer? {
      var sub := s.subs[id];
      EventsPrefix(s.emitted, Event(l.session, l.messageId, l.body, |s.emitted|), sub.session, 0, sub.born);
    }
  }

  /** Replay offers exactly what the last 1000 events of the session, as of the subscription's beginning,
      hold behind the cursor. */
  lemma ReplayedIs(run: seq<Label>, id: nat)
    requires id in After(run).subs
    ensures var s := After(run);
            var sub := s.subs[id];
            && sub.born <= |s.emitted| && sub.missed == Missed(Buffered(s, sub.session, sub.born), sub.cursor)
            && AllBehind(sub.missed, Buffered(s, sub.session, sub.born), sub.cursor)
  {
    MissedAtBirth(run, id);
    var sub := After(run).subs[id];
    MissedIsBehind(Buffered(After(run), sub.session, sub.born), sub.cursor);
  }

  lemma {:induction false} MissedAtBirth(run: seq<Label>, id: nat)
    requires id in After(run).subs
    ensures var s := After(run);
            var sub := s.subs[id];
            sub.born <= |s.emitted| && sub.missed == Missed(Buffered(s, sub.session, sub.born), sub.cursor)
  {
    var past := run[..|run| - 1];
    var s, l := After(past), run[|run| - 1];
    Reachable(run);
    Reachable(past);
    if id in s.subs {
      MissedAtBirth(past, id);
      if Enabled(s, l) {
        MissedStep(s, l, id);
      }
    } else {
      BufferIsLastEvents(past, l.session);
    }
  }

  // ---------------------------------------------------------------------------
  // Emits that do not overlap
  // ---------------------------------------------------------------------------

  predicate Idle(s: State) {
    s.waiting == {} && s.fans == map[]
  }

  /** Each Emit begins only when the one before it is done; subscriptions come and go at any time. */
  ghost predicate Sequential(run: seq<Label>) {
    run == [] || (Sequential(run[..|run| - 1]) && (run[|run| - 1].Buffer? ==> Idle(After(run[..|run| - 1]))))
  }

  predicate Newest(calls: set<nat>, n: nat) {
    forall c :: c in calls ==> c + 1 == n
  }

  predicate SubNewest(sub: Sub) {
    Newest(sub.racing, sub.born) && (sub.ended.Some? ==> Newest(sub.ended.value.waiting, sub.ended.value.emitted))
  }

  /** Only the newest event can be under way. */
  ghost predicate OneEmit(s: State) {
    && Newest(s.waiting, |s.emitted|)
    && (forall c :: c in s.fans ==> c + 1 == |s.emitted|)
    && forall id :: id in s.subs ==> SubNewest(s.subs[id])
  }

  lemma OneEmitStep(s: State, l: Label)
    requires OneEmit(s) && Enabled(s, l) && (l.Buffer? ==> Idle(s))
    ensures OneEmit(Next(s, l))
  {
    var s' := Next(s, l);
    forall id | id in s'.subs ensures SubNewest(s'.subs[id]) {
      if id in s.subs {
        assert SubNewest(s.subs[id]);
      }
    }
  }

  lemma {:induction false} OneEmitAlways(run: seq<Label>)
    requires Sequential(run)
    ensures OneEmit(After(run))
  {
    if run != [] {
      OneEmitAlways(run[..|run| - 1]);
      var s, l := After(run[..|run| - 1]), run[|run| - 1];
      if Enabled(s, l) { OneEmitStep(s, l); }
    }
  }

  /** The events that fan-outs have attempted on a subscription, by number. */
  function SentTo(s: State, id: nat, n: nat): seq<Event>
    requires n <= |s.emitted|
  {
    if n == 0 then [] else SentTo(s, id, n - 1) + (if Sent(s, id, n - 1) then [s.emitted[n - 1]] else [])
  }

  lemma {:induction false} SentToSame(s: State, s': State, id: nat, n: nat)
    requires n <= |s.emitted| && s.emitted <= s'.emitted
    requires forall c :: 0 <= c < n ==> Sent(s, id, c) == Sent(s', id, c)
    ensures SentTo(s, id, n) == SentTo(s', id, n)
  {
    if n > 0 { SentToSame(s, s', id, n - 1); }
  }

  lemma {:induction false} NothingSent(s: State, id: nat, n: nat)
    requires n <= |s.emitted| && forall c :: 0 <= c < n ==> !Sent(s, id, c)
    ensures SentTo(s, id, n) == []
  {
    if n > 0 { NothingSent(s, id, n - 1); }
  }

  /** A step offers an event to a subscription only by sending it. */
  lemma OfferedChange(s: State, l: Label, id: nat)
    requires SubsOk(s) && Enabled(s, l) && id in Next(s, l).subs
    ensures s.emitted <= Next(s, l).emitted && |Next(s, l).emitted| == |s.emitted| + if l.Buffer? then 1 else 0
    ensures id !in s.subs ==> Next(s, l).subs[id].offered == [] && !l.Send? && !l.Buffer?
    ensures id in s.subs ==>
              Next(s, l).subs[id].offered
              == s.subs[id].offered + if l.Send? && l.sub == id then [s.emitted[l.call]] else []
  {
    if id in s.subs {
      assert s.subs[id].offered + [] == s.subs[id].offered;
    }
  }

  lemma SentUnchanged(s: State, l: Label, id: nat, n: nat)
    requires CallsOk(s) && Enabled(s, l) && n <= |s.emitted| && s.emitted <= Next(s, l).emitted
    requires l.Send? && l.sub == id ==> n <= l.call
    ensures SentTo(Next(s, l), id, n) == SentTo(s, id, n)
  {
    forall c: nat | c < n ensures Sent(s, id, c) == Sent(Next(s, l), id, c) {
      SentChange(s, l, id, c);
    }
    SentToSame(s, Next(s, l), id, n);
  }

  lemma NewSubscriptionUnsent(s: State, id: nat)
    requires TargetsOk(s) && id !in s.subs
    ensures SentTo(s, id, |s.emitted|) == []
  {
    NothingSent(s, id, |s.emitted|);
  }

  lemma OfferedBySend(s: State, l: Label, id: nat)
    requires CallsOk(s) && SubsOk(s) && OneEmit(s) && Enabled(s, l) && id in s.subs && l.Send? && l.sub == id
    requires s.subs[id].offered == SentTo(s, id, |s.emitted|)
    ensures Next(s, l).subs[id].offered == SentTo(Next(s, l), id, |Next(s, l).emitted|)
  {
    var n := |s.emitted|;
    OfferedChange(s, l, id);
    assert l.call == n - 1;
    SentChange(s, l, id, n - 1);
    SentUnchanged(s, l, id, n - 1);
  }

  lemma OfferedStep(s: State, l: Label, id: nat)
    requires CallsOk(s) && SubsOk(s) && TargetsOk(s) && OneEmit(s) && Enabled(s, l) && id in Next(s, l).subs
    requires id in s.subs ==> s.subs[id].offered == SentTo(s, id, |s.emitted|)
    ensures Next(s, l).subs[id].offered == SentTo(Next(s, l), id, |Next(s, l).emitted|)
  {
    var n := |s.emitted|;
    if l.Send? && l.sub == id {
      OfferedBySend(s, l, id);
    } else {
      OfferedChange(s, l, id);
      SentUnchanged(s, l, id, n);
      if id !in s.subs {
        NewSubscriptionUnsent(s, id);
      } else if l.Buffer? {
        SentChange(s, l, id, n);
        assert !Sent(s, id, n);
      }
    }
  }

  lemma {:induction false} OfferedInOrder(run: seq<Label>, id: nat)
    requires Sequential(run) && id in After(run).subs
    ensures var s := After(run); s.subs[id].offered == SentTo(s, id, |s.emitted|)
  {
    var past := run[..|run| - 1];
    var s, l := After(past), run[|run| - 1];
    Reachable(past);
    OneEmitAlways(past);
    if id in s.subs {
      OfferedInOrder(past, id);
    }
    if Enabled(s, l) {
      OfferedStep(s, l, id);
    }
  }

  /** Where a subscription's live events begin: with those buffered after it, and before them the one whose
      Emit it began in the middle of. */
  function LiveFrom(sub: Sub): nat {
    if sub.born > 0 && sub.born - 1 in sub.racing then sub.born - 1 else sub.born
  }

  /** The newest event's fan-out has yet to reach the subscription, or to begin. */
  predicate Pending(s: State, id: nat) {
    var n := |s.emitted|;
    n > 0 && (n - 1 in s.waiting || (n - 1 in s.fans && id in s.fans[n - 1]))
  }

  /** And where they end: at the newest event that a fan-out has reached it with, or, for a subscription that
      has ended, with the last event whose fan-out began before the end. */
  function LiveTo(s: State, id: nat): nat
    requires id in s.subs
  {
    match s.subs[id].ended
    case None => if Pending(s, id) then |s.emitted| - 1 else |s.emitted|
    case Some(end) => if end.emitted > 0 && end.emitted - 1 in end.waiting then end.emitted - 1 else end.emitted
  }

  lemma LiveToInRange(s: State, id: nat)
    requires Inv(s) && id in s.subs
    ensures LiveTo(s, id) <= |s.emitted|
  {
    assert s.subs[id].ended.Some? ==> s.subs[id].ended.value.emitted <= |s.emitted|;
  }

  /** An event of the session whose fan-out is over, or has passed the subscription, was attempted on it
      exactly when it lies between the two bounds. */
  lemma SettledSentIff(s: State, id: nat, c: nat)
    requires Inv(s) && OneEmit(s) && id in s.subs && c < |s.emitted|
    requires c in s.targets && !(c in s.fans && id in s.fans[c])
    ensures Sent(s, id, c)
       <==> LiveFrom(s.subs[id]) <= c < LiveTo(s, id) && s.emitted[c].session == s.subs[id].session
  {
    assert SubNewest(s.subs[id]);
    assert Sent(s, id, c) <==> id in s.targets[c];
    assert Sent(s, id, c) <==> Wants(s, id, c) && InTime(s, id, c);
    if c == |s.emitted| - 1 {
      assert !Pending(s, id);
    }
  }

  lemma SentIff(s: State, id: nat, c: nat)
    requires Inv(s) && OneEmit(s) && id in s.subs && c < |s.emitted|
    ensures Sent(s, id, c)
       <==> LiveFrom(s.subs[id]) <= c < LiveTo(s, id) && s.emitted[c].session == s.subs[id].session
  {
    if c in s.targets && !(c in s.fans && id in s.fans[c]) {
      SettledSentIff(s, id, c);
    } else {
      assert c in s.waiting || (c in s.fans && id in s.fans[c]);
      assert c == |s.emitted| - 1 && Pending(s, id);
      if s.subs[id].ended.Some? {
        assert !InTime(s, id, c);
        assert SubNewest(s.subs[id]);
      }
    }
  }

  lemma {:induction false} SentToIs(s: State, id: nat, n: nat)
    requires Inv(s) && OneEmit(s) && id in s.subs && n <= |s.emitted|
    ensures var sub := s.subs[id];
            var hi := if n < LiveTo(s, id) then n else LiveTo(s, id);
            hi <= |s.emitted| && SentTo(s, id, n) == Events(s.emitted, sub.session, LiveFrom(sub), hi)
  {
    if n > 0 {
      SentToIs(s, id, n - 1);
      SentIff(s, id, n - 1);
    }
  }

  /** With Emits that do not overlap, at any moment, also in the middle of one: what a subscriber has received
      and has queued is an in-order subsequence of the events buffered behind its cursor when it began,
      followed by the session's events from then on, in the order of their Emits, up to the newest one that a
      fan-out has reached it with or up to its end.  It equals them exactly when no send found the channel
      full. */
  lemma FeedIsSubsequence(run: seq<Label>, id: nat)
    requires Sequential(run) && id in After(run).subs
    ensures var s := After(run);
            var sub := s.subs[id];
            && sub.born <= |s.emitted| && LiveTo(s, id) <= |s.emitted|
            && var wanted := Missed(Buffered(s, sub.session, sub.born), sub.cursor)
                             + Events(s.emitted, sub.session, LiveFrom(sub), LiveTo(s, id));
               && Follows(sub.feed, wanted)
               && (sub.feed.drops == 0 <==> sub.feed.received + sub.feed.queue == wanted)
  {
    var s := After(run);
    Reachable(run);
    OneEmitAlways(run);
    OfferedInOrder(run, id);
    LiveToInRange(s, id);
    SentToIs(s, id, |s.emitted|);
    FeedFollows(run, id);
    ReplayedIs(run, id);
  }
}
