/** The in-memory session store, and what its histories look like when turns append to a session
    while a summariser truncates it. */
module SessionStore {
  import opened Transcript

  datatype Snapshot = Snapshot(key: string, messages: seq<Message>, summary: string)

  type Store = map<string, Snapshot>

  function Messages(store: Store, key: string): seq<Message> {
    if key in store then store[key].messages else []
  }

  function Summary(store: Store, key: string): string {
    if key in store then store[key].summary else ""
  }

  function Truncated(ms: seq<Message>, keepLast: int): seq<Message> {
    if keepLast <= 0 then [] else if |ms| <= keepLast then ms else ms[|ms| - keepLast..]
  }

  /** The critical sections that change a session, each run under the store's write lock. */
  datatype Event =
    | Add(key: string, msg: Message)
    | Truncate(key: string, keepLast: int)
    | SetSummary(key: string, summary: string)

  function Apply(store: Store, ev: Event): Store {
    match ev
    case Add(key, msg) =>
      store[key := Snapshot(key, Messages(store, key) + [msg], Summary(store, key))]
    case Truncate(key, keepLast) =>
      if key !in store then store
      else store[key := store[key].(messages := Truncated(store[key].messages, keepLast))]
    case SetSummary(key, summary) =>
      if key !in store then store else store[key := store[key].(summary := summary)]
  }

  function Run(store: Store, evs: seq<Event>): Store {
    if evs == [] then store else Apply(Run(store, evs[..|evs| - 1]), evs[|evs| - 1])
  }

  function AppendedBy(key: string, ev: Event): seq<Message> {
    if ev.Add? && ev.key == key then [ev.msg] else []
  }

  /** Everything that was ever appended to one session, in order. */
  function Appended(key: string, evs: seq<Event>): seq<Message> {
    if evs == [] then []
    else Appended(key, evs[..|evs| - 1]) + AppendedBy(key, evs[|evs| - 1])
  }

  function AppendedTo(before: seq<Message>, key: string, evs: seq<Event>): seq<Message> {
    if evs == [] then before
    else AppendedTo(before, key, evs[..|evs| - 1]) + AppendedBy(key, evs[|evs| - 1])
  }

  predicate IsSuffix(s: seq<Message>, t: seq<Message>) {
    |s| <= |t| && t[|t| - |s|..] == s
  }

  lemma SuffixGrows(s: seq<Message>, t: seq<Message>, m: Message)
    requires IsSuffix(s, t)
    ensures IsSuffix(s + [m], t + [m])
  {
    assert t == t[..|t| - |s|] + s;
    assert (t + [m])[|t| - |s|..] == s + [m];
  }

  lemma SuffixShrinks(s: seq<Message>, t: seq<Message>, keepLast: int)
    requires IsSuffix(s, t)
    ensures IsSuffix(Truncated(s, keepLast), t)
  {
    assert t[|t| - |s|..] == s;
  }

  lemma ApplyKeepsSuffix(store: Store, ev: Event, key: string, t: seq<Message>)
    requires IsSuffix(Messages(store, key), t)
    ensures IsSuffix(Messages(Apply(store, ev), key), t + AppendedBy(key, ev))
  {
    var s := Messages(store, key);
    if ev.Add? && ev.key == key {
      SuffixGrows(s, t, ev.msg);
    } else {
      assert t + [] == t;
      if ev.Truncate? { SuffixShrinks(s, t, ev.keepLast); }
    }
  }

  lemma {:induction false} HistoryIsSuffixFrom(init: Store, evs: seq<Event>, key: string, before: seq<Message>)
    requires IsSuffix(Messages(init, key), before)
    ensures IsSuffix(Messages(Run(init, evs), key), AppendedTo(before, key, evs))
  {
    if evs != [] {
      var past, last := evs[..|evs| - 1], evs[|evs| - 1];
      HistoryIsSuffixFrom(init, past, key, before);
      ApplyKeepsSuffix(Run(init, past), last, key, AppendedTo(before, key, past));
    }
  }

  lemma {:induction false} AppendedToIs(before: seq<Message>, key: string, evs: seq<Event>)
    ensures AppendedTo(before, key, evs) == before + Appended(key, evs)
  {
    if evs == [] {
      assert before + [] == before;
    } else {
      var past, last := evs[..|evs| - 1], evs[|evs| - 1];
      AppendedToIs(before, key, past);
      assert (before + Appended(key, past)) + AppendedBy(key, last)
          == before + (Appended(key, past) + AppendedBy(key, last));
    }
  }

  /** Whatever the interleaving of appends, truncations and summary updates on any sessions, a
      session's history is a suffix of what it held plus what was appended to it. */
  lemma HistoryIsSuffix(init: Store, evs: seq<Event>, key: string, before: seq<Message>)
    requires IsSuffix(Messages(init, key), before)
    ensures IsSuffix(Messages(Run(init, evs), key), before + Appended(key, evs))
  {
    HistoryIsSuffixFrom(init, evs, key, before);
    AppendedToIs(before, key, evs);
  }

  /** What one event does to a session: an append adds its message, also to a session that did not exist, a
      truncation keeps the newest messages, and a summary that is set is the summary read back.  Sessions that
      the event does not name, and sessions that do not exist, stay as they are. */
  lemma AppliedIs(store: Store, ev: Event, key: string)
    ensures var store' := Apply(store, ev);
            var ms, ms' := Messages(store, key), Messages(store', key);
            var summary, summary' := Summary(store, key), Summary(store', key);
            && (ev.key != key ==> (key in store' <==> key in store) && ms' == ms && summary' == summary)
            && (ev.Add? && ev.key == key ==> key in store' && ms' == ms + [ev.msg] && summary' == summary)
            && (ev.SetSummary? && ev.key == key ==>
                  (key in store' <==> key in store) && ms' == ms && (key in store ==> summary' == ev.summary))
            && (ev.Truncate? && ev.key == key ==>
                  (key in store' <==> key in store) && KeepsLast(ms', ms, ev.keepLast) && summary' == summary)
  {
  }

  /** The newest so many of the messages, none for a count that is not positive, all if there are no more. */
  predicate KeepsLast(kept: seq<Message>, ms: seq<Message>, count: int) {
    && (count <= 0 ==> kept == [])
    && (0 < count < |ms| ==> |kept| == count && kept == ms[|ms| - count..])
    && (count > 0 && |ms| <= count ==> kept == ms)
  }

  predicate Truncates(ev: Event, key: string) {
    ev.Truncate? && ev.key == key
  }

  lemma AppliedUntruncated(store: Store, ev: Event, key: string)
    requires !Truncates(ev, key)
    ensures Messages(Apply(store, ev), key) == Messages(store, key) + AppendedBy(key, ev)
  {
    assert Messages(store, key) + [] == Messages(store, key);
  }

  lemma {:induction false} Untruncated(store: Store, evs: seq<Event>, key: string)
    requires forall i :: 0 <= i < |evs| ==> !Truncates(evs[i], key)
    ensures Messages(Run(store, evs), key) == Messages(store, key) + Appended(key, evs)
  {
    if evs == [] {
      assert Messages(store, key) + [] == Messages(store, key);
    } else {
      var past, ev := evs[..|evs| - 1], evs[|evs| - 1];
      Untruncated(store, past, key);
      assert !Truncates(ev, key);
      var h, a := Messages(store, key), Appended(key, past);
      AppliedUntruncated(Run(store, past), ev, key);
      assert h + a + AppendedBy(key, ev) == h + (a + AppendedBy(key, ev));
    }
  }

  function Flatten(turns: seq<seq<Message>>): seq<Message> {
    if turns == [] then [] else Flatten(turns[..|turns| - 1]) + turns[|turns| - 1]
  }

  predicate ClosedTurns(turns: seq<seq<Message>>) {
    forall i :: 0 <= i < |turns| ==> Closed(turns[i])
  }

  lemma {:induction false} ClosedTurnsClosed(before: seq<Message>, turns: seq<seq<Message>>)
    requires Closed(before)
    requires ClosedTurns(turns)
    ensures Closed(before + Flatten(turns))
  {
    if turns == [] {
      assert before + Flatten(turns) == before;
    } else {
      var n := |turns| - 1;
      ClosedTurnsClosed(before, turns[..n]);
      assert before + Flatten(turns) == (before + Flatten(turns[..n])) + turns[n];
      ReadConcat(Owing([]), before + Flatten(turns[..n]), turns[n]);
    }
  }

  lemma UnbrokenAtAnyMoment(before: seq<Message>, sofar: seq<Message>, turns: seq<seq<Message>>)
    requires Closed(before) && ClosedTurns(turns) && sofar <= Flatten(turns)
    ensures !ReadAll(before + sofar).Broken?
  {
    ClosedTurnsClosed(before, turns);
    var rest := Flatten(turns)[|sofar|..];
    assert before + Flatten(turns) == (before + sofar) + rest;
    PrefixUnbroken(before + sofar, rest);
  }

  /** At any moment of a run of one-at-a-time turns with truncations in between, also in the middle
      of a turn, the stored history is a suffix of a transcript in which only the newest block can be
      open. */
  lemma StoredHistoryAtAnyMoment(init: Store, evs: seq<Event>, key: string,
                                 before: seq<Message>, turns: seq<seq<Message>>)
    requires Closed(before) && IsSuffix(Messages(init, key), before)
    requires ClosedTurns(turns) && Appended(key, evs) <= Flatten(turns)
    ensures var t := before + Appended(key, evs);
            && IsSuffix(Messages(Run(init, evs), key), t)
            && !ReadAll(t).Broken?
            && Paired(t + AnswerAll(ReadAll(t).ids))
  {
    HistoryIsSuffix(init, evs, key, before);
    UnbrokenAtAnyMoment(before, Appended(key, evs), turns);
    OnlyNewestBlockOpen(before + Appended(key, evs));
  }

  class Session {
    const key: string
    var messages: seq<Message>
    var summary: string

    constructor (key: string)
      ensures this.key == key && messages == [] && summary == ""
    {
      this.key := key;
      messages, summary := [], "";
    }
  }

  class SessionManager {
    var sessions: map<string, Session>

    // Every session is filed under its own key, so no two keys share a session object.
    ghost predicate Valid()
      reads this, sessions.Values
    {
      forall k :: k in sessions ==> sessions[k].key == k
    }

    ghost function View(): Store
      reads this, sessions.Values
    {
      map k | k in sessions :: Snapshot(k, sessions[k].messages, sessions[k].summary)
    }

    constructor ()
      ensures Valid() && View() == map[]
    {
      sessions := map[];
    }

    method GetOrCreate(key: string) returns (session: Session)
      requires Valid()
      modifies this
      ensures Valid()
      ensures key in sessions && session == sessions[key]
      ensures View() == if key in old(View()) then old(View()) else old(View())[key := Snapshot(key, [], "")]
    {
      if key in sessions {
        return sessions[key];
      }
      session := new Session(key);
      sessions := sessions[key := session];
    }

    method AddFullMessage(key: string, msg: Message)
      requires Valid()
      modifies this, sessions.Values
      ensures Valid()
      ensures View() == Apply(old(View()), Add(key, msg))
      ensures fresh(sessions.Values - old(sessions.Values))
    {
      if key !in sessions {
        var created := new Session(key);
        sessions := sessions[key := created];
      }
      var session := sessions[key];
      session.messages := session.messages + [msg];
    }

    method AddMessage(key: string, role: Role, content: string)
      requires Valid()
      modifies this, sessions.Values
      ensures Valid()
      ensures View() == Apply(old(View()), Add(key, Plain(role, content)))
      ensures fresh(sessions.Values - old(sessions.Values))
    {
      AddFullMessage(key, Plain(role, content));
    }

    method GetHistory(key: string) returns (history: seq<Message>)
      requires Valid()
      ensures history == Messages(View(), key)
    {
      if key !in sessions {
        return [];
      }
      history := sessions[key].messages;
    }

    method GetSummary(key: string) returns (summary: string)
      requires Valid()
      ensures summary == Summary(View(), key)
    {
      if key !in sessions {
        return "";
      }
      summary := sessions[key].summary;
    }

    method SetSummaryOf(key: string, summary: string)
      requires Valid()
      modifies sessions.Values
      ensures Valid()
      ensures View() == Apply(old(View()), SetSummary(key, summary))
    {
      if key in sessions {
        sessions[key].summary := summary;
      }
    }

    method TruncateHistory(key: string, keepLast: int)
      requires Valid()
      modifies sessions.Values
      ensures Valid()
      ensures View() == Apply(old(View()), Truncate(key, keepLast))
    {
      if key !in sessions {
        return;
      }
      var session := sessions[key];
      if keepLast <= 0 {
        session.messages := [];
        return;
      }
      if |session.messages| <= keepLast {
        return;
      }
      session.messages := session.messages[|session.messages| - keepLast..];
    }
  }
}
