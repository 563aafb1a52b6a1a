/** Recognising repeated OneBot messages: a map and a ring of slots, against a sliding window. */
module Dedup {

  const DEDUP_SIZE: nat := 1024

  /** Messages without an id, or with id 0, are never held for repeats. */
  predicate Tracked(id: string) {
    id != "" && id != "0"
  }

  /** The id is among the last 1024 accepted. */
  predicate Recent(accepted: seq<string>, id: string) {
    exists c :: 0 <= c < |accepted| <= c + DEDUP_SIZE && accepted[c] == id
  }

  /** The ids accepted over a run of calls: each call is judged by the window before it. */
  function Accepted(ids: seq<string>): seq<string> {
    if ids == [] then []
    else
      var past := Accepted(ids[..|ids| - 1]);
      var id := ids[|ids| - 1];
      if Tracked(id) && !Recent(past, id) then past + [id] else past
  }

  /** The c-th accepted id, if among the last 1024, sits in slot c mod 1024; slots not yet used are empty. */
  ghost predicate HoldsWindow(slots: seq<string>, accepted: seq<string>)
    requires |slots| == DEDUP_SIZE
  {
    && (forall c :: 0 <= c < |accepted| <= c + DEDUP_SIZE ==> slots[c % DEDUP_SIZE] == accepted[c])
    && forall j :: |accepted| <= j < DEDUP_SIZE ==> slots[j] == ""
  }

  /** The map and the ring agree with the window over the accepted ids. */
  ghost predicate Agrees(dedup: set<string>, slots: seq<string>, idx: int, accepted: seq<string>)
    requires |slots| == DEDUP_SIZE
  {
    && idx == |accepted| % DEDUP_SIZE
    && HoldsWindow(slots, accepted)
    && forall id :: id in dedup <==> Recent(accepted, id)
  }

  class MessageFilter {
    var dedup: set<string>
    const ring: array<string>
    var idx: int
    ghost var seen: seq<string> // the ids of all calls so far

    ghost predicate Valid()
      reads this, ring
    {
      ring.Length == DEDUP_SIZE && Agrees(dedup, ring[..], idx, Accepted(seen))
    }

    constructor ()
      ensures Valid() && seen == []
    {
      dedup := {};
      ring := new string[DEDUP_SIZE](_ => "");
      idx := 0;
      seen := [];
      new;
      assert Accepted(seen) == [];
    }

    /** The answer is yes exactly when the id is among the last 1024 accepted ones. */
    method IsDuplicate(id: string) returns (duplicate: bool)
      requires Valid()
      modifies this, ring
      ensures Valid() && seen == old(seen) + [id]
      ensures duplicate <==> Recent(Accepted(old(seen)), id)
    {
      AcceptedNext(seen, id);
      seen := seen + [id];
      if id == "" || id == "0" {
        return false;
      }
      if id in dedup {
        return true;
      }
      AgreesNext(dedup, ring[..], idx, old(seen), id);
      if ring[idx] != "" {
        dedup := dedup - {ring[idx]};
      }
      ring[idx] := id;
      dedup := dedup + {id};
      idx := (idx + 1) % ring.Length;
      return false;
    }
  }

  lemma SlotToReuse(slots: seq<string>, accepted: seq<string>)
    requires |slots| == DEDUP_SIZE && HoldsWindow(slots, accepted)
    ensures slots[|accepted| % DEDUP_SIZE]
         == if |accepted| < DEDUP_SIZE then "" else accepted[|accepted| - DEDUP_SIZE]
  {
    if |accepted| >= DEDUP_SIZE {
      assert (|accepted| - DEDUP_SIZE) % DEDUP_SIZE == |accepted| % DEDUP_SIZE;
    }
  }

  lemma HoldsNext(slots: seq<string>, accepted: seq<string>, id: string)
    requires |slots| == DEDUP_SIZE && HoldsWindow(slots, accepted)
    ensures HoldsWindow(slots[|accepted| % DEDUP_SIZE := id], accepted + [id])
  {
    var n := |accepted|;
    var slots' := slots[n % DEDUP_SIZE := id];
    forall c | 0 <= c <= n && n + 1 <= c + DEDUP_SIZE ensures slots'[c % DEDUP_SIZE] == (accepted + [id])[c] {
      if c < n {
        OtherSlot(c, n);
        assert slots[c % DEDUP_SIZE] == accepted[c];
      }
    }
  }

  lemma OtherSlot(c: nat, n: nat)
    requires c < n < c + DEDUP_SIZE
    ensures c % DEDUP_SIZE != n % DEDUP_SIZE
  {
  }

  lemma AcceptedNext(ids: seq<string>, id: string)
    ensures Accepted(ids + [id])
         == if Tracked(id) && !Recent(Accepted(ids), id) then Accepted(ids) + [id] else Accepted(ids)
    ensures !Tracked(id) ==> !Recent(Accepted(ids), id)
  {
    assert (ids + [id])[..|ids|] == ids;
    AcceptedAreTracked(ids);
  }

  lemma {:induction false} AcceptedAreTracked(ids: seq<string>)
    ensures forall c :: 0 <= c < |Accepted(ids)| ==> Tracked(Accepted(ids)[c])
  {
    if ids != [] { AcceptedAreTracked(ids[..|ids| - 1]); }
  }

  /** One acceptance: the oldest id leaves the map if the slot was used, and the new one takes its place. */
  lemma AgreesNext(dedup: set<string>, slots: seq<string>, idx: int, ids: seq<string>, id: string)
    requires |slots| == DEDUP_SIZE && Agrees(dedup, slots, idx, Accepted(ids))
    requires Tracked(id) && id !in dedup
    ensures Agrees((if slots[idx] != "" then dedup - {slots[idx]} else dedup) + {id}, slots[idx := id],
                   (idx + 1) % DEDUP_SIZE, Accepted(ids) + [id])
  {
    var accepted := Accepted(ids);
    HoldsNext(slots, accepted, id);
    AcceptedAreTracked(ids);
    AcceptedApart(ids);
    MapNext(dedup, slots, accepted, id);
  }

  /** The map holds what is recent, before and after. */
  lemma MapNext(dedup: set<string>, slots: seq<string>, accepted: seq<string>, id: string)
    requires |slots| == DEDUP_SIZE && HoldsWindow(slots, accepted) && Apart(accepted)
    requires forall c :: 0 <= c < |accepted| ==> accepted[c] != ""
    requires forall x :: x in dedup <==> Recent(accepted, x)
    requires id != ""
    ensures var old' := slots[|accepted| % DEDUP_SIZE];
            forall x :: x in (if old' != "" then dedup - {old'} else dedup) + {id} <==> Recent(accepted + [id], x)
  {
    var old' := slots[|accepted| % DEDUP_SIZE];
    SlotToReuse(slots, accepted);
    forall x ensures x in (if old' != "" then dedup - {old'} else dedup) + {id} <==> Recent(accepted + [id], x) {
      RecentNext(accepted, id, x);
    }
  }

  /** What a further acceptance changes: its id becomes recent, and the id accepted 1024 before is no
      longer so. */
  lemma RecentNext(accepted: seq<string>, id: string, x: string)
    requires Apart(accepted)
    ensures Recent(accepted + [id], x)
       <==> x == id
            || (Recent(accepted, x) && (|accepted| < DEDUP_SIZE || x != accepted[|accepted| - DEDUP_SIZE]))
  {
    var accepted' := accepted + [id];
    if x == id {
      assert accepted'[|accepted|] == x;
    }
    if c :| 0 <= c < |accepted| <= c + DEDUP_SIZE && accepted[c] == x {
      assert accepted'[c] == x;
    }
    if c :| 0 <= c < |accepted'| <= c + DEDUP_SIZE && accepted'[c] == x {
      assert c < |accepted| ==> accepted[c] == x;
    }
  }

  /** Equal ids lie more than 1024 acceptances apart. */
  ghost predicate Apart(accepted: seq<string>) {
    forall c, d :: 0 <= c < d < |accepted| && accepted[c] == accepted[d] ==> d - c > 1024
  }

  /** An id is accepted again only after 1024 other acceptances. */
  lemma {:induction false} AcceptedApart(ids: seq<string>)
    ensures Apart(Accepted(ids))
  {
    if ids != [] { AcceptedApart(ids[..|ids| - 1]); }
  }

  /** The acceptance number whose id a used slot holds. */
  function Holder(slots: seq<string>, accepted: seq<string>, j: nat): (c: int)
    requires |slots| == DEDUP_SIZE && HoldsWindow(slots, accepted)
    requires j < DEDUP_SIZE && slots[j] != ""
    ensures 0 <= c < |accepted| <= c + DEDUP_SIZE && c % DEDUP_SIZE == j && accepted[c] == slots[j]
  {
    var n := |accepted|;
    if n < DEDUP_SIZE then j
    else if j < n % DEDUP_SIZE then n - n % DEDUP_SIZE + j
    else n - n % DEDUP_SIZE - DEDUP_SIZE + j
  }

  lemma HeldIsRecent(slots: seq<string>, accepted: seq<string>, id: string)
    requires |slots| == DEDUP_SIZE && HoldsWindow(slots, accepted)
    requires forall c :: 0 <= c < |accepted| ==> accepted[c] != ""
    ensures Recent(accepted, id) <==> id in slots && id != ""
  {
    if c :| 0 <= c < |accepted| <= c + DEDUP_SIZE && accepted[c] == id {
      assert slots[c % DEDUP_SIZE] == id;
    }
    if j :| 0 <= j < DEDUP_SIZE && slots[j] == id != "" {
      var c := Holder(slots, accepted, j);
      assert accepted[c] == id;
    }
  }

  lemma SlotsDiffer(slots: seq<string>, accepted: seq<string>, j: nat, k: nat)
    requires |slots| == DEDUP_SIZE && HoldsWindow(slots, accepted) && Apart(accepted)
    requires j < k < DEDUP_SIZE && slots[j] != ""
    ensures slots[j] != slots[k]
  {
    if slots[k] != "" {
      var c, d := Holder(slots, accepted, j), Holder(slots, accepted, k);
      assert accepted[c] == slots[j] && accepted[d] == slots[k];
      assert c < d || d < c;
    }
  }

  /** The map is the set of the non-empty slots, and these are pairwise different. */
  lemma SlotsAreTheMap(dedup: set<string>, slots: seq<string>, idx: int, ids: seq<string>)
    requires |slots| == DEDUP_SIZE && Agrees(dedup, slots, idx, Accepted(ids))
    ensures forall id :: id in dedup <==> id in slots && id != ""
    ensures forall j, k :: 0 <= j < k < DEDUP_SIZE && slots[j] != "" ==> slots[j] != slots[k]
  {
    AcceptedApart(ids);
    forall id ensures id in dedup <==> id in slots && id != "" {
      AcceptedAreTracked(ids);
      HeldIsRecent(slots, Accepted(ids), id);
    }
    forall j, k | 0 <= j < k < DEDUP_SIZE && slots[j] != "" ensures slots[j] != slots[k] {
      SlotsDiffer(slots, Accepted(ids), j, k);
    }
  }

  /** For 1023 calls after an id was accepted it is recognised, whatever these calls bring. */
  lemma RecognisedAfter(before: seq<string>, id: string, after: seq<string>)
    requires id != "" && id != "0" && !Recent(Accepted(before), id) && |after| < 1024
    ensures Recent(Accepted(before + [id] + after), id)
  {
    AcceptedNext(before, id);
    AcceptedAt(before + [id], |Accepted(before)|, after);
    assert Accepted(before + [id] + after)[|Accepted(before)|] == id;
  }

  /** Calls only append to the accepted ids, each at most one. */
  lemma {:induction false} AcceptedAt(ids: seq<string>, c: nat, after: seq<string>)
    requires c < |Accepted(ids)|
    ensures c < |Accepted(ids + after)| <= |Accepted(ids)| + |after|
    ensures Accepted(ids + after)[c] == Accepted(ids)[c]
    decreases |after|
  {
    if after == [] {
      assert ids + after == ids;
    } else {
      AcceptedAt(ids, c, after[..|after| - 1]);
      assert ids + after == (ids + after[..|after| - 1]) + [after[|after| - 1]];
      AcceptedNext(ids + after[..|after| - 1], after[|after| - 1]);
    }
  }

  /** A repeat does not renew an id: repeated at the very end of its window, it is forgotten with the next
      new id. */
  lemma RepeatDoesNotRenew(ids: seq<string>, id: string, other: string)
    requires |Accepted(ids)| >= 1024 && Accepted(ids)[|Accepted(ids)| - 1024] == id
    requires other != "" && other != "0" && !Recent(Accepted(ids), other)
    ensures Recent(Accepted(ids), id) && !Recent(Accepted(ids + [id] + [other]), id)
  {
    var accepted := Accepted(ids);
    assert accepted[|accepted| - DEDUP_SIZE] == id;
    AcceptedNext(ids, id);
    AcceptedNext(ids + [id], other);
    AcceptedApart(ids);
    RecentNext(accepted, other, id);
  }

  /** A message without an id, or with id 0, is never a repeat, and is not remembered. */
  lemma NoIdNeverRepeats(ids: seq<string>, id: string)
    requires id == "" || id == "0"
    ensures !Recent(Accepted(ids), id) && Accepted(ids + [id]) == Accepted(ids)
  {
    AcceptedNext(ids, id);
  }

  /** No other id is taken for a repeat before it was given, and each is one right after. */
  lemma OnlyRepeatsRepeat(ids: seq<string>, id: string)
    requires id != "" && id != "0"
    ensures Recent(Accepted(ids), id) ==> id in ids
    ensures Recent(Accepted(ids + [id]), id)
  {
    GivenBefore(ids);
    AcceptedNext(ids, id);
    if !Recent(Accepted(ids), id) {
      var accepted := Accepted(ids + [id]);
      assert accepted[|accepted| - 1] == id;
    }
  }

  lemma {:induction false} GivenBefore(ids: seq<string>)
    ensures forall id :: id in Accepted(ids) ==> id in ids
  {
    if ids != [] { GivenBefore(ids[..|ids| - 1]); }
  }
}
