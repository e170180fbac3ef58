/**
 `claim_and_prune` as one thread runs it, on the slots of one layer list updated in place:
 `SlotArray::{claim, clear_matching, occupied_into}`, `shrink_and_check`,
 `run_shrink_retry_loop` and the outer claim loop. The interleaved case is the business of
 the build protocol; here nobody else touches the list, and neither retry bound is ever hit.
 */
module Shrink {
  import opened Common
  import opened Heuristic
  import opened Build

  type Slots = seq<Option<Row>>

  // ---------------------------------------------------------------------------
  // What the slot operations compute
  // ---------------------------------------------------------------------------

  /** The occupied slots' ids, in slot order. */
  function Contents(s: Slots): seq<Row> {
    if s == [] then [] else Append(Contents(s[..|s| - 1]), s[|s| - 1])
  }

  /** The first free slot, or the length when there is none. */
  function FirstFree(s: Slots): (i: nat)
    ensures i <= |s| && (i < |s| ==> s[i].None?)
    ensures forall k :: 0 <= k < i ==> s[k].Some?
  {
    if s == [] then 0
    else
      var n := |s| - 1;
      var i := FirstFree(s[..n]);
      assert forall k :: 0 <= k < n ==> s[..n][k] == s[k];
      if i < n then i else if s[n].None? then n else n + 1
  }

  predicate HasRoom(s: Slots) {
    FirstFree(s) < |s|
  }

  function Claimed(s: Slots, id: Row): Slots {
    if HasRoom(s) then s[FirstFree(s) := Some(id)] else s
  }

  function Cleared(s: Slots, rem: set<Row>): (r: Slots)
    ensures |r| == |s|
    ensures forall k :: 0 <= k < |s| ==> r[k] == if s[k].Some? && s[k].value in rem then None else s[k]
  {
    seq(|s|, k requires 0 <= k < |s| => if s[k].Some? && s[k].value in rem then None else s[k])
  }

  /** One shrink: nothing within capacity, otherwise drop what the heuristic does not keep. */
  function Pruned(c: Config, o: Row, lc: nat, s: Slots): Slots
    requires c.alpha > 0.0
  {
    if |Contents(s)| <= Capacity(c, lc) then s else Cleared(s, ToRemove(c, o, lc, Contents(s)))
  }

  /** The whole call: claim and prune, making room first if the list is full to its last slot. */
  function Settled(c: Config, o: Row, lc: nat, s: Slots, id: Row): Slots
    requires c.alpha > 0.0
  {
    Pruned(c, o, lc, Claimed(if HasRoom(s) then s else Pruned(c, o, lc, s), id))
  }

  // ---------------------------------------------------------------------------
  // What pruning and linking mean
  // ---------------------------------------------------------------------------

  /** A list of more than `cap` ids is cut down in place to the selection of `cap` among them; a shorter one stays. */
  ghost predicate PrunedTo(c: Config, o: Row, cap: nat, was: Slots, now: Slots)
    requires c.alpha > 0.0
  {
    if |Contents(was)| <= cap then now == was
    else exists kept :: Selected(c, o, Contents(was), cap, kept) && OnlyKept(was, kept, now)
  }

  predicate OnlyKept(was: Slots, kept: seq<Row>, now: Slots) {
    |now| == |was| && forall k :: 0 <= k < |was| ==> now[k] == if was[k].Some? && was[k].value in kept then was[k] else None
  }

  /** `id` enters the first free slot, of the pruned list if there is none before, and the list is pruned. */
  ghost predicate LinkedTo(c: Config, o: Row, cap: nat, was: Slots, id: Row, now: Slots)
    requires c.alpha > 0.0
  {
    exists room, i: nat ::
      && (if forall k :: 0 <= k < |was| ==> was[k].Some? then PrunedTo(c, o, cap, was, room) else room == was)
      && FreeAt(room, i) && PrunedTo(c, o, cap, room[i := Some(id)], now)
  }

  predicate FreeAt(s: Slots, i: nat) {
    i < |s| && s[i].None? && forall k :: 0 <= k < i ==> s[k].Some?
  }

  lemma PrunedMeaning(c: Config, o: Row, lc: nat, s: Slots)
    requires c.alpha > 0.0
    ensures PrunedTo(c, o, if lc == 0 then c.mmax0 else c.mmax, s, Pruned(c, o, lc, s))
  {
    var cap, ids := Capacity(c, lc), Contents(s);
    if |ids| > cap {
      var kept := Select(Scores(c, o, ids), cap, c.alpha, c.dist);
      SelectIsSelected(c, o, ids, cap);
      forall k | 0 <= k < |s| && s[k].Some? ensures s[k].value in ids { ContentsMembers(s, s[k].value); }
      assert OnlyKept(s, kept, Pruned(c, o, lc, s));
    }
  }

  lemma SettledMeaning(c: Config, o: Row, lc: nat, s: Slots, id: Row)
    requires ValidConfig(c) && |s| == Capacity(c, lc) + 1 && NoRepeat(s)
    ensures LinkedTo(c, o, if lc == 0 then c.mmax0 else c.mmax, s, id, Settled(c, o, lc, s, id))
  {
    var room := if HasRoom(s) then s else Pruned(c, o, lc, s);
    PrunedMeaning(c, o, lc, s);
    PrunedHasRoom(c, o, lc, s);
    PrunedMeaning(c, o, lc, Claimed(room, id));
    assert FreeAt(room, FirstFree(room));
  }

  // ---------------------------------------------------------------------------
  // The slot operations in place
  // ---------------------------------------------------------------------------

  method ClaimSlot(a: array<Option<Row>>, id: Row) returns (ok: bool)
    modifies a
    ensures ok == HasRoom(old(a[..])) && a[..] == Claimed(old(a[..]), id)
  {
    ghost var was := a[..];
    var i := 0;
    while i < a.Length
      invariant i <= a.Length && a[..] == was
      invariant forall k :: 0 <= k < i ==> was[k].Some?
    {
      if a[i].None? {
        a[i] := Some(id);
        assert FirstFree(was) == i;
        assert a[..] == was[i := Some(id)];
        return true;
      }
      i := i + 1;
    }
    return false;
  }

  method OccupiedInto(a: array<Option<Row>>) returns (out: seq<Row>)
    ensures out == Contents(a[..])
  {
    out := [];
    var i := 0;
    while i < a.Length
      invariant i <= a.Length && out == Contents(a[..i])
    {
      assert a[..i + 1][..i] == a[..i];
      out := Append(out, a[i]);
      i := i + 1;
    }
    assert a[..a.Length] == a[..];
  }

  method ClearMatching(a: array<Option<Row>>, rem: set<Row>)
    modifies a
    ensures a[..] == Cleared(old(a[..]), rem)
  {
    ghost var was := a[..];
    var i := 0;
    while i < a.Length
      invariant i <= a.Length
      invariant forall k :: 0 <= k < i ==> a[k] == Cleared(was, rem)[k]
      invariant forall k :: i <= k < a.Length ==> a[k] == was[k]
    {
      if a[i].Some? && a[i].value in rem { a[i] := None; }
      i := i + 1;
    }
  }

  // ---------------------------------------------------------------------------
  // Facts about contents
  // ---------------------------------------------------------------------------

  lemma {:induction false} ContentsSize(s: Slots)
    ensures |Contents(s)| <= |s|
    ensures |Contents(s)| == |s| <==> !HasRoom(s)
  {
    if s != [] {
      var n := |s| - 1;
      ContentsSize(s[..n]);
      assert forall k :: 0 <= k < n ==> s[..n][k] == s[k];
    }
  }

  lemma {:induction false} ContentsMembers(s: Slots, x: Row)
    ensures x in Contents(s) <==> exists k :: 0 <= k < |s| && s[k] == Some(x)
  {
    if s != [] {
      var n := |s| - 1;
      ContentsMembers(s[..n], x);
      assert forall k :: 0 <= k < n ==> s[..n][k] == s[k];
    }
  }

  /** No id sits in two slots. */
  predicate NoRepeat(s: Slots) {
    forall a, b :: 0 <= a < b < |s| && s[a].Some? ==> s[a] != s[b]
  }

  lemma {:induction false} ContentsDistinct(s: Slots)
    requires NoRepeat(s)
    ensures Distinct(Contents(s))
  {
    if s != [] {
      var n := |s| - 1;
      assert forall k :: 0 <= k < n ==> s[..n][k] == s[k];
      ContentsDistinct(s[..n]);
      if s[n].Some? { ContentsMembers(s[..n], s[n].value); }
    }
  }

  /** Pruning a full list makes room in it. */
  lemma PrunedHasRoom(c: Config, o: Row, lc: nat, s: Slots)
    requires ValidConfig(c) && NoRepeat(s) && |s| == Capacity(c, lc) + 1
    ensures HasRoom(Pruned(c, o, lc, s)) && |Contents(Pruned(c, o, lc, s))| <= Capacity(c, lc)
    ensures NoRepeat(Pruned(c, o, lc, s))
  {
    ContentsSize(s);
    var r := Pruned(c, o, lc, s);
    ContentsSize(r);
    if |Contents(s)| > Capacity(c, lc) {
      var rem := ToRemove(c, o, lc, Contents(s));
      ContentsDistinct(s);
      OverCapacityRemoves(c, o, lc, Contents(s));
      var x :| x in rem;
      ContentsMembers(s, x);
      var k :| 0 <= k < |s| && s[k] == Some(x);
      assert r[k].None?;
    }
  }

  lemma ClaimedNoRepeat(s: Slots, id: Row)
    requires NoRepeat(s) && id !in Contents(s)
    ensures NoRepeat(Claimed(s, id))
  {
    ContentsMembers(s, id);
  }

  lemma PrunedMembers(c: Config, o: Row, lc: nat, s: Slots, x: Row)
    requires c.alpha > 0.0 && x in Contents(Pruned(c, o, lc, s))
    ensures x in Contents(s)
  {
    ContentsMembers(s, x);
    ContentsMembers(Pruned(c, o, lc, s), x);
  }

  // ---------------------------------------------------------------------------
  // The shrink loop and the claim loop
  // ---------------------------------------------------------------------------

  /**
   `run_shrink_retry_loop` over `shrink_and_check`: `rounds` counts the attempts made.
   Alone on the list it converges in one round, or in two when there is something to prune.
   */
  method ShrinkLoop(c: Config, o: Row, lc: nat, a: array<Option<Row>>) returns (converged: bool, rounds: nat)
    requires ValidConfig(c) && a.Length == Capacity(c, lc) + 1 && NoRepeat(a[..])
    modifies a
    ensures converged && 1 <= rounds <= 2
    ensures rounds == 2 <==> forall k :: 0 <= k < a.Length ==> old(a[k]).Some?
    ensures PrunedTo(c, o, if lc == 0 then c.mmax0 else c.mmax, old(a[..]), a[..])
  {
    PrunedMeaning(c, o, lc, a[..]);
    converged, rounds := ShrinkRounds(c, o, lc, a);
  }

  method ShrinkRounds(c: Config, o: Row, lc: nat, a: array<Option<Row>>) returns (converged: bool, rounds: nat)
    requires ValidConfig(c) && a.Length == Capacity(c, lc) + 1 && NoRepeat(a[..])
    modifies a
    ensures converged && 1 <= rounds <= 2
    ensures rounds == 2 <==> !HasRoom(old(a[..]))
    ensures a[..] == Pruned(c, o, lc, old(a[..]))
  {
    ghost var was := a[..];
    PrunedHasRoom(c, o, lc, was);
    ContentsSize(was);
    rounds := 0;
    while true
      invariant rounds <= 1 && NoRepeat(a[..])
      invariant a[..] == if rounds == 0 then was else Pruned(c, o, lc, was)
      invariant rounds == 1 ==> !HasRoom(was)
      decreases MAX_SHRINK_RETRIES - rounds
    {
      rounds := rounds + 1;
      var occupied := OccupiedInto(a);
      if |occupied| <= Capacity(c, lc) { return true, rounds; }
      assert rounds == 1;
      var rem := ToRemove(c, o, lc, occupied);
      ContentsDistinct(was);
      OverCapacityRemoves(c, o, lc, occupied);
      if rem == {} { return false, rounds; }
      ClearMatching(a, rem);
      if rounds >= MAX_SHRINK_RETRIES { return false, rounds; }
    }
  }

  datatype Outcome = Linked | DidNotConverge(attempts: nat)

  /**
   `claim_and_prune`. On a list without repeats that lacks `id`, the call always succeeds, at
   the latest at its second claim, and leaves the list within capacity.
   */
  method ClaimAndPrune(c: Config, o: Row, lc: nat, a: array<Option<Row>>, id: Row)
    returns (outcome: Outcome, attempts: nat)
    requires ValidConfig(c) && a.Length == Capacity(c, lc) + 1
    requires NoRepeat(a[..]) && id !in Contents(a[..])
    modifies a
    ensures outcome == Linked && attempts == if forall k :: 0 <= k < a.Length ==> old(a[k]).Some? then 2 else 1
    ensures LinkedTo(c, o, if lc == 0 then c.mmax0 else c.mmax, old(a[..]), id, a[..])
    ensures |Contents(a[..])| <= (if lc == 0 then c.mmax0 else c.mmax) && NoRepeat(a[..])
  {
    SettledMeaning(c, o, lc, a[..], id);
    outcome, attempts := ClaimAttempts(c, o, lc, a, id);
  }

  method ClaimAttempts(c: Config, o: Row, lc: nat, a: array<Option<Row>>, id: Row)
    returns (outcome: Outcome, attempts: nat)
    requires ValidConfig(c) && a.Length == Capacity(c, lc) + 1
    requires NoRepeat(a[..]) && id !in Contents(a[..])
    modifies a
    ensures outcome == Linked && attempts == if HasRoom(old(a[..])) then 1 else 2
    ensures a[..] == Settled(c, o, lc, old(a[..]), id)
    ensures |Contents(a[..])| <= Capacity(c, lc) && NoRepeat(a[..])
  {
    ghost var was := a[..];
    attempts := 0;
    while attempts < MAX_SHRINK_RETRIES
      invariant attempts <= 1 && NoRepeat(a[..]) && id !in Contents(a[..])
      invariant a[..] == if attempts == 0 then was else Pruned(c, o, lc, was)
      invariant attempts == 1 ==> !HasRoom(was)
    {
      ghost var before := a[..];
      if attempts == 1 { PrunedHasRoom(c, o, lc, was); }
      attempts := attempts + 1;
      ClaimedNoRepeat(before, id);
      var claimed := ClaimSlot(a, id);
      PrunedHasRoom(c, o, lc, a[..]);
      var converged, rounds := ShrinkRounds(c, o, lc, a);
      if !converged { return DidNotConverge(rounds), attempts; }
      var occupied := OccupiedInto(a);
      if !claimed { NotThereUnlessClaimed(c, o, lc, before, id); }
      if claimed || id in occupied { return Linked, attempts; }
    }
    return DidNotConverge(MAX_SHRINK_RETRIES), attempts;
  }

  lemma NotThereUnlessClaimed(c: Config, o: Row, lc: nat, s: Slots, id: Row)
    requires c.alpha > 0.0 && id !in Contents(s) && !HasRoom(s)
    ensures id !in Contents(Pruned(c, o, lc, s))
  {
    if id in Contents(Pruned(c, o, lc, s)) { PrunedMembers(c, o, lc, s, id); }
  }
}
