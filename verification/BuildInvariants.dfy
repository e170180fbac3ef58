/**
 What every reachable state of the build satisfies. The parts:

 - `ListsOk`: a slot only ever holds an id that was claimed at that slot;
 - `EdgesOk`: every id ever claimed at a layer, and the owner of the list, is a stored row
   that reaches the layer and has already finished its own search of it;
 - `PcsOk`: what each insert knows (its entry is published and reaches the layer it searches,
   everything it has discovered is linkable there, its snapshots and removal sets are sound);
 - `SharedOk`: entry point, empty-graph claimer and published flags agree with the inserts;
 - `PendingOk`, `NoRace`: a claim still to be made has not been made yet, by anybody;
 - `NearestOk`: in every list, whatever ranks first among everything ever claimed is present;
 - `WatchedOk`: a list over its logical capacity is being pruned by somebody;
 - `ConnectedOk`: without deletions nobody finishes without a base-layer edge.
 */
module BuildInvariants {
  import opened Common
  import opened Heuristic
  import opened Build

  /** This insert has finished its search of layer `lc`, or will never run one. */
  ghost predicate Searched(pc: Pc, lc: nat) {
    match pc
    case Claiming => false
    case Waiting(_, _) => false
    case Searching(_, l, _) => lc > l
    case Picking(_, l, _, _) => lc > l
    case Linking(_, l, _, _, _, _, _) => lc >= l
    case _ => true
  }

  /** `x` is a stored row that takes part in layer `lc` and is done searching it. */
  ghost predicate Linkable(s: State, x: Row, lc: nat) {
    x in s.nodes && x in s.pcs && lc <= s.nodes[x].level && Searched(s.pcs[x], lc)
  }

  /** `e` may be searched from at layer `lc`. */
  ghost predicate EntryOk(s: State, e: Row, lc: nat) {
    e in s.nodes && lc <= s.nodes[e].level && s.nodes[e].published
  }

  ghost predicate ShapeOk(c: Config, s: State) {
    && s.pcs.Keys == s.nodes.Keys
    && (forall x :: x in s.nodes ==> |s.nodes[x].layers| == s.nodes[x].level + 1)
    && (forall x, lc :: HasLayer(s, x, lc) ==> |ListAt(s, x, lc).slots| == Capacity(c, lc) + 1)
  }

  ghost predicate ListOk(l: List) {
    && (forall i :: 0 <= i < |l.slots| && l.slots[i].Some? ==>
          l.slots[i].value in l.ever && l.ever[l.slots[i].value] == i)
    && (forall x :: x in l.ever ==> l.ever[x] < |l.slots|)
  }

  ghost predicate ListsOk(s: State) {
    forall o, lc :: HasLayer(s, o, lc) ==> ListOk(ListAt(s, o, lc))
  }

  ghost predicate EdgesOk(s: State) {
    forall o, lc, x :: HasLayer(s, o, lc) && x in ListAt(s, o, lc).ever ==>
      x != o && Linkable(s, x, lc) && Linkable(s, o, lc)
  }

  /** In the list of `o`, `b` ranks before `x`: nearer, or as near and in an earlier slot. */
  ghost predicate Ranks(c: Config, o: Row, l: List, b: Row, x: Row)
    requires b in l.ever && x in l.ever
  {
    c.dist(o, b) < c.dist(o, x) || (c.dist(o, b) == c.dist(o, x) && l.ever[b] < l.ever[x])
  }

  /** A partial snapshot: ids claimed at slots before `i`, in slot order. */
  ghost predicate SnapOk(l: List, i: nat, snap: seq<Row>) {
    && |snap| <= i
    && (forall k :: 0 <= k < |snap| ==> snap[k] in l.ever && l.ever[snap[k]] < i)
    && (forall j, k :: 0 <= j < k < |snap| ==> l.ever[snap[j]] < l.ever[snap[k]])
  }

  /** Whatever is about to be removed is outranked by something claimed. */
  ghost predicate RemOk(c: Config, o: Row, l: List, rem: set<Row>) {
    forall x :: x in rem ==> x in l.ever && exists b :: b in l.ever && Ranks(c, o, l, b, x)
  }

  ghost predicate OpOk(c: Config, o: Row, id: Row, l: List, op: Op) {
    match op
    case Claim(i) => true
    case Scan(_, claimed, i, snap) => i <= |l.slots| && SnapOk(l, i, snap) && (claimed ==> id in l.ever)
    case Clear(_, claimed, i, rem) => RemOk(c, o, l, rem) && (claimed ==> id in l.ever)
    case Cas(_, claimed, i, rem, cur) =>
      i < |l.slots| && cur in rem && RemOk(c, o, l, rem) && (claimed ==> id in l.ever)
  }

  ghost predicate LinkOk(c: Config, s: State, t: Row, pc: Pc)
    requires pc.Linking?
  {
    && EntryOk(s, pc.entry, pc.lc)
    && t in s.nodes && pc.lc <= s.nodes[t].level && HasLayer(s, t, pc.lc)
    && Distinct(pc.chosen) && pc.j <= |pc.chosen|
    && (forall i :: 0 <= i < |pc.chosen| ==>
          pc.chosen[i] != t && Linkable(s, pc.chosen[i], pc.lc) && HasLayer(s, pc.chosen[i], pc.lc))
    && (pc.j < |pc.chosen| ==>
          OpOk(c, Owner(t, pc), Claimed(t, pc), ListAt(s, Owner(t, pc), pc.lc), pc.op))
  }

  /** What insert `t` knows at `pc`; everything here stays true as the rest of the graph grows. */
  ghost predicate PcOk(c: Config, s: State, t: Row, pc: Pc) {
    && (!pc.Claiming? ==> s.entry.Some?)
    && match pc
       case Claiming => true
       case First => s.claimer == Some(t)
       case Waiting(e, l) => e in s.nodes && s.nodes[e].level == l && (s.nodes[e].published || s.claimer == Some(e))
       case Searching(e, lc, seen) => EntryOk(s, e, lc) && e in seen && forall x :: x in seen ==> Linkable(s, x, lc)
       case Picking(e, lc, found, k) =>
         EntryOk(s, e, lc) && Distinct(found) && forall i :: 0 <= i < |found| ==> Linkable(s, found[i], lc)
       case Linking(_, _, _, _, _, _, _) => LinkOk(c, s, t, pc)
       case Publishing => true
       case Advancing => IsPublished(s, t)
       case AdvanceCas(cur) => IsPublished(s, t) && (cur.Some? ==> cur.value.level < s.nodes[t].level)
       case Done => IsPublished(s, t) && s.entry.Some? && s.nodes[t].level <= s.entry.value.level
       case Failed(stuck) => !stuck
  }

  ghost predicate PcsOk(c: Config, s: State) {
    forall t :: t in s.pcs ==> PcOk(c, s, t, s.pcs[t])
  }

  ghost predicate EntryPointOk(s: State) {
    && (s.entry.Some? <==> s.claimer.Some?)
    && (s.entry.Some? ==>
          && s.entry.value.row in s.nodes
          && s.nodes[s.entry.value.row].level == s.entry.value.level
          && (s.nodes[s.entry.value.row].published || s.claimer == Some(s.entry.value.row)))
    && (s.claimer.Some? ==>
          && s.claimer.value in s.pcs && s.claimer.value in s.nodes
          && s.nodes[s.claimer.value].level <= s.entry.value.level
          && (s.pcs[s.claimer.value].First? || s.nodes[s.claimer.value].published))
  }

  ghost predicate PublishedOk(s: State) {
    forall x :: IsPublished(s, x) && x in s.pcs ==>
      s.pcs[x].Advancing? || s.pcs[x].AdvanceCas? || s.pcs[x].Done?
  }

  /** The invariants about what exists and what each insert knows. */
  ghost predicate Core(c: Config, s: State) {
    && ValidConfig(c) && ShapeOk(c, s) && ListsOk(s) && EdgesOk(s) && PcsOk(c, s)
    && EntryPointOk(s) && PublishedOk(s)
  }

  /** `id` has not entered the list of `o` yet. */
  ghost predicate Unclaimed(s: State, o: Row, id: Row, lc: nat) {
    HasLayer(s, o, lc) ==> id !in ListAt(s, o, lc).ever
  }

  /** The claims insert `t` still has to make at the layer it is linking. */
  ghost predicate PendingAt(s: State, t: Row, pc: Pc)
    requires pc.Linking?
  {
    && (forall i :: pc.j < i < |pc.chosen| ==> Unclaimed(s, pc.chosen[i], t, pc.lc) && Unclaimed(s, t, pc.chosen[i], pc.lc))
    && (pc.j < |pc.chosen| && !pc.back ==> Unclaimed(s, t, pc.chosen[pc.j], pc.lc))
    && (pc.j < |pc.chosen| && (pc.op.Claim? || !pc.op.claimed) ==> Unclaimed(s, Owner(t, pc), Claimed(t, pc), pc.lc))
  }

  ghost predicate PendingOk(s: State) {
    forall t :: t in s.pcs && s.pcs[t].Linking? ==> PendingAt(s, t, s.pcs[t])
  }

  /** Two inserts linking the same layer never chose each other. */
  ghost predicate NoRace(s: State) {
    forall u, v :: u in s.pcs && v in s.pcs && s.pcs[u].Linking? && s.pcs[v].Linking? && s.pcs[u].lc == s.pcs[v].lc ==>
      !(v in s.pcs[u].chosen && u in s.pcs[v].chosen)
  }

  ghost predicate NearestAt(c: Config, o: Row, l: List) {
    forall b :: b in l.ever && (forall x :: x in l.ever ==> !Ranks(c, o, l, x, b)) ==>
      l.ever[b] < |l.slots| && l.slots[l.ever[b]] == Some(b)
  }

  ghost predicate NearestOk(c: Config, s: State) {
    forall o, lc :: HasLayer(s, o, lc) ==> NearestAt(c, o, ListAt(s, o, lc))
  }

  ghost predicate Full(l: List) {
    forall i :: 0 <= i < |l.slots| ==> l.slots[i].Some?
  }

  /** Insert `t` is pruning the layer-`lc` list of `o` and has seen no free slot in its current scan. */
  ghost predicate Watching(t: Row, pc: Pc, o: Row, lc: nat) {
    && pc.Linking? && pc.j < |pc.chosen| && pc.lc == lc && Owner(t, pc) == o
    && (pc.op.Clear? || pc.op.Cas? || (pc.op.Scan? && |pc.op.snap| == pc.op.i))
  }

  ghost predicate WatchedOk(s: State) {
    forall o, lc :: HasLayer(s, o, lc) && Full(ListAt(s, o, lc)) && AllOk(s) ==>
      exists t :: t in s.pcs && Watching(t, s.pcs[t], o, lc)
  }

  /** The base-layer list of `x` has been claimed into. */
  ghost predicate Touched(s: State, x: Row) {
    HasLayer(s, x, 0) && ListAt(s, x, 0).ever != map[]
  }

  /** Past its base layer. */
  ghost predicate Finished(pc: Pc) {
    pc.Publishing? || pc.Advancing? || pc.AdvanceCas? || pc.Done?
  }

  ghost predicate LinkedAt(s: State, t: Row, pc: Pc) {
    && (pc.Picking? && pc.entry !in s.deleted ==> pc.found != [])
    && (pc.Linking? ==>
          && pc.chosen != []
          && (pc.lc == 0 && pc.j > 0 ==> Touched(s, t))
          && (pc.lc == 0 && (pc.j > 0 || pc.back) ==> Touched(s, pc.chosen[0])))
    && (Finished(pc) && s.claimer != Some(t) ==> Touched(s, t))
  }

  /** All that insert `t` can know while nobody has linked to the first row `f` yet. */
  ghost predicate KnowsOnly(f: Row, t: Row, pc: Pc) {
    && (pc.Waiting? || pc.Searching? || pc.Picking? || pc.Linking? ==> pc.entry == f)
    && (pc.Searching? && pc.lc == 0 ==> pc.seen <= {f})
    && (pc.Picking? && pc.lc == 0 ==> forall i :: 0 <= i < |pc.found| ==> pc.found[i] == f)
    && (pc.Linking? && pc.lc == 0 ==> forall i :: 0 <= i < |pc.chosen| ==> pc.chosen[i] == f)
    && (Finished(pc) ==> t == f)
  }

  ghost predicate FirstOk(s: State) {
    s.claimer.Some? && !Touched(s, s.claimer.value) ==>
      && (forall x :: x in s.nodes ==> !Touched(s, x))
      && (forall t :: t in s.pcs ==> KnowsOnly(s.claimer.value, t, s.pcs[t]))
  }

  ghost predicate ConnectedOk(s: State) {
    s.deleted == {} ==> (forall t :: t in s.pcs ==> LinkedAt(s, t, s.pcs[t])) && FirstOk(s)
  }

  ghost predicate Inv(c: Config, s: State) {
    && Core(c, s) && PendingOk(s) && NoRace(s) && NearestOk(c, s) && WatchedOk(s) && ConnectedOk(s)
  }
}
