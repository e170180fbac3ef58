/**
 The theorems: what holds in every state of every run of the build, for any number of
 concurrent inserts and every interleaving. They speak of the slots, flags and entry point
 alone; the claim history is only used inside the proofs.
 */
module BuildTheorems {
  import opened Common
  import opened Build
  import opened BuildInvariants
  import opened BuildCore
  import opened BuildClaims
  import opened BuildProgress

  // ---------------------------------------------------------------------------
  // The invariant holds throughout every run
  // ---------------------------------------------------------------------------

  lemma InvStep(c: Config, s: State, step: Step)
    requires Inv(c, s) && Enabled(c, s, step)
    ensures Inv(c, Apply(c, s, step)) && Grows(s, Apply(c, s, step))
  {
    CoreStep(c, s, step);
    PendingStep(c, s, step);
    NearestStep(c, s, step);
    WatchedStep(c, s, step);
    ConnectedStep(c, s, step);
  }

  lemma {:induction false} RunInv(c: Config, run: seq<State>, steps: seq<Step>, i: nat)
    requires IsRun(c, run, steps) && i < |run|
    ensures Inv(c, run[i])
  {
    if i > 0 {
      RunInv(c, run, steps, i - 1);
      assert StepAt(c, run, steps, i - 1);
      InvStep(c, run[i - 1], steps[i - 1]);
    }
  }

  lemma GrowsReflexive(s: State)
    ensures Grows(s, s)
  {
  }

  lemma GrowsTransitive(a: State, b: State, d: State)
    requires Grows(a, b) && Grows(b, d)
    ensures Grows(a, d)
  {
  }

  lemma RunStep(c: Config, run: seq<State>, steps: seq<Step>, k: nat)
    requires IsRun(c, run, steps) && k < |steps|
    ensures Grows(run[k], run[k + 1])
  {
    RunInv(c, run, steps, k);
    assert StepAt(c, run, steps, k);
    InvStep(c, run[k], steps[k]);
  }

  lemma {:induction false} RunGrows(c: Config, run: seq<State>, steps: seq<Step>, i: nat, j: nat)
    requires IsRun(c, run, steps) && i <= j < |run|
    ensures Grows(run[i], run[j])
    decreases j
  {
    if i == j {
      GrowsReflexive(run[i]);
    } else {
      RunGrows(c, run, steps, i, j - 1);
      RunStep(c, run, steps, j - 1);
      GrowsTransitive(run[i], run[j - 1], run[j]);
    }
  }

  // ---------------------------------------------------------------------------
  // Edges
  // ---------------------------------------------------------------------------

  /** `x` occupies some slot of the layer-`lc` list of `o`. */
  ghost predicate InList(s: State, o: Row, lc: nat, x: Row) {
    HasLayer(s, o, lc) && exists i :: 0 <= i < |ListAt(s, o, lc).slots| && ListAt(s, o, lc).slots[i] == Some(x)
  }

  /** No list ever holds a duplicate or its owner, and every edge joins rows reaching its layer. */
  lemma EdgesAreSound(c: Config, run: seq<State>, steps: seq<Step>, i: nat, o: Row, lc: nat)
    requires IsRun(c, run, steps) && i < |run| && HasLayer(run[i], o, lc)
    ensures var slots := ListAt(run[i], o, lc).slots;
      && (forall a, b :: 0 <= a < b < |slots| && slots[a].Some? ==> slots[a] != slots[b])
      && (forall a :: 0 <= a < |slots| && slots[a].Some? ==>
            && slots[a].value != o
            && slots[a].value in run[i].nodes && lc <= run[i].nodes[slots[a].value].level)
    ensures lc <= run[i].nodes[o].level
  {
    RunInv(c, run, steps, i);
    assert ListOk(ListAt(run[i], o, lc));
  }

  /** Step `k` of the run puts `id` into the layer-`lc` list of `o`. */
  ghost predicate Claims(run: seq<State>, steps: seq<Step>, k: nat, o: Row, id: Row, lc: nat)
    requires |run| == |steps| + 1 && k < |steps|
  {
    && steps[k].ClaimSlot? && CanClaim(run[k], steps[k].t) && ClaimSucceeds(run[k], steps[k].t)
    && var pc := run[k].pcs[steps[k].t];
       Owner(steps[k].t, pc) == o && Claimed(steps[k].t, pc) == id && pc.lc == lc
  }

  /** Each ordered pair at a layer is claimed at most once in a whole run, and never a row into its own list. */
  lemma ClaimedAtMostOnce(c: Config, run: seq<State>, steps: seq<Step>, i: nat, j: nat, o: Row, id: Row, lc: nat)
    requires IsRun(c, run, steps) && i < |steps| && j < |steps|
    requires Claims(run, steps, i, o, id, lc) && Claims(run, steps, j, o, id, lc)
    ensures i == j && o != id
  {
    ClaimIsNew(c, run, steps, i, o, id, lc);
    ClaimIsNew(c, run, steps, j, o, id, lc);
    if i < j {
      RunGrows(c, run, steps, i + 1, j);
    } else if j < i {
      RunGrows(c, run, steps, j + 1, i);
    }
  }

  lemma ClaimIsNew(c: Config, run: seq<State>, steps: seq<Step>, k: nat, o: Row, id: Row, lc: nat)
    requires IsRun(c, run, steps) && k < |steps| && Claims(run, steps, k, o, id, lc)
    ensures HasLayer(run[k], o, lc) && id !in ListAt(run[k], o, lc).ever
    ensures HasLayer(run[k + 1], o, lc) && id in ListAt(run[k + 1], o, lc).ever && o != id
  {
    var t := steps[k].t;
    assert StepAt(c, run, steps, k);
    RunInv(c, run, steps, k);
    AtLinkOk(c, run[k], t);
    assert PendingAt(run[k], t, run[k].pcs[t]);
    ClaimIsListStep(run[k], t);
    ListStepFrame(run[k], run[k + 1], t, ClaimedList(run[k], t), Scan(1, true, 0, []));
  }

  // ---------------------------------------------------------------------------
  // Capacity
  // ---------------------------------------------------------------------------

  function Occupied(slots: seq<Option<Row>>): nat {
    if slots == [] then 0 else (if slots[0].Some? then 1 else 0) + Occupied(slots[1..])
  }

  lemma {:induction false} OccupiedBound(slots: seq<Option<Row>>)
    ensures Occupied(slots) <= |slots|
    ensures (exists i :: 0 <= i < |slots| && slots[i].None?) ==> Occupied(slots) < |slots|
  {
    if slots != [] {
      OccupiedBound(slots[1..]);
      if i :| 0 < i < |slots| && slots[i].None? { assert slots[1..][i - 1].None?; }
    }
  }

  /**
   A list holds at most one edge more than its capacity, `mmax0` in the base layer and `mmax` above,
   and when every insert returned Ok, not even that.
   */
  lemma CapacityRespected(c: Config, run: seq<State>, steps: seq<Step>, i: nat, o: Row, lc: nat)
    requires IsRun(c, run, steps) && i < |run| && HasLayer(run[i], o, lc)
    ensures Occupied(ListAt(run[i], o, lc).slots) <= (if lc == 0 then c.mmax0 else c.mmax) + 1
    ensures Quiescent(run[i]) && AllOk(run[i]) ==> Occupied(ListAt(run[i], o, lc).slots) <= if lc == 0 then c.mmax0 else c.mmax
  {
    RunInv(c, run, steps, i);
    var l := ListAt(run[i], o, lc);
    OccupiedBound(l.slots);
    if Quiescent(run[i]) && AllOk(run[i]) {
      assert forall t :: t in run[i].pcs ==> !Watching(t, run[i].pcs[t], o, lc);
      assert !Full(l);
    }
  }

  /** The shrink loop never finds itself with nothing to remove. */
  lemma NeverStuck(c: Config, run: seq<State>, steps: seq<Step>, i: nat, t: Row)
    requires IsRun(c, run, steps) && i < |run| && t in run[i].pcs
    ensures run[i].pcs[t] != Failed(true)
  {
    RunInv(c, run, steps, i);
    assert PcOk(c, run[i], t, run[i].pcs[t]);
  }

  // ---------------------------------------------------------------------------
  // The nearest survives
  // ---------------------------------------------------------------------------

  /** `x` has been in the list at some point of the run up to state `j`. */
  ghost predicate Appeared(run: seq<State>, j: nat, o: Row, lc: nat, x: Row)
    requires j < |run|
  {
    exists k :: 0 <= k <= j && InList(run[k], o, lc, x)
  }

  lemma InListWasClaimed(c: Config, s: State, o: Row, lc: nat, x: Row)
    requires Core(c, s) && InList(s, o, lc, x)
    ensures x in ListAt(s, o, lc).ever
  {
    assert ListOk(ListAt(s, o, lc));
  }

  lemma EverClaim(c: Config, s: State, t: Row, o: Row, lc: nat, x: Row)
    requires Core(c, s) && PendingOk(s) && CanClaim(s, t) && ClaimSucceeds(s, t) && HasLayer(DoClaim(s, t), o, lc)
    requires x in ListAt(DoClaim(s, t), o, lc).ever
    ensures (HasLayer(s, o, lc) && x in ListAt(s, o, lc).ever) || InList(DoClaim(s, t), o, lc, x)
  {
    AtLinkOk(c, s, t);
    assert PendingAt(s, t, s.pcs[t]);
    ClaimIsListStep(s, t);
    ListStepFrame(s, DoClaim(s, t), t, ClaimedList(s, t), Scan(1, true, 0, []));
    assert ClaimedList(s, t).slots[s.pcs[t].op.i] == Some(Claimed(t, s.pcs[t]));
  }

  lemma ClaimStays(c: Config, run: seq<State>, steps: seq<Step>, i: nat, j: nat, o: Row, lc: nat, x: Row)
    requires IsRun(c, run, steps) && i <= j < |run| && InList(run[i], o, lc, x)
    ensures HasLayer(run[j], o, lc) && x in ListAt(run[j], o, lc).ever
    ensures Core(c, run[j]) && NearestOk(c, run[j])
  {
    RunClaimed(c, run, steps, i, o, lc, x);
    RunGrows(c, run, steps, i, j);
    RunInv(c, run, steps, j);
  }

  lemma RunClaimed(c: Config, run: seq<State>, steps: seq<Step>, i: nat, o: Row, lc: nat, x: Row)
    requires IsRun(c, run, steps) && i < |run| && InList(run[i], o, lc, x)
    ensures x in ListAt(run[i], o, lc).ever
  {
    RunInv(c, run, steps, i);
    InListWasClaimed(c, run[i], o, lc, x);
  }

  /** A step adds at most the id it claims, which is then in the list. */
  lemma EverStep(c: Config, s: State, step: Step, o: Row, lc: nat, x: Row)
    requires Core(c, s) && PendingOk(s) && Enabled(c, s, step) && HasLayer(Apply(c, s, step), o, lc)
    requires x in ListAt(Apply(c, s, step), o, lc).ever
    ensures (HasLayer(s, o, lc) && x in ListAt(s, o, lc).ever) || InList(Apply(c, s, step), o, lc, x)
  {
    if step.ClaimSlot? && ClaimSucceeds(s, step.t) {
      EverClaim(c, s, step.t, o, lc, x);
    } else {
      EverUnchanged(c, s, step);
    }
  }

  lemma EverUnchanged(c: Config, s: State, step: Step)
    requires Core(c, s) && Enabled(c, s, step) && !(step.ClaimSlot? && ClaimSucceeds(s, step.t))
    ensures SameEver(s, Apply(c, s, step))
  {
    if OutsideLinking(step) {
      OutsideFrame(c, s, step);
    } else if step.CasSlot? {
      CasSameEver(s, step.t);
    } else {
      LinkingFrame(c, s, step);
    }
  }

  lemma {:induction false} ClaimedAppeared(c: Config, run: seq<State>, steps: seq<Step>, j: nat, o: Row, lc: nat, x: Row)
    requires IsRun(c, run, steps) && j < |run| && HasLayer(run[j], o, lc) && x in ListAt(run[j], o, lc).ever
    ensures Appeared(run, j, o, lc, x)
  {
    if j > 0 {
      RunInv(c, run, steps, j - 1);
      assert StepAt(c, run, steps, j - 1);
      EverStep(c, run[j - 1], steps[j - 1], o, lc, x);
      if !InList(run[j], o, lc, x) { ClaimedAppeared(c, run, steps, j - 1, o, lc, x); }
    }
  }

  /** The row strictly nearest to `o` among all that were ever in its list is in it now. */
  lemma NearestNeverRemoved(c: Config, run: seq<State>, steps: seq<Step>, j: nat, o: Row, lc: nat, x: Row)
    requires IsRun(c, run, steps) && j < |run| && Appeared(run, j, o, lc, x)
    requires forall y :: y != x && Appeared(run, j, o, lc, y) ==> c.dist(o, x) < c.dist(o, y)
    ensures InList(run[j], o, lc, x)
  {
    var k :| 0 <= k <= j && InList(run[k], o, lc, x);
    ClaimStays(c, run, steps, k, j, o, lc, x);
    var l := ListAt(run[j], o, lc);
    forall y | y in l.ever ensures !Ranks(c, o, l, y, x) {
      ClaimedAppeared(c, run, steps, j, o, lc, y);
    }
    UnrankedPresent(c, run[j], o, lc, x);
  }

  lemma UnrankedPresent(c: Config, s: State, o: Row, lc: nat, b: Row)
    requires NearestOk(c, s) && HasLayer(s, o, lc) && b in ListAt(s, o, lc).ever
    requires forall x :: x in ListAt(s, o, lc).ever ==> !Ranks(c, o, ListAt(s, o, lc), x, b)
    ensures InList(s, o, lc, b)
  {
    assert NearestAt(c, o, ListAt(s, o, lc));
  }

  /** Among finitely many claimed ids one is outranked by none. */
  lemma {:induction false} BestExists(c: Config, o: Row, l: List, ids: set<Row>) returns (b: Row)
    requires ids <= l.ever.Keys && ids != {}
    ensures b in ids && forall x :: x in ids ==> !Ranks(c, o, l, x, b)
  {
    var x :| x in ids;
    if ids == {x} {
      b := x;
    } else {
      var b' := BestExists(c, o, l, ids - {x});
      b := if Ranks(c, o, l, x, b') then x else b';
      forall y | y in ids ensures !Ranks(c, o, l, y, b) {
        if y != x { assert y in ids - {x}; }
      }
    }
  }

  ghost predicate NonEmpty(s: State, o: Row, lc: nat) {
    exists x :: InList(s, o, lc, x)
  }

  lemma ClaimedMeansNonEmpty(c: Config, s: State, o: Row, lc: nat)
    requires Core(c, s) && NearestOk(c, s) && HasLayer(s, o, lc) && ListAt(s, o, lc).ever != map[]
    ensures NonEmpty(s, o, lc)
  {
    var l := ListAt(s, o, lc);
    assert l.ever.Keys != {} by { var x :| x in l.ever; assert x in l.ever.Keys; }
    var b := BestExists(c, o, l, l.ever.Keys);
    UnrankedPresent(c, s, o, lc, b);
  }

  /** A list that has once been non-empty is never empty again, ties or not. */
  lemma NeverEmptyAgain(c: Config, run: seq<State>, steps: seq<Step>, i: nat, j: nat, o: Row, lc: nat)
    requires IsRun(c, run, steps) && i <= j < |run| && NonEmpty(run[i], o, lc)
    ensures NonEmpty(run[j], o, lc)
  {
    var x :| InList(run[i], o, lc, x);
    ClaimStays(c, run, steps, i, j, o, lc, x);
    ClaimedMeansNonEmpty(c, run[j], o, lc);
  }

  // ---------------------------------------------------------------------------
  // Nobody is stranded
  // ---------------------------------------------------------------------------

  /**
   Without deletions and failures, once all inserts are done every row has a base-layer
   edge; only a row alone in the graph has none.
   */
  lemma NobodyStranded(c: Config, run: seq<State>, steps: seq<Step>, i: nat, x: Row, y: Row)
    requires IsRun(c, run, steps) && i < |run| && run[i].deleted == {} && Quiescent(run[i]) && AllOk(run[i])
    requires x in run[i].nodes && y in run[i].nodes && x != y
    ensures NonEmpty(run[i], x, 0)
  {
    var s := run[i];
    RunInv(c, run, steps, i);
    assert s.pcs[x].Done? && s.pcs[y].Done?;
    assert LinkedAt(s, x, s.pcs[x]) && LinkedAt(s, y, s.pcs[y]);
    assert PcOk(c, s, y, s.pcs[y]);
    var known := KnowsOnly(x, y, s.pcs[y]);
    if !Touched(s, x) { assert false; }
    ClaimedMeansNonEmpty(c, s, x, 0);
  }

  // ---------------------------------------------------------------------------
  // The entry point
  // ---------------------------------------------------------------------------

  /** Once set, the entry point stays set and its level never decreases. */
  lemma EntryLevelNeverDecreases(c: Config, run: seq<State>, steps: seq<Step>, i: nat, j: nat)
    requires IsRun(c, run, steps) && i <= j < |run| && run[i].entry.Some?
    ensures run[j].entry.Some? && run[i].entry.value.level <= run[j].entry.value.level
  {
    RunGrows(c, run, steps, i, j);
  }

  /** The entry point always names a stored row together with that row's own level. */
  lemma EntryIsStoredRow(c: Config, run: seq<State>, steps: seq<Step>, i: nat)
    requires IsRun(c, run, steps) && i < |run| && run[i].entry.Some?
    ensures run[i].entry.value.row in run[i].nodes
    ensures run[i].nodes[run[i].entry.value.row].level == run[i].entry.value.level
  {
    RunInv(c, run, steps, i);
  }

  /** At most one insert of a run ever claims the empty graph. */
  lemma OneClaimer(c: Config, run: seq<State>, steps: seq<Step>, i: nat, j: nat)
    requires IsRun(c, run, steps) && i < |steps| && j < |steps|
    requires steps[i].ClaimEntry? && run[i].entry.None? && steps[j].ClaimEntry? && run[j].entry.None?
    ensures i == j
  {
    assert StepAt(c, run, steps, i) && StepAt(c, run, steps, j);
    if i < j {
      RunGrows(c, run, steps, i + 1, j);
    } else if j < i {
      RunGrows(c, run, steps, j + 1, i);
    }
  }

  /** When every insert has returned Ok, the entry point has the highest level inserted. */
  lemma EntryIsHighest(c: Config, run: seq<State>, steps: seq<Step>, i: nat, x: Row)
    requires IsRun(c, run, steps) && i < |run| && Quiescent(run[i]) && AllOk(run[i]) && x in run[i].nodes
    ensures run[i].entry.Some? && run[i].nodes[x].level <= run[i].entry.value.level
  {
    RunInv(c, run, steps, i);
    assert PcOk(c, run[i], x, run[i].pcs[x]);
  }

  // ---------------------------------------------------------------------------
  // Traversal entries and waiting
  // ---------------------------------------------------------------------------

  /** Whatever row an insert searches from is stored, published and reaches the layer searched. */
  lemma TraversalEntryPublished(c: Config, run: seq<State>, steps: seq<Step>, i: nat, t: Row)
    requires IsRun(c, run, steps) && i < |run| && t in run[i].pcs
    requires run[i].pcs[t].Searching? || run[i].pcs[t].Picking? || run[i].pcs[t].Linking?
    ensures var pc := run[i].pcs[t];
      pc.entry in run[i].nodes && run[i].nodes[pc.entry].published && pc.lc <= run[i].nodes[pc.entry].level
  {
    RunInv(c, run, steps, i);
    assert PcOk(c, run[i], t, run[i].pcs[t]);
  }

  /** An insert that waits waits for the claimer of the empty graph, whose next step ends the wait. */
  lemma OnlyTheClaimerIsWaitedFor(c: Config, run: seq<State>, steps: seq<Step>, i: nat, t: Row)
    requires IsRun(c, run, steps) && i < |run| && t in run[i].pcs && run[i].pcs[t].Waiting?
    requires !IsPublished(run[i], run[i].pcs[t].entry)
    ensures var e := run[i].pcs[t].entry;
      && run[i].claimer == Some(e) && e in run[i].pcs && run[i].pcs[e] == First
      && Enabled(c, run[i], PublishFirst(e)) && IsPublished(Apply(c, run[i], PublishFirst(e)), e)
  {
    RunInv(c, run, steps, i);
    assert PcOk(c, run[i], t, run[i].pcs[t]);
  }

  /** The step is taken by the insert of `t` alone, and moves it on. */
  ghost predicate Advances(c: Config, s: State, step: Step, t: Row) {
    && ValidConfig(c) && !step.Insert? && !step.Delete? && step.t == t && t in s.pcs && Enabled(c, s, step)
    && t in Apply(c, s, step).pcs && Apply(c, s, step).pcs[t] != s.pcs[t]
  }

  /** No deadlock: while an insert is unfinished, it can move on, or the one it waits for can. */
  lemma NoDeadlock(c: Config, run: seq<State>, steps: seq<Step>, i: nat, t: Row) returns (step: Step)
    requires IsRun(c, run, steps) && i < |run| && t in run[i].pcs && !run[i].pcs[t].Done? && !run[i].pcs[t].Failed?
    ensures !step.Delete? && Advances(c, run[i], step, step.t) && !run[i].pcs[step.t].Done? && !run[i].pcs[step.t].Failed?
    ensures step.t == t || (run[i].pcs[t].Waiting? && run[i].pcs[t].entry == step.t && run[i].claimer == Some(step.t))
  {
    var s := run[i];
    RunInv(c, run, steps, i);
    assert PcOk(c, s, t, s.pcs[t]) && t in s.nodes;
    if s.pcs[t].Waiting? && !IsPublished(s, s.pcs[t].entry) {
      OnlyTheClaimerIsWaitedFor(c, run, steps, i, t);
      step := PublishFirst(s.pcs[t].entry);
    } else {
      step := OwnStep(c, s, t);
    }
  }

  lemma OwnStep(c: Config, s: State, t: Row) returns (step: Step)
    requires Inv(c, s) && t in s.pcs && !s.pcs[t].Done? && !s.pcs[t].Failed?
    requires s.pcs[t].Waiting? ==> IsPublished(s, s.pcs[t].entry)
    ensures Advances(c, s, step, t)
  {
    var pc := s.pcs[t];
    assert PcOk(c, s, t, pc) && t in s.nodes;
    match pc
    case Searching(_, _, _) => step := SearchStep(c, s, t);
    case Linking(_, _, _, _, _, _, _) => step := LinkStep(c, s, t);
    case _ => step := PlainStep(c, s, t);
  }

  lemma PlainStep(c: Config, s: State, t: Row) returns (step: Step)
    requires ValidConfig(c) && t in s.nodes && t in s.pcs && PcOk(c, s, t, s.pcs[t])
    requires !s.pcs[t].Done? && !s.pcs[t].Failed? && !s.pcs[t].Searching? && !s.pcs[t].Linking?
    requires s.pcs[t].Waiting? ==> IsPublished(s, s.pcs[t].entry)
    ensures Advances(c, s, step, t)
  {
    match s.pcs[t]
    case Claiming => step := ClaimEntry(t);
    case First => step := PublishFirst(t);
    case Waiting(_, _) => step := Wait(t);
    case Picking(_, _, _, _) => step := Pick(t);
    case Publishing => step := Publish(t);
    case Advancing => step := Advance(t);
    case AdvanceCas(_) => step := CasEntry(t);
  }

  lemma SearchStep(c: Config, s: State, t: Row) returns (step: Step)
    requires ValidConfig(c) && t in s.nodes && t in s.pcs && s.pcs[t].Searching? && s.pcs[t].entry in s.pcs[t].seen
    ensures Advances(c, s, step, t)
  {
    var e := s.pcs[t].entry;
    step := EndSearch(t, if e in s.deleted then [] else [e]);
  }

  lemma LinkStep(c: Config, s: State, t: Row) returns (step: Step)
    requires Inv(c, s) && t in s.pcs && s.pcs[t].Linking?
    ensures Advances(c, s, step, t)
  {
    var pc := s.pcs[t];
    assert PcOk(c, s, t, pc);
    if pc.j == |pc.chosen| {
      step := LinkEnd(t);
    } else {
      assert AtLink(s, t);
      AtLinkOk(c, s, t);
      step := OpStep(c, s, t);
    }
  }

  lemma OpStep(c: Config, s: State, t: Row) returns (step: Step)
    requires ValidConfig(c) && AtLink(s, t) && (s.pcs[t].op.Cas? ==> s.pcs[t].op.i < |Target(s, t).slots|)
    ensures Advances(c, s, step, t)
  {
    match s.pcs[t].op
    case Claim(_) => step := ClaimSlot(t);
    case Scan(_, _, _, _) => step := ScanSlot(t); ScanMoves(c, s, t);
    case Clear(_, _, _, _) => step := ClearSlot(t);
    case Cas(_, _, _, _, _) => step := CasSlot(t);
  }

  lemma ScanMoves(c: Config, s: State, t: Row)
    requires c.alpha > 0.0 && CanScan(s, t)
    ensures ScanPc(c, s, t) != s.pcs[t]
  {
  }
}
