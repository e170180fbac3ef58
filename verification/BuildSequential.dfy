/**
 Runs in which inserts do not overlap: none of them ever fails, every shrink loop ends within
 two rounds and every claim within two attempts.
 */
module BuildSequential {
  import opened Common
  import opened Heuristic
  import opened Build
  import opened BuildInvariants
  import opened BuildTheorems
  import S = Shrink

  /** An insert only starts when no other is in progress. */
  predicate Sequential(run: seq<State>, steps: seq<Step>)
    requires |run| == |steps| + 1
  {
    forall i :: 0 <= i < |steps| ==> StartsAlone(run, steps, i)
  }

  predicate StartsAlone(run: seq<State>, steps: seq<Step>, i: nat)
    requires |run| == |steps| + 1 && i < |steps|
  {
    steps[i].Insert? ==> Quiescent(run[i])
  }

  // ---------------------------------------------------------------------------
  // What a claim knows of a list nobody else touches
  // ---------------------------------------------------------------------------

  ghost predicate ToClear(slots: S.Slots, i: nat, rem: set<Row>) {
    S.HasRoom(slots) || exists k :: i <= k < |slots| && slots[k].Some? && slots[k].value in rem
  }

  ghost predicate SoloOp(slots: S.Slots, attempt: nat, op: Op) {
    match op
    case Claim(i) =>
      && attempt <= 1 && (attempt == 1 ==> S.HasRoom(slots))
      && i <= |slots| && forall k :: 0 <= k < i ==> slots[k].Some?
    case Scan(round, claimed, i, snap) =>
      && i <= |slots| && snap == S.Contents(slots[..i]) && (claimed || attempt == 0) && attempt <= 1
      && 1 <= round <= 2 && (round == 2 ==> S.HasRoom(slots))
    case Clear(round, claimed, i, rem) =>
      round == 1 && (claimed || attempt == 0) && attempt <= 1 && i <= |slots| && ToClear(slots, i, rem)
    case Cas(round, claimed, i, rem, cur) =>
      && round == 1 && (claimed || attempt == 0) && attempt <= 1
      && i < |slots| && slots[i] == Some(cur) && cur in rem
  }

  ghost predicate SoloPc(s: State, t: Row)
    requires t in s.pcs
  {
    var pc := s.pcs[t];
    && !pc.Failed?
    && (pc.Linking? && pc.j < |pc.chosen| && HasLayer(s, Owner(t, pc), pc.lc) ==>
          SoloOp(ListAt(s, Owner(t, pc), pc.lc).slots, pc.attempt, pc.op))
  }

  ghost predicate Solo(s: State) {
    && (forall t, u :: t in s.pcs && u in s.pcs && !s.pcs[t].Done? && !s.pcs[u].Done? ==> t == u)
    && forall t :: t in s.pcs ==> SoloPc(s, t)
  }

  // ---------------------------------------------------------------------------
  // Steps
  // ---------------------------------------------------------------------------

  lemma RoomIsCapacity(slots: S.Slots, capacity: nat)
    requires |slots| == capacity + 1
    ensures S.HasRoom(slots) <==> |S.Contents(slots)| <= capacity
  {
    S.ContentsSize(slots);
  }

  lemma GapIsRoom(slots: S.Slots, k: nat)
    requires k < |slots| && slots[k].None?
    ensures S.HasRoom(slots)
  {
  }

  lemma FullHasNoRoom(slots: S.Slots)
    requires forall k :: 0 <= k < |slots| ==> slots[k].Some?
    ensures !S.HasRoom(slots)
  {
  }

  lemma {:induction false} SoloClaim(s: State, t: Row)
    requires CanClaim(s, t) && SoloPc(s, t)
    ensures SoloPc(DoClaim(s, t), t)
  {
    var slots, i := Target(s, t).slots, s.pcs[t].op.i;
    if i >= |slots| {
      FullHasNoRoom(slots);
      assert slots[..0] == [];
    } else if slots[i].None? {
      var after: S.Slots := slots[i := Some(Claimed(t, s.pcs[t]))];
      assert after[..0] == [];
    }
  }

  lemma SnapGrows(slots: S.Slots, i: nat)
    requires i < |slots|
    ensures S.Contents(slots[..i + 1]) == Append(S.Contents(slots[..i]), slots[i])
  {
    assert slots[..i + 1][..i] == slots[..i];
  }

  ghost predicate ScanReady(c: Config, s: State, t: Row)
    requires CanScan(s, t)
  {
    |Target(s, t).slots| == Capacity(c, s.pcs[t].lc) + 1 && Distinct(s.pcs[t].op.snap)
  }

  lemma {:induction false} ScanIsReady(c: Config, s: State, t: Row)
    requires Core(c, s) && CanScan(s, t)
    ensures ScanReady(c, s, t)
  {
    assert PcOk(c, s, t, s.pcs[t]) && LinkOk(c, s, t, s.pcs[t]);
  }

  /** On a complete snapshot the decision is never a failure. */
  lemma {:induction false} SoloJudge(c: Config, s: State, t: Row)
    requires ValidConfig(c) && CanScan(s, t) && ScanReady(c, s, t) && SoloPc(s, t) && s.pcs[t].op.i >= |Target(s, t).slots|
    ensures SoloPc(DoScan(c, s, t), t)
  {
    var pc, slots := s.pcs[t], Target(s, t).slots;
    assert slots[..|slots|] == slots && pc.op.snap == S.Contents(slots);
    RoomIsCapacity(slots, Capacity(c, pc.lc));
    if |pc.op.snap| > Capacity(c, pc.lc) {
      var rem := ToRemove(c, Owner(t, pc), pc.lc, pc.op.snap);
      OverCapacityRemoves(c, Owner(t, pc), pc.lc, pc.op.snap);
      var x :| x in rem;
      S.ContentsMembers(slots, x);
      assert ToClear(slots, 0, rem);
    }
  }

  lemma {:induction false} SoloScan(c: Config, s: State, t: Row)
    requires ValidConfig(c) && CanScan(s, t) && ScanReady(c, s, t) && SoloPc(s, t)
    ensures SoloPc(DoScan(c, s, t), t)
  {
    var slots, i := Target(s, t).slots, s.pcs[t].op.i;
    if i < |slots| { SnapGrows(slots, i); } else { SoloJudge(c, s, t); }
  }

  lemma {:induction false} ClearPasses(slots: S.Slots, i: nat, rem: set<Row>)
    requires i < |slots| && ToClear(slots, i, rem) && !(slots[i].Some? && slots[i].value in rem)
    ensures ToClear(slots, i + 1, rem)
  {
    if !S.HasRoom(slots) {
      var k :| i <= k < |slots| && slots[k].Some? && slots[k].value in rem;
      assert i + 1 <= k;
    }
  }

  lemma {:induction false} SoloClear(s: State, t: Row)
    requires CanClear(s, t) && SoloPc(s, t)
    ensures SoloPc(DoClear(s, t), t)
  {
    var slots, op := Target(s, t).slots, s.pcs[t].op;
    if op.i < |slots| {
      if !(slots[op.i].Some? && slots[op.i].value in op.rem) { ClearPasses(slots, op.i, op.rem); }
    } else {
      assert slots[..0] == [];
    }
  }

  lemma {:induction false} SoloCas(s: State, t: Row)
    requires CanCas(s, t) && SoloPc(s, t)
    ensures SoloPc(DoCas(s, t), t)
  {
    var slots, i := Target(s, t).slots, s.pcs[t].op.i;
    GapIsRoom(slots[i := None], i);
  }

  /** Nothing but its own step moves an insert or a list while the others are done. */
  ghost predicate OnlyMoves(s: State, s': State, t: Row) {
    && t in s'.pcs && s'.pcs.Keys == s.pcs.Keys + {t}
    && forall u :: u in s.pcs && u != t ==> s'.pcs[u] == s.pcs[u]
  }

  lemma {:induction false} MovesAlone(s: State, s': State, t: Row)
    requires Solo(s) && OnlyMoves(s, s', t) && SoloPc(s', t)
    requires forall u :: u in s.pcs && u != t ==> s.pcs[u].Done?
    ensures Solo(s')
  {
    forall u | u in s'.pcs ensures SoloPc(s', u) {
      if u != t { assert s'.pcs[u].Done?; }
    }
  }

  /** The insert a step belongs to. */
  function Actor(step: Step): Row
    requires !step.Delete?
  {
    step.t
  }

  predicate OnList(step: Step) {
    step.ClaimSlot? || step.ScanSlot? || step.ClearSlot? || step.CasSlot?
  }

  lemma {:induction false} SoloPick(c: Config, s: State, t: Row)
    requires ValidConfig(c) && CanPick(s, t)
    ensures SoloPc(DoPick(c, s, t), t)
  {
  }

  lemma {:induction false} SoloQuiet(c: Config, s: State, step: Step)
    requires ValidConfig(c) && Enabled(c, s, step) && !step.Delete? && !OnList(step) && !step.Pick?
    requires !step.Insert? ==> Actor(step) in s.pcs && SoloPc(s, Actor(step))
    ensures SoloPc(Apply(c, s, step), Actor(step))
  {
  }

  lemma {:induction false} SoloMoves(c: Config, s: State, step: Step)
    requires ValidConfig(c) && Enabled(c, s, step) && !step.Delete?
    ensures OnlyMoves(s, Apply(c, s, step), Actor(step))
  {
  }

  lemma {:induction false} SoloOwn(c: Config, s: State, step: Step)
    requires ValidConfig(c) && Enabled(c, s, step) && !step.Delete? && (step.ScanSlot? ==> ScanReady(c, s, step.t))
    requires !step.Insert? ==> Actor(step) in s.pcs && SoloPc(s, Actor(step))
    ensures SoloPc(Apply(c, s, step), Actor(step))
  {
    match step
    case ClaimSlot(t) => SoloClaim(s, t);
    case ScanSlot(t) => SoloScan(c, s, t);
    case ClearSlot(t) => SoloClear(s, t);
    case CasSlot(t) => SoloCas(s, t);
    case Pick(t) => SoloPick(c, s, t);
    case _ => SoloQuiet(c, s, step);
  }

  lemma {:induction false} SoloStep(c: Config, s: State, step: Step)
    requires ValidConfig(c) && Inv(c, s) && Solo(s) && Enabled(c, s, step) && (step.Insert? ==> Quiescent(s))
    ensures Solo(Apply(c, s, step))
  {
    var s' := Apply(c, s, step);
    if step.Delete? {
      forall u | u in s'.pcs ensures SoloPc(s', u) { assert SoloPc(s, u); }
    } else {
      if step.ScanSlot? { ScanIsReady(c, s, step.t); }
      if !step.Insert? { assert SoloPc(s, Actor(step)); }
      SoloOwn(c, s, step);
      SoloMoves(c, s, step);
      forall u | u in s.pcs && u != Actor(step) ensures s.pcs[u].Done? { assert SoloPc(s, u); }
      MovesAlone(s, s', Actor(step));
    }
  }

  lemma {:induction false} RunSolo(c: Config, run: seq<State>, steps: seq<Step>, i: nat)
    requires IsRun(c, run, steps) && Sequential(run, steps) && i < |run|
    ensures Solo(run[i])
  {
    if i > 0 {
      RunSolo(c, run, steps, i - 1);
      RunInv(c, run, steps, i - 1);
      assert StepAt(c, run, steps, i - 1) && StartsAlone(run, steps, i - 1);
      SoloStep(c, run[i - 1], steps[i - 1]);
    }
  }

  function Round(op: Op): nat {
    match op
    case Claim(_) => 0
    case Scan(round, _, _, _) => round
    case Clear(round, _, _, _) => round
    case Cas(round, _, _, _, _) => round
  }

  /**
   In a run of non-overlapping inserts no insert ever fails; a claim is at most at its second attempt and a
   shrink loop at most in its second round, so neither retry bound is ever reached.
   */
  lemma {:induction false} SequentialNeverFails(c: Config, run: seq<State>, steps: seq<Step>, i: nat, t: Row)
    requires IsRun(c, run, steps) && Sequential(run, steps) && i < |run| && t in run[i].pcs
    ensures !run[i].pcs[t].Failed?
    ensures run[i].pcs[t].Linking? && run[i].pcs[t].j < |run[i].pcs[t].chosen| ==>
      run[i].pcs[t].attempt <= 1 && Round(run[i].pcs[t].op) <= 2
  {
    RunSolo(c, run, steps, i);
    RunInv(c, run, steps, i);
    assert SoloPc(run[i], t) && PcOk(c, run[i], t, run[i].pcs[t]);
  }
}
