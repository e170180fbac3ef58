/**
 One `claim_and_prune` of the protocol, step by atomic step, against the whole call of `Shrink`: as
 long as nobody else touches the list meanwhile, the call ends with the list that `Shrink` computes.
 */
module BuildRefines {
  import opened Common
  import opened Build
  import opened BuildInvariants
  import opened BuildCore
  import opened BuildTheorems
  import opened BuildLinks
  import S = Shrink

  /** What the call is about: the list's owner and layer, the id to enter and the slots at the start. */
  datatype Call = Call(o: Row, lc: nat, id: Row, start: S.Slots)

  ghost predicate Proper(c: Config, call: Call) {
    && ValidConfig(c) && |call.start| == Capacity(c, call.lc) + 1 && S.NoRepeat(call.start)
    && call.id !in S.Contents(call.start) && call.o != call.id
  }

  /** The slots an attempt starts with: a second one starts with the list pruned by the first. */
  function Base(c: Config, call: Call, attempt: nat): S.Slots
    requires c.alpha > 0.0
  {
    if attempt == 0 then call.start else S.Pruned(c, call.o, call.lc, call.start)
  }

  /** The same after the attempt's claim. */
  function Entered1(c: Config, call: Call, attempt: nat): S.Slots
    requires c.alpha > 0.0
  {
    S.Claimed(Base(c, call, attempt), call.id)
  }

  /** The first `i` slots have lost the ids in `rem`. */
  ghost predicate PartlyCleared(was: S.Slots, rem: set<Row>, i: nat, now: S.Slots) {
    && |now| == |was| && i <= |was|
    && forall k :: 0 <= k < |was| ==> now[k] == if k < i && was[k].Some? && was[k].value in rem then None else was[k]
  }

  ghost predicate OverFull(c: Config, call: Call, attempt: nat)
    requires c.alpha > 0.0
  {
    |S.Contents(Entered1(c, call, attempt))| > Capacity(c, call.lc)
  }

  /** Where the call is, in its `attempt` at `op`, with the list at `slots`. */
  ghost predicate Midway(c: Config, call: Call, slots: S.Slots, attempt: nat, op: Op)
    requires c.alpha > 0.0
  {
    var base, full := Base(c, call, attempt), Entered1(c, call, attempt);
    && attempt <= 1 && (attempt == 1 ==> !S.HasRoom(call.start))
    && match op
       case Claim(i) => slots == base && i <= |base| && forall k :: 0 <= k < i ==> base[k].Some?
       case Scan(round, claimed, i, snap) =>
         && claimed == S.HasRoom(base) && i <= |slots| && snap == S.Contents(slots[..i])
         && (round == 1 || (round == 2 && OverFull(c, call, attempt)))
         && slots == if round == 1 then full else S.Pruned(c, call.o, call.lc, full)
       case Clear(round, claimed, i, rem) =>
         && round == 1 && claimed == S.HasRoom(base) && OverFull(c, call, attempt)
         && rem == ToRemove(c, call.o, call.lc, S.Contents(full)) && PartlyCleared(full, rem, i, slots)
       case Cas(round, claimed, i, rem, cur) =>
         && round == 1 && claimed == S.HasRoom(base) && OverFull(c, call, attempt)
         && rem == ToRemove(c, call.o, call.lc, S.Contents(full)) && PartlyCleared(full, rem, i, slots)
         && i < |slots| && slots[i] == Some(cur) && cur in rem
  }

  // ---------------------------------------------------------------------------
  // Step by step
  // ---------------------------------------------------------------------------

  lemma {:induction false} BaseProper(c: Config, call: Call, attempt: nat)
    requires Proper(c, call) && attempt <= 1 && (attempt == 1 ==> !S.HasRoom(call.start))
    ensures var base := Base(c, call, attempt);
      && |base| == Capacity(c, call.lc) + 1 && S.NoRepeat(base) && call.id !in S.Contents(base) && (attempt == 1 ==> S.HasRoom(base))
    ensures |Entered1(c, call, attempt)| == Capacity(c, call.lc) + 1 && S.NoRepeat(Entered1(c, call, attempt))
  {
    if attempt == 1 {
      S.PrunedHasRoom(c, call.o, call.lc, call.start);
      S.NotThereUnlessClaimed(c, call.o, call.lc, call.start, call.id);
    }
    S.ClaimedNoRepeat(Base(c, call, attempt), call.id);
  }

  /** A look at slot `i`: taken, free, or there is none. */
  lemma {:induction false} ClaimMidway(c: Config, call: Call, slots: S.Slots, attempt: nat, i: nat)
    requires Proper(c, call) && Midway(c, call, slots, attempt, Claim(i))
    ensures i < |slots| && slots[i].Some? ==> Midway(c, call, slots, attempt, Claim(i + 1))
    ensures i < |slots| && slots[i].None? ==> Midway(c, call, slots[i := Some(call.id)], attempt, Scan(1, true, 0, []))
    ensures i >= |slots| ==> Midway(c, call, slots, attempt, Scan(1, false, 0, []))
  {
    BaseProper(c, call, attempt);
    if i < |slots| && slots[i].None? {
      assert S.FirstFree(slots) == i;
      var after: S.Slots := slots[i := Some(call.id)];
      assert after[..0] == [];
    }
    assert slots[..0] == [];
  }

  lemma {:induction false} ScanMidway(c: Config, call: Call, slots: S.Slots, attempt: nat, op: Op)
    requires Proper(c, call) && op.Scan? && Midway(c, call, slots, attempt, op) && op.i < |slots|
    ensures Midway(c, call, slots, attempt, Scan(op.round, op.claimed, op.i + 1, Append(op.snap, slots[op.i])))
  {
    assert slots[..op.i + 1][..op.i] == slots[..op.i];
  }

  lemma {:induction false} RoomMeansFits(slots: S.Slots, cap: nat)
    requires |slots| == cap + 1
    ensures S.HasRoom(slots) <==> |S.Contents(slots)| <= cap
  {
    S.ContentsSize(slots);
  }

  /** A complete snapshot within capacity: the call is over, or the list was full and it starts again. */
  lemma {:induction false} JudgedFits(c: Config, call: Call, slots: S.Slots, attempt: nat, op: Op)
    requires Proper(c, call) && op.Scan? && Midway(c, call, slots, attempt, op) && op.i >= |slots| && |op.snap| <= Capacity(c, call.lc)
    ensures op.claimed || call.id in op.snap ==> slots == S.Settled(c, call.o, call.lc, call.start, call.id)
    ensures !(op.claimed || call.id in op.snap) ==> attempt == 0 && Midway(c, call, slots, 1, Claim(0))
  {
    var base, full := Base(c, call, attempt), Entered1(c, call, attempt);
    BaseProper(c, call, attempt);
    assert slots[..|slots|] == slots;
    RoomMeansFits(base, Capacity(c, call.lc));
    if !op.claimed {
      assert full == base && attempt == 0 && op.round == 2;
      S.NotThereUnlessClaimed(c, call.o, call.lc, base, call.id);
    }
  }

  /** A complete snapshot over capacity: clear what is not selected. */
  lemma {:induction false} JudgedOver(c: Config, call: Call, slots: S.Slots, attempt: nat, op: Op)
    requires Proper(c, call) && op.Scan? && Midway(c, call, slots, attempt, op) && op.i >= |slots| && |op.snap| > Capacity(c, call.lc)
    ensures op.round == 1 && ToRemove(c, call.o, call.lc, op.snap) != {}
    ensures Midway(c, call, slots, attempt, Clear(1, op.claimed, 0, ToRemove(c, call.o, call.lc, op.snap)))
  {
    BaseProper(c, call, attempt);
    assert slots[..|slots|] == slots;
    S.PrunedHasRoom(c, call.o, call.lc, Entered1(c, call, attempt));
    S.ContentsDistinct(Entered1(c, call, attempt));
    OverCapacityRemoves(c, call.o, call.lc, S.Contents(Entered1(c, call, attempt)));
  }

  lemma {:induction false} ClearMidway(c: Config, call: Call, slots: S.Slots, attempt: nat, op: Op)
    requires Proper(c, call) && op.Clear? && Midway(c, call, slots, attempt, op) && op.i < |slots|
    ensures if slots[op.i].Some? && slots[op.i].value in op.rem
      then Midway(c, call, slots, attempt, Cas(op.round, op.claimed, op.i, op.rem, slots[op.i].value))
      else Midway(c, call, slots, attempt, Clear(op.round, op.claimed, op.i + 1, op.rem))
  {
    PassesOver(Entered1(c, call, attempt), op.rem, op.i, slots);
  }

  lemma {:induction false} PassesOver(was: S.Slots, rem: set<Row>, i: nat, now: S.Slots)
    requires PartlyCleared(was, rem, i, now) && i < |was|
    ensures now[i] == was[i] && (!(now[i].Some? && now[i].value in rem) ==> PartlyCleared(was, rem, i + 1, now))
  {
  }

  lemma {:induction false} ClearedMidway(c: Config, call: Call, slots: S.Slots, attempt: nat, op: Op)
    requires Proper(c, call) && op.Clear? && Midway(c, call, slots, attempt, op) && op.i >= |slots|
    ensures Midway(c, call, slots, attempt, Scan(2, op.claimed, 0, []))
  {
    AllCleared(Entered1(c, call, attempt), op.rem, op.i, slots);
    assert slots[..0] == [];
  }

  lemma {:induction false} AllCleared(was: S.Slots, rem: set<Row>, i: nat, now: S.Slots)
    requires PartlyCleared(was, rem, i, now) && i >= |was|
    ensures now == S.Cleared(was, rem)
  {
  }

  lemma {:induction false} CasMidway(c: Config, call: Call, slots: S.Slots, attempt: nat, op: Op)
    requires Proper(c, call) && op.Cas? && Midway(c, call, slots, attempt, op)
    ensures Midway(c, call, slots[op.i := None], attempt, Clear(op.round, op.claimed, op.i + 1, op.rem))
  {
    var after: S.Slots := slots[op.i := None];
    assert PartlyCleared(Entered1(c, call, attempt), op.rem, op.i + 1, after);
  }

  // ---------------------------------------------------------------------------
  // In the protocol
  // ---------------------------------------------------------------------------

  /** The call insert `t` is making in state `s`. */
  ghost predicate Makes(s: State, t: Row, call: Call) {
    AtLink(s, t) && Owner(t, s.pcs[t]) == call.o && s.pcs[t].lc == call.lc && Claimed(t, s.pcs[t]) == call.id
  }

  ghost predicate InCall(c: Config, s: State, t: Row, call: Call)
    requires c.alpha > 0.0
  {
    Makes(s, t, call) && Midway(c, call, Target(s, t).slots, s.pcs[t].attempt, s.pcs[t].op)
  }

  /** Every list but the call's own is as it was. */
  ghost predicate OthersKept(s: State, s': State, call: Call) {
    forall o, lc :: HasLayer(s, o, lc) && (o != call.o || lc != call.lc) ==> HasLayer(s', o, lc) && ListAt(s', o, lc) == ListAt(s, o, lc)
  }

  lemma {:induction false} OthersKeptOn(a: State, b: State, d: State, call: Call)
    requires OthersKept(a, b, call) && OthersKept(b, d, call)
    ensures OthersKept(a, d, call)
  {
  }

  /** The call is over, and the list is what `Shrink` makes of it. */
  ghost predicate CallEnds(c: Config, s: State, s': State, t: Row, call: Call)
    requires c.alpha > 0.0
  {
    && Makes(s, t, call) && t in s'.pcs && s'.pcs[t] == AfterClaim(s.pcs[t])
    && HasLayer(s', call.o, call.lc) && ListAt(s', call.o, call.lc).slots == S.Settled(c, call.o, call.lc, call.start, call.id)
  }

  lemma {:induction false} ClaimInCall(c: Config, s: State, t: Row, call: Call)
    requires Proper(c, call) && InCall(c, s, t, call) && CanClaim(s, t)
    ensures InCall(c, DoClaim(s, t), t, call) && OthersKept(s, DoClaim(s, t), call)
  {
    ClaimMidway(c, call, Target(s, t).slots, s.pcs[t].attempt, s.pcs[t].op.i);
  }

  lemma {:induction false} EndsInCall(c: Config, s: State, t: Row, call: Call)
    requires Proper(c, call) && InCall(c, s, t, call) && CanScan(s, t) && s.pcs[t].op.i >= |Target(s, t).slots|
    requires |s.pcs[t].op.snap| <= Capacity(c, s.pcs[t].lc) && (s.pcs[t].op.claimed || call.id in s.pcs[t].op.snap)
    ensures CallEnds(c, s, DoScan(c, s, t), t, call)
  {
    JudgedFits(c, call, Target(s, t).slots, s.pcs[t].attempt, s.pcs[t].op);
  }

  lemma {:induction false} AgainInCall(c: Config, s: State, t: Row, call: Call)
    requires Proper(c, call) && InCall(c, s, t, call) && CanScan(s, t) && s.pcs[t].op.i >= |Target(s, t).slots|
    requires |s.pcs[t].op.snap| <= Capacity(c, s.pcs[t].lc) && !(s.pcs[t].op.claimed || call.id in s.pcs[t].op.snap)
    ensures InCall(c, DoScan(c, s, t), t, call)
  {
    JudgedFits(c, call, Target(s, t).slots, s.pcs[t].attempt, s.pcs[t].op);
  }

  lemma {:induction false} OverInCall(c: Config, s: State, t: Row, call: Call)
    requires Proper(c, call) && InCall(c, s, t, call) && CanScan(s, t) && s.pcs[t].op.i >= |Target(s, t).slots|
    requires |s.pcs[t].op.snap| > Capacity(c, s.pcs[t].lc)
    ensures InCall(c, DoScan(c, s, t), t, call)
  {
    JudgedOver(c, call, Target(s, t).slots, s.pcs[t].attempt, s.pcs[t].op);
  }

  lemma {:induction false} ScanOneInCall(c: Config, s: State, t: Row, call: Call)
    requires Proper(c, call) && InCall(c, s, t, call) && CanScan(s, t) && s.pcs[t].op.i < |Target(s, t).slots|
    ensures InCall(c, DoScan(c, s, t), t, call)
  {
    ScanMidway(c, call, Target(s, t).slots, s.pcs[t].attempt, s.pcs[t].op);
  }

  lemma {:induction false} ScanInCall(c: Config, s: State, t: Row, call: Call)
    requires Proper(c, call) && InCall(c, s, t, call) && CanScan(s, t)
    ensures OthersKept(s, DoScan(c, s, t), call)
    ensures InCall(c, DoScan(c, s, t), t, call) || CallEnds(c, s, DoScan(c, s, t), t, call)
  {
    var pc, slots := s.pcs[t], Target(s, t).slots;
    if pc.op.i < |slots| {
      ScanOneInCall(c, s, t, call);
    } else if |pc.op.snap| <= Capacity(c, pc.lc) {
      if pc.op.claimed || call.id in pc.op.snap { EndsInCall(c, s, t, call); } else { AgainInCall(c, s, t, call); }
    } else {
      OverInCall(c, s, t, call);
    }
  }

  lemma {:induction false} ClearOneInCall(c: Config, s: State, t: Row, call: Call)
    requires Proper(c, call) && InCall(c, s, t, call) && CanClear(s, t) && s.pcs[t].op.i < |Target(s, t).slots|
    ensures InCall(c, DoClear(s, t), t, call)
  {
    ClearMidway(c, call, Target(s, t).slots, s.pcs[t].attempt, s.pcs[t].op);
  }

  lemma {:induction false} ClearedInCall(c: Config, s: State, t: Row, call: Call)
    requires Proper(c, call) && InCall(c, s, t, call) && CanClear(s, t) && s.pcs[t].op.i >= |Target(s, t).slots|
    ensures InCall(c, DoClear(s, t), t, call)
  {
    ClearedMidway(c, call, Target(s, t).slots, s.pcs[t].attempt, s.pcs[t].op);
  }

  lemma {:induction false} ClearInCall(c: Config, s: State, t: Row, call: Call)
    requires Proper(c, call) && InCall(c, s, t, call) && CanClear(s, t)
    ensures InCall(c, DoClear(s, t), t, call) && OthersKept(s, DoClear(s, t), call)
  {
    if s.pcs[t].op.i < |Target(s, t).slots| { ClearOneInCall(c, s, t, call); } else { ClearedInCall(c, s, t, call); }
  }

  lemma {:induction false} CasInCall(c: Config, s: State, t: Row, call: Call)
    requires Proper(c, call) && InCall(c, s, t, call) && CanCas(s, t)
    ensures InCall(c, DoCas(s, t), t, call) && OthersKept(s, DoCas(s, t), call)
  {
    CasMidway(c, call, Target(s, t).slots, s.pcs[t].attempt, s.pcs[t].op);
  }

  lemma {:induction false} StepInCall(c: Config, s: State, step: Step, t: Row, call: Call)
    requires Proper(c, call) && InCall(c, s, t, call) && Enabled(c, s, step) && OnList(step, t)
    ensures OthersKept(s, Apply(c, s, step), call)
    ensures InCall(c, Apply(c, s, step), t, call) || CallEnds(c, s, Apply(c, s, step), t, call)
  {
    match step
    case ClaimSlot(_) => ClaimInCall(c, s, t, call);
    case ScanSlot(_) => ScanInCall(c, s, t, call);
    case ClearSlot(_) => ClearInCall(c, s, t, call);
    case CasSlot(_) => CasInCall(c, s, t, call);
  }

  // ---------------------------------------------------------------------------
  // The theorem
  // ---------------------------------------------------------------------------

  /** The call at its start: about to claim, for the first time. */
  ghost predicate AtStart(s: State, t: Row) {
    AtLink(s, t) && s.pcs[t].attempt == 0 && s.pcs[t].op == Claim(0)
  }

  ghost function CallOf(s: State, t: Row): Call
    requires AtLink(s, t)
  {
    Call(Owner(t, s.pcs[t]), s.pcs[t].lc, Claimed(t, s.pcs[t]), Target(s, t).slots)
  }

  /** Between states `k` and `k + 1` insert `t` is done with a claim and goes on. */
  ghost predicate EndsAt(run: seq<State>, k: nat, t: Row)
    requires k + 1 < |run|
  {
    t in run[k].pcs && run[k].pcs[t].Linking? && t in run[k + 1].pcs && run[k + 1].pcs[t] == AfterClaim(run[k].pcs[t])
  }

  /** From state `i` to state `j` there are only steps of insert `t`, all of the claim it makes in state `i`. */
  ghost predicate Undisturbed(run: seq<State>, steps: seq<Step>, i: nat, j: nat, t: Row) {
    && |run| == |steps| + 1 && i <= j < |run|
    && (forall k :: i <= k < j ==> OnList(steps[k], t))
    && (forall k :: i <= k < j ==> !EndsAt(run, k, t))
  }

  lemma {:induction false} CallStarts(c: Config, s: State, t: Row)
    requires Inv(c, s) && AtStart(s, t)
    ensures Proper(c, CallOf(s, t)) && InCall(c, s, t, CallOf(s, t))
  {
    AtLinkOk(c, s, t);
    assert PendingAt(s, t, s.pcs[t]) && ListOk(Target(s, t));
    S.ContentsMembers(Target(s, t).slots, Claimed(t, s.pcs[t]));
  }

  lemma {:induction false} RunInCall(c: Config, run: seq<State>, steps: seq<Step>, k: nat, t: Row, call: Call)
    requires IsRun(c, run, steps) && k < |steps| && OnList(steps[k], t) && Proper(c, call) && InCall(c, run[k], t, call)
    ensures OthersKept(run[k], run[k + 1], call)
    ensures InCall(c, run[k + 1], t, call) || (CallEnds(c, run[k], run[k + 1], t, call) && EndsAt(run, k, t))
  {
    assert StepAt(c, run, steps, k);
    StepInCall(c, run[k], steps[k], t, call);
  }

  /** The call of state `i` goes on in state `k`. */
  ghost predicate GoesOn(c: Config, run: seq<State>, i: nat, k: nat, t: Row, call: Call)
    requires c.alpha > 0.0 && i < |run| && k < |run|
  {
    InCall(c, run[k], t, call) && OthersKept(run[i], run[k], call)
  }

  lemma {:induction false} GoesOnStep(c: Config, run: seq<State>, steps: seq<Step>, i: nat, k: nat, t: Row, call: Call)
    requires IsRun(c, run, steps) && i < |run| && k < |steps| && OnList(steps[k], t) && !EndsAt(run, k, t) && Proper(c, call)
    requires GoesOn(c, run, i, k, t, call)
    ensures GoesOn(c, run, i, k + 1, t, call)
  {
    RunInCall(c, run, steps, k, t, call);
    OthersKeptOn(run[i], run[k], run[k + 1], call);
  }

  /** Only what the steps are, without what they do. */
  lemma {:induction false} StepOfCall(run: seq<State>, steps: seq<Step>, i: nat, j: nat, t: Row, k: nat)
    requires Undisturbed(run, steps, i, j, t) && i <= k < j
    ensures OnList(steps[k], t) && !EndsAt(run, k, t)
  {
  }

  lemma {:induction false} CallGoesOn(c: Config, run: seq<State>, steps: seq<Step>, i: nat, j: nat, k: nat, t: Row, call: Call)
    requires IsRun(c, run, steps) && Undisturbed(run, steps, i, j, t) && i <= k <= j && Proper(c, call) && GoesOn(c, run, i, i, t, call)
    ensures GoesOn(c, run, i, k, t, call)
    decreases k
  {
    if i < k {
      CallGoesOn(c, run, steps, i, j, k - 1, t, call);
      StepOfCall(run, steps, i, j, t, k - 1);
      GoesOnStep(c, run, steps, i, k - 1, t, call);
    }
  }

  /**
   A claim-and-prune that nobody disturbs never fails. When it ends, the id has entered the first free
   slot, of the pruned list if the list was full, the list is pruned, and no other list has changed.
   */
  lemma {:induction false} UndisturbedClaim(c: Config, run: seq<State>, steps: seq<Step>, i: nat, j: nat, t: Row)
    requires IsRun(c, run, steps) && Undisturbed(run, steps, i, j, t) && j < |steps| && OnList(steps[j], t) && AtStart(run[i], t)
    ensures t in run[j + 1].pcs && !run[j + 1].pcs[t].Failed?
    ensures EndsAt(run, j, t) ==> var call := CallOf(run[i], t);
      && OthersKept(run[i], run[j + 1], call) && HasLayer(run[j + 1], call.o, call.lc)
      && S.LinkedTo(c, call.o, if call.lc == 0 then c.mmax0 else c.mmax, call.start, call.id, ListAt(run[j + 1], call.o, call.lc).slots)
  {
    var call := CallOf(run[i], t);
    RunInv(c, run, steps, i);
    CallStarts(c, run[i], t);
    assert GoesOn(c, run, i, i, t, call);
    CallGoesOn(c, run, steps, i, j, j, t, call);
    RunInCall(c, run, steps, j, t, call);
    OthersKeptOn(run[i], run[j], run[j + 1], call);
    if EndsAt(run, j, t) { EndedCall(c, run[j], run[j + 1], t, call); }
  }

  /** After the end of a call the insert is not in it any more. */
  lemma {:induction false} EndedCall(c: Config, s: State, s': State, t: Row, call: Call)
    requires Proper(c, call) && Makes(s, t, call) && t in s'.pcs && s'.pcs[t] == AfterClaim(s.pcs[t])
    requires InCall(c, s', t, call) || CallEnds(c, s, s', t, call)
    ensures HasLayer(s', call.o, call.lc)
    ensures S.LinkedTo(c, call.o, if call.lc == 0 then c.mmax0 else c.mmax, call.start, call.id, ListAt(s', call.o, call.lc).slots)
  {
    S.SettledMeaning(c, call.o, call.lc, call.start, call.id);
  }
}
