/**
 The exact state of the dataset at every crash point: what the completion lines acknowledge,
 changed by all the effects of some of the open ops and by nothing of the others.
 */
module ChaosCrash {
  import opened Common
  import opened Chaos
  import opened ChaosInvariants
  import opened ChaosProof
  import opened ChaosTheorems

  // ---------------------------------------------------------------------------
  // Rows of committed ops without a completion line
  // ---------------------------------------------------------------------------

  /** No completion line and no other process has made these rows. */
  ghost predicate OwnRows(s: State, q: nat)
    requires q < |s.procs|
  {
    var rows := Unlogged(s.procs[q].pc);
    && NoDup(rows)
    && forall r :: r in rows ==> r !in Inserted(s.log) && forall t :: 0 <= t < |s.procs| && t != q ==> r !in Unlogged(s.procs[t].pc)
  }

  /** A process about to print its completion line still has all its rows, in its own list unless they are the pool's. */
  ghost predicate KeptRows(s: State, q: nat)
    requires q < |s.procs| == |s.lists|
  {
    s.procs[q].pc.Recorded? ==>
      var rows := Unlogged(s.procs[q].pc);
      forall j :: 0 <= j < |rows| ==> RowOf(s, s.procs[q].pc, j) && (q > 0 ==> rows[j] in s.lists[q])
  }

  /** Row `j` of a committed op is live, with the business id announced. */
  ghost predicate RowOf(s: State, pc: Pc, j: nat)
    requires j < |Unlogged(pc)|
  {
    j < |Ids(Landing(pc).value.0)| && Unlogged(pc)[j] in s.live && s.live[Unlogged(pc)[j]] == Ids(Landing(pc).value.0)[j]
  }

  ghost predicate MadeOk(s: State) {
    |s.procs| == |s.lists| && forall q :: 0 <= q < |s.procs| ==> OwnRows(s, q) && KeptRows(s, q)
  }

  /** Nothing committed, nothing acknowledged, nothing registered. */
  ghost predicate Idles(s: State, t: State) {
    && |t.procs| == |s.procs| && t.live == s.live && t.lists == s.lists && Inserted(t.log) == Inserted(s.log)
    && forall q :: 0 <= q < |s.procs| ==>
         Landing(t.procs[q].pc) == Landing(s.procs[q].pc) && t.procs[q].pc.Recorded? == s.procs[q].pc.Recorded?
  }

  lemma {:induction false} IdlesKeeps(s: State, t: State)
    requires MadeOk(s) && Idles(s, t)
    ensures MadeOk(t)
  {
    forall q | 0 <= q < |t.procs| ensures OwnRows(t, q) && KeptRows(t, q) {
      assert OwnRows(s, q) && KeptRows(s, q);
      if t.procs[q].pc.Recorded? {
        forall j | 0 <= j < |Unlogged(t.procs[q].pc)| ensures RowOf(t, t.procs[q].pc, j) { assert RowOf(s, s.procs[q].pc, j); }
      }
    }
  }

  lemma {:induction false} StepIdles(c: Config, s: State, step: Step)
    requires Sound(c, s) && Enabled(c, s, step) && !step.Commit? && !step.Register? && !step.PrintDone? && !step.LookupPanic?
    requires ProcOk(c, s, step.p)
    ensures Idles(s, Apply(c, s, step))
  {
    if step.PrintStart? { assert Apply(c, s, step).log[..|s.log|] == s.log; }
    var pc := s.procs[step.p].pc;
    if step.Settle? { assert pc.made[..|pc.made|] == pc.made; }
  }

  // ---------------------------------------------------------------------------
  // Commit
  // ---------------------------------------------------------------------------

  lemma {:induction false} CommitOwn(s: State, t: State, p: nat, a: Action, q: nat)
    requires MadeOk(s) && EffectsOk(s) && Commits(s, t, p, a) && q < |s.procs|
    ensures OwnRows(t, q)
  {
    assert OwnRows(s, q);
    if q == p {
      forall r | r in Unlogged(t.procs[p].pc)
        ensures r !in Inserted(t.log) && forall u :: 0 <= u < |t.procs| && u != p ==> r !in Unlogged(t.procs[u].pc)
      {
        MadeRange(s, t, p, a, r);
      }
    } else {
      forall r | r in Unlogged(s.procs[q].pc) ensures r !in Unlogged(t.procs[p].pc) { MadeRange(s, t, p, a, r); }
    }
  }

  lemma {:induction false} CommitKept(s: State, t: State, p: nat, a: Action, q: nat)
    requires MadeOk(s) && EffectsOk(s) && Commits(s, t, p, a) && q < |s.procs| && PendingOk(s, p)
    requires p == 0 || s.procs[0].pc.Idle?
    ensures KeptRows(t, q)
  {
    var pc := s.procs[q].pc;
    assert KeptRows(s, q);
    if q != p && pc.Recorded? {
      assert q > 0;
      forall j | 0 <= j < |Unlogged(pc)| ensures RowOf(t, pc, j) {
        assert RowOf(s, pc, j) && Unlogged(pc)[j] in s.lists[q];
        assert TargetOf(a) == Pending(s.procs[p].pc);
      }
    }
  }

  lemma {:induction false} CommitMade(c: Config, s: State, step: Step)
    requires Inv(c, s) && MadeOk(s) && step.Commit? && Enabled(c, s, step)
    ensures MadeOk(Apply(c, s, step))
  {
    var t, p, a := Apply(c, s, step), step.p, s.procs[step.p].pc.action;
    CommitCommits(c, s, step);
    assert PendingOk(s, p);
    forall q | 0 <= q < |t.procs| ensures OwnRows(t, q) && KeptRows(t, q) {
      CommitOwn(s, t, p, a, q);
      CommitKept(s, t, p, a, q);
    }
  }

  // ---------------------------------------------------------------------------
  // Register and completion line
  // ---------------------------------------------------------------------------

  lemma {:induction false} RegisterKept(c: Config, s: State, t: State, p: nat, q: nat)
    requires MadeOk(s) && Registers(s, t, p) && q < |s.procs| && ProcOk(c, s, q) && ClaimOk(s, p)
    ensures KeptRows(t, q)
  {
    var pc := s.procs[q].pc;
    assert KeptRows(s, q);
    if t.procs[q].pc.Recorded? {
      forall j | 0 <= j < |Unlogged(pc)| ensures RowOf(t, t.procs[q].pc, j) && (q > 0 ==> Unlogged(pc)[j] in t.lists[q]) {
        if q == p { assert LandedRow(s.live, pc, j); } else { assert RowOf(s, pc, j); }
        assert q > 0 ==> StaysOrComes(s, p, q, Unlogged(pc)[j]);
      }
    }
  }

  lemma {:induction false} RegisterOwn(s: State, t: State, p: nat, q: nat)
    requires MadeOk(s) && Registers(s, t, p) && q < |s.procs|
    ensures OwnRows(t, q)
  {
    assert OwnRows(s, q);
  }

  lemma {:induction false} RegisterMade(c: Config, s: State, step: Step)
    requires Inv(c, s) && MadeOk(s) && step.Register? && Enabled(c, s, step)
    ensures MadeOk(Apply(c, s, step))
  {
    var t, p := Apply(c, s, step), step.p;
    RegisterRegisters(c, s, step);
    forall q | 0 <= q < |t.procs| ensures OwnRows(t, q) && KeptRows(t, q) {
      assert ProcOk(c, s, q) && ClaimOk(s, p);
      RegisterOwn(s, t, p, q);
      RegisterKept(c, s, t, p, q);
    }
  }

  lemma {:induction false} DoneOwn(s: State, t: State, p: nat, q: nat, line: Line)
    requires MadeOk(s) && p < |s.procs| && q < |s.procs| == |t.procs| && t.log == s.log + [line] && line.Done?
    requires line.outcome.Committed? ==> line.outcome.rows == Unlogged(s.procs[p].pc)
    requires t.procs[p].pc.Idle? && forall u :: 0 <= u < |s.procs| && u != p ==> t.procs[u] == s.procs[u]
    ensures OwnRows(t, q)
  {
    assert OwnRows(s, q);
    forall r | r in Unlogged(t.procs[q].pc) ensures r !in Inserted(t.log) { EffectsAppended(s.log, line, r); }
  }

  lemma {:induction false} DoneMadeOk(c: Config, s: State, step: Step)
    requires MadeOk(s) && Sound(c, s) && step.PrintDone? && Enabled(c, s, step)
    ensures MadeOk(Apply(c, s, step))
  {
    var t, p := Apply(c, s, step), step.p;
    forall q | 0 <= q < |t.procs| ensures OwnRows(t, q) && KeptRows(t, q) {
      DoneOwn(s, t, p, q, t.log[|s.log|]);
      assert KeptRows(s, q);
      if t.procs[q].pc.Recorded? {
        forall j | 0 <= j < |Unlogged(t.procs[q].pc)| ensures RowOf(t, t.procs[q].pc, j) { assert RowOf(s, s.procs[q].pc, j); }
      }
    }
  }

  lemma {:induction false} StepMade(c: Config, s: State, step: Step)
    requires Inv(c, s) && MadeOk(s) && Enabled(c, s, step)
    ensures MadeOk(Apply(c, s, step))
  {
    if step.Commit? {
      CommitMade(c, s, step);
    } else if step.Register? {
      RegisterMade(c, s, step);
    } else if step.PrintDone? {
      DoneMadeOk(c, s, step);
    } else {
      assert ProcOk(c, s, step.p);
      if step.LookupPanic? { NoLookupPanic(c, s, step); }
      StepIdles(c, s, step);
      IdlesKeeps(s, Apply(c, s, step));
    }
  }

  lemma {:induction false} RunMade(c: Config, run: seq<State>, steps: seq<Step>, k: nat)
    requires IsRun(c, run, steps) && k < |run|
    ensures MadeOk(run[k])
  {
    if k > 0 {
      RunMade(c, run, steps, k - 1);
      RunInv(c, run, steps, k - 1);
      assert StepAt(c, run, steps, k - 1);
      StepMade(c, run[k - 1], steps[k - 1]);
    }
  }

  // ---------------------------------------------------------------------------
  // The crash point
  // ---------------------------------------------------------------------------

  /** The op `p` has a start line for and no completion line took effect, making `rows`. */
  ghost predicate TookEffect(s: State, p: nat, rows: seq<nat>) {
    && Open(s.log, p).Some? && |rows| == |Ids(Open(s.log, p).value.1)| && NoDup(rows)
    && (forall j :: 0 <= j < |rows| ==>
          rows[j] !in Inserted(s.log) && rows[j] in s.live && s.live[rows[j]] == Ids(Open(s.log, p).value.1)[j])
    && forall r :: r in MayBeLost(s.log, p) ==> r !in s.live
  }

  ghost predicate MadeBy(landed: set<nat>, made: seq<seq<nat>>, r: nat) {
    exists p :: p in landed && p < |made| && r in made[p]
  }

  ghost predicate TakenBy(landed: set<nat>, log: seq<Line>, r: nat) {
    exists p :: p in landed && r in MayBeLost(log, p)
  }

  /**
   The live rows are the acknowledged ones, less the targets of the ops in `landed`, and the rows
   these ops made: all of an op's effects or none.
   */
  ghost predicate ExactlyLanded(c: Config, s: State, landed: set<nat>, made: seq<seq<nat>>) {
    && |made| == c.agents + 1 && (forall p :: p in landed ==> p <= c.agents && TookEffect(s, p, made[p]))
    && (forall p, q, r :: p in landed && q in landed && p != q && p < |made| && q < |made| && r in made[p] ==> r !in made[q])
    && forall r :: r in s.live <==>
         MadeBy(landed, made, r) || (r in Inserted(s.log) && r !in Tombstoned(s.log) && !TakenBy(landed, s.log, r))
  }

  lemma {:induction false} LandedTookEffect(c: Config, s: State, p: nat)
    requires Inv(c, s) && MadeOk(s) && p < |s.procs| && Landing(s.procs[p].pc).Some?
    ensures TookEffect(s, p, Unlogged(s.procs[p].pc))
  {
    var pc := s.procs[p].pc;
    var rows := Unlogged(pc);
    assert ProcOk(c, s, p) && OpenOk(s, p) && OwnRows(s, p) && KeptRows(s, p);
    forall j | 0 <= j < |rows| ensures RowOf(s, pc, j) && rows[j] !in Inserted(s.log) {
      if !pc.Recorded? { assert LandedRow(s.live, pc, j); }
      assert rows[j] in rows;
    }
    forall r | r in MayBeLost(s.log, p) ensures r !in s.live {
      assert Struck(pc) == Some(r);
      assert EffectOk(s, r);
    }
  }

  ghost predicate AllLanded(s: State, landed: set<nat>, made: seq<seq<nat>>) {
    && |made| == |s.procs| && (forall p :: p in landed <==> 0 <= p < |s.procs| && Landing(s.procs[p].pc).Some?)
    && (forall p :: 0 <= p < |s.procs| ==> made[p] == Unlogged(s.procs[p].pc))
  }

  lemma {:induction false} LandedMade(s: State, landed: set<nat>, made: seq<seq<nat>>, r: nat)
    requires AllLanded(s, landed, made) && forall p :: p in landed ==> TookEffect(s, p, made[p])
    ensures MadeUnlogged(s, r) ==> MadeBy(landed, made, r)
    ensures MadeBy(landed, made, r) ==> r in s.live
  {
    if MadeUnlogged(s, r) {
      var q :| 0 <= q < |s.procs| && r in Unlogged(s.procs[q].pc);
      assert q in landed && r in made[q];
    }
    if MadeBy(landed, made, r) {
      var p :| p in landed && p < |made| && r in made[p];
      var j :| 0 <= j < |made[p]| && made[p][j] == r;
      assert TookEffect(s, p, made[p]);
    }
  }

  lemma {:induction false} LandedTook(s: State, landed: set<nat>, made: seq<seq<nat>>, r: nat)
    requires AllLanded(s, landed, made) && (forall p :: p in landed ==> TookEffect(s, p, made[p]))
    requires forall q :: 0 <= q < |s.procs| ==> OpenOk(s, q)
    ensures StruckUnlogged(s, r) ==> TakenBy(landed, s.log, r)
    ensures TakenBy(landed, s.log, r) ==> r !in s.live
  {
    if StruckUnlogged(s, r) {
      var q :| 0 <= q < |s.procs| && Struck(s.procs[q].pc) == Some(r);
      assert q in landed && OpenOk(s, q);
      assert r in MayBeLost(s.log, q);
    }
    if TakenBy(landed, s.log, r) {
      var p :| p in landed && r in MayBeLost(s.log, p);
      assert TookEffect(s, p, made[p]);
    }
  }

  /** At every crash point the dataset is what was acknowledged and all that some of the open ops do. */
  lemma {:induction false} CrashPointExact(c: Config, run: seq<State>, steps: seq<Step>, k: nat)
    returns (landed: set<nat>, made: seq<seq<nat>>)
    requires IsRun(c, run, steps) && k < |run|
    ensures ExactlyLanded(c, run[k], landed, made)
  {
    var s := run[k];
    RunInv(c, run, steps, k);
    RunMade(c, run, steps, k);
    landed := set p | 0 <= p < |s.procs| && Landing(s.procs[p].pc).Some?;
    made := seq(|s.procs|, p requires 0 <= p < |s.procs| => Unlogged(s.procs[p].pc));
    forall p | p in landed ensures TookEffect(s, p, made[p]) { LandedTookEffect(c, s, p); }
    forall p, q, r | p in landed && q in landed && p != q && r in made[p] ensures r !in made[q] { assert OwnRows(s, p); }
    forall r
      ensures r in s.live <==> MadeBy(landed, made, r) || (r in Inserted(s.log) && r !in Tombstoned(s.log) && !TakenBy(landed, s.log, r))
    {
      assert EffectOk(s, r);
      LandedMade(s, landed, made, r);
      LandedTook(s, landed, made, r);
    }
  }
}
