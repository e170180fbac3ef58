/** What holds at every point at which the chaos worker may crash, and at its clean exit. */
module ChaosTheorems {
  import opened Common
  import opened Chaos
  import opened ChaosInvariants
  import opened ChaosProof

  lemma {:induction false} RunInv(c: Config, run: seq<State>, steps: seq<Step>, k: nat)
    requires IsRun(c, run, steps) && k < |run|
    ensures Inv(c, run[k])
  {
    if k == 0 {
      InitInv(c);
    } else {
      RunInv(c, run, steps, k - 1);
      assert StepAt(c, run, steps, k - 1);
      StepInv(c, run[k - 1], steps[k - 1]);
    }
  }

  /** Every lookup after a commit finds exactly the one row that commit made: the assertion never fires. */
  lemma {:induction false} LookupFindsOneRow(c: Config, run: seq<State>, steps: seq<Step>, k: nat, p: nat)
    requires IsRun(c, run, steps) && k < |run| && p <= c.agents
    ensures |run[k].procs| == c.agents + 1 && !run[k].procs[p].pc.Panicked?
    ensures var pc := run[k].procs[p].pc;
      pc.Landed? && |pc.found| < |Ids(pc.action)| ==>
        |pc.found| < |pc.made| && Hits(run[k].live, Ids(pc.action)[|pc.found|]) == {pc.made[|pc.found|]}
  {
    RunInv(c, run, steps, k);
    assert ProcOk(c, run[k], p);
    var pc := run[k].procs[p].pc;
    if pc.Landed? && |pc.found| < |Ids(pc.action)| { LookupHits(c, run[k], p); }
  }

  /** Slots are in bounds and used once: start lines of one process never share a slot. */
  lemma {:induction false} SlotsUsedOnce(c: Config, run: seq<State>, steps: seq<Step>, k: nat, i: nat, j: nat)
    requires IsRun(c, run, steps) && k < |run| && i < |run[k].log| && run[k].log[i].Start?
    ensures var log := run[k].log;
      && log[i].op + Width(log[i].action) <= Slots(c, log[i].p)
      && (i < j < |log| && log[j].Start? && log[i].p == log[j].p ==> log[i].op + Width(log[i].action) <= log[j].op)
  {
    RunInv(c, run, steps, k);
    var s := run[k];
    var p := s.log[i].p;
    assert SlotUsed(s, i) && ProcOk(c, s, p) && OpenOk(s, p);
  }

  function StartLines(log: seq<Line>, p: nat): nat {
    if log == [] then 0
    else StartLines(log[..|log| - 1], p) + (if log[|log| - 1].Start? && log[|log| - 1].p == p then 1 else 0)
  }

  function DoneLines(log: seq<Line>, p: nat): nat {
    if log == [] then 0
    else DoneLines(log[..|log| - 1], p) + (if log[|log| - 1].Done? && log[|log| - 1].p == p then 1 else 0)
  }

  lemma {:induction false} AlternatingCounts(log: seq<Line>, p: nat)
    requires Alternating(log)
    ensures StartLines(log, p) == DoneLines(log, p) + (if Open(log, p).Some? then 1 else 0)
  {
    if log != [] { AlternatingCounts(log[..|log| - 1], p); }
  }

  /** At every crash point each process has at most one start line without a completion line. */
  lemma {:induction false} AtMostOneOpen(c: Config, run: seq<State>, steps: seq<Step>, k: nat, p: nat)
    requires IsRun(c, run, steps) && k < |run|
    ensures Alternating(run[k].log)
    ensures StartLines(run[k].log, p) == DoneLines(run[k].log, p) + (if Open(run[k].log, p).Some? then 1 else 0)
  {
    RunInv(c, run, steps, k);
    AlternatingCounts(run[k].log, p);
  }

  // ---------------------------------------------------------------------------
  // Crash tolerance
  // ---------------------------------------------------------------------------

  /** An acknowledged row that is missing is the target of an op in flight. */
  lemma {:induction false} LostAreTargets(c: Config, run: seq<State>, steps: seq<Step>, k: nat, r: nat)
    requires IsRun(c, run, steps) && k < |run|
    requires r in Inserted(run[k].log) && r !in Tombstoned(run[k].log) && r !in run[k].live
    ensures exists p :: 0 <= p <= c.agents && r in MayBeLost(run[k].log, p)
  {
    RunInv(c, run, steps, k);
    var s := run[k];
    assert EffectOk(s, r);
    var q :| 0 <= q < |s.procs| && Struck(s.procs[q].pc) == Some(r);
    assert OpenOk(s, q);
    assert r in MayBeLost(s.log, q);
  }

  /** A row acknowledged as tombstoned is never visible again. */
  lemma {:induction false} NoResurrection(c: Config, run: seq<State>, steps: seq<Step>, k: nat, r: nat)
    requires IsRun(c, run, steps) && k < |run| && r in Tombstoned(run[k].log)
    ensures r !in run[k].live
  {
    RunInv(c, run, steps, k);
    assert EffectOk(run[k], r);
  }

  function Elements(xs: seq<nat>): (r: set<nat>)
    ensures |r| <= |xs| && forall x :: x in r <==> x in xs
  {
    if xs == [] then {}
    else
      var n := |xs| - 1;
      assert xs == xs[..n] + [xs[n]];
      Elements(xs[..n]) + {xs[n]}
  }

  function UnionOf(xss: seq<seq<nat>>): set<nat> {
    if xss == [] then {} else UnionOf(xss[..|xss| - 1]) + Elements(xss[|xss| - 1])
  }

  lemma {:induction false} InUnion(xss: seq<seq<nat>>, q: nat, r: nat)
    requires q < |xss| && r in xss[q]
    ensures r in UnionOf(xss)
  {
    if q < |xss| - 1 { InUnion(xss[..|xss| - 1], q, r); }
  }

  lemma UnionSize(a: set<nat>, b: set<nat>)
    ensures |a + b| <= |a| + |b|
  {
    assert a + b == a + (b - a);
    SubsetSize(b - a, b);
  }

  /** At most as many elements as the open ops of the first `|xss|` processes have ids. */
  lemma {:induction false} UnionBound(log: seq<Line>, xss: seq<seq<nat>>)
    requires forall q :: 0 <= q < |xss| ==> Covered(log, q, xss[q])
    ensures |UnionOf(xss)| <= MayBePhantom(log, |xss|)
  {
    if xss != [] {
      var n := |xss| - 1;
      var front, back := UnionOf(xss[..n]), Elements(xss[n]);
      UnionBound(log, xss[..n]);
      UnionSize(front, back);
      assert Covered(log, n, xss[n]) && UnionOf(xss) == front + back;
    }
  }

  ghost predicate Covered(log: seq<Line>, p: nat, rows: seq<nat>) {
    |rows| <= if Open(log, p).Some? then |Ids(Open(log, p).value.1)| else 0
  }

  lemma {:induction false} OpenCovers(c: Config, s: State, p: nat)
    requires Inv(c, s) && p < |s.procs|
    ensures Covered(s.log, p, Unlogged(s.procs[p].pc))
  {
    assert ProcOk(c, s, p) && OpenOk(s, p);
  }

  /** There are at most as many unacknowledged rows as the ops in flight can have made. */
  lemma {:induction false} PhantomsAreBounded(c: Config, run: seq<State>, steps: seq<Step>, k: nat)
    requires IsRun(c, run, steps) && k < |run|
    ensures |run[k].live.Keys - Inserted(run[k].log)| <= MayBePhantom(run[k].log, c.agents + 1)
  {
    RunInv(c, run, steps, k);
    var s := run[k];
    var xss := seq(|s.procs|, q requires 0 <= q < |s.procs| => Unlogged(s.procs[q].pc));
    forall r | r in s.live.Keys - Inserted(s.log) ensures r in UnionOf(xss) {
      assert EffectOk(s, r);
      var q :| 0 <= q < |s.procs| && r in Unlogged(s.procs[q].pc);
      InUnion(xss, q, r);
    }
    SubsetSize(s.live.Keys - Inserted(s.log), UnionOf(xss));
    forall q | 0 <= q < |xss| ensures Covered(s.log, q, xss[q]) { OpenCovers(c, s, q); }
    UnionBound(s.log, xss);
  }

  // ---------------------------------------------------------------------------
  // Clean exit
  // ---------------------------------------------------------------------------

  /**
   At a clean exit nothing is open, the live rows are exactly the acknowledged ones, and the registry's
   lists are disjoint, duplicate-free and together hold exactly the live rows.
   */
  lemma {:induction false} CleanExitAgrees(c: Config, run: seq<State>, steps: seq<Step>, k: nat)
    requires IsRun(c, run, steps) && k < |run| && CleanExit(c, run[k])
    ensures forall p :: 0 <= p <= c.agents ==> Open(run[k].log, p).None?
    ensures forall r :: r in run[k].live <==> r in Inserted(run[k].log) && r !in Tombstoned(run[k].log)
    ensures Apart(run[k].lists) && forall r :: r in run[k].live <==> Listed(run[k], r)
  {
    RunInv(c, run, steps, k);
    var s := run[k];
    forall p | 0 <= p < |s.procs| ensures Open(s.log, p).None? { assert Exhausted(c, s, p) && OpenOk(s, p); }
    forall q | 0 <= q < |s.lists|
      ensures NoDup(s.lists[q]) && forall t, r :: 0 <= t < |s.lists| && t != q && r in s.lists[q] ==> r !in s.lists[t]
    {
      assert ListOk(s, q);
    }
    forall r ensures (r in s.live <==> r in Inserted(s.log) && r !in Tombstoned(s.log)) && (r in s.live <==> Listed(s, r)) {
      assert EffectOk(s, r);
      NothingInFlight(c, s, r);
      if Listed(s, r) {
        var q :| 0 <= q < |s.lists| && r in s.lists[q];
        assert ListOk(s, q);
      }
    }
  }

  lemma {:induction false} NothingInFlight(c: Config, s: State, r: nat)
    requires CleanExit(c, s)
    ensures !MadeUnlogged(s, r) && !StruckUnlogged(s, r) && !JustMade(s, r) && !Claimed(s, r)
  {
    forall q | 0 <= q < |s.procs| ensures s.procs[q].pc.Idle? { assert Exhausted(c, s, q); }
  }
}
