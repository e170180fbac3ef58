/** What becomes of one op of the chaos worker: its slots, its verb, its retry and its completion line. */
module ChaosOps {
  import opened Common
  import opened Chaos
  import opened ChaosInvariants
  import opened ChaosProof
  import opened ChaosTheorems
  import opened ChaosCrash

  // ---------------------------------------------------------------------------
  // Verbs
  // ---------------------------------------------------------------------------

  /**
   What an op announces for a drawn verb: two rows if that was drawn and two slots are left, a delete or an
   update if that was drawn and there is a row to target, a single insert in all other cases, with the
   business ids of its own slots.
   */
  lemma {:induction false} ChosenAction(c: Config, s: State, step: Step)
    requires Inv(c, s) && step.Choose? && Enabled(c, s, step)
    ensures var p, op := step.p, s.procs[step.p].op;
      && Apply(c, s, step).procs[p].pc.Chosen?
      && var a, targets := Apply(c, s, step).procs[p].pc.action, s.lists[0] != [] || s.lists[p] != [];
         && (a.InsertTwo? <==> step.verb.MultiBatchInsert? && op + 2 <= Slots(c, p))
         && (a.DeleteRow? <==> step.verb.Delete? && targets)
         && (a.UpdateRow? <==> step.verb.Update? && targets)
         && (TargetOf(a).Some? ==> TargetOf(a).value in s.lists[0] || TargetOf(a).value in s.lists[p])
         && |Ids(a)| == (if a.DeleteRow? then 0 else Width(a)) && forall j :: 0 <= j < |Ids(a)| ==> Ids(a)[j] == BusinessId(c, p, op + j)
  {
    ResolveOk(c, s, step);
  }

  // ---------------------------------------------------------------------------
  // Slots
  // ---------------------------------------------------------------------------

  ghost predicate Covers(line: Line, p: nat, slot: nat) {
    line.Start? && line.p == p && line.op <= slot < line.op + Width(line.action)
  }

  ghost predicate SlotCovered(log: seq<Line>, p: nat, slot: nat) {
    exists i :: 0 <= i < |log| && Covers(log[i], p, slot)
  }

  /** Every slot a process has passed was announced. */
  ghost predicate SlotsCovered(s: State, p: nat)
    requires p < |s.procs|
  {
    forall slot :: 0 <= slot < s.procs[p].op ==> SlotCovered(s.log, p, slot)
  }

  lemma {:induction false} OpenStart(log: seq<Line>, p: nat) returns (i: nat)
    requires Open(log, p).Some?
    ensures i < |log| && log[i] == Start(p, Open(log, p).value.0, Open(log, p).value.1)
  {
    var n := |log| - 1;
    if log[n].p == p { i := n; } else { i := OpenStart(log[..n], p); }
  }

  lemma {:induction false} CoveredLater(log: seq<Line>, more: seq<Line>, p: nat, slot: nat)
    requires SlotCovered(log, p, slot) && log <= more
    ensures SlotCovered(more, p, slot)
  {
    var i :| 0 <= i < |log| && Covers(log[i], p, slot);
    assert more[i] == log[i];
  }

  /** The completion line moves on by exactly the slots its start line announced. */
  lemma {:induction false} DoneCovers(c: Config, s: State, p: nat, slot: nat)
    requires p < |s.procs| && ProcOk(c, s, p) && OpenOk(s, p) && SlotsCovered(s, p) && s.procs[p].pc.Recorded?
    requires slot < s.procs[p].op + (if s.procs[p].pc.outcome.Committed? then Width(s.procs[p].pc.outcome.action) else 1)
    ensures SlotCovered(s.log, p, slot)
  {
    if slot >= s.procs[p].op {
      var i := OpenStart(s.log, p);
      assert Covers(s.log[i], p, slot);
    }
  }

  lemma {:induction false} LogGrows(c: Config, s: State, step: Step, q: nat)
    requires Sound(c, s) && Enabled(c, s, step) && q < |s.procs|
    ensures s.log <= Apply(c, s, step).log && |Apply(c, s, step).procs| == |s.procs|
    ensures !(step.PrintDone? && step.p == q) ==> Apply(c, s, step).procs[q].op == s.procs[q].op
  {
  }

  lemma {:induction false} StepCovers(c: Config, s: State, step: Step, q: nat)
    requires Inv(c, s) && Enabled(c, s, step) && q < |s.procs| && SlotsCovered(s, q)
    ensures q < |Apply(c, s, step).procs| && SlotsCovered(Apply(c, s, step), q)
  {
    LogGrows(c, s, step, q);
    assert ProcOk(c, s, q) && OpenOk(s, q);
    var t := Apply(c, s, step);
    forall slot | 0 <= slot < t.procs[q].op ensures SlotCovered(t.log, q, slot) {
      if step.PrintDone? && step.p == q { DoneCovers(c, s, q, slot); }
      CoveredLater(s.log, t.log, q, slot);
    }
  }

  lemma {:induction false} RunCovers(c: Config, run: seq<State>, steps: seq<Step>, k: nat, p: nat)
    requires IsRun(c, run, steps) && k < |run| && p <= c.agents
    ensures p < |run[k].procs| && SlotsCovered(run[k], p)
  {
    if k > 0 {
      RunCovers(c, run, steps, k - 1, p);
      RunInv(c, run, steps, k - 1);
      assert StepAt(c, run, steps, k - 1);
      StepCovers(c, run[k - 1], steps[k - 1], p);
    }
  }

  /** At a clean exit every slot of every process has been announced, by `SlotsUsedOnce` exactly once. */
  lemma {:induction false} EverySlotUsed(c: Config, run: seq<State>, steps: seq<Step>, k: nat, p: nat, slot: nat)
    requires IsRun(c, run, steps) && k < |run| && CleanExit(c, run[k]) && p <= c.agents && slot < Slots(c, p)
    ensures SlotCovered(run[k].log, p, slot)
  {
    RunCovers(c, run, steps, k, p);
    assert Exhausted(c, run[k], p);
  }

  // ---------------------------------------------------------------------------
  // One retry
  // ---------------------------------------------------------------------------

  /** The op of process `p` in slot `op` has met a conflict before state `i`. */
  ghost predicate Conflicted(run: seq<State>, steps: seq<Step>, i: nat, p: nat, op: nat)
    requires |run| == |steps| + 1 && i <= |steps|
  {
    exists j :: 0 <= j < i && ConflictAt(run, steps, j, p, op)
  }

  ghost predicate ConflictAt(run: seq<State>, steps: seq<Step>, j: nat, p: nat, op: nat)
    requires |run| == |steps| + 1 && j < |steps|
  {
    steps[j] == Conflict(p) && p < |run[j].procs| && run[j].procs[p].op == op
  }

  /** The attempt in progress is the second one exactly if the first met a conflict. */
  ghost predicate Attempts(run: seq<State>, steps: seq<Step>, i: nat, p: nat)
    requires |run| == |steps| + 1 && i <= |steps| && p < |run[i].procs|
  {
    var op, pc := run[i].procs[p].op, run[i].procs[p].pc;
    && (forall later :: later > op ==> !Conflicted(run, steps, i, p, later))
    && (pc.Idle? || pc.Chosen? ==> !Conflicted(run, steps, i, p, op))
    && (pc.Running? || pc.Begun? ==> pc.attempt == if Conflicted(run, steps, i, p, op) then 2 else 1)
  }

  lemma {:induction false} ConflictedNext(run: seq<State>, steps: seq<Step>, i: nat, p: nat, op: nat)
    requires |run| == |steps| + 1 && i < |steps|
    ensures Conflicted(run, steps, i + 1, p, op) <==> Conflicted(run, steps, i, p, op) || ConflictAt(run, steps, i, p, op)
  {
  }

  /** What a step does to a process as far as attempts go. */
  ghost predicate AttemptStep(x: Proc, y: Proc, conflict: bool) {
    && y.op >= x.op && (y.op > x.op ==> y.pc.Idle?)
    && (conflict ==> x.pc.Begun? && y.op == x.op)
    && (y.pc.Idle? || y.pc.Chosen? ==> y.op > x.op || x.pc.Idle? || x.pc.Chosen?)
    && (y.pc.Running? || y.pc.Begun? ==>
          if conflict then x.pc.attempt == 1 && y.pc.attempt == 2
          else y.op == x.op && ((x.pc.Chosen? && y.pc.attempt == 1) || ((x.pc.Running? || x.pc.Begun?) && y.pc.attempt == x.pc.attempt)))
  }

  lemma {:induction false} OwnAttempt(c: Config, s: State, step: Step, q: nat)
    requires Sound(c, s) && Enabled(c, s, step) && q < |s.procs|
    ensures q < |Apply(c, s, step).procs| && (Apply(c, s, step).procs[q] == s.procs[q] || AttemptStep(s.procs[q], Apply(c, s, step).procs[q], step == Conflict(q)))
    ensures step == Conflict(q) ==> AttemptStep(s.procs[q], Apply(c, s, step).procs[q], true)
  {
  }

  lemma {:induction false} AttemptsStep(c: Config, run: seq<State>, steps: seq<Step>, i: nat, p: nat)
    requires IsRun(c, run, steps) && i < |steps| && p < |run[i].procs| && Attempts(run, steps, i, p)
    ensures p < |run[i + 1].procs| && Attempts(run, steps, i + 1, p)
  {
    assert StepAt(c, run, steps, i);
    OwnAttempt(c, run[i], steps[i], p);
    var op := run[i + 1].procs[p].op;
    ConflictedNext(run, steps, i, p, op);
    var n := i + 1;
    forall later | later > op ensures !Conflicted(run, steps, n, p, later) { ConflictedNext(run, steps, i, p, later); }
  }

  lemma {:induction false} RunAttempts(c: Config, run: seq<State>, steps: seq<Step>, i: nat, p: nat)
    requires IsRun(c, run, steps) && i < |run| && p <= c.agents
    ensures p < |run[i].procs| && Attempts(run, steps, i, p)
  {
    if i > 0 {
      RunAttempts(c, run, steps, i - 1, p);
      AttemptsStep(c, run, steps, i - 1, p);
    }
  }

  /**
   A conflict is retried if it is the op's first and drops the op if it is the second; otherwise an op is
   only dropped because its target is gone.
   */
  lemma {:induction false} RetriedOnce(c: Config, run: seq<State>, steps: seq<Step>, k: nat, p: nat)
    requires IsRun(c, run, steps) && k < |steps| && p <= c.agents
    ensures |run[k].procs| == |run[k + 1].procs| == c.agents + 1
    ensures steps[k] == Conflict(p) ==>
      && run[k].procs[p].pc.Begun?
      && var first := !Conflicted(run, steps, k, p, run[k].procs[p].op);
         run[k + 1].procs[p].pc == if first then Running(run[k].procs[p].pc.action, 2) else Ended(Dropped)
    ensures steps[k] != Conflict(p) && run[k + 1].procs[p].pc == Ended(Dropped) && run[k].procs[p].pc != Ended(Dropped) ==>
      var pc := run[k].procs[p].pc; (pc.Running? || pc.Begun?) && TargetOf(pc.action).Some? && TargetOf(pc.action).value !in run[k].live
  {
    RunAttempts(c, run, steps, k, p);
    RunInv(c, run, steps, k);
    assert StepAt(c, run, steps, k);
  }

  // ---------------------------------------------------------------------------
  // The completion line
  // ---------------------------------------------------------------------------

  /** A completion line that says committed names the open op and the rows it made, all of them there when it is printed. */
  lemma {:induction false} AcknowledgedIsTrue(c: Config, run: seq<State>, steps: seq<Step>, k: nat, p: nat)
    requires IsRun(c, run, steps) && k < |steps| && steps[k] == PrintDone(p)
    ensures p < |run[k].procs| && run[k].procs[p].pc.Recorded?
    ensures var out, op := run[k].procs[p].pc.outcome, run[k].procs[p].op;
      && run[k + 1].log == run[k].log + [Done(p, op, out)] && Open(run[k].log, p).Some? && Open(run[k].log, p).value.0 == op
      && (out.Committed? ==> Open(run[k].log, p).value.1 == out.action && TookEffect(run[k], p, out.rows))
  {
    RunInv(c, run, steps, k);
    RunMade(c, run, steps, k);
    assert StepAt(c, run, steps, k);
    assert OpenOk(run[k], p);
    if run[k].procs[p].pc.outcome.Committed? { LandedTookEffect(c, run[k], p); }
  }
}
