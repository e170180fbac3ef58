/** Every step of the chaos worker keeps the invariant. */
module ChaosProof {
  import opened Common
  import opened Chaos
  import opened ChaosInvariants

  // ---------------------------------------------------------------------------
  // Business ids
  // ---------------------------------------------------------------------------

  lemma BusinessIdsDiffer(c: Config, p: nat, op: nat, q: nat, k: nat)
    requires op < Slots(c, p) && k < Slots(c, q) && BusinessId(c, p, op) == BusinessId(c, q, k)
    ensures p == q && op == k
  {
    if p > 0 && q > 0 {
      if p < q {
        Spread(p - 1, q - 1, c.opsPerAgent);
      } else if q < p {
        Spread(q - 1, p - 1, c.opsPerAgent);
      }
    }
  }

  lemma Spread(a: nat, b: nat, n: nat)
    requires a < b
    ensures b * n == a * n + (b - a) * n && (b - a) * n >= n
  {
    assert (b - a) * n == (b - a - 1) * n + n;
  }

  // ---------------------------------------------------------------------------
  // The registry
  // ---------------------------------------------------------------------------

  lemma {:induction false} SwapRemoveKeeps(xs: seq<nat>, at: nat)
    requires at < |xs| && NoDup(xs)
    ensures NoDup(SwapRemove(xs, at)) && forall y :: y in SwapRemove(xs, at) <==> y in xs && y != xs[at]
  {
    var r := SwapRemove(xs, at);
    forall y ensures y in r <==> y in xs && y != xs[at] {
      if y in xs && y != xs[at] {
        var i :| 0 <= i < |xs| && xs[i] == y;
        assert r[if i == |xs| - 1 then at else i] == y;
      }
    }
  }

  ghost predicate Apart(lists: seq<seq<nat>>) {
    && (forall q :: 0 <= q < |lists| ==> NoDup(lists[q]))
    && forall q, t, r :: 0 <= q < |lists| && 0 <= t < |lists| && q != t && r in lists[q] ==> r !in lists[t]
  }

  /** `remove` takes exactly the row out, wherever it is, and leaves the lists disjoint and duplicate-free. */
  lemma {:induction false} RemoveKeeps(lists: seq<seq<nat>>, p: nat, row: nat)
    requires p < |lists| && Apart(lists) && (row in lists[0] || row in lists[p])
    ensures var r := Remove(lists, p, row);
      && Apart(r)
      && forall q, y :: 0 <= q < |lists| ==> (y in r[q] <==> y in lists[q] && y != row)
  {
    var inPool, inOwn := Position(lists[0], row), Position(lists[p], row);
    if inPool.Some? { SwapRemoveKeeps(lists[0], inPool.value); } else { SwapRemoveKeeps(lists[p], inOwn.value); }
  }

  lemma {:induction false} AppendKeeps(lists: seq<seq<nat>>, p: nat, rows: seq<nat>)
    requires p < |lists| && Apart(lists) && NoDup(rows)
    requires forall q, y :: 0 <= q < |lists| && y in rows ==> y !in lists[q]
    ensures var r := lists[p := lists[p] + rows];
      && Apart(r)
      && forall q, y :: 0 <= q < |lists| ==> (y in r[q] <==> y in lists[q] || (q == p && y in rows))
  {
    var own := lists[p];
    forall i, j | 0 <= i < j < |own + rows| ensures (own + rows)[i] != (own + rows)[j] {
      if i < |own| <= j {
        assert (own + rows)[j] == rows[j - |own|] && rows[j - |own|] in rows;
      }
    }
  }

  // ---------------------------------------------------------------------------
  // Steps that only move a process
  // ---------------------------------------------------------------------------

  /** Rows, registry and row counter stay; process `p` keeps what the registry does not know. */
  ghost predicate SameRows(s: State, t: State, p: nat)
    requires p < |s.procs|
  {
    && t.live == s.live && t.nextRow == s.nextRow && t.lists == s.lists && |t.procs| == |s.procs|
    && (forall q :: 0 <= q < |s.procs| && q != p ==> t.procs[q] == s.procs[q])
    && Unlisted(t.procs[p].pc) == Unlisted(s.procs[p].pc) && Claim(t.procs[p].pc) == Claim(s.procs[p].pc)
  }

  /** Rows, registry and row counter stay; process `p` keeps what it has committed. */
  ghost predicate Moved(s: State, t: State, p: nat)
    requires p < |s.procs|
  {
    && t.live == s.live && t.nextRow == s.nextRow && t.lists == s.lists && |t.procs| == |s.procs|
    && (forall q :: 0 <= q < |s.procs| && q != p ==> t.procs[q] == s.procs[q])
    && Landing(t.procs[p].pc) == Landing(s.procs[p].pc) && !t.procs[p].pc.Recorded? && !s.procs[p].pc.Recorded?
    && t.procs[p].op == s.procs[p].op
  }

  lemma {:induction false} MovedSame(s: State, t: State, p: nat, r: nat)
    requires p < |s.procs| && SameRows(s, t, p)
    ensures Listed(t, r) == Listed(s, r) && Claimed(t, r) == Claimed(s, r) && JustMade(t, r) == JustMade(s, r)
  {
    if Claimed(s, r) { var q :| 0 <= q < |s.procs| && Claim(s.procs[q].pc) == Some(r); assert Claim(t.procs[q].pc) == Some(r); }
    if JustMade(s, r) { var q :| 0 <= q < |s.procs| && r in Unlisted(s.procs[q].pc); assert r in Unlisted(t.procs[q].pc); }
  }

  lemma {:induction false} MovedProcs(c: Config, s: State, t: State, p: nat, q: nat)
    requires Inv(c, s) && p < |s.procs| && SameRows(s, t, p) && q < |s.procs|
    requires Pending(t.procs[p].pc).Some? ==>
      Pending(t.procs[p].pc) == Pending(s.procs[p].pc) || Pending(t.procs[p].pc).value in s.lists[0] || Pending(t.procs[p].pc).value in s.lists[p]
    ensures ClaimOk(t, q) && PendingOk(t, q) && ListOk(t, q)
  {
    assert ClaimOk(s, q) && PendingOk(s, q) && ListOk(s, q) && ListOk(s, 0) && ListOk(s, p);
    forall r | r in t.lists[q] ensures r in t.live || Claimed(t, r) { MovedSame(s, t, p, r); }
  }

  lemma {:induction false} MovedHidden(c: Config, s: State, t: State, p: nat, q: nat, r: nat)
    requires Inv(c, s) && p < |s.procs| && SameRows(s, t, p) && q < |s.procs|
    requires Pending(t.procs[p].pc).Some? ==>
      Pending(t.procs[p].pc) == Pending(s.procs[p].pc) || Pending(t.procs[p].pc).value in s.lists[0] || Pending(t.procs[p].pc).value in s.lists[p]
    ensures HiddenOk(t, q, r)
  {
    assert HiddenOk(s, q, r);
    MovedSame(s, t, p, r);
    if r in s.lists[0] { assert Listed(s, r); }
    if r in s.lists[p] { assert Listed(s, r); }
  }

  lemma {:induction false} MovedRows(c: Config, s: State, t: State, p: nat)
    requires Inv(c, s) && p < |s.procs| && SameRows(s, t, p)
    requires Pending(t.procs[p].pc).Some? ==>
      Pending(t.procs[p].pc) == Pending(s.procs[p].pc) || Pending(t.procs[p].pc).value in s.lists[0] || Pending(t.procs[p].pc).value in s.lists[p]
    ensures RowsOk(c, t)
  {
    forall q | 0 <= q < |t.procs| ensures ClaimOk(t, q) && PendingOk(t, q) && ListOk(t, q) && NoDup(Unlisted(t.procs[q].pc)) {
      MovedProcs(c, s, t, p, q);
      assert NoDup(Unlisted(s.procs[q].pc));
    }
    forall q, r | 0 <= q < |t.procs| ensures HiddenOk(t, q, r) { MovedHidden(c, s, t, p, q, r); }
    forall r | r in t.live ensures r < t.nextRow && (Listed(t, r) || JustMade(t, r)) { MovedSame(s, t, p, r); }
  }

  lemma {:induction false} IdsKept(c: Config, s: State, t: State)
    requires IdsOk(c, s) && t.live == s.live && |t.procs| == |s.procs|
    requires forall q :: 0 <= q < |s.procs| ==> Past(s.procs[q]) <= Past(t.procs[q])
    ensures IdsOk(c, t)
  {
    forall r | r in t.live ensures LiveId(c, t, r) {
      assert LiveId(c, s, r);
      var q, k :| PastSlot(c, s, q, k, s.live[r]);
      assert PastSlot(c, t, q, k, t.live[r]);
    }
  }

  lemma {:induction false} MovedEffects(c: Config, s: State, t: State, p: nat)
    requires Inv(c, s) && p < |s.procs| && Moved(s, t, p)
    requires Inserted(t.log) == Inserted(s.log) && Tombstoned(t.log) == Tombstoned(s.log)
    ensures EffectsOk(t)
  {
    assert forall q :: 0 <= q < |s.procs| ==> Landing(t.procs[q].pc) == Landing(s.procs[q].pc);
    forall r ensures EffectOk(t, r) {
      assert EffectOk(s, r);
      SameLanding(s, t, r);
    }
  }

  lemma {:induction false} MovedOthers(c: Config, s: State, t: State, p: nat, q: nat)
    requires Inv(c, s) && p < |s.procs| && Moved(s, t, p) && q < |s.procs| && q != p
    ensures ProcOk(c, t, q)
  {
    assert ProcOk(c, s, q);
    forall j | 0 <= j < |Unlisted(t.procs[q].pc)| ensures LandedRow(t.live, t.procs[q].pc, j) {
      assert LandedRow(s.live, s.procs[q].pc, j);
    }
  }

  /** A step that moves one process and prints nothing. */
  lemma {:induction false} Quiet(c: Config, s: State, t: State, p: nat)
    requires Inv(c, s) && p < |s.procs| && Moved(s, t, p) && t.log == s.log
    requires Pending(t.procs[p].pc).Some? ==>
      Pending(t.procs[p].pc) == Pending(s.procs[p].pc) || Pending(t.procs[p].pc).value in s.lists[0] || Pending(t.procs[p].pc).value in s.lists[p]
    requires ProcOk(c, t, p) && OpenOk(t, p)
    ensures Inv(c, t)
  {
    MovedRows(c, s, t, p);
    IdsKept(c, s, t);
    MovedEffects(c, s, t, p);
    forall q | 0 <= q < |t.procs| ensures ProcOk(c, t, q) && OpenOk(t, q) {
      if q != p {
        MovedOthers(c, s, t, p, q);
        assert OpenOk(s, q);
      }
    }
    forall i | 0 <= i < |t.log| ensures SlotUsed(t, i) { assert SlotUsed(s, i); }
  }

  lemma {:induction false} ResolveOk(c: Config, s: State, step: Step)
    requires Inv(c, s) && step.Choose? && Enabled(c, s, step)
    ensures var op := s.procs[step.p].op;
      && op <= Slots(c, step.p)
      && var a := Resolve(c, step.p, op, step.verb, step.target);
         && ActionOk(c, step.p, op, a)
         && (TargetOf(a).Some? ==> TargetOf(a).value in s.lists[0] || TargetOf(a).value in s.lists[step.p])
  {
  }

  lemma {:induction false} ChooseInv(c: Config, s: State, step: Step)
    requires Inv(c, s) && step.Choose? && Enabled(c, s, step)
    ensures Inv(c, Apply(c, s, step))
  {
    assert ProcOk(c, s, step.p) && OpenOk(s, step.p);
    ResolveOk(c, s, step);
    Quiet(c, s, Apply(c, s, step), step.p);
  }

  lemma {:induction false} BeginInv(c: Config, s: State, step: Step)
    requires Inv(c, s) && step.Begin? && Enabled(c, s, step)
    ensures Inv(c, Apply(c, s, step))
  {
    assert ProcOk(c, s, step.p) && OpenOk(s, step.p);
    Quiet(c, s, Apply(c, s, step), step.p);
  }

  lemma {:induction false} FailedInv(c: Config, s: State, step: Step)
    requires Inv(c, s) && (step.Conflict? || step.Refuse?) && Enabled(c, s, step)
    ensures Inv(c, Apply(c, s, step))
  {
    var p, pc := step.p, s.procs[step.p].pc;
    assert ProcOk(c, s, p) && OpenOk(s, p);
    FailedProc(c, s, p, if step.Conflict? && pc.attempt == 1 then Running(pc.action, 2) else Ended(Dropped));
    Quiet(c, s, Apply(c, s, step), p);
  }

  lemma {:induction false} FailedProc(c: Config, s: State, p: nat, next: Pc)
    requires p < |s.procs| && ProcOk(c, s, p) && OpenOk(s, p) && s.procs[p].pc.Begun? && TargetOf(s.procs[p].pc.action).Some?
    requires next == Running(s.procs[p].pc.action, 2) || next == Ended(Dropped)
    ensures Moved(s, At(s, p, next), p) && ProcOk(c, At(s, p, next), p) && OpenOk(At(s, p, next), p)
  {
  }

  lemma {:induction false} SettleInv(c: Config, s: State, step: Step)
    requires Inv(c, s) && step.Settle? && Enabled(c, s, step)
    ensures Inv(c, Apply(c, s, step))
  {
    var t, p := Apply(c, s, step), step.p;
    assert ProcOk(c, s, p) && OpenOk(s, p);
    var x, y := s.procs[p].pc, t.procs[p].pc;
    assert x.made[..|x.made|] == x.made;
    forall j | 0 <= j < |Unlisted(y)| ensures LandedRow(t.live, y, j) { assert LandedRow(s.live, x, j); }
    Quiet(c, s, t, p);
  }

  /** A lookup finds the row its commit made, and no other. */
  lemma {:induction false} LookupHits(c: Config, s: State, p: nat)
    requires Inv(c, s) && p < |s.procs| && s.procs[p].pc.Landed? && |s.procs[p].pc.found| < |Ids(s.procs[p].pc.action)|
    ensures var pc := s.procs[p].pc;
      && |pc.found| < |pc.made| && Hits(s.live, Ids(pc.action)[|pc.found|]) == {pc.made[|pc.found|]}
  {
    var pc := s.procs[p].pc;
    assert ProcOk(c, s, p) && LandedRow(s.live, pc, |pc.found|);
  }

  lemma {:induction false} LookupInv(c: Config, s: State, step: Step)
    requires Inv(c, s) && step.Lookup? && Enabled(c, s, step)
    ensures Inv(c, Apply(c, s, step))
  {
    var p := step.p;
    assert ProcOk(c, s, p) && OpenOk(s, p);
    LookupHits(c, s, p);
    assert step.row in Hits(s.live, Ids(s.procs[p].pc.action)[|s.procs[p].pc.found|]);
    LookupProc(c, s, p, step.row);
    Quiet(c, s, Apply(c, s, step), p);
  }

  lemma {:induction false} LookupProc(c: Config, s: State, p: nat, row: nat)
    requires p < |s.procs| && ProcOk(c, s, p) && OpenOk(s, p)
    requires var x := s.procs[p].pc; x.Landed? && |x.found| < |x.made| && row == x.made[|x.found|]
    ensures var t := At(s, p, Landed(s.procs[p].pc.action, s.procs[p].pc.made, s.procs[p].pc.found + [row]));
      Moved(s, t, p) && ProcOk(c, t, p) && OpenOk(t, p)
  {
    var x := s.procs[p].pc;
    var y := Landed(x.action, x.made, x.found + [row]);
    assert y.found == y.made[..|y.found|];
    forall j | 0 <= j < |Unlisted(y)| ensures LandedRow(s.live, y, j) { assert LandedRow(s.live, x, j); }
  }

  /** The assertion in `lookup_row_id` never fails. */
  lemma {:induction false} NoLookupPanic(c: Config, s: State, step: Step)
    requires Inv(c, s) && step.LookupPanic?
    ensures !Enabled(c, s, step)
  {
    if Enabled(c, s, step) { LookupHits(c, s, step.p); }
  }

  // ---------------------------------------------------------------------------
  // Lines
  // ---------------------------------------------------------------------------

  lemma {:induction false} LineAppended(log: seq<Line>, line: Line)
    ensures var after := log + [line];
      && (forall p :: p != line.p ==> Open(after, p) == Open(log, p))
      && Open(after, line.p) == (if line.Start? then Some((line.op, line.action)) else None)
  {
    assert (log + [line])[..|log|] == log;
  }

  lemma {:induction false} EffectsAppended(log: seq<Line>, line: Line, r: nat)
    ensures var after, committed := log + [line], line.Done? && line.outcome.Committed?;
      && (r in Inserted(after) <==> r in Inserted(log) || (committed && r in line.outcome.rows))
      && (r in Tombstoned(after) <==> r in Tombstoned(log) || (committed && TargetOf(line.outcome.action) == Some(r)))
  {
    assert (log + [line])[..|log|] == log;
  }

  lemma {:induction false} StartOpen(c: Config, s: State, step: Step, q: nat)
    requires Inv(c, s) && step.PrintStart? && Enabled(c, s, step) && q < |s.procs|
    ensures OpenOk(Apply(c, s, step), q)
  {
    var p := step.p;
    assert OpenOk(s, q);
    LineAppended(s.log, Start(p, s.procs[p].op, s.procs[p].pc.action));
  }

  lemma {:induction false} StartSlot(c: Config, s: State, step: Step, i: nat)
    requires Inv(c, s) && step.PrintStart? && Enabled(c, s, step) && i < |Apply(c, s, step).log|
    ensures var t := Apply(c, s, step);
      && SlotUsed(t, i)
      && (i < |s.log| && t.log[i].Start? && t.log[i].p == step.p ==> t.log[i].op + Width(t.log[i].action) <= s.procs[step.p].op)
  {
    var t, p := Apply(c, s, step), step.p;
    assert OpenOk(s, p);
    if i < |s.log| { assert SlotUsed(s, i) && t.log[i] == s.log[i]; }
    LineAppended(s.log, Start(p, s.procs[p].op, s.procs[p].pc.action));
  }

  lemma {:induction false} StartAlternates(c: Config, s: State, step: Step)
    requires Inv(c, s) && step.PrintStart? && Enabled(c, s, step)
    ensures Alternating(Apply(c, s, step).log)
  {
    assert OpenOk(s, step.p);
    assert Apply(c, s, step).log[..|s.log|] == s.log;
  }

  lemma {:induction false} PrintStartLog(c: Config, s: State, step: Step)
    requires Inv(c, s) && step.PrintStart? && Enabled(c, s, step)
    ensures LogOk(Apply(c, s, step))
  {
    var t := Apply(c, s, step);
    StartAlternates(c, s, step);
    forall q | 0 <= q < |t.procs| ensures OpenOk(t, q) { StartOpen(c, s, step, q); }
    forall i | 0 <= i < |t.log| ensures SlotUsed(t, i) { StartSlot(c, s, step, i); }
    forall i, j | 0 <= i < j < |t.log| && t.log[i].Start? && t.log[j].Start? && t.log[i].p == t.log[j].p
      ensures t.log[i].op + Width(t.log[i].action) <= t.log[j].op
    {
      StartSlot(c, s, step, i);
      assert t.log[i] == s.log[i];
      if j < |s.log| { assert t.log[j] == s.log[j]; }
    }
  }

  lemma {:induction false} PrintStartInv(c: Config, s: State, step: Step)
    requires Inv(c, s) && step.PrintStart? && Enabled(c, s, step)
    ensures Inv(c, Apply(c, s, step))
  {
    var t, p := Apply(c, s, step), step.p;
    assert ProcOk(c, s, p);
    var line := Start(p, s.procs[p].op, s.procs[p].pc.action);
    assert t.log[..|s.log|] == s.log;
    PrintStartLog(c, s, step);
    MovedRows(c, s, t, p);
    IdsKept(c, s, t);
    MovedEffects(c, s, t, p);
    forall q | 0 <= q < |t.procs| ensures ProcOk(c, t, q) {
      if q != p { MovedOthers(c, s, t, p, q); }
    }
  }

  /** A completion closes the slot of the op that was open. */
  lemma {:induction false} DoneClosesSlot(c: Config, s: State, step: Step, i: nat)
    requires Inv(c, s) && step.PrintDone? && Enabled(c, s, step) && i < |s.log|
    ensures SlotUsed(Apply(c, s, step), i)
  {
    var t, p := Apply(c, s, step), step.p;
    assert OpenOk(s, p) && SlotUsed(s, i);
    assert t.log[i] == s.log[i];
    LineAppended(s.log, Done(p, s.procs[p].op, s.procs[p].pc.outcome));
  }

  lemma {:induction false} PrintDoneLog(c: Config, s: State, step: Step)
    requires Inv(c, s) && step.PrintDone? && Enabled(c, s, step)
    ensures LogOk(Apply(c, s, step))
  {
    var t, p := Apply(c, s, step), step.p;
    DoneAlternates(c, s, step);
    forall q | 0 <= q < |t.procs| ensures OpenOk(t, q) { DoneOpen(c, s, step, q); }
    assert SlotsApart(t.log);
    forall i | 0 <= i < |t.log| ensures SlotUsed(t, i) {
      if i < |s.log| { DoneClosesSlot(c, s, step, i); }
    }
  }

  lemma {:induction false} DoneOpen(c: Config, s: State, step: Step, q: nat)
    requires Inv(c, s) && step.PrintDone? && Enabled(c, s, step) && q < |s.procs|
    ensures OpenOk(Apply(c, s, step), q)
  {
    var p := step.p;
    assert OpenOk(s, q);
    LineAppended(s.log, Done(p, s.procs[p].op, s.procs[p].pc.outcome));
  }

  lemma {:induction false} DoneAlternates(c: Config, s: State, step: Step)
    requires Inv(c, s) && step.PrintDone? && Enabled(c, s, step)
    ensures Alternating(Apply(c, s, step).log)
  {
    var t, p := Apply(c, s, step), step.p;
    assert ProcOk(c, s, p) && OpenOk(s, p);
    assert t.log[..|s.log|] == s.log;
  }

  lemma {:induction false} DoneMade(s: State, t: State, p: nat, r: nat)
    requires p < |s.procs| == |t.procs| && t.procs[p].pc.Idle?
    requires forall q :: 0 <= q < |s.procs| && q != p ==> t.procs[q] == s.procs[q]
    ensures MadeUnlogged(s, r) <==> MadeUnlogged(t, r) || r in Unlogged(s.procs[p].pc)
    ensures StruckUnlogged(s, r) <==> StruckUnlogged(t, r) || Struck(s.procs[p].pc) == Some(r)
  {
    if MadeUnlogged(s, r) {
      var q :| 0 <= q < |s.procs| && r in Unlogged(s.procs[q].pc);
      assert q != p ==> r in Unlogged(t.procs[q].pc);
    }
    if MadeUnlogged(t, r) { var q :| 0 <= q < |t.procs| && r in Unlogged(t.procs[q].pc); assert r in Unlogged(s.procs[q].pc); }
    if StruckUnlogged(s, r) {
      var q :| 0 <= q < |s.procs| && Struck(s.procs[q].pc) == Some(r);
      assert q != p ==> Struck(t.procs[q].pc) == Some(r);
    }
    if StruckUnlogged(t, r) { var q :| 0 <= q < |t.procs| && Struck(t.procs[q].pc) == Some(r); assert Struck(s.procs[q].pc) == Some(r); }
  }

  /** What was in flight becomes acknowledged. */
  lemma {:induction false} DoneEffect(c: Config, s: State, step: Step, r: nat)
    requires Inv(c, s) && step.PrintDone? && Enabled(c, s, step)
    ensures EffectOk(Apply(c, s, step), r)
  {
    var t, p := Apply(c, s, step), step.p;
    assert EffectOk(s, r);
    DoneMade(s, t, p, r);
    EffectsAppended(s.log, Done(p, s.procs[p].op, s.procs[p].pc.outcome), r);
  }

  lemma {:induction false} DoneEffects(c: Config, s: State, step: Step)
    requires Inv(c, s) && step.PrintDone? && Enabled(c, s, step)
    ensures EffectsOk(Apply(c, s, step))
  {
    var t, p := Apply(c, s, step), step.p;
    forall r ensures EffectOk(t, r) { DoneEffect(c, s, step, r); }
    forall r | r in Inserted(t.log) || r in Tombstoned(t.log) ensures r < t.nextRow {
      EffectsAppended(s.log, Done(p, s.procs[p].op, s.procs[p].pc.outcome), r);
      if r in Unlogged(s.procs[p].pc) {
        var j :| 0 <= j < |Unlogged(s.procs[p].pc)| && Unlogged(s.procs[p].pc)[j] == r;
      }
    }
  }

  lemma {:induction false} PrintDoneInv(c: Config, s: State, step: Step)
    requires Inv(c, s) && step.PrintDone? && Enabled(c, s, step)
    ensures Inv(c, Apply(c, s, step))
  {
    var t, p := Apply(c, s, step), step.p;
    PrintDoneLog(c, s, step);
    DoneEffects(c, s, step);
    assert OpenOk(s, p) && ProcOk(c, s, p);
    IdsKept(c, s, t);
    MovedRows(c, s, t, p);
    forall q | 0 <= q < |t.procs| ensures ProcOk(c, t, q) {
      assert ProcOk(c, s, q);
      DoneProc(c, s, t, p, q);
    }
  }

  lemma {:induction false} DoneProc(c: Config, s: State, t: State, p: nat, q: nat)
    requires p < |s.procs| == |t.procs| && q < |s.procs| && t.live == s.live && t.procs[p].pc.Idle? && t.procs[p].op <= Slots(c, p)
    requires (forall u :: 0 <= u < |s.procs| && u != p ==> t.procs[u] == s.procs[u]) && ProcOk(c, s, q)
    ensures ProcOk(c, t, q)
  {
    forall j | 0 <= j < |Unlisted(t.procs[q].pc)| ensures LandedRow(t.live, t.procs[q].pc, j) {
      assert LandedRow(s.live, s.procs[q].pc, j);
    }
  }

  // ---------------------------------------------------------------------------
  // The registry learns of a commit
  // ---------------------------------------------------------------------------

  /** Process `p` registers: the lists hold what they held, without its target and with its new rows. */
  ghost predicate Registers(s: State, t: State, p: nat) {
    && p < |s.procs| == |t.procs| && |s.lists| == |t.lists| == |s.procs|
    && t.live == s.live && t.nextRow == s.nextRow && t.log == s.log
    && (forall q :: 0 <= q < |s.procs| && q != p ==> t.procs[q] == s.procs[q])
    && s.procs[p].pc.Ended? && t.procs[p] == Proc(s.procs[p].op, Recorded(s.procs[p].pc.outcome))
    && Apart(t.lists)
    && forall q, y :: 0 <= q < |s.lists| ==> (y in t.lists[q] <==> StaysOrComes(s, p, q, y))
  }

  ghost predicate StaysOrComes(s: State, p: nat, q: nat, y: nat)
    requires p < |s.procs| && q < |s.lists|
  {
    (y in s.lists[q] && Claim(s.procs[p].pc) != Some(y)) || (q == p && y in Unlisted(s.procs[p].pc))
  }

  lemma {:induction false} RegisterRegisters(c: Config, s: State, step: Step)
    requires Inv(c, s) && step.Register? && Enabled(c, s, step)
    ensures Registers(s, Apply(c, s, step), step.p)
  {
    var t, p, pc := Apply(c, s, step), step.p, s.procs[step.p].pc;
    assert ClaimOk(s, p) && NoDup(Unlisted(pc));
    forall q | 0 <= q < |s.lists| ensures NoDup(s.lists[q]) && (forall t, r :: 0 <= t < |s.lists| && t != q && r in s.lists[q] ==> r !in s.lists[t]) {
      assert ListOk(s, q);
    }
    if pc.outcome.Committed? {
      var a := pc.outcome.action;
      if TargetOf(a).Some? { RemoveKeeps(s.lists, p, TargetOf(a).value); }
      var rest := if TargetOf(a).Some? then Remove(s.lists, p, TargetOf(a).value) else s.lists;
      forall q, y | 0 <= q < |s.lists| && y in pc.outcome.rows ensures y !in rest[q] {
        assert HiddenOk(s, p, y);
        assert y in s.lists[q] ==> Listed(s, y);
      }
      AppendKeeps(rest, p, pc.outcome.rows);
    }
  }

  lemma {:induction false} RegisterClaim(c: Config, s: State, t: State, p: nat, q: nat)
    requires Inv(c, s) && Registers(s, t, p) && q < |s.procs|
    ensures ClaimOk(t, q)
  {
    assert ClaimOk(s, q);
    if q != p && Claim(s.procs[q].pc).Some? {
      var r := Claim(s.procs[q].pc).value;
      assert ClaimOk(s, p);
      assert StaysOrComes(s, p, 0, r) || StaysOrComes(s, p, q, r);
    }
  }

  lemma {:induction false} RegisterPending(c: Config, s: State, t: State, p: nat, q: nat)
    requires Inv(c, s) && Registers(s, t, p) && q < |s.procs|
    ensures PendingOk(t, q)
  {
    assert PendingOk(s, q);
    if Pending(s.procs[q].pc).Some? { assert HiddenOk(s, p, Pending(s.procs[q].pc).value); }
  }

  lemma {:induction false} RegisterPlaces(c: Config, s: State, t: State, p: nat, r: nat)
    requires Inv(c, s) && Registers(s, t, p)
    ensures Claimed(s, r) && Claim(s.procs[p].pc) != Some(r) ==> Claimed(t, r)
    ensures JustMade(s, r) && r !in Unlisted(s.procs[p].pc) ==> JustMade(t, r)
    ensures Listed(s, r) && Claim(s.procs[p].pc) != Some(r) ==> Listed(t, r)
    ensures r in Unlisted(s.procs[p].pc) ==> Listed(t, r)
  {
    if Claimed(s, r) && Claim(s.procs[p].pc) != Some(r) {
      var q :| 0 <= q < |s.procs| && Claim(s.procs[q].pc) == Some(r);
      assert Claim(t.procs[q].pc) == Some(r);
    }
    if JustMade(s, r) && r !in Unlisted(s.procs[p].pc) {
      var q :| 0 <= q < |s.procs| && r in Unlisted(s.procs[q].pc);
      assert r in Unlisted(t.procs[q].pc);
    }
    if Listed(s, r) && Claim(s.procs[p].pc) != Some(r) {
      var q :| 0 <= q < |s.lists| && r in s.lists[q];
      assert StaysOrComes(s, p, q, r) && r in t.lists[q];
    }
    if r in Unlisted(s.procs[p].pc) { assert StaysOrComes(s, p, p, r) && r in t.lists[p]; }
  }

  lemma {:induction false} RegisterList(c: Config, s: State, t: State, p: nat, q: nat)
    requires Inv(c, s) && Registers(s, t, p) && q < |s.lists|
    ensures ListOk(t, q)
  {
    assert ListOk(s, q);
    forall r | r in t.lists[q] ensures r < t.nextRow && (r in t.live || Claimed(t, r)) {
      assert StaysOrComes(s, p, q, r);
      RegisterPlaces(c, s, t, p, r);
      if r in Unlisted(s.procs[p].pc) { HiddenIsOld(c, s, p, r); }
    }
  }

  lemma {:induction false} RegisterHidden(c: Config, s: State, t: State, p: nat, q: nat, r: nat)
    requires Inv(c, s) && Registers(s, t, p) && q < |s.procs|
    ensures HiddenOk(t, q, r)
  {
    assert HiddenOk(s, q, r);
    if q != p && r in Unlisted(s.procs[q].pc) {
      forall k | 0 <= k < |t.lists| ensures r !in t.lists[k] {
        assert r in s.lists[k] ==> Listed(s, r);
        assert !StaysOrComes(s, p, k, r);
      }
    }
  }

  lemma {:induction false} RegisterRows(c: Config, s: State, t: State, p: nat)
    requires Inv(c, s) && Registers(s, t, p)
    ensures RowsOk(c, t)
  {
    forall q, r | 0 <= q < |t.procs| ensures HiddenOk(t, q, r) { RegisterHidden(c, s, t, p, q, r); }
    forall q | 0 <= q < |t.procs| ensures ClaimOk(t, q) && PendingOk(t, q) && ListOk(t, q) {
      RegisterClaim(c, s, t, p, q);
      RegisterPending(c, s, t, p, q);
      RegisterList(c, s, t, p, q);
    }
    forall r | r in t.live ensures r < t.nextRow && (Listed(t, r) || JustMade(t, r)) {
      RegisterPlaces(c, s, t, p, r);
      assert ClaimOk(s, p);
    }
    forall q | 0 <= q < |t.procs| ensures NoDup(Unlisted(t.procs[q].pc)) { assert NoDup(Unlisted(s.procs[q].pc)); }
  }

  lemma {:induction false} RegisterProc(c: Config, s: State, t: State, p: nat, q: nat)
    requires Inv(c, s) && Registers(s, t, p) && q < |s.procs|
    ensures ProcOk(c, t, q) && OpenOk(t, q)
  {
    assert ProcOk(c, s, q) && OpenOk(s, q);
    forall j | 0 <= j < |Unlisted(t.procs[q].pc)| ensures LandedRow(t.live, t.procs[q].pc, j) {
      assert LandedRow(s.live, s.procs[q].pc, j);
    }
  }

  lemma {:induction false} RegisterEffects(c: Config, s: State, t: State, p: nat)
    requires Inv(c, s) && Registers(s, t, p)
    ensures EffectsOk(t)
  {
    assert forall q :: 0 <= q < |s.procs| ==> Landing(t.procs[q].pc) == Landing(s.procs[q].pc);
    forall r ensures EffectOk(t, r) {
      assert EffectOk(s, r);
      SameLanding(s, t, r);
    }
  }

  lemma {:induction false} RegisterInv(c: Config, s: State, step: Step)
    requires Inv(c, s) && step.Register? && Enabled(c, s, step)
    ensures Inv(c, Apply(c, s, step))
  {
    var t, p := Apply(c, s, step), step.p;
    RegisterRegisters(c, s, step);
    RegisterRows(c, s, t, p);
    IdsKept(c, s, t);
    RegisterEffects(c, s, t, p);
    forall q | 0 <= q < |t.procs| ensures ProcOk(c, t, q) && OpenOk(t, q) { RegisterProc(c, s, t, p, q); }
    forall i | 0 <= i < |t.log| ensures SlotUsed(t, i) { assert SlotUsed(s, i); }
  }

  lemma {:induction false} SameLanding(s: State, t: State, r: nat)
    requires |s.procs| == |t.procs| && forall q :: 0 <= q < |s.procs| ==> Landing(t.procs[q].pc) == Landing(s.procs[q].pc)
    ensures MadeUnlogged(s, r) <==> MadeUnlogged(t, r)
    ensures StruckUnlogged(s, r) <==> StruckUnlogged(t, r)
  {
    if MadeUnlogged(s, r) { var q :| 0 <= q < |s.procs| && r in Unlogged(s.procs[q].pc); assert r in Unlogged(t.procs[q].pc); }
    if MadeUnlogged(t, r) { var q :| 0 <= q < |s.procs| && r in Unlogged(t.procs[q].pc); assert r in Unlogged(s.procs[q].pc); }
    if StruckUnlogged(s, r) { var q :| 0 <= q < |s.procs| && Struck(s.procs[q].pc) == Some(r); assert Struck(t.procs[q].pc) == Some(r); }
    if StruckUnlogged(t, r) { var q :| 0 <= q < |s.procs| && Struck(t.procs[q].pc) == Some(r); assert Struck(s.procs[q].pc) == Some(r); }
  }

  // ---------------------------------------------------------------------------
  // Commit
  // ---------------------------------------------------------------------------

  /** A commit of `a` by `p`: rows nobody has seen appear, the target goes. */
  ghost predicate Commits(s: State, t: State, p: nat, a: Action) {
    && p < |s.procs| == |t.procs| && t.lists == s.lists && t.log == s.log
    && (forall q :: 0 <= q < |s.procs| && q != p ==> t.procs[q] == s.procs[q])
    && s.procs[p].pc.Begun? && s.procs[p].pc.action == a && t.procs[p].op == s.procs[p].op
    && t.procs[p].pc.Landed? && t.procs[p].pc.action == a && t.procs[p].pc.found == []
    && t.nextRow == s.nextRow + |Ids(a)| && |t.procs[p].pc.made| == |Ids(a)|
    && (forall j :: 0 <= j < |Ids(a)| ==> t.procs[p].pc.made[j] == s.nextRow + j)
    && (forall r :: r in t.live <==> (r in s.live && TargetOf(a) != Some(r)) || s.nextRow <= r < t.nextRow)
    && (forall r :: r in t.live && r < s.nextRow ==> t.live[r] == s.live[r])
    && (forall r :: r in t.live && r >= s.nextRow ==> r < t.nextRow && t.live[r] == Ids(a)[r - s.nextRow])
    && (TargetOf(a).Some? ==> TargetOf(a).value in s.live)
  }

  lemma {:induction false} CommitCommits(c: Config, s: State, step: Step)
    requires Inv(c, s) && step.Commit? && Enabled(c, s, step)
    ensures Commits(s, Apply(c, s, step), step.p, s.procs[step.p].pc.action)
  {
    CommittingCommits(s, step.p, s.procs[step.p].pc.action);
  }

  lemma {:induction false} CommittingCommits(s: State, p: nat, a: Action)
    requires p < |s.procs| && s.procs[p].pc.Begun? && s.procs[p].pc.action == a && (forall r :: r in s.live ==> r < s.nextRow)
    requires TargetOf(a).Some? ==> TargetOf(a).value in s.live
    ensures Commits(s, Committing(s, p, a), p, a)
  {
    var t, fresh' := Committing(s, p, a), NewRows(Ids(a), s.nextRow);
    var kept := if TargetOf(a).Some? then s.live - {TargetOf(a).value} else s.live;
    assert t.live == kept + fresh';
  }

  lemma {:induction false} MadeRange(s: State, t: State, p: nat, a: Action, r: nat)
    requires Commits(s, t, p, a)
    ensures r in Unlisted(t.procs[p].pc) <==> s.nextRow <= r < t.nextRow
  {
    if s.nextRow <= r < t.nextRow { assert t.procs[p].pc.made[r - s.nextRow] == r; }
  }

  lemma {:induction false} NewId(c: Config, s: State, t: State, p: nat, a: Action, r: nat)
    requires Inv(c, s) && Commits(s, t, p, a) && r in t.live && r >= s.nextRow
    ensures s.procs[p].op + (r - s.nextRow) < Slots(c, p) && s.procs[p].op + (r - s.nextRow) < Past(t.procs[p])
    ensures t.live[r] == BusinessId(c, p, s.procs[p].op + (r - s.nextRow))
  {
    assert ProcOk(c, s, p);
  }

  lemma {:induction false} CommitLiveId(c: Config, s: State, t: State, p: nat, a: Action, r: nat)
    requires Inv(c, s) && Commits(s, t, p, a) && r in t.live
    ensures LiveId(c, t, r)
  {
    if r < s.nextRow {
      assert LiveId(c, s, r);
      var q, k :| PastSlot(c, s, q, k, s.live[r]);
      assert PastSlot(c, t, q, k, t.live[r]);
    } else {
      NewId(c, s, t, p, a, r);
      assert PastSlot(c, t, p, s.procs[p].op + (r - s.nextRow), t.live[r]);
    }
  }

  /** No slot that is past has the id of one that is not. */
  lemma {:induction false} UnusedSlot(c: Config, s: State, p: nat, slot: nat, q: nat, k: nat, id: int)
    requires p < |s.procs| && Past(s.procs[p]) <= slot < Slots(c, p) && PastSlot(c, s, q, k, id)
    ensures id != BusinessId(c, p, slot)
  {
    if id == BusinessId(c, p, slot) { BusinessIdsDiffer(c, p, slot, q, k); }
  }

  /** No live row has the id of a slot that is committing now. */
  lemma {:induction false} NewIdIsNew(c: Config, s: State, t: State, p: nat, a: Action, r: nat, u: nat)
    requires Inv(c, s) && Commits(s, t, p, a) && r in s.live && u in t.live && u >= s.nextRow
    ensures s.live[r] != t.live[u]
  {
    assert LiveId(c, s, r);
    var q, k :| PastSlot(c, s, q, k, s.live[r]);
    NewId(c, s, t, p, a, u);
    UnusedSlot(c, s, p, s.procs[p].op + (u - s.nextRow), q, k, s.live[r]);
  }

  lemma {:induction false} CommitIdUnique(c: Config, s: State, t: State, p: nat, a: Action, r: nat, u: nat)
    requires Inv(c, s) && Commits(s, t, p, a) && r in t.live && u in t.live && t.live[r] == t.live[u]
    ensures r == u
  {
    if r >= s.nextRow && u >= s.nextRow {
      NewId(c, s, t, p, a, r);
      NewId(c, s, t, p, a, u);
      BusinessIdsDiffer(c, p, s.procs[p].op + (r - s.nextRow), p, s.procs[p].op + (u - s.nextRow));
    } else if r >= s.nextRow {
      NewIdIsNew(c, s, t, p, a, u, r);
    } else if u >= s.nextRow {
      NewIdIsNew(c, s, t, p, a, r, u);
    }
  }

  lemma {:induction false} CommitIds(c: Config, s: State, t: State, p: nat, a: Action)
    requires Inv(c, s) && Commits(s, t, p, a)
    ensures IdsOk(c, t)
  {
    forall r | r in t.live ensures LiveId(c, t, r) { CommitLiveId(c, s, t, p, a, r); }
    forall r, u | r in t.live && u in t.live && t.live[r] == t.live[u] ensures r == u { CommitIdUnique(c, s, t, p, a, r, u); }
  }

  lemma {:induction false} CommitPlaces(c: Config, s: State, t: State, p: nat, a: Action, r: nat)
    requires Inv(c, s) && Commits(s, t, p, a)
    ensures Listed(t, r) == Listed(s, r) && (Claimed(s, r) ==> Claimed(t, r)) && (JustMade(s, r) ==> JustMade(t, r))
    ensures (TargetOf(a) == Some(r) ==> Claimed(t, r)) && (s.nextRow <= r < t.nextRow ==> JustMade(t, r))
  {
    MadeRange(s, t, p, a, r);
    if Claimed(s, r) { var q :| 0 <= q < |s.procs| && Claim(s.procs[q].pc) == Some(r); assert Claim(t.procs[q].pc) == Some(r); }
    if JustMade(s, r) { var q :| 0 <= q < |s.procs| && r in Unlisted(s.procs[q].pc); assert r in Unlisted(t.procs[q].pc); }
    if TargetOf(a) == Some(r) { assert Claim(t.procs[p].pc) == Some(r); }
  }

  /** A live target is listed, in the pool or by the agent itself. */
  lemma {:induction false} TargetListed(c: Config, s: State, p: nat, r: nat)
    requires Inv(c, s) && p < |s.procs| && Pending(s.procs[p].pc) == Some(r) && r in s.live
    ensures r in s.lists[0] || r in s.lists[p]
  {
    assert PendingOk(s, p);
    forall q | 0 <= q < |s.procs| ensures r !in Unlisted(s.procs[q].pc) { assert HiddenOk(s, q, r); }
    assert !JustMade(s, r);
    var k :| 0 <= k < |s.lists| && r in s.lists[k];
  }

  lemma {:induction false} CommitClaim(c: Config, s: State, t: State, p: nat, a: Action, q: nat)
    requires Inv(c, s) && Commits(s, t, p, a) && q < |s.procs|
    ensures ClaimOk(t, q)
  {
    assert ClaimOk(s, q) && PendingOk(s, p);
    if TargetOf(a).Some? { TargetListed(c, s, p, TargetOf(a).value); }
    assert forall u :: 0 <= u < |s.procs| && Claim(s.procs[u].pc).Some? ==> ClaimOk(s, u);
  }

  lemma {:induction false} CommitPending(c: Config, s: State, t: State, p: nat, a: Action, q: nat)
    requires Inv(c, s) && Commits(s, t, p, a) && q < |s.procs|
    ensures PendingOk(t, q)
  {
    assert PendingOk(s, q);
  }

  /** What is hidden already has a row id below the counter. */
  lemma {:induction false} HiddenIsOld(c: Config, s: State, q: nat, r: nat)
    requires Inv(c, s) && q < |s.procs| && r in Unlisted(s.procs[q].pc)
    ensures r < s.nextRow && r in s.live
  {
    var j :| 0 <= j < |Unlisted(s.procs[q].pc)| && Unlisted(s.procs[q].pc)[j] == r;
    assert ProcOk(c, s, q) && LandedRow(s.live, s.procs[q].pc, j);
  }

  lemma {:induction false} CommitHidden(c: Config, s: State, t: State, p: nat, a: Action, q: nat, r: nat)
    requires Inv(c, s) && Commits(s, t, p, a) && q < |s.procs|
    ensures HiddenOk(t, q, r)
  {
    CommitPlaces(c, s, t, p, a, r);
    MadeRange(s, t, p, a, r);
    if q == p {
      if s.nextRow <= r { NewIsUnknown(c, s, r); }
    } else {
      assert HiddenOk(s, q, r);
      if r in Unlisted(s.procs[q].pc) { HiddenIsOld(c, s, q, r); }
    }
  }

  lemma {:induction false} NewIsUnknown(c: Config, s: State, r: nat)
    requires Inv(c, s) && s.nextRow <= r
    ensures !Listed(s, r) && forall u :: 0 <= u < |s.procs| ==> Pending(s.procs[u].pc) != Some(r) && r !in Unlisted(s.procs[u].pc)
  {
    forall k | 0 <= k < |s.lists| ensures r !in s.lists[k] { assert ListOk(s, k); }
    forall u | 0 <= u < |s.procs| ensures Pending(s.procs[u].pc) != Some(r) && r !in Unlisted(s.procs[u].pc) {
      assert PendingOk(s, u);
      if r in Unlisted(s.procs[u].pc) { HiddenIsOld(c, s, u, r); }
    }
  }

  lemma {:induction false} CommitList(c: Config, s: State, t: State, p: nat, a: Action, q: nat)
    requires Inv(c, s) && Commits(s, t, p, a) && q < |s.lists|
    ensures ListOk(t, q)
  {
    assert ListOk(s, q);
    forall r | r in t.lists[q] ensures r < t.nextRow && (r in t.live || Claimed(t, r)) { CommitPlaces(c, s, t, p, a, r); }
  }

  lemma {:induction false} CommitRows(c: Config, s: State, t: State, p: nat, a: Action)
    requires Inv(c, s) && Commits(s, t, p, a)
    ensures RowsOk(c, t)
  {
    forall q, r | 0 <= q < |t.procs| ensures HiddenOk(t, q, r) { CommitHidden(c, s, t, p, a, q, r); }
    forall q | 0 <= q < |t.procs| ensures ClaimOk(t, q) && PendingOk(t, q) && ListOk(t, q) {
      CommitClaim(c, s, t, p, a, q);
      CommitPending(c, s, t, p, a, q);
      CommitList(c, s, t, p, a, q);
    }
    forall q | 0 <= q < |t.procs| ensures NoDup(Unlisted(t.procs[q].pc)) { assert NoDup(Unlisted(s.procs[q].pc)); }
    forall r | r in t.live ensures r < t.nextRow && (Listed(t, r) || JustMade(t, r)) { CommitPlaces(c, s, t, p, a, r); }
  }

  lemma {:induction false} CommitProc(c: Config, s: State, t: State, p: nat, a: Action, q: nat)
    requires Inv(c, s) && Commits(s, t, p, a) && q < |s.procs|
    ensures ProcOk(c, t, q) && OpenOk(t, q)
  {
    assert ProcOk(c, s, q) && OpenOk(s, q);
    var x := s.procs[q].pc;
    if q != p {
      forall j | 0 <= j < |Unlisted(x)| ensures LandedRow(t.live, x, j) { CommitSpares(c, s, t, p, a, q, j); }
    }
  }

  /** A commit leaves the rows alone that others have just made. */
  lemma {:induction false} CommitSpares(c: Config, s: State, t: State, p: nat, a: Action, q: nat, j: nat)
    requires Inv(c, s) && Commits(s, t, p, a) && q < |s.procs| && q != p && j < |Unlisted(s.procs[q].pc)|
    ensures LandedRow(t.live, s.procs[q].pc, j)
  {
    var x := s.procs[q].pc;
    assert ProcOk(c, s, q) && LandedRow(s.live, x, j) && HiddenOk(s, q, Unlisted(x)[j]);
    HiddenIsOld(c, s, q, Unlisted(x)[j]);
    assert Pending(s.procs[p].pc) != Some(Unlisted(x)[j]);
  }

  lemma {:induction false} LandingAdded(s: State, t: State, p: nat, r: nat)
    requires p < |s.procs| == |t.procs| && Landing(s.procs[p].pc).None?
    requires forall q :: 0 <= q < |s.procs| && q != p ==> t.procs[q] == s.procs[q]
    ensures MadeUnlogged(t, r) <==> MadeUnlogged(s, r) || r in Unlogged(t.procs[p].pc)
    ensures StruckUnlogged(t, r) <==> StruckUnlogged(s, r) || Struck(t.procs[p].pc) == Some(r)
  {
    if MadeUnlogged(s, r) { var q :| 0 <= q < |s.procs| && r in Unlogged(s.procs[q].pc); assert r in Unlogged(t.procs[q].pc); }
    if MadeUnlogged(t, r) {
      var q :| 0 <= q < |t.procs| && r in Unlogged(t.procs[q].pc);
      assert q != p ==> r in Unlogged(s.procs[q].pc);
    }
    if StruckUnlogged(s, r) { var q :| 0 <= q < |s.procs| && Struck(s.procs[q].pc) == Some(r); assert Struck(t.procs[q].pc) == Some(r); }
    if StruckUnlogged(t, r) {
      var q :| 0 <= q < |t.procs| && Struck(t.procs[q].pc) == Some(r);
      assert q != p ==> Struck(s.procs[q].pc) == Some(r);
    }
  }

  lemma {:induction false} CommitEffect(c: Config, s: State, t: State, p: nat, a: Action, r: nat)
    requires Inv(c, s) && Commits(s, t, p, a)
    ensures EffectOk(t, r)
  {
    assert EffectOk(s, r);
    LandingAdded(s, t, p, r);
    MadeRange(s, t, p, a, r);
    if StruckUnlogged(s, r) { var q :| 0 <= q < |s.procs| && Struck(s.procs[q].pc) == Some(r); }
  }

  lemma {:induction false} CommitEffects(c: Config, s: State, t: State, p: nat, a: Action)
    requires Inv(c, s) && Commits(s, t, p, a)
    ensures EffectsOk(t)
  {
    forall r ensures EffectOk(t, r) { CommitEffect(c, s, t, p, a, r); }
    assert PendingOk(s, p) && EffectsOk(s);
    CommitRange(s, t, p, a);
  }

  lemma {:induction false} CommitRange(s: State, t: State, p: nat, a: Action)
    requires EffectsOk(s) && Commits(s, t, p, a) && |s.procs| == |s.lists| && PendingOk(s, p)
    ensures s.nextRow <= t.nextRow && t.log == s.log
    ensures forall q, j :: 0 <= q < |t.procs| && 0 <= j < |Unlogged(t.procs[q].pc)| ==> Unlogged(t.procs[q].pc)[j] < t.nextRow
    ensures forall q :: 0 <= q < |t.procs| && Struck(t.procs[q].pc).Some? ==> Struck(t.procs[q].pc).value < t.nextRow
  {
  }

  lemma {:induction false} CommitInv(c: Config, s: State, step: Step)
    requires Inv(c, s) && step.Commit? && Enabled(c, s, step)
    ensures Inv(c, Apply(c, s, step))
  {
    var t, p, a := Apply(c, s, step), step.p, s.procs[step.p].pc.action;
    CommitCommits(c, s, step);
    CommitIds(c, s, t, p, a);
    CommitRows(c, s, t, p, a);
    CommitEffects(c, s, t, p, a);
    forall q | 0 <= q < |t.procs| ensures ProcOk(c, t, q) && OpenOk(t, q) { CommitProc(c, s, t, p, a, q); }
    forall i | 0 <= i < |t.log| ensures SlotUsed(t, i) { assert SlotUsed(s, i); }
  }

  // ---------------------------------------------------------------------------
  // Every step
  // ---------------------------------------------------------------------------

  lemma InitInv(c: Config)
    ensures Inv(c, Init(c))
  {
  }

  lemma {:induction false} StepInv(c: Config, s: State, step: Step)
    requires Inv(c, s) && Enabled(c, s, step)
    ensures Inv(c, Apply(c, s, step))
  {
    match step
    case Choose(_, _, _) => ChooseInv(c, s, step);
    case PrintStart(_) => PrintStartInv(c, s, step);
    case Begin(_) => BeginInv(c, s, step);
    case Commit(_) => CommitInv(c, s, step);
    case Conflict(_) => FailedInv(c, s, step);
    case Refuse(_) => FailedInv(c, s, step);
    case Lookup(_, _) => LookupInv(c, s, step);
    case LookupPanic(_) => NoLookupPanic(c, s, step);
    case Settle(_) => SettleInv(c, s, step);
    case Register(_) => RegisterInv(c, s, step);
    case PrintDone(_) => PrintDoneInv(c, s, step);
  }
}
