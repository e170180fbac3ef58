/**
 Every step keeps `PendingOk`, `NoRace` and `NearestOk`: a pair is claimed at most once,
 and what ranks first in a list is never pruned from it.
 */
module BuildClaims {
  import opened Common
  import opened Build
  import opened BuildInvariants
  import opened BuildCore

  /** The inserts' claims so far are the same in both states. */
  ghost predicate SameEver(s: State, s': State) {
    forall o, lc :: HasLayer(s', o, lc) ==>
      if HasLayer(s, o, lc) then ListAt(s', o, lc).ever == ListAt(s, o, lc).ever else ListAt(s', o, lc).ever == map[]
  }

  lemma PendingSameEver(s: State, s': State, t: Row, pc: Pc)
    requires SameEver(s, s') && pc.Linking? && PendingAt(s, t, pc)
    ensures PendingAt(s', t, pc)
  {
  }

  lemma PendingKept(s: State, s': State, t: Row)
    requires PendingOk(s) && SameEver(s, s') && Others(s, s', t)
    requires s'.pcs[t].Linking? ==> PendingAt(s', t, s'.pcs[t])
    ensures PendingOk(s')
  {
    forall u | u in s'.pcs && s'.pcs[u].Linking? ensures PendingAt(s', u, s'.pcs[u]) {
      if u != t { PendingSameEver(s, s', u, s.pcs[u]); }
    }
  }

  /** `t` is not linking, or is still linking what it was linking before. */
  ghost predicate SameChoice(s: State, s': State, t: Row) {
    t in s'.pcs && s'.pcs[t].Linking? ==>
      t in s.pcs && s.pcs[t].Linking? && s.pcs[t].lc == s'.pcs[t].lc && s.pcs[t].chosen == s'.pcs[t].chosen
  }

  lemma NoRaceKept(s: State, s': State, t: Row)
    requires NoRace(s) && Others(s, s', t) && SameChoice(s, s', t)
    ensures NoRace(s')
  {
  }

  // ---------------------------------------------------------------------------
  // Entering a layer's linking phase
  // ---------------------------------------------------------------------------

  /** Nobody has linked to a row that is still searching the layer, nor has it linked to anybody. */
  lemma NotSearchedUnclaimed(s: State, t: Row, x: Row, lc: nat)
    requires EdgesOk(s) && !Linkable(s, t, lc)
    ensures Unclaimed(s, x, t, lc) && Unclaimed(s, t, x, lc)
  {
  }

  lemma FreshPending(s: State, t: Row, e: Row, lc: nat, chosen: seq<Row>)
    requires EdgesOk(s) && !Linkable(s, t, lc)
    ensures PendingAt(s, t, Linking(e, lc, chosen, 0, false, 0, Claim(0)))
  {
    forall i | 0 <= i < |chosen| ensures Unclaimed(s, chosen[i], t, lc) && Unclaimed(s, t, chosen[i], lc) {
      NotSearchedUnclaimed(s, t, chosen[i], lc);
    }
  }

  lemma NoRaceFresh(s: State, s': State, t: Row)
    requires NoRace(s) && Others(s, s', t) && s'.pcs[t].Linking?
    requires forall u :: u in s.pcs && s.pcs[u].Linking? && s.pcs[u].lc == s'.pcs[t].lc ==> t !in s.pcs[u].chosen
    requires t !in s'.pcs[t].chosen
    ensures NoRace(s')
  {
  }

  lemma PickPending(c: Config, s: State, t: Row)
    requires Core(c, s) && PendingOk(s) && NoRace(s) && CanPick(s, t)
    ensures PendingOk(DoPick(c, s, t)) && NoRace(DoPick(c, s, t))
  {
    var s' := DoPick(c, s, t);
    var pc' := PickPc(c, s, t);
    assert SameEver(s, s') && Others(s, s', t);
    if pc'.Linking? {
      PickFresh(c, s, t);
      FreshPending(s, t, pc'.entry, pc'.lc, pc'.chosen);
      NotChosenYet(c, s, t, pc'.lc);
      PendingSameEver(s, s', t, pc');
      NoRaceFresh(s, s', t);
    } else {
      NoRaceKept(s, s', t);
    }
    PendingKept(s, s', t);
  }

  lemma PickFresh(c: Config, s: State, t: Row)
    requires Core(c, s) && CanPick(s, t) && PickPc(c, s, t).Linking?
    ensures var pc := PickPc(c, s, t);
      && pc == Linking(pc.entry, pc.lc, pc.chosen, 0, false, 0, Claim(0))
      && !Linkable(s, t, pc.lc) && t !in pc.chosen
  {
    var pc := s.pcs[t];
    assert PcOk(c, s, t, pc);
    ChosenFromFound(c, t, pc.found);
    assert !Linkable(s, t, pc.lc);
  }

  /** Nobody linking the layer has chosen a row that is still searching it. */
  lemma NotChosenYet(c: Config, s: State, t: Row, lc: nat)
    requires Core(c, s) && !Linkable(s, t, lc)
    ensures forall u :: u in s.pcs && s.pcs[u].Linking? && s.pcs[u].lc == lc ==> t !in s.pcs[u].chosen
  {
    forall u | u in s.pcs && s.pcs[u].Linking? && s.pcs[u].lc == lc ensures t !in s.pcs[u].chosen {
      assert PcOk(c, s, u, s.pcs[u]);
    }
  }

  // ---------------------------------------------------------------------------
  // Steps that stay within a linking phase
  // ---------------------------------------------------------------------------

  lemma AfterClaimPending(c: Config, s: State, t: Row, pc: Pc)
    requires pc.Linking? && LinkOk(c, s, t, pc) && pc.j < |pc.chosen| && PendingAt(s, t, pc)
    ensures PendingAt(s, t, AfterClaim(pc))
  {
  }

  lemma NewOpPending(s: State, t: Row, pc: Pc, attempt: nat, op': Op)
    requires pc.Linking? && PendingAt(s, t, pc)
    requires pc.op.Claim? || !pc.op.claimed || (!op'.Claim? && op'.claimed)
    ensures PendingAt(s, t, pc.(attempt := attempt, op := op'))
  {
  }

  lemma JudgePending(c: Config, s: State, t: Row, pc: Pc)
    requires c.alpha > 0.0 && pc.Linking? && LinkOk(c, s, t, pc) && pc.j < |pc.chosen| && pc.op.Scan? && PendingAt(s, t, pc)
    ensures var pc' := Judge(c, t, pc);
      pc'.Linking? ==> PendingAt(s, t, pc') && pc'.chosen == pc.chosen && pc'.lc == pc.lc
  {
    var op := pc.op;
    if |op.snap| <= Capacity(c, pc.lc) {
      if op.claimed || Claimed(t, pc) in op.snap {
        AfterClaimPending(c, s, t, pc);
      } else {
        NewOpPending(s, t, pc, pc.attempt + 1, Claim(0));
      }
    } else {
      NewOpPending(s, t, pc, pc.attempt, Clear(op.round, op.claimed, 0, ToRemove(c, Owner(t, pc), pc.lc, op.snap)));
    }
  }

  lemma ScanPendingAt(c: Config, s: State, t: Row)
    requires Core(c, s) && PendingOk(s) && CanScan(s, t)
    ensures var pc' := ScanPc(c, s, t);
      pc'.Linking? ==> PendingAt(s, t, pc') && pc'.chosen == s.pcs[t].chosen && pc'.lc == s.pcs[t].lc
  {
    var pc := s.pcs[t];
    AtLinkOk(c, s, t);
    assert PendingAt(s, t, pc);
    if pc.op.i < |Target(s, t).slots| {
      NewOpPending(s, t, pc, pc.attempt, ScanPc(c, s, t).op);
    } else {
      JudgePending(c, s, t, pc);
    }
  }

  lemma ScanPending(c: Config, s: State, t: Row)
    requires Core(c, s) && PendingOk(s) && NoRace(s) && CanScan(s, t)
    ensures PendingOk(DoScan(c, s, t)) && NoRace(DoScan(c, s, t))
  {
    var s' := DoScan(c, s, t);
    ScanPendingAt(c, s, t);
    assert SameEver(s, s') && Others(s, s', t);
    if s'.pcs[t].Linking? { PendingSameEver(s, s', t, s'.pcs[t]); }
    PendingKept(s, s', t);
    NoRaceKept(s, s', t);
  }

  /** The claim flag of the operation in progress, if it is past claiming. */
  ghost predicate SameClaim(op: Op, op': Op) {
    if op.Claim? then op'.Claim? || !op'.claimed else !op'.Claim? && op'.claimed == op.claimed
  }

  lemma OpPending(s: State, s': State, t: Row, op': Op)
    requires PendingOk(s) && NoRace(s) && AtLink(s, t) && SameEver(s, s') && Others(s, s', t)
    requires s'.pcs[t] == s.pcs[t].(op := op') && SameClaim(s.pcs[t].op, op')
    ensures PendingOk(s') && NoRace(s')
  {
    assert PendingAt(s, t, s'.pcs[t]);
    PendingSameEver(s, s', t, s'.pcs[t]);
    PendingKept(s, s', t);
    NoRaceKept(s, s', t);
  }

  lemma ClearPending(s: State, t: Row)
    requires PendingOk(s) && NoRace(s) && CanClear(s, t)
    ensures PendingOk(DoClear(s, t)) && NoRace(DoClear(s, t))
  {
    var s' := DoClear(s, t);
    var pc' := ClearPc(s, t);
    assert SameEver(s, s');
    if pc'.Linking? {
      OpPending(s, s', t, pc'.op);
    } else {
      PendingKept(s, s', t);
      NoRaceKept(s, s', t);
    }
  }

  lemma ClaimMissPending(s: State, t: Row)
    requires PendingOk(s) && NoRace(s) && CanClaim(s, t) && !ClaimSucceeds(s, t)
    ensures PendingOk(DoClaim(s, t)) && NoRace(DoClaim(s, t))
  {
    ClaimMissIsLocal(s, t);
    OpPending(s, DoClaim(s, t), t, MissedOp(s.pcs[t].op.i, |Target(s, t).slots|));
  }

  lemma CasSameEver(s: State, t: Row)
    requires CanCas(s, t)
    ensures SameEver(s, DoCas(s, t))
  {
    if CasHits(s, t) {
      CasIsListStep(s, t);
      var l := Target(s, t);
      ListStepFrame(s, DoCas(s, t), t, l.(slots := l.slots[s.pcs[t].op.i := None]), AfterCas(s.pcs[t].op));
    }
  }

  lemma CasPending(s: State, t: Row)
    requires PendingOk(s) && NoRace(s) && CanCas(s, t)
    ensures PendingOk(DoCas(s, t)) && NoRace(DoCas(s, t))
  {
    CasSameEver(s, t);
    OpPending(s, DoCas(s, t), t, AfterCas(s.pcs[t].op));
  }

  // ---------------------------------------------------------------------------
  // The claim itself
  // ---------------------------------------------------------------------------

  /** Exactly the pair (list of `o` at `lc`, `id`) was claimed. */
  ghost predicate OneClaim(s: State, s': State, o: Row, id: Row, lc: nat) {
    forall u, x, l :: Unclaimed(s, u, x, l) && !(u == o && x == id && l == lc) ==> Unclaimed(s', u, x, l)
  }

  lemma ClaimOthersPending(c: Config, s: State, s': State, t: Row, u: Row)
    requires Core(c, s) && PendingOk(s) && NoRace(s) && AtLink(s, t)
    requires OneClaim(s, s', Owner(t, s.pcs[t]), Claimed(t, s.pcs[t]), s.pcs[t].lc)
    requires u in s.pcs && u != t && s.pcs[u].Linking?
    ensures PendingAt(s', u, s.pcs[u])
  {
    var pc := s.pcs[t];
    var pu := s.pcs[u];
    AtLinkOk(c, s, t);
    assert PcOk(c, s, u, pu);
    if pu.lc == pc.lc {
      assert pc.chosen[pc.j] == u ==> t !in pu.chosen by { assert pc.chosen[pc.j] in pc.chosen; }
    }
    assert forall i :: 0 <= i < |pu.chosen| ==> pu.chosen[i] in pu.chosen;
    assert PendingAt(s, u, pu);
  }

  lemma ClaimOwnPending(c: Config, s: State, s': State, t: Row)
    requires Core(c, s) && PendingOk(s) && AtLink(s, t)
    requires OneClaim(s, s', Owner(t, s.pcs[t]), Claimed(t, s.pcs[t]), s.pcs[t].lc)
    ensures PendingAt(s', t, s.pcs[t].(op := Scan(1, true, 0, [])))
  {
    AtLinkOk(c, s, t);
    assert PendingAt(s, t, s.pcs[t]);
  }

  lemma ClaimHitPending(c: Config, s: State, t: Row)
    requires Core(c, s) && PendingOk(s) && NoRace(s) && CanClaim(s, t) && ClaimSucceeds(s, t)
    ensures PendingOk(DoClaim(s, t)) && NoRace(DoClaim(s, t))
  {
    var s' := DoClaim(s, t);
    var pc := s.pcs[t];
    AtLinkOk(c, s, t);
    assert PendingAt(s, t, pc);
    ClaimIsListStep(s, t);
    ListStepFrame(s, s', t, ClaimedList(s, t), Scan(1, true, 0, []));
    assert OneClaim(s, s', Owner(t, pc), Claimed(t, pc), pc.lc);
    ClaimOwnPending(c, s, s', t);
    forall u | u in s'.pcs && s'.pcs[u].Linking? ensures PendingAt(s', u, s'.pcs[u]) {
      if u != t { ClaimOthersPending(c, s, s', t, u); }
    }
    NoRaceKept(s, s', t);
  }

  // ---------------------------------------------------------------------------
  // Every step
  // ---------------------------------------------------------------------------

  lemma NotLinkingPending(s: State, s': State, t: Row)
    requires PendingOk(s) && NoRace(s) && SameLists(s, s') && Others(s, s', t) && !s'.pcs[t].Linking?
    ensures PendingOk(s') && NoRace(s')
  {
    assert SameEver(s, s');
    PendingKept(s, s', t);
    NoRaceKept(s, s', t);
  }

  /** The steps outside the linking phase, apart from deletions. */
  predicate OutsideLinking(step: Step) {
    !step.Pick? && !step.LinkSkip? && !step.ClaimSlot? && !step.ScanSlot? && !step.ClearSlot? && !step.CasSlot? && !step.Delete?
  }

  /** A thread that waits in vain changes nothing at all. */
  lemma OutsideFrame(c: Config, s: State, step: Step)
    requires Core(c, s) && Enabled(c, s, step) && OutsideLinking(step)
    ensures var s' := Apply(c, s, step);
      s' == s || (SameLists(s, s') && Others(s, s', step.t) && !s'.pcs[step.t].Linking?)
  {
    if step.Insert? { InsertGrows(c, s, step.t, step.level); } else { OutsideNodes(c, s, step); }
  }

  /** Outside the linking phase no list changes. */
  lemma OutsideNodes(c: Config, s: State, step: Step)
    requires ValidConfig(c) && Enabled(c, s, step) && OutsideLinking(step) && !step.Insert?
    ensures var s' := Apply(c, s, step);
      s' == s || (SameLists(s, s') && Others(s, s', step.t) && !s'.pcs[step.t].Linking?)
  {
  }

  /** Within the linking phase only a successful compare-exchange changes a list. */
  lemma LinkingFrame(c: Config, s: State, step: Step)
    requires ValidConfig(c) && Enabled(c, s, step) && !OutsideLinking(step)
    requires step.ClaimSlot? ==> !ClaimSucceeds(s, step.t)
    requires step.CasSlot? ==> !CasHits(s, step.t)
    ensures Apply(c, s, step).nodes == s.nodes && SameLists(s, Apply(c, s, step))
    ensures !step.Delete? ==> Others(s, Apply(c, s, step), step.t) && step.t in s.pcs && Apply(c, s, step).deleted == s.deleted
  {
  }

  lemma PendingStep(c: Config, s: State, step: Step)
    requires Core(c, s) && PendingOk(s) && NoRace(s) && Enabled(c, s, step)
    ensures PendingOk(Apply(c, s, step)) && NoRace(Apply(c, s, step))
  {
    var s' := Apply(c, s, step);
    if OutsideLinking(step) {
      OutsideFrame(c, s, step);
      if s' != s { NotLinkingPending(s, s', step.t); }
    } else {
      InsidePending(c, s, step);
    }
  }

  lemma InsidePending(c: Config, s: State, step: Step)
    requires Core(c, s) && PendingOk(s) && NoRace(s) && Enabled(c, s, step) && !OutsideLinking(step)
    ensures PendingOk(Apply(c, s, step)) && NoRace(Apply(c, s, step))
  {
    match step
    case Pick(t) => PickPending(c, s, t);
    case LinkSkip(t) => NeverSkips(c, s, t);
    case ClaimSlot(t) => if ClaimSucceeds(s, t) { ClaimHitPending(c, s, t); } else { ClaimMissPending(s, t); }
    case ScanSlot(t) => ScanPending(c, s, t);
    case ClearSlot(t) => ClearPending(s, t);
    case CasSlot(t) => CasPending(s, t);
    case Delete(x) => DeletePending(s, x);
  }

  lemma DeletePending(s: State, x: Row)
    requires PendingOk(s) && NoRace(s)
    ensures PendingOk(DoDelete(s, x)) && NoRace(DoDelete(s, x))
  {
    var s' := DoDelete(s, x);
    assert SameEver(s, s');
    forall u | u in s'.pcs && s'.pcs[u].Linking? ensures PendingAt(s', u, s'.pcs[u]) {
      PendingSameEver(s, s', u, s.pcs[u]);
    }
  }

  // ---------------------------------------------------------------------------
  // The nearest is never pruned
  // ---------------------------------------------------------------------------

  lemma NearestClaim(c: Config, o: Row, l: List, i: nat, id: Row)
    requires ListOk(l) && NearestAt(c, o, l) && i < |l.slots| && l.slots[i].None? && id !in l.ever
    ensures NearestAt(c, o, List(l.slots[i := Some(id)], l.ever[id := i]))
  {
    var l' := List(l.slots[i := Some(id)], l.ever[id := i]);
    forall b | b in l'.ever && (forall x :: x in l'.ever ==> !Ranks(c, o, l', x, b))
      ensures l'.ever[b] < |l'.slots| && l'.slots[l'.ever[b]] == Some(b)
    {
      if b != id {
        forall x | x in l.ever ensures !Ranks(c, o, l, x, b) {
          assert x in l'.ever && !Ranks(c, o, l', x, b);
        }
      }
    }
  }

  lemma NearestClear(c: Config, o: Row, l: List, i: nat, rem: set<Row>, cur: Row)
    requires ListOk(l) && NearestAt(c, o, l) && RemOk(c, o, l, rem) && cur in rem
    requires i < |l.slots| && l.slots[i] == Some(cur)
    ensures NearestAt(c, o, l.(slots := l.slots[i := None]))
  {
    var l' := l.(slots := l.slots[i := None]);
    forall b | b in l'.ever && (forall x :: x in l'.ever ==> !Ranks(c, o, l', x, b))
      ensures l'.ever[b] < |l'.slots| && l'.slots[l'.ever[b]] == Some(b)
    {
      forall x | x in l.ever ensures !Ranks(c, o, l, x, b) {
        assert x in l'.ever && !Ranks(c, o, l', x, b);
      }
      assert b != cur;
    }
  }

  lemma NearestListStep(c: Config, s: State, s': State, t: Row, l': List, op': Op)
    requires NearestOk(c, s) && ListStep(s, s', t, l', op') && NearestAt(c, Owner(t, s.pcs[t]), l')
    ensures NearestOk(c, s')
  {
    ListStepFrame(s, s', t, l', op');
  }

  lemma NearestSameLists(c: Config, s: State, s': State)
    requires NearestOk(c, s) && SameLists(s, s')
    ensures NearestOk(c, s')
  {
  }

  lemma NearestStep(c: Config, s: State, step: Step)
    requires Core(c, s) && PendingOk(s) && NearestOk(c, s) && Enabled(c, s, step)
    ensures NearestOk(c, Apply(c, s, step))
  {
    var s' := Apply(c, s, step);
    if OutsideLinking(step) {
      OutsideFrame(c, s, step);
      if s' != s { NearestSameLists(c, s, s'); }
    } else if step.ClaimSlot? && ClaimSucceeds(s, step.t) {
      NearestClaimStep(c, s, step.t);
    } else if step.CasSlot? && CasHits(s, step.t) {
      NearestCasStep(c, s, step.t);
    } else {
      LinkingFrame(c, s, step);
      NearestSameLists(c, s, s');
    }
  }

  lemma NearestClaimStep(c: Config, s: State, t: Row)
    requires Core(c, s) && PendingOk(s) && NearestOk(c, s) && CanClaim(s, t) && ClaimSucceeds(s, t)
    ensures NearestOk(c, DoClaim(s, t))
  {
    var pc := s.pcs[t];
    AtLinkOk(c, s, t);
    assert PendingAt(s, t, pc);
    ClaimIsListStep(s, t);
    NearestClaim(c, Owner(t, pc), Target(s, t), pc.op.i, Claimed(t, pc));
    NearestListStep(c, s, DoClaim(s, t), t, ClaimedList(s, t), Scan(1, true, 0, []));
  }

  lemma NearestCasStep(c: Config, s: State, t: Row)
    requires Core(c, s) && NearestOk(c, s) && CanCas(s, t) && CasHits(s, t)
    ensures NearestOk(c, DoCas(s, t))
  {
    var pc := s.pcs[t];
    var l := Target(s, t);
    AtLinkOk(c, s, t);
    CasIsListStep(s, t);
    NearestClear(c, Owner(t, pc), l, pc.op.i, pc.op.rem, pc.op.cur);
    NearestListStep(c, s, DoCas(s, t), t, l.(slots := l.slots[pc.op.i := None]), AfterCas(pc.op));
  }
}
