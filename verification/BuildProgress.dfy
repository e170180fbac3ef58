/**
 Every step keeps `WatchedOk` and `ConnectedOk`: an over-full list is always being pruned
 by somebody, and nobody finishes unconnected.
 */
module BuildProgress {
  import opened Common
  import opened Heuristic
  import opened Build
  import opened BuildInvariants
  import opened BuildCore
  import opened BuildClaims

  // ---------------------------------------------------------------------------
  // Over-full lists
  // ---------------------------------------------------------------------------

  /** Insert `t` keeps watching every list that is still full. */
  ghost predicate KeepsWatch(s: State, s': State, t: Row) {
    forall o, lc :: HasLayer(s', o, lc) && Full(ListAt(s', o, lc)) && t in s.pcs && Watching(t, s.pcs[t], o, lc) ==>
      t in s'.pcs && Watching(t, s'.pcs[t], o, lc)
  }

  /** A list full now was full before, unless `t` filled it just now and watches it. */
  ghost predicate FilledBy(s: State, s': State, t: Row) {
    forall o, lc :: HasLayer(s', o, lc) && Full(ListAt(s', o, lc)) ==>
      || (HasLayer(s, o, lc) && Full(ListAt(s, o, lc)))
      || (t in s'.pcs && Watching(t, s'.pcs[t], o, lc))
  }

  lemma WatchedKept(s: State, s': State, t: Row)
    requires WatchedOk(s) && Others(s, s', t) && FilledBy(s, s', t)
    requires forall x :: x in s.pcs ==> x in s'.pcs
    requires AllOk(s') ==> AllOk(s) && KeepsWatch(s, s', t)
    ensures WatchedOk(s')
  {
    forall o, lc | HasLayer(s', o, lc) && Full(ListAt(s', o, lc)) && AllOk(s')
      ensures exists u :: u in s'.pcs && Watching(u, s'.pcs[u], o, lc)
    {
      if !(t in s'.pcs && Watching(t, s'.pcs[t], o, lc)) {
        var u :| u in s.pcs && Watching(u, s.pcs[u], o, lc);
        assert u in s'.pcs && Watching(u, s'.pcs[u], o, lc);
      }
    }
  }

  lemma NewListsNotFull(c: Config, lc: nat)
    ensures !Full(NewList(c, lc))
  {
    assert NewList(c, lc).slots[0].None?;
  }

  lemma FilledSameLists(s: State, s': State, t: Row)
    requires SameLists(s, s')
    requires forall o, lc :: HasLayer(s', o, lc) && !HasLayer(s, o, lc) ==> !Full(ListAt(s', o, lc))
    ensures FilledBy(s, s', t)
  {
  }

  /** A list that exists after a step outside the linking phase is old or empty. */
  lemma OutsideNewLists(c: Config, s: State, step: Step)
    requires Core(c, s) && Enabled(c, s, step) && OutsideLinking(step)
    ensures var s' := Apply(c, s, step);
      forall o, lc :: HasLayer(s', o, lc) && !HasLayer(s, o, lc) ==> !Full(ListAt(s', o, lc))
  {
    if step.Insert? {
      InsertFrame(c, s, step.t, step.level);
      forall lc: nat ensures !Full(NewList(c, lc)) { NewListsNotFull(c, lc); }
    }
  }

  /** An insert that failed takes no further step. */
  lemma FailedStays(c: Config, s: State, step: Step)
    requires ValidConfig(c) && Enabled(c, s, step)
    ensures forall x :: x in s.pcs && s.pcs[x].Failed? && s.pcs.Keys <= s.nodes.Keys ==>
      x in Apply(c, s, step).pcs && Apply(c, s, step).pcs[x].Failed?
  {
  }

  lemma OutsideWatched(c: Config, s: State, step: Step)
    requires Core(c, s) && WatchedOk(s) && Enabled(c, s, step) && OutsideLinking(step)
    ensures WatchedOk(Apply(c, s, step))
  {
    var s' := Apply(c, s, step);
    OutsideFrame(c, s, step);
    if s' != s {
      OutsideNewLists(c, s, step);
      FilledSameLists(s, s', step.t);
      FailedStays(c, s, step);
      assert step.t in s.pcs ==> forall o, lc :: !Watching(step.t, s.pcs[step.t], o, lc);
      WatchedKept(s, s', step.t);
    }
  }

  lemma PickWatched(c: Config, s: State, t: Row)
    requires Core(c, s) && WatchedOk(s) && CanPick(s, t)
    ensures WatchedOk(DoPick(c, s, t))
  {
    var s' := DoPick(c, s, t);
    FilledSameLists(s, s', t);
    FailedStays(c, s, Pick(t));
    WatchedKept(s, s', t);
  }

  /** Scanning a full list, an insert sees every slot taken and then prunes. */
  lemma ScanKeepsWatch(c: Config, s: State, t: Row)
    requires Core(c, s) && CanScan(s, t)
    ensures ScanPc(c, s, t).Failed? || KeepsWatch(s, DoScan(c, s, t), t)
  {
    var pc := s.pcs[t];
    AtLinkOk(c, s, t);
    if Full(Target(s, t)) && |pc.op.snap| == pc.op.i && !ScanPc(c, s, t).Failed? {
      assert Watching(t, ScanPc(c, s, t), Owner(t, pc), pc.lc);
    }
  }

  lemma LocalWatched(c: Config, s: State, step: Step)
    requires Core(c, s) && WatchedOk(s) && Enabled(c, s, step) && !OutsideLinking(step) && !step.Delete?
    requires step.ClaimSlot? ==> !ClaimSucceeds(s, step.t)
    requires step.CasSlot? ==> !CasHits(s, step.t)
    requires Apply(c, s, step).pcs[step.t].Failed? || KeepsWatch(s, Apply(c, s, step), step.t)
    ensures WatchedOk(Apply(c, s, step))
  {
    var s' := Apply(c, s, step);
    LinkingFrame(c, s, step);
    FilledSameLists(s, s', step.t);
    FailedStays(c, s, step);
    WatchedKept(s, s', step.t);
  }

  lemma ClaimHitWatched(c: Config, s: State, t: Row)
    requires Core(c, s) && PendingOk(s) && WatchedOk(s) && CanClaim(s, t) && ClaimSucceeds(s, t)
    ensures WatchedOk(DoClaim(s, t))
  {
    var s' := DoClaim(s, t);
    AtLinkOk(c, s, t);
    assert PendingAt(s, t, s.pcs[t]);
    ClaimIsListStep(s, t);
    ListStepFrame(s, s', t, ClaimedList(s, t), Scan(1, true, 0, []));
    assert Watching(t, s'.pcs[t], Owner(t, s.pcs[t]), s.pcs[t].lc);
    FailedStays(c, s, ClaimSlot(t));
    WatchedKept(s, s', t);
  }

  lemma CasHitWatched(c: Config, s: State, t: Row)
    requires Core(c, s) && WatchedOk(s) && CanCas(s, t) && CasHits(s, t)
    ensures WatchedOk(DoCas(s, t))
  {
    var s' := DoCas(s, t);
    var l := Target(s, t);
    var l' := l.(slots := l.slots[s.pcs[t].op.i := None]);
    CasIsListStep(s, t);
    ListStepFrame(s, s', t, l', AfterCas(s.pcs[t].op));
    assert l'.slots[s.pcs[t].op.i].None?;
    assert !Full(l');
    FailedStays(c, s, CasSlot(t));
    WatchedKept(s, s', t);
  }

  lemma ClearWatched(c: Config, s: State, t: Row)
    requires Core(c, s) && WatchedOk(s) && CanClear(s, t)
    ensures WatchedOk(DoClear(s, t))
  {
    ClearKeepsWatch(s, t);
    LocalWatched(c, s, ClearSlot(t));
  }

  lemma ClearKeepsWatch(s: State, t: Row)
    requires CanClear(s, t)
    ensures ClearPc(s, t).Failed? || KeepsWatch(s, DoClear(s, t), t)
  {
  }

  lemma ClaimMissWatched(c: Config, s: State, t: Row)
    requires Core(c, s) && WatchedOk(s) && CanClaim(s, t) && !ClaimSucceeds(s, t)
    ensures WatchedOk(DoClaim(s, t))
  {
    assert KeepsWatch(s, DoClaim(s, t), t);
    LocalWatched(c, s, ClaimSlot(t));
  }

  lemma CasMissWatched(c: Config, s: State, t: Row)
    requires Core(c, s) && WatchedOk(s) && CanCas(s, t) && !CasHits(s, t)
    ensures WatchedOk(DoCas(s, t))
  {
    assert KeepsWatch(s, DoCas(s, t), t);
    LocalWatched(c, s, CasSlot(t));
  }

  lemma DeleteWatched(s: State, x: Row)
    requires WatchedOk(s)
    ensures WatchedOk(DoDelete(s, x))
  {
    var s' := DoDelete(s, x);
    forall o, lc | HasLayer(s', o, lc) && Full(ListAt(s', o, lc)) && AllOk(s')
      ensures exists t :: t in s'.pcs && Watching(t, s'.pcs[t], o, lc)
    {
      assert HasLayer(s, o, lc) && Full(ListAt(s, o, lc)) && AllOk(s);
    }
  }

  lemma WatchedStep(c: Config, s: State, step: Step)
    requires Core(c, s) && PendingOk(s) && WatchedOk(s) && Enabled(c, s, step)
    ensures WatchedOk(Apply(c, s, step))
  {
    if OutsideLinking(step) {
      OutsideWatched(c, s, step);
    } else {
      match step
      case Pick(t) => PickWatched(c, s, t);
      case LinkSkip(t) => NeverSkips(c, s, t);
      case ClaimSlot(t) => if ClaimSucceeds(s, t) { ClaimHitWatched(c, s, t); } else { ClaimMissWatched(c, s, t); }
      case ScanSlot(t) => ScanKeepsWatch(c, s, t); LocalWatched(c, s, step);
      case ClearSlot(t) => ClearWatched(c, s, t);
      case CasSlot(t) => if CasHits(s, t) { CasHitWatched(c, s, t); } else { CasMissWatched(c, s, t); }
      case Delete(x) => DeleteWatched(s, x);
    }
  }

  // ---------------------------------------------------------------------------
  // Nobody is stranded
  // ---------------------------------------------------------------------------

  lemma TouchedGrows(s: State, s': State, x: Row)
    requires Grows(s, s') && Touched(s, x)
    ensures Touched(s', x)
  {
    var y :| y in ListAt(s, x, 0).ever;
    assert y in ListAt(s', x, 0).ever;
  }

  lemma LinkedGrows(s: State, s': State, t: Row, pc: Pc)
    requires Grows(s, s') && s'.deleted == s.deleted && LinkedAt(s, t, pc)
    ensures LinkedAt(s', t, pc)
  {
    if Touched(s, t) { TouchedGrows(s, s', t); }
    if pc.Linking? && pc.chosen != [] && Touched(s, pc.chosen[0]) { TouchedGrows(s, s', pc.chosen[0]); }
  }

  /** The pair just settled is recorded in the list it was claimed into. */
  lemma SettledTouches(c: Config, s: State, t: Row)
    requires Core(c, s) && CanScan(s, t) && s.pcs[t].lc == 0
    requires s.pcs[t].op.claimed || Claimed(t, s.pcs[t]) in s.pcs[t].op.snap
    ensures Touched(s, Owner(t, s.pcs[t]))
  {
    AtLinkOk(c, s, t);
    assert Claimed(t, s.pcs[t]) in Target(s, t).ever;
  }

  lemma ScanLinked(c: Config, s: State, t: Row)
    requires Core(c, s) && CanScan(s, t) && LinkedAt(s, t, s.pcs[t])
    ensures LinkedAt(s, t, ScanPc(c, s, t))
  {
    var pc := s.pcs[t];
    if pc.op.i >= |Target(s, t).slots| && pc.lc == 0 && (pc.op.claimed || Claimed(t, pc) in pc.op.snap) {
      SettledTouches(c, s, t);
    }
  }

  lemma PickLinked(c: Config, s: State, t: Row)
    requires Core(c, s) && CanPick(s, t) && LinkedAt(s, t, s.pcs[t]) && s.deleted == {}
    ensures LinkedAt(s, t, PickPc(c, s, t))
  {
    assert PcOk(c, s, t, s.pcs[t]);
    ChosenFromFound(c, t, s.pcs[t].found);
  }

  /** Steps inside a list operation: the insert's choice and its place in it stay the same. */
  lemma OpLinked(c: Config, s: State, step: Step)
    requires ValidConfig(c) && Enabled(c, s, step) && (step.ClaimSlot? || step.ClearSlot? || step.CasSlot?)
    requires LinkedAt(s, step.t, s.pcs[step.t])
    ensures LinkedAt(s, step.t, Apply(c, s, step).pcs[step.t])
  {
  }

  lemma OutsideLinked(c: Config, s: State, step: Step)
    requires ValidConfig(c) && Enabled(c, s, step) && OutsideLinking(step) && !step.Insert?
    requires LinkedAt(s, step.t, s.pcs[step.t]) && s.deleted == {}
    requires step.PublishFirst? ==> s.claimer == Some(step.t)
    ensures LinkedAt(s, step.t, Apply(c, s, step).pcs[step.t])
  {
  }

  /** The mover's own obligations, judged in the state it moves from. */
  lemma MoverLinked(c: Config, s: State, step: Step)
    requires Core(c, s) && Enabled(c, s, step) && !step.Delete? && !step.Insert?
    requires LinkedAt(s, step.t, s.pcs[step.t]) && s.deleted == {}
    ensures LinkedAt(s, step.t, Apply(c, s, step).pcs[step.t])
  {
    if OutsideLinking(step) {
      if step.PublishFirst? { assert PcOk(c, s, step.t, s.pcs[step.t]); }
      OutsideLinked(c, s, step);
    } else {
      match step
      case Pick(t) => PickLinked(c, s, t);
      case LinkSkip(t) => NeverSkips(c, s, t);
      case ScanSlot(t) => ScanLinked(c, s, t);
      case _ => OpLinked(c, s, step);
    }
  }

  ghost predicate AllLinked(s: State) {
    forall t :: t in s.pcs ==> LinkedAt(s, t, s.pcs[t])
  }

  lemma MoverOthers(c: Config, s: State, step: Step)
    requires ValidConfig(c) && Enabled(c, s, step) && !step.Delete? && s.nodes.Keys == s.pcs.Keys
    ensures Others(s, Apply(c, s, step), step.t) && Apply(c, s, step).deleted == s.deleted
    ensures !step.Insert? ==> step.t in s.pcs
  {
  }

  lemma AllLinkedStep(c: Config, s: State, step: Step)
    requires Core(c, s) && AllLinked(s) && Enabled(c, s, step) && s.deleted == {} && !step.Delete?
    requires Grows(s, Apply(c, s, step))
    ensures AllLinked(Apply(c, s, step))
  {
    var s' := Apply(c, s, step);
    MoverOthers(c, s, step);
    if !step.Insert? { MoverLinked(c, s, step); }
    forall t | t in s'.pcs ensures LinkedAt(s', t, s'.pcs[t]) {
      if t != step.t || !step.Insert? {
        assert LinkedAt(s, t, s'.pcs[t]);
        LinkedGrows(s, s', t, s'.pcs[t]);
      }
    }
  }

  // ---------------------------------------------------------------------------
  // While nobody has linked to the first row
  // ---------------------------------------------------------------------------

  /** Nobody has linked at the base layer and the first row `f` is all anybody can know. */
  ghost predicate OnlyFirst(s: State, f: Row) {
    && (forall x :: x in s.nodes ==> !Touched(s, x))
    && (forall t :: t in s.pcs ==> KnowsOnly(f, t, s.pcs[t]))
  }

  lemma PublishedIsFirst(c: Config, s: State, f: Row, x: Row)
    requires Core(c, s) && OnlyFirst(s, f) && IsPublished(s, x)
    ensures x == f
  {
    assert x in s.pcs && KnowsOnly(f, x, s.pcs[x]);
  }

  lemma LoadKnows(c: Config, s: State, f: Row, t: Row, x: Row, i: nat)
    requires Core(c, s) && OnlyFirst(s, f) && CanLoad(s, t, x, i)
    ensures KnowsOnly(f, t, DoLoad(s, t, x, i).pcs[t])
  {
    var pc := s.pcs[t];
    assert KnowsOnly(f, t, pc);
    if pc.lc == 0 {
      assert !Touched(s, x) && ListOk(ListAt(s, x, 0));
      assert Loaded(ListAt(s, x, 0).slots[i]) == {};
    }
  }

  lemma ChosenKnows(c: Config, t: Row, f: Row, found: seq<Row>)
    requires ValidConfig(c) && Distinct(found) && forall i :: 0 <= i < |found| ==> found[i] == f
    ensures var chosen := Select(Scores(c, t, found), c.m, c.alpha, c.dist);
      forall i :: 0 <= i < |chosen| ==> chosen[i] == f
  {
    ChosenFromFound(c, t, found);
    var chosen := Select(Scores(c, t, found), c.m, c.alpha, c.dist);
    forall i | 0 <= i < |chosen| ensures chosen[i] == f { assert chosen[i] in found; }
  }

  lemma PickKnows(c: Config, s: State, f: Row, t: Row)
    requires Core(c, s) && OnlyFirst(s, f) && CanPick(s, t)
    ensures KnowsOnly(f, t, PickPc(c, s, t))
  {
    var pc := s.pcs[t];
    assert KnowsOnly(f, t, pc) && PcOk(c, s, t, pc);
    if pc.k < |pc.found| && IsPublished(s, pc.found[pc.k]) { PublishedIsFirst(c, s, f, pc.found[pc.k]); }
    if pc.lc == 0 { ChosenKnows(c, t, f, pc.found); }
  }

  lemma ClaimEntryKnows(c: Config, s: State, f: Row, t: Row)
    requires Core(c, s) && OnlyFirst(s, f) && CanClaimEntry(s, t) && s.claimer == Some(f)
    ensures KnowsOnly(f, t, DoClaimEntry(s, t).pcs[t])
  {
    var e := s.entry.value.row;
    if s.nodes[e].published { PublishedIsFirst(c, s, f, e); }
  }

  /** Finishing the base layer means having linked to the first row. */
  lemma LinkEndKnows(s: State, f: Row, t: Row)
    requires OnlyFirst(s, f) && CanLinkEnd(s, t) && LinkedAt(s, t, s.pcs[t]) && f in s.nodes
    ensures KnowsOnly(f, t, DoLinkEnd(s, t).pcs[t])
  {
    var pc := s.pcs[t];
    assert KnowsOnly(f, t, pc);
  }

  lemma OpKnows(c: Config, s: State, f: Row, step: Step)
    requires ValidConfig(c) && OnlyFirst(s, f) && Enabled(c, s, step)
    requires step.ClaimSlot? || step.ClearSlot? || step.CasSlot? || step.ScanSlot?
    ensures KnowsOnly(f, step.t, Apply(c, s, step).pcs[step.t])
  {
    assert KnowsOnly(f, step.t, s.pcs[step.t]);
  }

  lemma RestKnows(c: Config, s: State, f: Row, step: Step)
    requires Core(c, s) && OnlyFirst(s, f) && Enabled(c, s, step) && s.claimer == Some(f)
    requires step.PublishFirst? || step.Wait? || step.Publish? || step.Advance? || step.CasEntry?
    ensures KnowsOnly(f, step.t, Apply(c, s, step).pcs[step.t])
  {
    assert KnowsOnly(f, step.t, s.pcs[step.t]) && PcOk(c, s, step.t, s.pcs[step.t]);
  }

  lemma EndSearchKnows(c: Config, s: State, f: Row, t: Row, found: seq<Row>)
    requires OnlyFirst(s, f) && CanEndSearch(c, s, t, found)
    ensures KnowsOnly(f, t, DoEndSearch(s, t, found).pcs[t])
  {
    assert KnowsOnly(f, t, s.pcs[t]);
    assert forall i :: 0 <= i < |found| ==> found[i] in found;
  }

  lemma MoverKnows(c: Config, s: State, f: Row, step: Step)
    requires Core(c, s) && OnlyFirst(s, f) && AllLinked(s) && Enabled(c, s, step) && s.claimer == Some(f) && !step.Delete?
    ensures KnowsOnly(f, step.t, Apply(c, s, step).pcs[step.t])
  {
    match step
    case Insert(t, level) =>
    case ClaimEntry(t) => ClaimEntryKnows(c, s, f, t);
    case Load(t, x, i) => LoadKnows(c, s, f, t, x, i);
    case EndSearch(t, found) => EndSearchKnows(c, s, f, t, found);
    case Pick(t) => PickKnows(c, s, f, t);
    case LinkEnd(t) => LinkEndKnows(s, f, t);
    case LinkSkip(t) => NeverSkips(c, s, t);
    case ClaimSlot(_) => OpKnows(c, s, f, step);
    case ScanSlot(_) => OpKnows(c, s, f, step);
    case ClearSlot(_) => OpKnows(c, s, f, step);
    case CasSlot(_) => OpKnows(c, s, f, step);
    case _ => RestKnows(c, s, f, step);
  }

  /** A claim at the base layer can only be the first one, into the first row's list. */
  lemma ClaimTouchesFirst(c: Config, s: State, f: Row, t: Row)
    requires Core(c, s) && PendingOk(s) && OnlyFirst(s, f) && CanClaim(s, t) && ClaimSucceeds(s, t)
    requires LinkedAt(s, t, s.pcs[t]) && f in s.nodes && s.pcs[t].lc == 0
    ensures Touched(DoClaim(s, t), f)
  {
    var pc := s.pcs[t];
    AtLinkOk(c, s, t);
    assert KnowsOnly(f, t, pc);
    assert !Touched(s, pc.chosen[0]);
    assert PendingAt(s, t, pc);
    ClaimIsListStep(s, t);
    ListStepFrame(s, DoClaim(s, t), t, ClaimedList(s, t), Scan(1, true, 0, []));
    assert Claimed(t, pc) in ClaimedList(s, t).ever;
  }

  /** Any other step leaves every base-layer list as untouched as it was. */
  lemma OtherStepsTouchNothing(c: Config, s: State, step: Step)
    requires Core(c, s) && PendingOk(s) && Enabled(c, s, step)
    requires step.ClaimSlot? && ClaimSucceeds(s, step.t) ==> s.pcs[step.t].lc != 0
    requires forall x :: x in s.nodes ==> !Touched(s, x)
    ensures forall x :: x in Apply(c, s, step).nodes ==> !Touched(Apply(c, s, step), x)
  {
    var s' := Apply(c, s, step);
    if OutsideLinking(step) {
      OutsideFrame(c, s, step);
    } else if step.ClaimSlot? && ClaimSucceeds(s, step.t) {
      AtLinkOk(c, s, step.t);
      assert PendingAt(s, step.t, s.pcs[step.t]);
      ClaimIsListStep(s, step.t);
      ListStepFrame(s, s', step.t, ClaimedList(s, step.t), Scan(1, true, 0, []));
    } else if step.CasSlot? {
      CasSameEver(s, step.t);
    } else {
      LinkingFrame(c, s, step);
    }
  }

  lemma OnlyFirstStep(c: Config, s: State, f: Row, step: Step)
    requires Core(c, s) && PendingOk(s) && AllLinked(s) && OnlyFirst(s, f) && Enabled(c, s, step)
    requires s.claimer == Some(f) && f in s.nodes && !step.Delete? && !Touched(Apply(c, s, step), f)
    ensures OnlyFirst(Apply(c, s, step), f)
  {
    var s' := Apply(c, s, step);
    if step.ClaimSlot? && ClaimSucceeds(s, step.t) && s.pcs[step.t].lc == 0 {
      ClaimTouchesFirst(c, s, f, step.t);
    }
    OtherStepsTouchNothing(c, s, step);
    MoverOthers(c, s, step);
    MoverKnows(c, s, f, step);
  }

  /** When the graph is claimed, every insert is still about to claim it. */
  lemma ClaimedGraphIsBare(c: Config, s: State, t: Row)
    requires Core(c, s) && CanClaimEntry(s, t) && s.entry.None?
    ensures OnlyFirst(DoClaimEntry(s, t), t)
  {
    var s' := DoClaimEntry(s, t);
    assert forall u :: u in s.pcs ==> PcOk(c, s, u, s.pcs[u]) && s.pcs[u].Claiming?;
    forall x | x in s'.nodes ensures !Touched(s', x) {
      if Touched(s, x) { assert false; }
    }
  }

  lemma FirstStep(c: Config, s: State, step: Step)
    requires Core(c, s) && PendingOk(s) && AllLinked(s) && FirstOk(s) && Enabled(c, s, step) && !step.Delete?
    requires Grows(s, Apply(c, s, step))
    ensures FirstOk(Apply(c, s, step))
  {
    var s' := Apply(c, s, step);
    if s'.claimer.Some? && !Touched(s', s'.claimer.value) {
      var f := s'.claimer.value;
      if s.claimer.Some? {
        if Touched(s, f) { TouchedGrows(s, s', f); }
        OnlyFirstStep(c, s, f, step);
      } else {
        ClaimedGraphIsBare(c, s, step.t);
      }
    }
  }

  lemma ConnectedStep(c: Config, s: State, step: Step)
    requires Core(c, s) && PendingOk(s) && ConnectedOk(s) && Enabled(c, s, step)
    requires Grows(s, Apply(c, s, step))
    ensures ConnectedOk(Apply(c, s, step))
  {
    if s.deleted == {} && !step.Delete? {
      AllLinkedStep(c, s, step);
      FirstStep(c, s, step);
    } else {
      DeletedStays(c, s, step);
    }
  }

  lemma DeletedStays(c: Config, s: State, step: Step)
    requires ValidConfig(c) && Enabled(c, s, step) && (s.deleted != {} || step.Delete?)
    ensures Apply(c, s, step).deleted != {}
  {
  }
}
