/** Every step keeps `Core`: what exists, and what each insert knows, stays sound. */
module BuildCore {
  import opened Common
  import opened Heuristic
  import opened Build
  import opened BuildInvariants

  // ---------------------------------------------------------------------------
  // Growth: how the shared state may change
  // ---------------------------------------------------------------------------

  ghost predicate ListGrows(l: List, l': List) {
    && |l'.slots| == |l.slots|
    && forall x :: x in l.ever ==> x in l'.ever && l'.ever[x] == l.ever[x]
  }

  /** The whole shared state only grows: rows, claims, published flags, finished searches. */
  ghost predicate Grows(s: State, s': State) {
    && (forall x :: x in s.nodes ==>
          && x in s'.nodes && s'.nodes[x].level == s.nodes[x].level
          && |s'.nodes[x].layers| == |s.nodes[x].layers|
          && (s.nodes[x].published ==> s'.nodes[x].published))
    && (forall x :: x in s.pcs ==>
          x in s'.pcs && forall lc :: Searched(s.pcs[x], lc) ==> Searched(s'.pcs[x], lc))
    && (forall o, lc :: HasLayer(s, o, lc) ==> HasLayer(s', o, lc) && ListGrows(ListAt(s, o, lc), ListAt(s', o, lc)))
    && (s.entry.Some? ==> s'.entry.Some? && s.entry.value.level <= s'.entry.value.level)
    && (s.claimer.Some? ==> s'.claimer == s.claimer)
  }

  lemma LinkableGrows(s: State, s': State, x: Row, lc: nat)
    requires Grows(s, s') && Linkable(s, x, lc)
    ensures Linkable(s', x, lc)
  {
  }

  lemma RemGrows(c: Config, o: Row, l: List, l': List, rem: set<Row>)
    requires ListGrows(l, l') && RemOk(c, o, l, rem)
    ensures RemOk(c, o, l', rem)
  {
    forall x | x in rem ensures x in l'.ever && exists b :: b in l'.ever && Ranks(c, o, l', b, x) {
      var b :| b in l.ever && Ranks(c, o, l, b, x);
      assert b in l'.ever && Ranks(c, o, l', b, x);
    }
  }

  lemma OpGrows(c: Config, o: Row, id: Row, l: List, l': List, op: Op)
    requires ListGrows(l, l') && OpOk(c, o, id, l, op)
    ensures OpOk(c, o, id, l', op)
  {
    if op.Clear? || op.Cas? { RemGrows(c, o, l, l', op.rem); }
  }

  lemma LinkGrows(c: Config, s: State, s': State, t: Row, pc: Pc)
    requires Grows(s, s') && pc.Linking? && LinkOk(c, s, t, pc)
    ensures LinkOk(c, s', t, pc)
  {
    forall i | 0 <= i < |pc.chosen| ensures Linkable(s', pc.chosen[i], pc.lc) {
      LinkableGrows(s, s', pc.chosen[i], pc.lc);
    }
    if pc.j < |pc.chosen| {
      var o := Owner(t, pc);
      OpGrows(c, o, Claimed(t, pc), ListAt(s, o, pc.lc), ListAt(s', o, pc.lc), pc.op);
    }
  }

  /** What an insert knows survives whatever the others do. */
  lemma PcGrows(c: Config, s: State, s': State, t: Row, pc: Pc)
    requires Grows(s, s') && PcOk(c, s, t, pc)
    ensures PcOk(c, s', t, pc)
  {
    match pc
    case Searching(e, lc, seen) =>
      forall x | x in seen ensures Linkable(s', x, lc) { LinkableGrows(s, s', x, lc); }
    case Picking(e, lc, found, k) =>
      forall i | 0 <= i < |found| ensures Linkable(s', found[i], lc) { LinkableGrows(s, s', found[i], lc); }
    case Linking(_, _, _, _, _, _, _) => LinkGrows(c, s, s', t, pc);
    case _ =>
  }

  lemma EdgesGrow(s: State, s': State)
    requires Grows(s, s') && EdgesOk(s)
    ensures forall o, lc, x :: HasLayer(s, o, lc) && x in ListAt(s, o, lc).ever ==>
      x != o && Linkable(s', x, lc) && Linkable(s', o, lc)
  {
    forall o, lc, x | HasLayer(s, o, lc) && x in ListAt(s, o, lc).ever
      ensures x != o && Linkable(s', x, lc) && Linkable(s', o, lc)
    {
      LinkableGrows(s, s', x, lc);
      LinkableGrows(s, s', o, lc);
    }
  }

  /** Only insert `t` moved. */
  ghost predicate Others(s: State, s': State, t: Row) {
    t in s'.pcs && forall x :: x in s'.pcs && x != t ==> x in s.pcs && s'.pcs[x] == s.pcs[x]
  }

  lemma PcsStep(c: Config, s: State, s': State, t: Row)
    requires PcsOk(c, s) && Grows(s, s') && Others(s, s', t) && PcOk(c, s', t, s'.pcs[t])
    ensures PcsOk(c, s')
  {
    forall x | x in s'.pcs ensures PcOk(c, s', x, s'.pcs[x]) {
      if x != t { PcGrows(c, s, s', x, s.pcs[x]); }
    }
  }

  // ---------------------------------------------------------------------------
  // Steps that change nothing but the locals of one insert
  // ---------------------------------------------------------------------------

  /** Moving from `pc` to `pc'` loses no finished search and no publication state. */
  ghost predicate MovesOn(s: State, t: Row, pc: Pc, pc': Pc) {
    && (forall lc :: Searched(pc, lc) ==> Searched(pc', lc))
    && !pc.First?
    && (IsPublished(s, t) ==> pc'.Advancing? || pc'.AdvanceCas? || pc'.Done?)
  }

  lemma LocalStep(c: Config, s: State, t: Row, pc': Pc)
    requires Core(c, s) && t in s.pcs && MovesOn(s, t, s.pcs[t], pc') && PcOk(c, s, t, pc')
    ensures Core(c, SetPc(s, t, pc')) && Grows(s, SetPc(s, t, pc')) && Others(s, SetPc(s, t, pc'), t)
  {
    var s' := SetPc(s, t, pc');
    assert Grows(s, s');
    EdgesGrow(s, s');
    assert EdgesOk(s');
    PcGrows(c, s, s', t, pc');
    PcsStep(c, s, s', t);
    assert ShapeOk(c, s') && ListsOk(s');
    assert PublishedOk(s');
  }

  /** A published row that reaches the layer can be linked to there. */
  lemma EntryLinkable(c: Config, s: State, e: Row, lc: nat)
    requires Core(c, s) && EntryOk(s, e, lc)
    ensures Linkable(s, e, lc)
  {
    assert IsPublished(s, e) && e in s.pcs;
  }

  lemma WaitCore(c: Config, s: State, t: Row)
    requires Core(c, s) && CanWait(s, t)
    ensures Core(c, DoWait(s, t)) && Grows(s, DoWait(s, t))
  {
    var pc := s.pcs[t];
    assert PcOk(c, s, t, pc);
    if IsPublished(s, pc.entry) {
      EntryLinkable(c, s, pc.entry, pc.elevel);
      LocalStep(c, s, t, Searching(pc.entry, pc.elevel, {pc.entry}));
    }
  }

  lemma LoadCore(c: Config, s: State, t: Row, x: Row, i: nat)
    requires Core(c, s) && CanLoad(s, t, x, i)
    ensures Core(c, DoLoad(s, t, x, i)) && Grows(s, DoLoad(s, t, x, i))
  {
    var pc := s.pcs[t];
    assert PcOk(c, s, t, pc);
    var l := ListAt(s, x, pc.lc);
    assert ListOk(l);
    assert forall y :: y in Loaded(l.slots[i]) ==> y in l.ever;
    LocalStep(c, s, t, pc.(seen := pc.seen + Loaded(l.slots[i])));
  }

  lemma EndSearchCore(c: Config, s: State, t: Row, found: seq<Row>)
    requires Core(c, s) && CanEndSearch(c, s, t, found)
    ensures Core(c, DoEndSearch(s, t, found)) && Grows(s, DoEndSearch(s, t, found))
  {
    var pc := s.pcs[t];
    assert PcOk(c, s, t, pc);
    LocalStep(c, s, t, Picking(pc.entry, pc.lc, found, 0));
  }

  // ---------------------------------------------------------------------------
  // Choosing the next entry and the neighbours
  // ---------------------------------------------------------------------------

  /** The chosen neighbours are distinct found rows, and there is one if anything was found. */
  lemma ChosenFromFound(c: Config, t: Row, found: seq<Row>)
    requires ValidConfig(c) && Distinct(found)
    ensures var chosen := Select(Scores(c, t, found), c.m, c.alpha, c.dist);
      Distinct(chosen) && |chosen| <= c.m && (found != [] ==> chosen != []) && forall x :: x in chosen ==> x in found
  {
    var sc := Scores(c, t, found);
    if found != [] {
      assert DistinctIds(sc);
      var k := SelectKeepsNearest(sc, c.m, c.alpha, c.dist);
      forall x | x in Select(sc, c.m, c.alpha, c.dist) ensures x in found {
        var i :| 0 <= i < |sc| && sc[i].id == x;
        assert found[i] == x;
      }
    }
  }

  lemma LayersReach(c: Config, s: State, x: Row, lc: nat)
    requires ShapeOk(c, s) && x in s.nodes && lc <= s.nodes[x].level
    ensures HasLayer(s, x, lc)
  {
  }

  lemma ProceedCore(c: Config, s: State, t: Row, e: Row)
    requires Core(c, s) && CanPick(s, t) && EntryOk(s, e, s.pcs[t].lc)
    ensures var pc := Proceed(c, t, s.nodes[t].level, e, s.pcs[t].lc, s.pcs[t].found);
      MovesOn(s, t, s.pcs[t], pc) && PcOk(c, s, t, pc)
  {
    var pc := s.pcs[t];
    var lc := pc.lc;
    assert PcOk(c, s, t, pc);
    if lc > s.nodes[t].level {
      EntryLinkable(c, s, e, lc - 1);
    } else {
      ChosenFromFound(c, t, pc.found);
      var chosen := Select(Scores(c, t, pc.found), c.m, c.alpha, c.dist);
      LayersReach(c, s, t, lc);
      forall i | 0 <= i < |chosen|
        ensures chosen[i] != t && Linkable(s, chosen[i], lc) && HasLayer(s, chosen[i], lc)
      {
        assert chosen[i] in pc.found;
        LayersReach(c, s, chosen[i], lc);
      }
    }
  }

  lemma PickCore(c: Config, s: State, t: Row)
    requires Core(c, s) && CanPick(s, t)
    ensures Core(c, DoPick(c, s, t)) && Grows(s, DoPick(c, s, t))
  {
    var pc := s.pcs[t];
    assert PcOk(c, s, t, pc);
    if pc.k >= |pc.found| {
      ProceedCore(c, s, t, pc.entry);
    } else if IsPublished(s, pc.found[pc.k]) {
      ProceedCore(c, s, t, pc.found[pc.k]);
    }
    LocalStep(c, s, t, PickPc(c, s, t));
  }

  lemma DescendOk(c: Config, s: State, t: Row, e: Row, lc: nat)
    requires Core(c, s) && EntryOk(s, e, lc) && s.entry.Some?
    ensures PcOk(c, s, t, Searching(e, lc, {e}))
  {
    EntryLinkable(c, s, e, lc);
  }

  lemma LinkEndCore(c: Config, s: State, t: Row)
    requires Core(c, s) && CanLinkEnd(s, t)
    ensures Core(c, DoLinkEnd(s, t)) && Grows(s, DoLinkEnd(s, t))
  {
    var pc := s.pcs[t];
    assert PcOk(c, s, t, pc);
    if pc.lc > 0 { DescendOk(c, s, t, pc.entry, pc.lc - 1); }
    LocalStep(c, s, t, LinkEndPc(pc));
  }

  function LinkEndPc(pc: Pc): Pc
    requires pc.Linking?
  {
    if pc.lc == 0 then Publishing else Searching(pc.entry, pc.lc - 1, {pc.entry})
  }

  /** Every chosen row exists and reaches the layer being linked: no edge is ever skipped. */
  lemma NeverSkips(c: Config, s: State, t: Row)
    requires Core(c, s)
    ensures !CanLinkSkip(s, t)
  {
    if t in s.pcs { assert PcOk(c, s, t, s.pcs[t]); }
  }

  // ---------------------------------------------------------------------------
  // Scanning a list and deciding what to prune
  // ---------------------------------------------------------------------------

  lemma SnapExtends(l: List, i: nat, snap: seq<Row>)
    requires ListOk(l) && i < |l.slots| && SnapOk(l, i, snap)
    ensures SnapOk(l, i + 1, Append(snap, l.slots[i]))
  {
  }

  /** A snapshot, though read slot by slot while others work on the list, has no duplicate. */
  lemma SnapDistinct(l: List, i: nat, snap: seq<Row>)
    requires SnapOk(l, i, snap)
    ensures Distinct(snap)
  {
  }

  /** Whatever a decision removes is outranked by the kept nearest of the same snapshot. */
  lemma RemovalSound(c: Config, o: Row, lc: nat, l: List, n: nat, snap: seq<Row>)
    requires ValidConfig(c) && SnapOk(l, n, snap) && snap != []
    ensures RemOk(c, o, l, ToRemove(c, o, lc, snap))
  {
    var sc := Scores(c, o, snap);
    assert Distinct(snap);
    assert DistinctIds(sc);
    var k := SelectKeepsNearest(sc, Capacity(c, lc), c.alpha, c.dist);
    forall x | x in ToRemove(c, o, lc, snap)
      ensures x in l.ever && exists b :: b in l.ever && Ranks(c, o, l, b, x)
    {
      var i :| 0 <= i < |snap| && snap[i] == x;
      assert i != k && sc[i] == Scored(x, c.dist(o, x)) && sc[k] == Scored(snap[k], c.dist(o, snap[k]));
      assert Ranks(c, o, l, snap[k], x);
    }
  }

  lemma AtLinkOk(c: Config, s: State, t: Row)
    requires Core(c, s) && AtLink(s, t)
    ensures LinkOk(c, s, t, s.pcs[t]) && ListOk(Target(s, t))
    ensures |Target(s, t).slots| == Capacity(c, s.pcs[t].lc) + 1 && s.entry.Some?
    ensures OpOk(c, Owner(t, s.pcs[t]), Claimed(t, s.pcs[t]), Target(s, t), s.pcs[t].op)
  {
    assert PcOk(c, s, t, s.pcs[t]);
  }

  lemma LinkNewOp(c: Config, s: State, t: Row, pc: Pc, op: Op)
    requires pc.Linking? && pc.j < |pc.chosen| && LinkOk(c, s, t, pc)
    requires OpOk(c, Owner(t, pc), Claimed(t, pc), ListAt(s, Owner(t, pc), pc.lc), op)
    ensures LinkOk(c, s, t, pc.(op := op))
  {
  }

  lemma AfterClaimOk(c: Config, s: State, t: Row, pc: Pc)
    requires pc.Linking? && LinkOk(c, s, t, pc) && pc.j < |pc.chosen|
    ensures LinkOk(c, s, t, AfterClaim(pc))
  {
  }

  /** `Stuck` is never reported, and every other verdict keeps the insert's knowledge sound. */
  lemma JudgeOk(c: Config, s: State, t: Row)
    requires Core(c, s) && CanScan(s, t) && s.pcs[t].op.i >= |Target(s, t).slots|
    ensures PcOk(c, s, t, Judge(c, t, s.pcs[t]))
  {
    var pc := s.pcs[t];
    AtLinkOk(c, s, t);
    if |pc.op.snap| <= Capacity(c, pc.lc) {
      if pc.op.claimed || Claimed(t, pc) in pc.op.snap { AfterClaimOk(c, s, t, pc); }
    } else {
      var o := Owner(t, pc);
      SnapDistinct(Target(s, t), pc.op.i, pc.op.snap);
      OverCapacityRemoves(c, o, pc.lc, pc.op.snap);
      RemovalSound(c, o, pc.lc, Target(s, t), pc.op.i, pc.op.snap);
    }
  }

  lemma ScanCore(c: Config, s: State, t: Row)
    requires Core(c, s) && CanScan(s, t)
    ensures Core(c, DoScan(c, s, t)) && Grows(s, DoScan(c, s, t))
  {
    var pc := s.pcs[t];
    AtLinkOk(c, s, t);
    if pc.op.i < |Target(s, t).slots| {
      SnapExtends(Target(s, t), pc.op.i, pc.op.snap);
    } else {
      JudgeOk(c, s, t);
    }
    ScanMovesOn(c, s, t);
    LocalStep(c, s, t, ScanPc(c, s, t));
  }

  lemma ScanMovesOn(c: Config, s: State, t: Row)
    requires Core(c, s) && CanScan(s, t)
    ensures MovesOn(s, t, s.pcs[t], ScanPc(c, s, t))
  {
  }

  lemma ClearOk(c: Config, s: State, t: Row)
    requires Core(c, s) && CanClear(s, t)
    ensures PcOk(c, s, t, ClearPc(s, t)) && MovesOn(s, t, s.pcs[t], ClearPc(s, t))
  {
    AtLinkOk(c, s, t);
    var pc := s.pcs[t];
    var pc' := ClearPc(s, t);
    if pc'.Linking? { LinkNewOp(c, s, t, pc, pc'.op); }
  }

  lemma ClearCore(c: Config, s: State, t: Row)
    requires Core(c, s) && CanClear(s, t)
    ensures Core(c, DoClear(s, t)) && Grows(s, DoClear(s, t))
  {
    ClearOk(c, s, t);
    LocalStep(c, s, t, ClearPc(s, t));
  }

  // ---------------------------------------------------------------------------
  // Steps that change a list
  // ---------------------------------------------------------------------------

  /** A list changed in place by the insert working on it, which moved on at the same layer. */
  ghost predicate ListStep(s: State, s': State, t: Row, l': List, op': Op) {
    && AtLink(s, t)
    && s' == SetPc(SetList(s, Owner(t, s.pcs[t]), s.pcs[t].lc, l'), t, s.pcs[t].(op := op'))
  }

  lemma ListStepFrame(s: State, s': State, t: Row, l': List, op': Op)
    requires ListStep(s, s', t, l', op')
    ensures forall x :: x in s'.nodes <==> x in s.nodes
    ensures forall x :: x in s.nodes ==>
      && s'.nodes[x].level == s.nodes[x].level && s'.nodes[x].published == s.nodes[x].published
      && |s'.nodes[x].layers| == |s.nodes[x].layers|
    ensures forall o, lc :: HasLayer(s', o, lc) <==> HasLayer(s, o, lc)
    ensures forall o, lc :: HasLayer(s, o, lc) ==>
      ListAt(s', o, lc) == if o == Owner(t, s.pcs[t]) && lc == s.pcs[t].lc then l' else ListAt(s, o, lc)
    ensures forall x :: x in s'.pcs <==> x in s.pcs
    ensures forall x :: x in s.pcs ==> s'.pcs[x] == if x == t then s.pcs[t].(op := op') else s.pcs[x]
    ensures s'.entry == s.entry && s'.claimer == s.claimer && s'.deleted == s.deleted
  {
  }

  lemma ListStepGrows(s: State, s': State, t: Row, l': List, op': Op)
    requires ListStep(s, s', t, l', op') && ListGrows(Target(s, t), l')
    ensures Grows(s, s') && Others(s, s', t)
  {
    ListStepFrame(s, s', t, l', op');
  }

  lemma ListStepCore(c: Config, s: State, s': State, t: Row, l': List, op': Op)
    requires Core(c, s) && ListStep(s, s', t, l', op') && ListGrows(Target(s, t), l') && ListOk(l')
    requires forall x :: x in l'.ever && x !in Target(s, t).ever ==> x == Claimed(t, s.pcs[t])
    requires OpOk(c, Owner(t, s.pcs[t]), Claimed(t, s.pcs[t]), l', op')
    ensures Core(c, s') && Grows(s, s')
  {
    var pc := s.pcs[t];
    ListStepGrows(s, s', t, l', op');
    ListStepFrame(s, s', t, l', op');
    AtLinkOk(c, s, t);
    ListStepEdges(c, s, s', t, l', op');
    ListStepLink(c, s, s', t, l', op');
    PcsStep(c, s, s', t);
    ListStepRest(c, s, s', t, l', op');
  }

  lemma ListStepLink(c: Config, s: State, s': State, t: Row, l': List, op': Op)
    requires Core(c, s) && ListStep(s, s', t, l', op') && Grows(s, s')
    requires OpOk(c, Owner(t, s.pcs[t]), Claimed(t, s.pcs[t]), l', op')
    ensures PcOk(c, s', t, s'.pcs[t])
  {
    AtLinkOk(c, s, t);
    LinkGrows(c, s, s', t, s.pcs[t]);
    LinkNewOp(c, s', t, s.pcs[t], op');
  }

  lemma ListStepRest(c: Config, s: State, s': State, t: Row, l': List, op': Op)
    requires Core(c, s) && ListStep(s, s', t, l', op') && ListGrows(Target(s, t), l') && ListOk(l')
    ensures ShapeOk(c, s') && ListsOk(s') && EntryPointOk(s') && PublishedOk(s')
  {
    ListStepFrame(s, s', t, l', op');
    ListStepShape(c, s, s', t, l', op');
  }

  lemma ListStepShape(c: Config, s: State, s': State, t: Row, l': List, op': Op)
    requires ShapeOk(c, s) && ListsOk(s)
    requires ListStep(s, s', t, l', op') && ListGrows(Target(s, t), l') && ListOk(l')
    ensures ShapeOk(c, s') && ListsOk(s')
  {
    ListStepFrame(s, s', t, l', op');
  }

  lemma ListStepEdges(c: Config, s: State, s': State, t: Row, l': List, op': Op)
    requires Core(c, s) && ListStep(s, s', t, l', op') && ListGrows(Target(s, t), l') && Grows(s, s')
    requires forall x :: x in l'.ever && x !in Target(s, t).ever ==> x == Claimed(t, s.pcs[t])
    ensures EdgesOk(s')
  {
    var pc := s.pcs[t];
    ListStepFrame(s, s', t, l', op');
    AtLinkOk(c, s, t);
    EdgesGrow(s, s');
    var k := pc.chosen[pc.j];
    LinkableGrows(s, s', k, pc.lc);
    assert Linkable(s, t, pc.lc);
    LinkableGrows(s, s', t, pc.lc);
  }

  function AfterCas(op: Op): Op
    requires op.Cas?
  {
    Clear(op.round, op.claimed, op.i + 1, op.rem)
  }

  lemma ClaimLocal(c: Config, s: State, t: Row, op: Op)
    requires Core(c, s) && AtLink(s, t)
    requires OpOk(c, Owner(t, s.pcs[t]), Claimed(t, s.pcs[t]), Target(s, t), op)
    ensures Core(c, SetPc(s, t, s.pcs[t].(op := op))) && Grows(s, SetPc(s, t, s.pcs[t].(op := op)))
  {
    AtLinkOk(c, s, t);
    LinkNewOp(c, s, t, s.pcs[t], op);
    LocalStep(c, s, t, s.pcs[t].(op := op));
  }

  /** The list after the claim in progress takes slot `i`. */
  function ClaimedList(s: State, t: Row): List
    requires CanClaim(s, t) && ClaimSucceeds(s, t)
  {
    var l := Target(s, t);
    List(l.slots[s.pcs[t].op.i := Some(Claimed(t, s.pcs[t]))], l.ever[Claimed(t, s.pcs[t]) := s.pcs[t].op.i])
  }

  lemma ClaimIsListStep(s: State, t: Row)
    requires CanClaim(s, t) && ClaimSucceeds(s, t) && ListOk(Target(s, t)) && Claimed(t, s.pcs[t]) !in Target(s, t).ever
    ensures ListStep(s, DoClaim(s, t), t, ClaimedList(s, t), Scan(1, true, 0, []))
    ensures ListOk(ClaimedList(s, t)) && ListGrows(Target(s, t), ClaimedList(s, t))
    ensures Claimed(t, s.pcs[t]) in ClaimedList(s, t).ever
    ensures forall x :: x in ClaimedList(s, t).ever && x !in Target(s, t).ever ==> x == Claimed(t, s.pcs[t])
  {
  }

  lemma ClaimHitCore(c: Config, s: State, t: Row)
    requires Core(c, s) && CanClaim(s, t) && ClaimSucceeds(s, t) && Claimed(t, s.pcs[t]) !in Target(s, t).ever
    ensures Core(c, DoClaim(s, t)) && Grows(s, DoClaim(s, t))
  {
    AtLinkOk(c, s, t);
    ClaimIsListStep(s, t);
    ListStepCore(c, s, DoClaim(s, t), t, ClaimedList(s, t), Scan(1, true, 0, []));
  }

  /** After a failed compare-exchange: the next slot, or give up claiming and prune. */
  function MissedOp(i: nat, n: nat): Op {
    if i >= n then Scan(1, false, 0, []) else Claim(i + 1)
  }

  lemma ClaimMissIsLocal(s: State, t: Row)
    requires CanClaim(s, t) && !ClaimSucceeds(s, t)
    ensures DoClaim(s, t) == SetPc(s, t, s.pcs[t].(op := MissedOp(s.pcs[t].op.i, |Target(s, t).slots|)))
  {
  }

  lemma ClaimMissCore(c: Config, s: State, t: Row)
    requires Core(c, s) && CanClaim(s, t) && !ClaimSucceeds(s, t)
    ensures Core(c, DoClaim(s, t)) && Grows(s, DoClaim(s, t))
  {
    ClaimMissIsLocal(s, t);
    ClaimLocal(c, s, t, MissedOp(s.pcs[t].op.i, |Target(s, t).slots|));
  }

  lemma ClearedList(c: Config, o: Row, l: List, i: nat, rem: set<Row>)
    requires ListOk(l) && i < |l.slots| && RemOk(c, o, l, rem)
    ensures var l' := l.(slots := l.slots[i := None]); ListOk(l') && ListGrows(l, l') && RemOk(c, o, l', rem)
  {
    RemGrows(c, o, l, l.(slots := l.slots[i := None]), rem);
  }

  predicate CasHits(s: State, t: Row)
    requires CanCas(s, t)
  {
    Target(s, t).slots[s.pcs[t].op.i] == Some(s.pcs[t].op.cur)
  }

  lemma CasIsListStep(s: State, t: Row)
    requires CanCas(s, t) && CasHits(s, t)
    ensures var l := Target(s, t);
      ListStep(s, DoCas(s, t), t, l.(slots := l.slots[s.pcs[t].op.i := None]), AfterCas(s.pcs[t].op))
  {
  }

  lemma CasHitCore(c: Config, s: State, t: Row)
    requires Core(c, s) && CanCas(s, t) && CasHits(s, t)
    ensures Core(c, DoCas(s, t)) && Grows(s, DoCas(s, t))
  {
    var pc := s.pcs[t];
    var l := Target(s, t);
    AtLinkOk(c, s, t);
    ClearedList(c, Owner(t, pc), l, pc.op.i, pc.op.rem);
    CasIsListStep(s, t);
    ListStepCore(c, s, DoCas(s, t), t, l.(slots := l.slots[pc.op.i := None]), AfterCas(pc.op));
  }

  lemma CasMissCore(c: Config, s: State, t: Row)
    requires Core(c, s) && CanCas(s, t) && !CasHits(s, t)
    ensures Core(c, DoCas(s, t)) && Grows(s, DoCas(s, t))
  {
    AtLinkOk(c, s, t);
    ClaimLocal(c, s, t, AfterCas(s.pcs[t].op));
  }

  // ---------------------------------------------------------------------------
  // Steps that change rows, published flags or the entry point, but no list
  // ---------------------------------------------------------------------------

  /** Rows keep their lists; a new row starts with empty ones. */
  ghost predicate SameLists(s: State, s': State) {
    forall o, lc :: HasLayer(s', o, lc) ==>
      if HasLayer(s, o, lc) then ListAt(s', o, lc) == ListAt(s, o, lc) else ListAt(s', o, lc).ever == map[]
  }

  lemma SharedStep(c: Config, s: State, s': State, t: Row)
    requires Core(c, s) && Grows(s, s') && Others(s, s', t) && SameLists(s, s')
    requires ShapeOk(c, s') && ListsOk(s') && PcOk(c, s', t, s'.pcs[t]) && EntryPointOk(s') && PublishedOk(s')
    ensures Core(c, s')
  {
    PcsStep(c, s, s', t);
    EdgesGrow(s, s');
    assert EdgesOk(s');
  }

  lemma InsertFrame(c: Config, s: State, t: Row, level: nat)
    requires Core(c, s) && CanInsert(s, t, level)
    ensures var s' := DoInsert(c, s, t, level);
      && (forall o, lc: nat :: HasLayer(s', o, lc) <==> HasLayer(s, o, lc) || (o == t && lc <= level))
      && (forall o, lc :: HasLayer(s', o, lc) ==>
            ListAt(s', o, lc) == if o == t then NewList(c, lc) else ListAt(s, o, lc))
    ensures !HasLayer(s, t, 0)
  {
  }

  lemma InsertGrows(c: Config, s: State, t: Row, level: nat)
    requires Core(c, s) && CanInsert(s, t, level)
    ensures var s' := DoInsert(c, s, t, level); Grows(s, s') && Others(s, s', t) && SameLists(s, s')
  {
    InsertFrame(c, s, t, level);
  }

  lemma InsertShape(c: Config, s: State, t: Row, level: nat)
    requires Core(c, s) && CanInsert(s, t, level)
    ensures ShapeOk(c, DoInsert(c, s, t, level)) && ListsOk(DoInsert(c, s, t, level))
  {
    InsertFrame(c, s, t, level);
  }

  lemma InsertCore(c: Config, s: State, t: Row, level: nat)
    requires Core(c, s) && CanInsert(s, t, level)
    ensures Core(c, DoInsert(c, s, t, level)) && Grows(s, DoInsert(c, s, t, level))
  {
    var s' := DoInsert(c, s, t, level);
    InsertGrows(c, s, t, level);
    InsertShape(c, s, t, level);
    assert EntryPointOk(s') && PublishedOk(s');
    SharedStep(c, s, s', t);
  }

  lemma ClaimEntryCore(c: Config, s: State, t: Row)
    requires Core(c, s) && CanClaimEntry(s, t)
    ensures Core(c, DoClaimEntry(s, t)) && Grows(s, DoClaimEntry(s, t))
  {
    var s' := DoClaimEntry(s, t);
    if s.entry.Some? {
      LocalStep(c, s, t, Waiting(s.entry.value.row, s.entry.value.level));
    } else {
      assert Grows(s, s') && Others(s, s', t);
      assert SameLists(s, s') && ListsOk(s');
      assert EntryPointOk(s') && PublishedOk(s');
      SharedStep(c, s, s', t);
    }
  }

  lemma PublishedGrows(s: State, t: Row, pc: Pc)
    requires t in s.nodes && t in s.pcs && (s.pcs[t].First? || s.pcs[t].Publishing?) && (pc.Done? || pc.Advancing?)
    ensures var s' := SetPc(SetPublished(s, t), t, pc); Grows(s, s') && Others(s, s', t) && SameLists(s, s')
  {
  }

  lemma PublishFirstCore(c: Config, s: State, t: Row)
    requires Core(c, s) && CanPublishFirst(s, t)
    ensures Core(c, DoPublishFirst(s, t)) && Grows(s, DoPublishFirst(s, t))
  {
    var s' := DoPublishFirst(s, t);
    assert PcOk(c, s, t, s.pcs[t]);
    PublishedGrows(s, t, Done);
    assert ShapeOk(c, s') && ListsOk(s');
    assert EntryPointOk(s') && PublishedOk(s');
    SharedStep(c, s, s', t);
  }

  lemma PublishCore(c: Config, s: State, t: Row)
    requires Core(c, s) && CanPublish(s, t)
    ensures Core(c, DoPublish(s, t)) && Grows(s, DoPublish(s, t))
  {
    var s' := DoPublish(s, t);
    assert PcOk(c, s, t, s.pcs[t]);
    PublishedGrows(s, t, Advancing);
    assert ShapeOk(c, s') && ListsOk(s');
    assert EntryPointOk(s') && PublishedOk(s');
    SharedStep(c, s, s', t);
  }

  lemma AdvanceCore(c: Config, s: State, t: Row)
    requires Core(c, s) && CanAdvance(s, t)
    ensures Core(c, DoAdvance(s, t)) && Grows(s, DoAdvance(s, t))
  {
    assert PcOk(c, s, t, s.pcs[t]);
    if s.nodes[t].level <= s.entry.value.level {
      LocalStep(c, s, t, Done);
    } else {
      LocalStep(c, s, t, AdvanceCas(s.entry));
    }
  }

  lemma AdvanceCasCore(c: Config, s: State, t: Row)
    requires Core(c, s) && CanAdvanceCas(s, t)
    ensures Core(c, DoAdvanceCas(s, t)) && Grows(s, DoAdvanceCas(s, t))
  {
    var s' := DoAdvanceCas(s, t);
    assert PcOk(c, s, t, s.pcs[t]);
    if s.entry == s.pcs[t].cur {
      AdvanceHits(c, s, t);
      SharedStep(c, s, s', t);
    } else {
      LocalStep(c, s, t, Advancing);
    }
  }

  lemma AdvanceHits(c: Config, s: State, t: Row)
    requires Core(c, s) && CanAdvanceCas(s, t) && s.entry == s.pcs[t].cur
    ensures var s' := DoAdvanceCas(s, t);
      && Grows(s, s') && Others(s, s', t) && SameLists(s, s') && ShapeOk(c, s') && ListsOk(s')
      && PcOk(c, s', t, s'.pcs[t]) && EntryPointOk(s') && PublishedOk(s')
  {
    assert PcOk(c, s, t, s.pcs[t]);
    AdvanceLists(c, s, t);
  }

  lemma AdvanceLists(c: Config, s: State, t: Row)
    requires CanAdvanceCas(s, t) && ShapeOk(c, s) && ListsOk(s)
    ensures SameLists(s, DoAdvanceCas(s, t)) && ShapeOk(c, DoAdvanceCas(s, t)) && ListsOk(DoAdvanceCas(s, t))
  {
  }

  lemma DeleteCore(c: Config, s: State, x: Row)
    requires Core(c, s) && CanDelete(s, x)
    ensures Core(c, DoDelete(s, x)) && Grows(s, DoDelete(s, x))
  {
    var s' := DoDelete(s, x);
    assert Grows(s, s');
    EdgesGrow(s, s');
    assert EdgesOk(s') && ListsOk(s');
    forall t | t in s'.pcs ensures PcOk(c, s', t, s'.pcs[t]) {
      PcGrows(c, s, s', t, s.pcs[t]);
    }
    assert EntryPointOk(s') && PublishedOk(s');
  }

  // ---------------------------------------------------------------------------
  // Every step
  // ---------------------------------------------------------------------------

  /** Every step keeps `Core` and only grows the shared state. */
  lemma CoreStep(c: Config, s: State, step: Step)
    requires Core(c, s) && PendingOk(s) && Enabled(c, s, step)
    ensures Core(c, Apply(c, s, step)) && Grows(s, Apply(c, s, step))
  {
    match step
    case Insert(t, level) => InsertCore(c, s, t, level);
    case ClaimEntry(t) => ClaimEntryCore(c, s, t);
    case PublishFirst(t) => PublishFirstCore(c, s, t);
    case Wait(t) => WaitCore(c, s, t);
    case Load(t, x, i) => LoadCore(c, s, t, x, i);
    case EndSearch(t, found) => EndSearchCore(c, s, t, found);
    case Publish(t) => PublishCore(c, s, t);
    case Advance(t) => AdvanceCore(c, s, t);
    case CasEntry(t) => AdvanceCasCore(c, s, t);
    case Delete(x) => DeleteCore(c, s, x);
    case _ => LinkCoreStep(c, s, step);
  }

  lemma LinkCoreStep(c: Config, s: State, step: Step)
    requires Core(c, s) && PendingOk(s) && Enabled(c, s, step)
    requires step.Pick? || step.LinkEnd? || step.LinkSkip? || step.ClaimSlot? || step.ScanSlot? || step.ClearSlot? || step.CasSlot?
    ensures Core(c, Apply(c, s, step)) && Grows(s, Apply(c, s, step))
  {
    match step
    case Pick(t) => PickCore(c, s, t);
    case LinkEnd(t) => LinkEndCore(c, s, t);
    case LinkSkip(t) => NeverSkips(c, s, t);
    case ClaimSlot(t) => if ClaimSucceeds(s, t) { ClaimHitCore(c, s, t); } else { ClaimMissCore(c, s, t); }
    case ScanSlot(t) => ScanCore(c, s, t);
    case ClearSlot(t) => ClearCore(c, s, t);
    case CasSlot(t) => if CasHits(s, t) { CasHitCore(c, s, t); } else { CasMissCore(c, s, t); }
  }
}
