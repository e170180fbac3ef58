/**
 Which rows an insert links. Over every run, an insert that gets through has, in every layer it takes
 part in below the entry point it started from, searched the layer, selected among what it found and
 entered itself into the list of every selected row and that row into its own; and it has claimed
 nothing else. Every search starts from the nearest published row of the search above.
 */
module BuildLinks {
  import opened Common
  import opened Heuristic
  import opened Build
  import opened BuildInvariants
  import opened BuildCore
  import opened BuildProgress
  import opened BuildTheorems

  /** `run` and `steps` fit together, and `i` is one of the states. */
  predicate Upto(run: seq<State>, steps: seq<Step>, i: nat) {
    |run| == |steps| + 1 && i <= |steps|
  }

  // ---------------------------------------------------------------------------
  // What has happened before state `i`
  // ---------------------------------------------------------------------------

  /** `id` was claimed into the layer-`lc` list of `o`. */
  ghost predicate Entered(run: seq<State>, steps: seq<Step>, i: nat, o: Row, id: Row, lc: nat)
    requires Upto(run, steps, i)
  {
    exists k :: 0 <= k < i && Claims(run, steps, k, o, id, lc)
  }

  ghost predicate BothWays(run: seq<State>, steps: seq<Step>, i: nat, t: Row, x: Row, lc: nat)
    requires Upto(run, steps, i)
  {
    Entered(run, steps, i, x, t, lc) && Entered(run, steps, i, t, x, lc)
  }

  /** Insert `t` found the graph non-empty, with entry point `e`. */
  ghost predicate Started(run: seq<State>, steps: seq<Step>, i: nat, t: Row, e: Entry)
    requires Upto(run, steps, i)
  {
    exists k :: 0 <= k < i && StartedAt(run, steps, k, t, e)
  }

  ghost predicate StartedAt(run: seq<State>, steps: seq<Step>, k: nat, t: Row, e: Entry)
    requires Upto(run, steps, k) && k < |steps|
  {
    steps[k] == ClaimEntry(t) && run[k].entry == Some(e)
  }

  /** Step `k` ends the search of insert `t` in layer `lc`, which started from `from`, with `found`. */
  ghost predicate EndsSearch(run: seq<State>, steps: seq<Step>, k: nat, t: Row, lc: nat, from: Row, found: seq<Row>)
    requires Upto(run, steps, k) && k < |steps|
  {
    && steps[k] == EndSearch(t, found) && t in run[k].pcs && run[k].pcs[t].Searching?
    && run[k].pcs[t].lc == lc && run[k].pcs[t].entry == from
  }

  /** None of the first `n` rows found was published when the search ended. */
  ghost predicate Unpublished(s: State, found: seq<Row>, n: nat) {
    n <= |found| && forall j :: 0 <= j < n ==> !IsPublished(s, found[j])
  }

  /** `e` is the nearest row found that was seen published, or, if none was, the row the search started from. */
  ghost predicate NearestPublished(run: seq<State>, steps: seq<Step>, i: nat, t: Row, lc: nat, e: Row)
    requires Upto(run, steps, i)
  {
    exists k, from, found, n: nat ::
      && 0 <= k < i && EndsSearch(run, steps, k, t, lc, from, found) && Unpublished(run[k], found, n)
      && (if n < |found| then e == found[n] && Seen(run, i, e) else e == from)
  }

  ghost predicate Seen(run: seq<State>, i: nat, e: Row)
    requires i < |run|
  {
    exists k :: 0 <= k <= i && IsPublished(run[k], e)
  }

  /** The search of layer `lc` was followed by the choice of `chosen` among what it found. */
  ghost predicate Chose(c: Config, run: seq<State>, steps: seq<Step>, i: nat, t: Row, lc: nat, chosen: seq<Row>)
    requires c.alpha > 0.0 && Upto(run, steps, i)
  {
    exists k, from, found :: 0 <= k < i && EndsSearch(run, steps, k, t, lc, from, found) && Selected(c, t, found, c.m, chosen)
  }

  /** Layer `lc` is done: everything chosen there is linked, both ways. */
  ghost predicate LayerLinked(c: Config, run: seq<State>, steps: seq<Step>, i: nat, t: Row, lc: nat)
    requires c.alpha > 0.0 && Upto(run, steps, i)
  {
    exists chosen :: Chose(c, run, steps, i, t, lc, chosen) && AllLinked(run, steps, i, t, lc, chosen, |chosen|)
  }

  ghost predicate AllLinked(run: seq<State>, steps: seq<Step>, i: nat, t: Row, lc: nat, chosen: seq<Row>, n: nat)
    requires Upto(run, steps, i)
  {
    n <= |chosen| && forall j :: 0 <= j < n ==> BothWays(run, steps, i, t, chosen[j], lc)
  }

  /** From the entry point `e` down to above layer `low`, every layer that `t` takes part in is done. */
  ghost predicate Descended(c: Config, run: seq<State>, steps: seq<Step>, i: nat, t: Row, level: nat, e: Entry, low: int)
    requires c.alpha > 0.0 && Upto(run, steps, i)
  {
    && Started(run, steps, i, t, e) && low <= e.level
    && forall lc :: low < lc <= e.level && 0 <= lc <= level ==> LayerLinked(c, run, steps, i, t, lc)
  }

  /** The search of layer `lc` starts where it should. */
  ghost predicate RightEntry(run: seq<State>, steps: seq<Step>, i: nat, t: Row, e: Entry, lc: nat, from: Row)
    requires Upto(run, steps, i)
  {
    if lc == e.level then from == e.row else NearestPublished(run, steps, i, t, lc + 1, from)
  }

  // ---------------------------------------------------------------------------
  // What an insert at `pc` has behind it
  // ---------------------------------------------------------------------------

  ghost predicate Linking1(c: Config, run: seq<State>, steps: seq<Step>, i: nat, t: Row, pc: Pc)
    requires c.alpha > 0.0 && Upto(run, steps, i) && pc.Linking?
  {
    && Chose(c, run, steps, i, t, pc.lc, pc.chosen) && NearestPublished(run, steps, i, t, pc.lc, pc.entry)
    && pc.j <= |pc.chosen| && AllLinked(run, steps, i, t, pc.lc, pc.chosen, pc.j)
    && (pc.j < |pc.chosen| && pc.back ==> Entered(run, steps, i, pc.chosen[pc.j], t, pc.lc))
    && (pc.j < |pc.chosen| && !pc.op.Claim? && pc.op.claimed ==> Entered(run, steps, i, Owner(t, pc), Claimed(t, pc), pc.lc))
  }

  ghost predicate Picking1(run: seq<State>, steps: seq<Step>, i: nat, t: Row, pc: Pc)
    requires Upto(run, steps, i) && pc.Picking?
  {
    exists k :: 0 <= k < i && EndsSearch(run, steps, k, t, pc.lc, pc.entry, pc.found)
                && Unpublished(run[k], pc.found, if pc.k <= |pc.found| then pc.k else |pc.found|) && pc.k <= |pc.found|
  }

  ghost predicate Behind(c: Config, run: seq<State>, steps: seq<Step>, i: nat, t: Row, level: nat, e: Entry, pc: Pc)
    requires c.alpha > 0.0 && Upto(run, steps, i)
  {
    match pc
    case Waiting(row, l) => Started(run, steps, i, t, e) && e == Entry(row, l)
    case Searching(from, lc, _) => Descended(c, run, steps, i, t, level, e, lc) && RightEntry(run, steps, i, t, e, lc, from)
    case Picking(from, lc, _, _) =>
      Descended(c, run, steps, i, t, level, e, lc) && RightEntry(run, steps, i, t, e, lc, from) && Picking1(run, steps, i, t, pc)
    case Linking(_, lc, _, _, _, _, _) =>
      Descended(c, run, steps, i, t, level, e, lc) && lc <= level && Linking1(c, run, steps, i, t, pc)
    case _ => Descended(c, run, steps, i, t, level, e, -1)
  }

  /** Nothing to say: the insert has not started, claimed the empty graph, or failed. */
  ghost predicate Exempt(run: seq<State>, steps: seq<Step>, i: nat, t: Row, pc: Pc)
    requires Upto(run, steps, i)
  {
    pc.Claiming? || pc.First? || pc.Failed? || (pc.Done? && exists k :: 0 <= k < i && steps[k] == PublishFirst(t))
  }

  ghost predicate Story(c: Config, run: seq<State>, steps: seq<Step>, i: nat, t: Row, level: nat, pc: Pc)
    requires c.alpha > 0.0 && Upto(run, steps, i)
  {
    Exempt(run, steps, i, t, pc) || exists e :: Behind(c, run, steps, i, t, level, e, pc)
  }

  // ---------------------------------------------------------------------------
  // What has happened stays so
  // ---------------------------------------------------------------------------

  lemma {:induction false} ChoseLater(c: Config, run: seq<State>, steps: seq<Step>, i: nat, t: Row, lc: nat, chosen: seq<Row>)
    requires c.alpha > 0.0 && Upto(run, steps, i + 1) && Chose(c, run, steps, i, t, lc, chosen)
    ensures Chose(c, run, steps, i + 1, t, lc, chosen)
  {
  }

  lemma {:induction false} EnteredLater(run: seq<State>, steps: seq<Step>, i: nat, o: Row, id: Row, lc: nat)
    requires Upto(run, steps, i + 1) && Entered(run, steps, i, o, id, lc)
    ensures Entered(run, steps, i + 1, o, id, lc)
  {
  }

  lemma {:induction false} AllLinkedLater(run: seq<State>, steps: seq<Step>, i: nat, t: Row, lc: nat, chosen: seq<Row>, n: nat)
    requires Upto(run, steps, i + 1) && AllLinked(run, steps, i, t, lc, chosen, n)
    ensures AllLinked(run, steps, i + 1, t, lc, chosen, n)
  {
    forall j | 0 <= j < n ensures BothWays(run, steps, i + 1, t, chosen[j], lc) {
      assert BothWays(run, steps, i, t, chosen[j], lc);
      EnteredLater(run, steps, i, chosen[j], t, lc);
      EnteredLater(run, steps, i, t, chosen[j], lc);
    }
  }

  lemma {:induction false} LayerLater(c: Config, run: seq<State>, steps: seq<Step>, i: nat, t: Row, lc: nat)
    requires c.alpha > 0.0 && Upto(run, steps, i + 1) && LayerLinked(c, run, steps, i, t, lc)
    ensures LayerLinked(c, run, steps, i + 1, t, lc)
  {
    var chosen :| Chose(c, run, steps, i, t, lc, chosen) && AllLinked(run, steps, i, t, lc, chosen, |chosen|);
    ChoseLater(c, run, steps, i, t, lc, chosen);
    AllLinkedLater(run, steps, i, t, lc, chosen, |chosen|);
  }

  lemma {:induction false} StartedLater(run: seq<State>, steps: seq<Step>, i: nat, t: Row, e: Entry)
    requires Upto(run, steps, i + 1) && Started(run, steps, i, t, e)
    ensures Started(run, steps, i + 1, t, e)
  {
  }

  lemma {:induction false} DescendedLater(c: Config, run: seq<State>, steps: seq<Step>, i: nat, t: Row, level: nat, e: Entry, low: int)
    requires c.alpha > 0.0 && Upto(run, steps, i + 1) && Descended(c, run, steps, i, t, level, e, low)
    ensures Descended(c, run, steps, i + 1, t, level, e, low)
  {
    StartedLater(run, steps, i, t, e);
    var n := i + 1;
    forall lc | low < lc <= e.level && 0 <= lc <= level ensures LayerLinked(c, run, steps, n, t, lc) { LayerLater(c, run, steps, i, t, lc); }
  }

  lemma {:induction false} NearestLater(run: seq<State>, steps: seq<Step>, i: nat, t: Row, lc: nat, e: Row)
    requires Upto(run, steps, i + 1) && NearestPublished(run, steps, i, t, lc, e)
    ensures NearestPublished(run, steps, i + 1, t, lc, e)
  {
    var k, from, found, n: nat :|
      && 0 <= k < i && EndsSearch(run, steps, k, t, lc, from, found) && Unpublished(run[k], found, n)
      && (if n < |found| then e == found[n] && Seen(run, i, e) else e == from);
    assert n < |found| ==> Seen(run, i + 1, e);
  }

  lemma {:induction false} RightEntryLater(run: seq<State>, steps: seq<Step>, i: nat, t: Row, e: Entry, lc: nat, from: Row)
    requires Upto(run, steps, i + 1) && RightEntry(run, steps, i, t, e, lc, from)
    ensures RightEntry(run, steps, i + 1, t, e, lc, from)
  {
    if lc != e.level { NearestLater(run, steps, i, t, lc + 1, from); }
  }

  lemma {:induction false} LinkingLater(c: Config, run: seq<State>, steps: seq<Step>, i: nat, t: Row, pc: Pc)
    requires c.alpha > 0.0 && Upto(run, steps, i + 1) && pc.Linking? && Linking1(c, run, steps, i, t, pc)
    ensures Linking1(c, run, steps, i + 1, t, pc)
  {
    ChoseLater(c, run, steps, i, t, pc.lc, pc.chosen);
    NearestLater(run, steps, i, t, pc.lc, pc.entry);
    AllLinkedLater(run, steps, i, t, pc.lc, pc.chosen, pc.j);
    if pc.j < |pc.chosen| && pc.back { EnteredLater(run, steps, i, pc.chosen[pc.j], t, pc.lc); }
    if pc.j < |pc.chosen| && !pc.op.Claim? && pc.op.claimed { EnteredLater(run, steps, i, Owner(t, pc), Claimed(t, pc), pc.lc); }
  }

  lemma {:induction false} PickingLater(run: seq<State>, steps: seq<Step>, i: nat, t: Row, pc: Pc)
    requires Upto(run, steps, i + 1) && pc.Picking? && Picking1(run, steps, i, t, pc)
    ensures Picking1(run, steps, i + 1, t, pc)
  {
  }

  lemma {:induction false} BehindLater(c: Config, run: seq<State>, steps: seq<Step>, i: nat, t: Row, level: nat, e: Entry, pc: Pc)
    requires c.alpha > 0.0 && Upto(run, steps, i + 1) && Behind(c, run, steps, i, t, level, e, pc)
    ensures Behind(c, run, steps, i + 1, t, level, e, pc)
  {
    match pc
    case Waiting(_, _) => StartedLater(run, steps, i, t, e);
    case Searching(from, lc, _) =>
      DescendedLater(c, run, steps, i, t, level, e, lc);
      RightEntryLater(run, steps, i, t, e, lc, from);
    case Picking(from, lc, _, _) =>
      DescendedLater(c, run, steps, i, t, level, e, lc);
      RightEntryLater(run, steps, i, t, e, lc, from);
      PickingLater(run, steps, i, t, pc);
    case Linking(_, lc, _, _, _, _, _) =>
      DescendedLater(c, run, steps, i, t, level, e, lc);
      LinkingLater(c, run, steps, i, t, pc);
    case _ => DescendedLater(c, run, steps, i, t, level, e, -1);
  }

  lemma {:induction false} StoryLater(c: Config, run: seq<State>, steps: seq<Step>, i: nat, t: Row, level: nat, pc: Pc)
    requires c.alpha > 0.0 && Upto(run, steps, i + 1) && Story(c, run, steps, i, t, level, pc)
    ensures Story(c, run, steps, i + 1, t, level, pc)
  {
    if Exempt(run, steps, i, t, pc) {
      assert Exempt(run, steps, i + 1, t, pc);
    } else {
      var e :| Behind(c, run, steps, i, t, level, e, pc);
      BehindLater(c, run, steps, i, t, level, e, pc);
    }
  }

  // ---------------------------------------------------------------------------
  // Searching and picking
  // ---------------------------------------------------------------------------

  lemma {:induction false} ClaimEntryStory(c: Config, run: seq<State>, steps: seq<Step>, i: nat, t: Row, level: nat)
    requires IsRun(c, run, steps) && i < |steps| && StepAt(c, run, steps, i) && steps[i] == ClaimEntry(t)
    ensures t in run[i + 1].pcs && Story(c, run, steps, i + 1, t, level, run[i + 1].pcs[t])
  {
    if run[i].entry.Some? {
      assert StartedAt(run, steps, i, t, run[i].entry.value);
      assert Behind(c, run, steps, i + 1, t, level, run[i].entry.value, run[i + 1].pcs[t]);
    }
  }

  lemma {:induction false} WaitStory(c: Config, run: seq<State>, steps: seq<Step>, i: nat, t: Row, level: nat, e: Entry)
    requires IsRun(c, run, steps) && i < |steps| && StepAt(c, run, steps, i) && steps[i] == Wait(t)
    requires Behind(c, run, steps, i + 1, t, level, e, run[i].pcs[t])
    ensures t in run[i + 1].pcs && Behind(c, run, steps, i + 1, t, level, e, run[i + 1].pcs[t])
  {
  }

  lemma {:induction false} EndSearchStory(c: Config, run: seq<State>, steps: seq<Step>, i: nat, t: Row, level: nat, e: Entry)
    requires IsRun(c, run, steps) && i < |steps| && StepAt(c, run, steps, i) && steps[i].EndSearch? && steps[i].t == t
    requires Behind(c, run, steps, i + 1, t, level, e, run[i].pcs[t])
    ensures t in run[i + 1].pcs && Behind(c, run, steps, i + 1, t, level, e, run[i + 1].pcs[t])
  {
    var pc := run[i].pcs[t];
    assert EndsSearch(run, steps, i, t, pc.lc, pc.entry, steps[i].found);
    assert Picking1(run, steps, i + 1, t, run[i + 1].pcs[t]);
  }

  lemma {:induction false} StillUnpublished(c: Config, run: seq<State>, steps: seq<Step>, k: nat, i: nat, x: Row)
    requires IsRun(c, run, steps) && k <= i < |run| && !IsPublished(run[i], x)
    ensures !IsPublished(run[k], x)
  {
    RunGrows(c, run, steps, k, i);
  }

  /** One more row found unpublished. */
  lemma {:induction false} PickOnStory(c: Config, run: seq<State>, steps: seq<Step>, i: nat, t: Row, pc: Pc)
    requires IsRun(c, run, steps) && i < |steps| && pc.Picking? && Picking1(run, steps, i + 1, t, pc)
    requires pc.k < |pc.found| && !IsPublished(run[i], pc.found[pc.k])
    ensures Picking1(run, steps, i + 1, t, pc.(k := pc.k + 1))
  {
    var k :| 0 <= k < i + 1 && EndsSearch(run, steps, k, t, pc.lc, pc.entry, pc.found) && Unpublished(run[k], pc.found, pc.k);
    StillUnpublished(c, run, steps, k, i, pc.found[pc.k]);
  }

  lemma {:induction false} PickedNearest(c: Config, run: seq<State>, steps: seq<Step>, i: nat, t: Row, pc: Pc, e: Row)
    requires Upto(run, steps, i + 1) && pc.Picking? && Picking1(run, steps, i + 1, t, pc)
    requires if pc.k < |pc.found| then e == pc.found[pc.k] && IsPublished(run[i], e) else e == pc.entry
    ensures NearestPublished(run, steps, i + 1, t, pc.lc, e)
  {
    var k :| 0 <= k < i + 1 && EndsSearch(run, steps, k, t, pc.lc, pc.entry, pc.found) && Unpublished(run[k], pc.found, pc.k);
    assert pc.k < |pc.found| ==> Seen(run, i + 1, e);
  }

  lemma {:induction false} PickedChose(c: Config, run: seq<State>, steps: seq<Step>, i: nat, t: Row, pc: Pc)
    requires c.alpha > 0.0 && Upto(run, steps, i) && pc.Picking? && Picking1(run, steps, i, t, pc)
    ensures Chose(c, run, steps, i, t, pc.lc, Select(Scores(c, t, pc.found), c.m, c.alpha, c.dist))
  {
    SelectIsSelected(c, t, pc.found, c.m);
  }

  /** Below its own level the insert goes on to link, above it to the next layer. */
  lemma {:induction false} ProceedStory(c: Config, run: seq<State>, steps: seq<Step>, i: nat, t: Row, level: nat, e: Entry, pc: Pc, to: Row)
    requires c.alpha > 0.0 && Upto(run, steps, i + 1) && pc.Picking? && Behind(c, run, steps, i + 1, t, level, e, pc)
    requires NearestPublished(run, steps, i + 1, t, pc.lc, to)
    ensures Behind(c, run, steps, i + 1, t, level, e, Proceed(c, t, level, to, pc.lc, pc.found))
  {
    var next := Proceed(c, t, level, to, pc.lc, pc.found);
    if pc.lc <= level {
      PickedChose(c, run, steps, i + 1, t, pc);
      assert Linking1(c, run, steps, i + 1, t, next);
    }
  }

  lemma {:induction false} PickStory(c: Config, run: seq<State>, steps: seq<Step>, i: nat, t: Row, level: nat, e: Entry)
    requires IsRun(c, run, steps) && i < |steps| && StepAt(c, run, steps, i) && steps[i] == Pick(t) && run[i].nodes[t].level == level
    requires Behind(c, run, steps, i + 1, t, level, e, run[i].pcs[t])
    ensures t in run[i + 1].pcs && Behind(c, run, steps, i + 1, t, level, e, run[i + 1].pcs[t])
  {
    var pc := run[i].pcs[t];
    if pc.k < |pc.found| && !IsPublished(run[i], pc.found[pc.k]) {
      PickOnStory(c, run, steps, i, t, pc);
    } else {
      var to := if pc.k < |pc.found| then pc.found[pc.k] else pc.entry;
      PickedNearest(c, run, steps, i, t, pc, to);
      ProceedStory(c, run, steps, i, t, level, e, pc, to);
    }
  }

  // ---------------------------------------------------------------------------
  // Linking
  // ---------------------------------------------------------------------------

  lemma {:induction false} LinkEndStory(c: Config, run: seq<State>, steps: seq<Step>, i: nat, t: Row, level: nat, e: Entry)
    requires IsRun(c, run, steps) && i < |steps| && StepAt(c, run, steps, i) && steps[i] == LinkEnd(t)
    requires Behind(c, run, steps, i + 1, t, level, e, run[i].pcs[t])
    ensures t in run[i + 1].pcs && Behind(c, run, steps, i + 1, t, level, e, run[i + 1].pcs[t])
  {
    LinkEndOutcome(run[i], t);
    LinkEndBehind(c, run, steps, i + 1, t, level, e, run[i].pcs[t]);
  }

  lemma {:induction false} LinkEndOutcome(s: State, t: Row)
    requires CanLinkEnd(s, t)
    ensures var pc := s.pcs[t]; DoLinkEnd(s, t).pcs[t] == if pc.lc == 0 then Publishing else Searching(pc.entry, pc.lc - 1, {pc.entry})
  {
  }

  lemma {:induction false} LinkEndBehind(c: Config, run: seq<State>, steps: seq<Step>, i: nat, t: Row, level: nat, e: Entry, pc: Pc)
    requires c.alpha > 0.0 && Upto(run, steps, i) && pc.Linking? && pc.j >= |pc.chosen| && Behind(c, run, steps, i, t, level, e, pc)
    ensures Behind(c, run, steps, i, t, level, e, if pc.lc == 0 then Publishing else Searching(pc.entry, pc.lc - 1, {pc.entry}))
  {
    LayerDone(c, run, steps, i, t, pc.lc, pc.chosen, pc.j);
    OneLower(c, run, steps, i, t, level, e, pc.lc);
  }

  lemma {:induction false} LayerDone(c: Config, run: seq<State>, steps: seq<Step>, i: nat, t: Row, lc: nat, chosen: seq<Row>, n: nat)
    requires c.alpha > 0.0 && Upto(run, steps, i) && Chose(c, run, steps, i, t, lc, chosen) && AllLinked(run, steps, i, t, lc, chosen, n)
    requires n >= |chosen|
    ensures LayerLinked(c, run, steps, i, t, lc)
  {
    assert n == |chosen|;
  }

  lemma {:induction false} OneLower(c: Config, run: seq<State>, steps: seq<Step>, i: nat, t: Row, level: nat, e: Entry, lc: nat)
    requires c.alpha > 0.0 && Upto(run, steps, i) && Descended(c, run, steps, i, t, level, e, lc) && LayerLinked(c, run, steps, i, t, lc)
    ensures Descended(c, run, steps, i, t, level, e, lc - 1)
  {
    forall l | lc - 1 < l <= e.level && 0 <= l <= level ensures LayerLinked(c, run, steps, i, t, l) {
      if l > lc { assert Descended(c, run, steps, i, t, level, e, lc); }
    }
  }

  /** Claim, scan, clear and compare-exchange only touch the op, and may only claim to have claimed what they did. */
  ghost predicate SameLink(pc: Pc, next: Pc)
    requires pc.Linking? && next.Linking?
  {
    next.lc == pc.lc && next.entry == pc.entry && next.chosen == pc.chosen && next.j == pc.j && next.back == pc.back
  }

  lemma {:induction false} OpStory(c: Config, run: seq<State>, steps: seq<Step>, i: nat, t: Row, pc: Pc, next: Pc)
    requires c.alpha > 0.0 && Upto(run, steps, i) && pc.Linking? && pc.j < |pc.chosen| && Linking1(c, run, steps, i, t, pc)
    requires next.Linking? && SameLink(pc, next)
    requires !next.op.Claim? && next.op.claimed ==> (!pc.op.Claim? && pc.op.claimed) || Entered(run, steps, i, Owner(t, pc), Claimed(t, pc), pc.lc)
    ensures Linking1(c, run, steps, i, t, next)
  {
  }

  lemma {:induction false} AfterClaimStory(c: Config, run: seq<State>, steps: seq<Step>, i: nat, t: Row, pc: Pc)
    requires c.alpha > 0.0 && Upto(run, steps, i) && pc.Linking? && pc.j < |pc.chosen| && Linking1(c, run, steps, i, t, pc)
    requires Entered(run, steps, i, Owner(t, pc), Claimed(t, pc), pc.lc)
    ensures Linking1(c, run, steps, i, t, AfterClaim(pc))
  {
    if pc.back {
      forall j | 0 <= j < pc.j + 1 ensures BothWays(run, steps, i, t, pc.chosen[j], pc.lc) {
        if j < pc.j { assert AllLinked(run, steps, i, t, pc.lc, pc.chosen, pc.j); }
      }
    }
  }

  lemma {:induction false} ClaimStory(c: Config, run: seq<State>, steps: seq<Step>, i: nat, t: Row, pc: Pc)
    requires IsRun(c, run, steps) && i < |steps| && StepAt(c, run, steps, i) && steps[i] == ClaimSlot(t) && run[i].pcs[t] == pc
    requires Linking1(c, run, steps, i + 1, t, pc)
    ensures t in run[i + 1].pcs && run[i + 1].pcs[t].Linking? && SameLink(pc, run[i + 1].pcs[t])
    ensures Linking1(c, run, steps, i + 1, t, run[i + 1].pcs[t])
  {
    if ClaimSucceeds(run[i], t) {
      assert Claims(run, steps, i, Owner(t, pc), Claimed(t, pc), pc.lc);
      assert Entered(run, steps, i + 1, Owner(t, pc), Claimed(t, pc), pc.lc);
    }
    OpStory(c, run, steps, i + 1, t, pc, run[i + 1].pcs[t]);
  }

  /** A claim that did not succeed does not find its id in the snapshot. */
  lemma {:induction false} NotInSnap(c: Config, s: State, t: Row)
    requires Inv(c, s) && CanScan(s, t) && !s.pcs[t].op.claimed
    ensures Claimed(t, s.pcs[t]) !in s.pcs[t].op.snap
  {
    AtLinkOk(c, s, t);
    assert PendingAt(s, t, s.pcs[t]);
  }

  lemma {:induction false} ScanStory(c: Config, run: seq<State>, steps: seq<Step>, i: nat, t: Row, pc: Pc)
    requires IsRun(c, run, steps) && i < |steps| && StepAt(c, run, steps, i) && steps[i] == ScanSlot(t) && run[i].pcs[t] == pc
    requires Linking1(c, run, steps, i + 1, t, pc) && (!pc.op.claimed ==> Claimed(t, pc) !in pc.op.snap)
    ensures t in run[i + 1].pcs
    ensures run[i + 1].pcs[t].Failed? || (run[i + 1].pcs[t].Linking? && run[i + 1].pcs[t].lc == pc.lc && Linking1(c, run, steps, i + 1, t, run[i + 1].pcs[t]))
  {
    var next := run[i + 1].pcs[t];
    ScanOutcome(c, run[i], t);
    if next.Linking? {
      if next == AfterClaim(pc) {
        AfterClaimStory(c, run, steps, i + 1, t, pc);
      } else {
        OpStory(c, run, steps, i + 1, t, pc, next);
      }
    }
  }

  lemma {:induction false} ScanOutcome(c: Config, s: State, t: Row)
    requires c.alpha > 0.0 && CanScan(s, t)
    ensures var pc, next := s.pcs[t], DoScan(c, s, t).pcs[t];
      || next.Failed?
      || (next == AfterClaim(pc) && (pc.op.claimed || Claimed(t, pc) in pc.op.snap))
      || (next.Linking? && SameLink(pc, next) && (!next.op.Claim? ==> next.op.claimed == pc.op.claimed))
  {
  }

  lemma {:induction false} ClearStory(c: Config, run: seq<State>, steps: seq<Step>, i: nat, t: Row, pc: Pc)
    requires IsRun(c, run, steps) && i < |steps| && StepAt(c, run, steps, i) && (steps[i] == ClearSlot(t) || steps[i] == CasSlot(t))
    requires t in run[i].pcs && run[i].pcs[t] == pc
    requires Linking1(c, run, steps, i + 1, t, pc)
    ensures t in run[i + 1].pcs
    ensures run[i + 1].pcs[t].Failed? || (run[i + 1].pcs[t].Linking? && run[i + 1].pcs[t].lc == pc.lc && Linking1(c, run, steps, i + 1, t, run[i + 1].pcs[t]))
  {
    var next := run[i + 1].pcs[t];
    if steps[i].ClearSlot? { ClearOutcome(run[i], t); } else { CasOutcome(run[i], t); }
    if next.Linking? { OpStory(c, run, steps, i + 1, t, pc, next); }
  }

  lemma {:induction false} ClearOutcome(s: State, t: Row)
    requires CanClear(s, t)
    ensures var pc, next := s.pcs[t], DoClear(s, t).pcs[t];
      next.Failed? || (next.Linking? && SameLink(pc, next) && !next.op.Claim? && next.op.claimed == pc.op.claimed)
  {
  }

  lemma {:induction false} CasOutcome(s: State, t: Row)
    requires CanCas(s, t)
    ensures var pc, next := s.pcs[t], DoCas(s, t).pcs[t];
      next.Linking? && SameLink(pc, next) && !next.op.Claim? && next.op.claimed == pc.op.claimed
  {
  }

  predicate OnList(step: Step, t: Row) {
    step == ClaimSlot(t) || step == ScanSlot(t) || step == ClearSlot(t) || step == CasSlot(t)
  }

  lemma {:induction false} LinkStory(c: Config, run: seq<State>, steps: seq<Step>, i: nat, t: Row, pc: Pc)
    requires IsRun(c, run, steps) && i < |steps| && StepAt(c, run, steps, i) && OnList(steps[i], t) && t in run[i].pcs && run[i].pcs[t] == pc
    requires pc.Linking? && Linking1(c, run, steps, i + 1, t, pc)
    requires pc.op.Scan? && pc.j < |pc.chosen| && !pc.op.claimed ==> Claimed(t, pc) !in pc.op.snap
    ensures t in run[i + 1].pcs
    ensures run[i + 1].pcs[t].Failed? || (run[i + 1].pcs[t].Linking? && run[i + 1].pcs[t].lc == pc.lc && Linking1(c, run, steps, i + 1, t, run[i + 1].pcs[t]))
  {
    match steps[i]
    case ClaimSlot(_) => ClaimStory(c, run, steps, i, t, pc);
    case ScanSlot(_) => ScanStory(c, run, steps, i, t, pc);
    case _ => ClearStory(c, run, steps, i, t, pc);
  }

  lemma {:induction false} LinkBehind(c: Config, run: seq<State>, steps: seq<Step>, i: nat, t: Row, level: nat, e: Entry)
    requires IsRun(c, run, steps) && i < |steps| && StepAt(c, run, steps, i) && OnList(steps[i], t) && t in run[i].pcs && run[i].pcs[t].Linking?
    requires var pc := run[i].pcs[t]; pc.op.Scan? && pc.j < |pc.chosen| && !pc.op.claimed ==> Claimed(t, pc) !in pc.op.snap
    requires Behind(c, run, steps, i + 1, t, level, e, run[i].pcs[t])
    ensures t in run[i + 1].pcs && (run[i + 1].pcs[t].Failed? || Behind(c, run, steps, i + 1, t, level, e, run[i + 1].pcs[t]))
  {
    LinkStory(c, run, steps, i, t, run[i].pcs[t]);
  }

  // ---------------------------------------------------------------------------
  // Every step
  // ---------------------------------------------------------------------------

  /** Steps that search and pick, and those after the last layer. */
  lemma {:induction false} OffListBehind(c: Config, run: seq<State>, steps: seq<Step>, i: nat, t: Row, level: nat, e: Entry)
    requires IsRun(c, run, steps) && i < |steps| && StepAt(c, run, steps, i) && t in run[i].nodes && run[i].nodes[t].level == level
    requires !steps[i].Delete? && !steps[i].Insert? && !steps[i].LinkSkip? && steps[i].t == t && !OnList(steps[i], t) && t in run[i].pcs
    requires !Exempt(run, steps, i, t, run[i].pcs[t]) && Behind(c, run, steps, i + 1, t, level, e, run[i].pcs[t])
    ensures t in run[i + 1].pcs && Behind(c, run, steps, i + 1, t, level, e, run[i + 1].pcs[t])
  {
    match steps[i]
    case Wait(_) => WaitStory(c, run, steps, i, t, level, e);
    case EndSearch(_, _) => EndSearchStory(c, run, steps, i, t, level, e);
    case Pick(_) => PickStory(c, run, steps, i, t, level, e);
    case LinkEnd(_) => LinkEndStory(c, run, steps, i, t, level, e);
    case _ => RestStory(c, run, steps, i, t, level, e);
  }

  lemma {:induction false} RestStory(c: Config, run: seq<State>, steps: seq<Step>, i: nat, t: Row, level: nat, e: Entry)
    requires IsRun(c, run, steps) && i < |steps| && StepAt(c, run, steps, i) && t in run[i].pcs
    requires steps[i].ClaimEntry? || steps[i].PublishFirst? || steps[i].Load? || steps[i].Publish? || steps[i].Advance? || steps[i].CasEntry?
    requires steps[i].t == t && !Exempt(run, steps, i, t, run[i].pcs[t]) && Behind(c, run, steps, i + 1, t, level, e, run[i].pcs[t])
    ensures t in run[i + 1].pcs && Behind(c, run, steps, i + 1, t, level, e, run[i + 1].pcs[t])
  {
    RestOutcome(c, run[i], steps[i]);
    SameBehind(c, run, steps, i + 1, t, level, e, run[i].pcs[t], run[i + 1].pcs[t]);
  }

  lemma {:induction false} RestOutcome(c: Config, s: State, step: Step)
    requires ValidConfig(c) && Enabled(c, s, step)
    requires step.ClaimEntry? || step.PublishFirst? || step.Load? || step.Publish? || step.Advance? || step.CasEntry?
    ensures step.t in s.pcs && step.t in Apply(c, s, step).pcs
    ensures s.pcs[step.t].Claiming? || s.pcs[step.t].First? || SameStage(s.pcs[step.t], Apply(c, s, step).pcs[step.t])
  {
  }

  /** Still in the same search, or still past the last layer. */
  ghost predicate SameStage(pc: Pc, next: Pc) {
    (pc.Searching? && next.Searching? && next.entry == pc.entry && next.lc == pc.lc) || (Finished(pc) && Finished(next))
  }

  lemma {:induction false} SameBehind(c: Config, run: seq<State>, steps: seq<Step>, i: nat, t: Row, level: nat, e: Entry, pc: Pc, next: Pc)
    requires c.alpha > 0.0 && Upto(run, steps, i) && SameStage(pc, next) && Behind(c, run, steps, i, t, level, e, pc)
    ensures Behind(c, run, steps, i, t, level, e, next)
  {
  }

  /** The insert's own step, when it is past its start. */
  lemma {:induction false} OwnBehind(c: Config, run: seq<State>, steps: seq<Step>, i: nat, t: Row, level: nat, e: Entry)
    requires IsRun(c, run, steps) && i < |steps| && StepAt(c, run, steps, i) && Inv(c, run[i])
    requires !steps[i].Delete? && !steps[i].Insert? && steps[i].t == t && t in run[i].pcs && t in run[i].nodes && run[i].nodes[t].level == level
    requires !Exempt(run, steps, i, t, run[i].pcs[t]) && Behind(c, run, steps, i + 1, t, level, e, run[i].pcs[t])
    ensures t in run[i + 1].pcs && (run[i + 1].pcs[t].Failed? || Behind(c, run, steps, i + 1, t, level, e, run[i + 1].pcs[t]))
  {
    NeverSkips(c, run[i], t);
    if OnList(steps[i], t) { OnListBehind(c, run, steps, i, t, level, e); } else { OffListBehind(c, run, steps, i, t, level, e); }
  }

  lemma {:induction false} OnListBehind(c: Config, run: seq<State>, steps: seq<Step>, i: nat, t: Row, level: nat, e: Entry)
    requires IsRun(c, run, steps) && i < |steps| && StepAt(c, run, steps, i) && Inv(c, run[i]) && OnList(steps[i], t) && t in run[i].pcs
    requires Behind(c, run, steps, i + 1, t, level, e, run[i].pcs[t])
    ensures t in run[i + 1].pcs && (run[i + 1].pcs[t].Failed? || Behind(c, run, steps, i + 1, t, level, e, run[i + 1].pcs[t]))
  {
    if steps[i].ScanSlot? && !run[i].pcs[t].op.claimed { NotInSnap(c, run[i], t); }
    LinkBehind(c, run, steps, i, t, level, e);
  }

  lemma {:induction false} OwnStory(c: Config, run: seq<State>, steps: seq<Step>, i: nat, t: Row, level: nat)
    requires IsRun(c, run, steps) && i < |steps| && StepAt(c, run, steps, i) && Inv(c, run[i])
    requires !steps[i].Delete? && !steps[i].Insert? && steps[i].t == t && t in run[i].pcs && t in run[i].nodes && run[i].nodes[t].level == level
    requires Story(c, run, steps, i, t, level, run[i].pcs[t])
    ensures t in run[i + 1].pcs && Story(c, run, steps, i + 1, t, level, run[i + 1].pcs[t])
  {
    if Exempt(run, steps, i, t, run[i].pcs[t]) {
      if steps[i].ClaimEntry? { ClaimEntryStory(c, run, steps, i, t, level); }
    } else {
      var e :| Behind(c, run, steps, i, t, level, e, run[i].pcs[t]);
      BehindLater(c, run, steps, i, t, level, e, run[i].pcs[t]);
      OwnBehind(c, run, steps, i, t, level, e);
    }
  }

  lemma {:induction false} StepStory(c: Config, run: seq<State>, steps: seq<Step>, i: nat, t: Row)
    requires IsRun(c, run, steps) && i < |steps| && t in run[i + 1].pcs
    requires t in run[i].pcs ==> t in run[i].nodes && Story(c, run, steps, i, t, run[i].nodes[t].level, run[i].pcs[t])
    ensures t in run[i + 1].nodes && Story(c, run, steps, i + 1, t, run[i + 1].nodes[t].level, run[i + 1].pcs[t])
  {
    RunInv(c, run, steps, i);
    RunInv(c, run, steps, i + 1);
    RunStep(c, run, steps, i);
    assert StepAt(c, run, steps, i);
    var step := steps[i];
    if step.Delete? {
      StoryLater(c, run, steps, i, t, run[i].nodes[t].level, run[i].pcs[t]);
    } else {
      MoverOthers(c, run[i], step);
      if step.t != t {
        StoryLater(c, run, steps, i, t, run[i].nodes[t].level, run[i].pcs[t]);
      } else if !step.Insert? {
        OwnStory(c, run, steps, i, t, run[i].nodes[t].level);
      }
    }
  }

  lemma {:induction false} RunStory(c: Config, run: seq<State>, steps: seq<Step>, i: nat, t: Row)
    requires IsRun(c, run, steps) && i < |run| && t in run[i].pcs
    ensures t in run[i].nodes && Story(c, run, steps, i, t, run[i].nodes[t].level, run[i].pcs[t])
  {
    if i > 0 {
      if t in run[i - 1].pcs { RunStory(c, run, steps, i - 1, t); }
      StepStory(c, run, steps, i - 1, t);
    }
  }

  // ---------------------------------------------------------------------------
  // Theorems
  // ---------------------------------------------------------------------------

  /**
   An insert that has linked its last layer was the first of all, or has, from the entry point it found
   down to the base, linked its selection in every layer up to its own level, both ways.
   */
  lemma {:induction false} LinksItsSelection(c: Config, run: seq<State>, steps: seq<Step>, i: nat, t: Row)
    requires IsRun(c, run, steps) && i < |run| && t in run[i].pcs && Finished(run[i].pcs[t])
    ensures t in run[i].nodes
    ensures (exists k :: 0 <= k < i && steps[k] == PublishFirst(t))
         || (exists e :: Started(run, steps, i, t, e)
               && forall lc :: 0 <= lc <= e.level && lc <= run[i].nodes[t].level ==> LayerLinked(c, run, steps, i, t, lc))
  {
    RunStory(c, run, steps, i, t);
    if e :| Behind(c, run, steps, i, t, run[i].nodes[t].level, e, run[i].pcs[t]) {
      assert Started(run, steps, i, t, e);
    }
  }

  ghost predicate Joins(t: Row, chosen: seq<Row>, o: Row, id: Row) {
    (o == t && id in chosen) || (id == t && o in chosen)
  }

  /** An insert claims nothing but itself into rows it selected and these into its own list. */
  lemma {:induction false} LinksNothingElse(c: Config, run: seq<State>, steps: seq<Step>, k: nat, o: Row, id: Row, lc: nat)
    requires IsRun(c, run, steps) && k < |steps| && Claims(run, steps, k, o, id, lc)
    ensures exists chosen :: Chose(c, run, steps, k, steps[k].t, lc, chosen) && Joins(steps[k].t, chosen, o, id)
  {
    var t := steps[k].t;
    RunStory(c, run, steps, k, t);
    var e :| Behind(c, run, steps, k, t, run[k].nodes[t].level, e, run[k].pcs[t]);
    assert Chose(c, run, steps, k, t, lc, run[k].pcs[t].chosen);
  }

  /** The search of a layer starts from the entry point, or from the nearest published row of the search one layer up. */
  lemma {:induction false} SearchesStartRight(c: Config, run: seq<State>, steps: seq<Step>, k: nat, t: Row, lc: nat, from: Row, found: seq<Row>)
    requires IsRun(c, run, steps) && k < |steps| && EndsSearch(run, steps, k, t, lc, from, found)
    ensures exists e :: Started(run, steps, k, t, e) && lc <= e.level && RightEntry(run, steps, k, t, e, lc, from)
  {
    RunStory(c, run, steps, k, t);
    var e :| Behind(c, run, steps, k, t, run[k].nodes[t].level, e, run[k].pcs[t]);
    assert Started(run, steps, k, t, e);
  }

  /** What a prune removes is its snapshot, longer than the capacity, without the selection of that capacity among it. */
  lemma {:induction false} PrunesToTheSelection(c: Config, run: seq<State>, steps: seq<Step>, k: nat, t: Row)
    requires IsRun(c, run, steps) && k < |steps| && steps[k] == ScanSlot(t)
    requires t in run[k].pcs && run[k].pcs[t].Linking? && t in run[k + 1].pcs && run[k + 1].pcs[t].Linking? && run[k + 1].pcs[t].op.Clear?
    ensures var pc, rem := run[k].pcs[t], run[k + 1].pcs[t].op.rem;
      && pc.op.Scan? && pc.j < |pc.chosen|
      && var snap, cap := pc.op.snap, if pc.lc == 0 then c.mmax0 else c.mmax;
         |snap| > cap && exists kept :: Selected(c, Owner(t, pc), snap, cap, kept) && rem == set x | x in snap && x !in kept
  {
    assert StepAt(c, run, steps, k);
    JudgeClears(c, run[k], t);
    var pc := run[k].pcs[t];
    RemovalMeaning(c, Owner(t, pc), pc.lc, pc.op.snap, if pc.lc == 0 then c.mmax0 else c.mmax);
  }

  lemma {:induction false} JudgeClears(c: Config, s: State, t: Row)
    requires c.alpha > 0.0 && CanScan(s, t) && DoScan(c, s, t).pcs[t].Linking? && DoScan(c, s, t).pcs[t].op.Clear?
    ensures var pc, rem := s.pcs[t], DoScan(c, s, t).pcs[t].op.rem;
      |pc.op.snap| > (if pc.lc == 0 then c.mmax0 else c.mmax) && rem == ToRemove(c, Owner(t, pc), pc.lc, pc.op.snap)
  {
  }

  lemma {:induction false} RemovalMeaning(c: Config, o: Row, lc: nat, snap: seq<Row>, cap: nat)
    requires c.alpha > 0.0 && cap == if lc == 0 then c.mmax0 else c.mmax
    ensures exists kept :: Selected(c, o, snap, cap, kept) && ToRemove(c, o, lc, snap) == set x | x in snap && x !in kept
  {
    SelectIsSelected(c, o, snap, cap);
  }
}
