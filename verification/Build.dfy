/**
 The lock-free graph build (`Graph::insert` and everything it calls) as a transition
 system. Any number of inserts of distinct rows run at once, one process per row, and
 every transition is a single atomic load, store or compare-exchange of one of them
 (or a purely local step).

 The two descent phases of `insert` are one downward pass over the layers: a layer above
 the row's own level is only searched, a layer at or below it is searched and then linked.
 A layer search may discover any id it loads from a layer list of an id it has already
 discovered, and returns some of the discovered ids, nearest first.
 */
module Build {
  import opened Common
  import opened Heuristic

  type Row = nat

  const MAX_SHRINK_RETRIES: nat := 64
  const MAX_LEVEL: nat := 255

  /** Build parameters, the same for every insert, and the metric on the rows' fixed vectors. */
  datatype Config = Config(m: nat, mmax0: nat, mmax: nat, ef: nat, alpha: real, dist: Metric)

  predicate ValidConfig(c: Config) {
    c.m >= 1 && c.mmax0 >= 1 && c.mmax >= 1 && c.alpha > 0.0
  }

  /** The logical capacity of a list; one more slot exists physically. */
  function Capacity(c: Config, lc: nat): nat {
    if lc == 0 then c.mmax0 else c.mmax
  }

  /**
   A layer list: its atomic slots, and as a history the slot each id was ever claimed at.
   No step reads the history.
   */
  datatype List = List(slots: seq<Option<Row>>, ever: map<Row, nat>)

  datatype Node = Node(level: nat, published: bool, layers: seq<List>)

  datatype Entry = Entry(row: Row, level: nat)

  /** Progress of one `claim_and_prune` call. */
  datatype Op =
    | Claim(i: nat)                                            // next: CAS slot i from empty
    | Scan(round: nat, claimed: bool, i: nat, snap: seq<Row>)  // next: load slot i
    | Clear(round: nat, claimed: bool, i: nat, rem: set<Row>)  // next: load slot i
    | Cas(round: nat, claimed: bool, i: nat, rem: set<Row>, cur: Row) // next: CAS slot i from cur

  /** Program counter and locals of one insert. */
  datatype Pc =
    | Claiming                                                 // next: claim_if_empty
    | First                                                    // claimed the empty graph
    | Waiting(entry: Row, elevel: nat)
    | Searching(entry: Row, lc: nat, seen: set<Row>)
    | Picking(entry: Row, lc: nat, found: seq<Row>, k: nat)
    | Linking(entry: Row, lc: nat, chosen: seq<Row>, j: nat, back: bool, attempt: nat, op: Op)
    | Publishing
    | Advancing
    | AdvanceCas(cur: Option<Entry>)
    | Done
    | Failed(stuck: bool)

  datatype State = State(nodes: map<Row, Node>, pcs: map<Row, Pc>, entry: Option<Entry>,
                         claimer: Option<Row>, deleted: set<Row>)

  const EmptyGraph := State(map[], map[], None, None, {})

  predicate HasLayer(s: State, o: Row, lc: nat) {
    o in s.nodes && lc < |s.nodes[o].layers|
  }

  function ListAt(s: State, o: Row, lc: nat): List
    requires HasLayer(s, o, lc)
  {
    s.nodes[o].layers[lc]
  }

  predicate IsPublished(s: State, x: Row) {
    x in s.nodes && s.nodes[x].published
  }

  function SetPc(s: State, t: Row, pc: Pc): State {
    s.(pcs := s.pcs[t := pc])
  }

  function SetList(s: State, o: Row, lc: nat, l: List): State
    requires HasLayer(s, o, lc)
  {
    s.(nodes := s.nodes[o := s.nodes[o].(layers := s.nodes[o].layers[lc := l])])
  }

  function SetPublished(s: State, x: Row): State
    requires x in s.nodes
  {
    s.(nodes := s.nodes[x := s.nodes[x].(published := true)])
  }

  // ---------------------------------------------------------------------------
  // Starting an insert and the entry point
  // ---------------------------------------------------------------------------

  function NewList(c: Config, lc: nat): List {
    List(seq(Capacity(c, lc) + 1, _ => None), map[])
  }

  function NewNode(c: Config, level: nat): Node {
    Node(level, false, seq(level + 1, lc requires lc >= 0 => NewList(c, lc)))
  }

  predicate CanInsert(s: State, t: Row, level: nat) {
    t !in s.nodes && level <= MAX_LEVEL
  }

  function DoInsert(c: Config, s: State, t: Row, level: nat): State {
    s.(nodes := s.nodes[t := NewNode(c, level)], pcs := s.pcs[t := Claiming])
  }

  predicate CanClaimEntry(s: State, t: Row) {
    t in s.nodes && t in s.pcs && s.pcs[t].Claiming?
  }

  function DoClaimEntry(s: State, t: Row): State
    requires CanClaimEntry(s, t)
  {
    match s.entry
    case None => SetPc(s.(entry := Some(Entry(t, s.nodes[t].level)), claimer := Some(t)), t, First)
    case Some(e) => SetPc(s, t, Waiting(e.row, e.level))
  }

  predicate CanPublishFirst(s: State, t: Row) {
    t in s.nodes && t in s.pcs && s.pcs[t].First?
  }

  function DoPublishFirst(s: State, t: Row): State
    requires CanPublishFirst(s, t)
  {
    SetPc(SetPublished(s, t), t, Done)
  }

  predicate CanWait(s: State, t: Row) {
    t in s.pcs && s.pcs[t].Waiting?
  }

  function DoWait(s: State, t: Row): State
    requires CanWait(s, t)
  {
    var e := s.pcs[t].entry;
    if IsPublished(s, e) then SetPc(s, t, Searching(e, s.pcs[t].elevel, {e})) else s
  }

  predicate CanPublish(s: State, t: Row) {
    t in s.nodes && t in s.pcs && s.pcs[t].Publishing?
  }

  function DoPublish(s: State, t: Row): State
    requires CanPublish(s, t)
  {
    SetPc(SetPublished(s, t), t, Advancing)
  }

  predicate CanAdvance(s: State, t: Row) {
    t in s.nodes && t in s.pcs && s.pcs[t].Advancing?
  }

  function DoAdvance(s: State, t: Row): State
    requires CanAdvance(s, t)
  {
    if s.entry.Some? && s.nodes[t].level <= s.entry.value.level then SetPc(s, t, Done)
    else SetPc(s, t, AdvanceCas(s.entry))
  }

  predicate CanAdvanceCas(s: State, t: Row) {
    t in s.nodes && t in s.pcs && s.pcs[t].AdvanceCas?
  }

  function DoAdvanceCas(s: State, t: Row): State
    requires CanAdvanceCas(s, t)
  {
    if s.entry == s.pcs[t].cur then SetPc(s.(entry := Some(Entry(t, s.nodes[t].level))), t, Done)
    else SetPc(s, t, Advancing)
  }

  predicate CanDelete(s: State, x: Row) {
    x in s.nodes
  }

  function DoDelete(s: State, x: Row): State {
    s.(deleted := s.deleted + {x})
  }

  // ---------------------------------------------------------------------------
  // Searching a layer and choosing where to go on
  // ---------------------------------------------------------------------------

  function Loaded(slot: Option<Row>): set<Row> {
    match slot case None => {} case Some(x) => {x}
  }

  predicate CanLoad(s: State, t: Row, x: Row, i: nat) {
    && t in s.pcs && s.pcs[t].Searching?
    && x in s.pcs[t].seen && HasLayer(s, x, s.pcs[t].lc)
    && i < |ListAt(s, x, s.pcs[t].lc).slots|
  }

  function DoLoad(s: State, t: Row, x: Row, i: nat): State
    requires CanLoad(s, t, x, i)
  {
    var pc := s.pcs[t];
    SetPc(s, t, pc.(seen := pc.seen + Loaded(ListAt(s, x, pc.lc).slots[i])))
  }

  function Scores(c: Config, q: Row, ids: seq<Row>): (r: seq<Scored>)
    ensures |r| == |ids| && forall i :: 0 <= i < |ids| ==> r[i] == Scored(ids[i], c.dist(q, ids[i]))
  {
    seq(|ids|, i requires 0 <= i < |ids| => Scored(ids[i], c.dist(q, ids[i])))
  }

  /** `kept` is what the heuristic's specification selects among `ids`, seen from `q`. */
  ghost predicate Selected(c: Config, q: Row, ids: seq<Row>, m: nat, kept: seq<Row>)
    requires c.alpha > 0.0
  {
    exists ps :: IsSelection(SortByDist(Scores(c, q, ids)), m, c.alpha, c.dist, ps) && kept == At(SortByDist(Scores(c, q, ids)), ps)
  }

  lemma SelectIsSelected(c: Config, q: Row, ids: seq<Row>, m: nat)
    requires c.alpha > 0.0
    ensures Selected(c, q, ids, m, Select(Scores(c, q, ids), m, c.alpha, c.dist))
  {
    var ps := SelectMeaning(Scores(c, q, ids), m, c.alpha, c.dist);
  }

  /**
   What a layer search may return: distinct discovered ids, nearest first, no more than
   its width, and at least one unless the row it started from is deleted.
   */
  predicate SearchResult(c: Config, t: Row, width: nat, entry: Row, seen: set<Row>, deleted: set<Row>, found: seq<Row>) {
    && Distinct(found)
    && (forall x :: x in found ==> x in seen)
    && SortedByDist(Scores(c, t, found))
    && (|found| <= width || |found| <= 1)
    && (entry !in deleted ==> found != [])
  }

  predicate CanEndSearch(c: Config, s: State, t: Row, found: seq<Row>) {
    && t in s.nodes && t in s.pcs && s.pcs[t].Searching?
    && SearchResult(c, t, if s.pcs[t].lc > s.nodes[t].level then 1 else c.ef,
                    s.pcs[t].entry, s.pcs[t].seen, s.deleted, found)
  }

  function DoEndSearch(s: State, t: Row, found: seq<Row>): State
    requires t in s.pcs && s.pcs[t].Searching?
  {
    SetPc(s, t, Picking(s.pcs[t].entry, s.pcs[t].lc, found, 0))
  }

  /** Where the pass goes on once the layer's search and descent entry are settled. */
  function Proceed(c: Config, t: Row, level: nat, entry: Row, lc: nat, found: seq<Row>): Pc
    requires c.alpha > 0.0
  {
    if lc > level then Searching(entry, lc - 1, {entry})
    else Linking(entry, lc, Select(Scores(c, t, found), c.m, c.alpha, c.dist), 0, false, 0, Claim(0))
  }

  predicate CanPick(s: State, t: Row) {
    t in s.nodes && t in s.pcs && s.pcs[t].Picking?
  }

  /** One load of a found row's published flag, in nearest-first order. */
  function PickPc(c: Config, s: State, t: Row): Pc
    requires c.alpha > 0.0 && CanPick(s, t)
  {
    var pc := s.pcs[t];
    var level := s.nodes[t].level;
    if pc.k >= |pc.found| then Proceed(c, t, level, pc.entry, pc.lc, pc.found)
    else if IsPublished(s, pc.found[pc.k]) then Proceed(c, t, level, pc.found[pc.k], pc.lc, pc.found)
    else pc.(k := pc.k + 1)
  }

  function DoPick(c: Config, s: State, t: Row): State
    requires c.alpha > 0.0 && CanPick(s, t)
  {
    SetPc(s, t, PickPc(c, s, t))
  }

  // ---------------------------------------------------------------------------
  // Linking: claim_and_prune on the neighbour's list, then on the row's own
  // ---------------------------------------------------------------------------

  /** The list owner of the claim in progress. */
  function Owner(t: Row, pc: Pc): Row
    requires pc.Linking? && pc.j < |pc.chosen|
  {
    if pc.back then t else pc.chosen[pc.j]
  }

  /** The id being claimed. */
  function Claimed(t: Row, pc: Pc): Row
    requires pc.Linking? && pc.j < |pc.chosen|
  {
    if pc.back then pc.chosen[pc.j] else t
  }

  predicate AtLink(s: State, t: Row) {
    && t in s.nodes && t in s.pcs && s.pcs[t].Linking? && s.pcs[t].j < |s.pcs[t].chosen|
    && HasLayer(s, Owner(t, s.pcs[t]), s.pcs[t].lc)
  }

  /** The list the claim in progress works on. */
  function Target(s: State, t: Row): List
    requires AtLink(s, t)
  {
    ListAt(s, Owner(t, s.pcs[t]), s.pcs[t].lc)
  }

  predicate CanLinkEnd(s: State, t: Row) {
    t in s.pcs && s.pcs[t].Linking? && s.pcs[t].j >= |s.pcs[t].chosen|
  }

  function DoLinkEnd(s: State, t: Row): State
    requires CanLinkEnd(s, t)
  {
    var pc := s.pcs[t];
    SetPc(s, t, if pc.lc == 0 then Publishing else Searching(pc.entry, pc.lc - 1, {pc.entry}))
  }

  /** The chosen row is missing or does not reach this layer: skip it. */
  predicate CanLinkSkip(s: State, t: Row) {
    && t in s.pcs && s.pcs[t].Linking? && s.pcs[t].j < |s.pcs[t].chosen| && !s.pcs[t].back
    && !HasLayer(s, s.pcs[t].chosen[s.pcs[t].j], s.pcs[t].lc)
  }

  function DoLinkSkip(s: State, t: Row): State
    requires CanLinkSkip(s, t)
  {
    SetPc(s, t, s.pcs[t].(j := s.pcs[t].j + 1, attempt := 0, op := Claim(0)))
  }

  predicate CanClaim(s: State, t: Row) {
    AtLink(s, t) && s.pcs[t].op.Claim?
  }

  function DoClaim(s: State, t: Row): State
    requires CanClaim(s, t)
  {
    var pc := s.pcs[t];
    var l := Target(s, t);
    var i := pc.op.i;
    if i >= |l.slots| then SetPc(s, t, pc.(op := Scan(1, false, 0, [])))
    else if l.slots[i].Some? then SetPc(s, t, pc.(op := Claim(i + 1)))
    else
      var id := Claimed(t, pc);
      var l' := List(l.slots[i := Some(id)], l.ever[id := i]);
      SetPc(SetList(s, Owner(t, pc), pc.lc, l'), t, pc.(op := Scan(1, true, 0, [])))
  }

  /** The claim of `id` at this step enters the list. */
  predicate ClaimSucceeds(s: State, t: Row)
    requires CanClaim(s, t)
  {
    s.pcs[t].op.i < |Target(s, t).slots| && Target(s, t).slots[s.pcs[t].op.i].None?
  }

  /** The adjacency is settled: go on to the reciprocal claim or to the next neighbour. */
  function AfterClaim(pc: Pc): Pc
    requires pc.Linking?
  {
    if !pc.back then pc.(back := true, attempt := 0, op := Claim(0))
    else pc.(back := false, j := pc.j + 1, attempt := 0, op := Claim(0))
  }

  /** The members of a snapshot that the heuristic does not keep. */
  function ToRemove(c: Config, owner: Row, lc: nat, snap: seq<Row>): set<Row>
    requires c.alpha > 0.0
  {
    set x | x in snap && x !in Select(Scores(c, owner, snap), Capacity(c, lc), c.alpha, c.dist)
  }

  /** Over capacity, somebody is always left out of the selection. */
  lemma OverCapacityRemoves(c: Config, owner: Row, lc: nat, ids: seq<Row>)
    requires ValidConfig(c) && Distinct(ids) && |ids| > Capacity(c, lc)
    ensures ToRemove(c, owner, lc, ids) != {}
  {
    var sc := Scores(c, owner, ids);
    assert DistinctIds(sc);
    var k := SelectKeepsNearest(sc, Capacity(c, lc), c.alpha, c.dist);
    var keep := Select(sc, Capacity(c, lc), c.alpha, c.dist);
    MembersSize(ids);
    MembersSize(keep);
    if Members(ids) <= Members(keep) {
      SubsetSize(Members(ids), Members(keep));
      assert false;
    }
    var x :| x in Members(ids) && x !in Members(keep);
    assert x in ToRemove(c, owner, lc, ids);
  }

  /** The decision taken on a complete snapshot. */
  function Judge(c: Config, t: Row, pc: Pc): Pc
    requires c.alpha > 0.0 && pc.Linking? && pc.j < |pc.chosen| && pc.op.Scan?
  {
    var op := pc.op;
    if |op.snap| <= Capacity(c, pc.lc) then
      if op.claimed || Claimed(t, pc) in op.snap then AfterClaim(pc)
      else if pc.attempt + 1 < MAX_SHRINK_RETRIES then pc.(attempt := pc.attempt + 1, op := Claim(0))
      else Failed(false)
    else
      var rem := ToRemove(c, Owner(t, pc), pc.lc, op.snap);
      if rem == {} then Failed(true) else pc.(op := Clear(op.round, op.claimed, 0, rem))
  }

  predicate CanScan(s: State, t: Row) {
    AtLink(s, t) && s.pcs[t].op.Scan?
  }

  function Append(snap: seq<Row>, slot: Option<Row>): seq<Row> {
    match slot case None => snap case Some(x) => snap + [x]
  }

  function ScanPc(c: Config, s: State, t: Row): Pc
    requires c.alpha > 0.0 && CanScan(s, t)
  {
    var pc := s.pcs[t];
    var slots := Target(s, t).slots;
    if pc.op.i < |slots|
    then pc.(op := Scan(pc.op.round, pc.op.claimed, pc.op.i + 1, Append(pc.op.snap, slots[pc.op.i])))
    else Judge(c, t, pc)
  }

  function DoScan(c: Config, s: State, t: Row): State
    requires c.alpha > 0.0 && CanScan(s, t)
  {
    SetPc(s, t, ScanPc(c, s, t))
  }

  predicate CanClear(s: State, t: Row) {
    AtLink(s, t) && s.pcs[t].op.Clear?
  }

  function ClearPc(s: State, t: Row): Pc
    requires CanClear(s, t)
  {
    var pc := s.pcs[t];
    var op := pc.op;
    var slots := Target(s, t).slots;
    if op.i < |slots| then
      if slots[op.i].Some? && slots[op.i].value in op.rem
      then pc.(op := Cas(op.round, op.claimed, op.i, op.rem, slots[op.i].value))
      else pc.(op := Clear(op.round, op.claimed, op.i + 1, op.rem))
    else if op.round >= MAX_SHRINK_RETRIES then Failed(false)
    else pc.(op := Scan(op.round + 1, op.claimed, 0, []))
  }

  function DoClear(s: State, t: Row): State
    requires CanClear(s, t)
  {
    SetPc(s, t, ClearPc(s, t))
  }

  predicate CanCas(s: State, t: Row) {
    AtLink(s, t) && s.pcs[t].op.Cas? && s.pcs[t].op.i < |Target(s, t).slots|
  }

  function DoCas(s: State, t: Row): State
    requires CanCas(s, t)
  {
    var pc := s.pcs[t];
    var op := pc.op;
    var l := Target(s, t);
    var s1 := if l.slots[op.i] == Some(op.cur)
              then SetList(s, Owner(t, pc), pc.lc, l.(slots := l.slots[op.i := None])) else s;
    SetPc(s1, t, pc.(op := Clear(op.round, op.claimed, op.i + 1, op.rem)))
  }

  // ---------------------------------------------------------------------------
  // Steps and runs
  // ---------------------------------------------------------------------------

  datatype Step =
    | Insert(t: Row, level: nat)
    | ClaimEntry(t: Row)
    | PublishFirst(t: Row)
    | Wait(t: Row)
    | Load(t: Row, x: Row, i: nat)
    | EndSearch(t: Row, found: seq<Row>)
    | Pick(t: Row)
    | LinkEnd(t: Row)
    | LinkSkip(t: Row)
    | ClaimSlot(t: Row)
    | ScanSlot(t: Row)
    | ClearSlot(t: Row)
    | CasSlot(t: Row)
    | Publish(t: Row)
    | Advance(t: Row)
    | CasEntry(t: Row)
    | Delete(x: Row)

  predicate Enabled(c: Config, s: State, step: Step) {
    match step
    case Insert(t, level) => CanInsert(s, t, level)
    case ClaimEntry(t) => CanClaimEntry(s, t)
    case PublishFirst(t) => CanPublishFirst(s, t)
    case Wait(t) => CanWait(s, t)
    case Load(t, x, i) => CanLoad(s, t, x, i)
    case EndSearch(t, found) => CanEndSearch(c, s, t, found)
    case Pick(t) => CanPick(s, t)
    case LinkEnd(t) => CanLinkEnd(s, t)
    case LinkSkip(t) => CanLinkSkip(s, t)
    case ClaimSlot(t) => CanClaim(s, t)
    case ScanSlot(t) => CanScan(s, t)
    case ClearSlot(t) => CanClear(s, t)
    case CasSlot(t) => CanCas(s, t)
    case Publish(t) => CanPublish(s, t)
    case Advance(t) => CanAdvance(s, t)
    case CasEntry(t) => CanAdvanceCas(s, t)
    case Delete(x) => CanDelete(s, x)
  }

  function Apply(c: Config, s: State, step: Step): State
    requires ValidConfig(c) && Enabled(c, s, step)
  {
    match step
    case Insert(t, level) => DoInsert(c, s, t, level)
    case ClaimEntry(t) => DoClaimEntry(s, t)
    case PublishFirst(t) => DoPublishFirst(s, t)
    case Wait(t) => DoWait(s, t)
    case Load(t, x, i) => DoLoad(s, t, x, i)
    case EndSearch(t, found) => DoEndSearch(s, t, found)
    case Pick(t) => DoPick(c, s, t)
    case LinkEnd(t) => DoLinkEnd(s, t)
    case LinkSkip(t) => DoLinkSkip(s, t)
    case ClaimSlot(t) => DoClaim(s, t)
    case ScanSlot(t) => DoScan(c, s, t)
    case ClearSlot(t) => DoClear(s, t)
    case CasSlot(t) => DoCas(s, t)
    case Publish(t) => DoPublish(s, t)
    case Advance(t) => DoAdvance(s, t)
    case CasEntry(t) => DoAdvanceCas(s, t)
    case Delete(x) => DoDelete(s, x)
  }

  /** Step `i` leads from state `i` to state `i + 1`. */
  predicate StepAt(c: Config, run: seq<State>, steps: seq<Step>, i: nat)
    requires ValidConfig(c) && |run| == |steps| + 1 && i < |steps|
  {
    Enabled(c, run[i], steps[i]) && run[i + 1] == Apply(c, run[i], steps[i])
  }

  /** A run from the empty graph: any steps of any inserts, in any order. */
  predicate IsRun(c: Config, run: seq<State>, steps: seq<Step>) {
    && ValidConfig(c)
    && |run| == |steps| + 1 && run[0] == EmptyGraph
    && forall i :: 0 <= i < |steps| ==> StepAt(c, run, steps, i)
  }

  /** No insert is in progress any more. */
  predicate Quiescent(s: State) {
    forall t :: t in s.pcs ==> s.pcs[t].Done? || s.pcs[t].Failed?
  }

  predicate AllOk(s: State) {
    forall t :: t in s.pcs ==> !s.pcs[t].Failed?
  }
}
