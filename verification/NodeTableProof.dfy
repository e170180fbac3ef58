/** What every run of the table keeps, and what follows for its whole life, drop included. */
module NodeTableProof {
  import opened Common
  import opened NodeTable

  // ---------------------------------------------------------------------------
  // Counting the values of a chunk
  // ---------------------------------------------------------------------------

  lemma {:induction false} NoValues(slots: seq<Option<nat>>)
    requires forall o :: 0 <= o < |slots| ==> slots[o].None?
    ensures Values(slots) == multiset{}
  {
    if slots != [] { NoValues(slots[..|slots| - 1]); }
  }

  lemma {:induction false} AbsentValue(slots: seq<Option<nat>>, v: nat)
    requires forall o :: 0 <= o < |slots| ==> slots[o] != Some(v)
    ensures Values(slots)[v] == 0
  {
    if slots != [] { AbsentValue(slots[..|slots| - 1], v); }
  }

  /** A value in exactly one slot counts once. */
  lemma {:induction false} ValueOnce(slots: seq<Option<nat>>, v: nat, at: nat)
    requires at < |slots| && slots[at] == Some(v)
    requires forall o :: 0 <= o < |slots| && o != at ==> slots[o] != Some(v)
    ensures Values(slots)[v] == 1
  {
    var front := slots[..|slots| - 1];
    if at == |slots| - 1 {
      AbsentValue(front, v);
    } else {
      ValueOnce(front, v, at);
    }
  }

  lemma {:induction false} OnlyValues(slots: seq<Option<nat>>, v: nat)
    requires v in Values(slots)
    ensures exists o :: 0 <= o < |slots| && slots[o] == Some(v)
  {
    if forall o :: 0 <= o < |slots| ==> slots[o] != Some(v) { AbsentValue(slots, v); }
  }

  lemma RowsDiffer(row: nat, other: nat)
    requires ChunkOf(row) == ChunkOf(other) && OffsetOf(row) == OffsetOf(other)
    ensures row == other
  {
  }

  lemma Located(home: nat, o: nat)
    requires o < CHUNK_SIZE
    ensures ChunkOf(home * CHUNK_SIZE + o) == home && OffsetOf(home * CHUNK_SIZE + o) == o
  {
  }

  // ---------------------------------------------------------------------------
  // Every step keeps the invariant
  // ---------------------------------------------------------------------------

  lemma InitInv(rows: seq<nat>)
    ensures Inv(rows, Init(rows))
  {
  }

  lemma {:induction false} LoadPcs(rows: seq<nat>, s: State, i: nat)
    requires Inv(rows, s) && Enabled(s, Load(i))
    ensures Shape(rows, DoLoad(rows, s, i)) && PcsOk(rows, DoLoad(rows, s, i)) && CountsOk(rows, DoLoad(rows, s, i))
  {
    LoadShape(rows, s, i);
    forall j | 0 <= j < |s.pcs| ensures PcOk(rows, DoLoad(rows, s, i), j) { LoadPc(rows, s, i, j); }
  }

  lemma {:induction false} LoadShape(rows: seq<nat>, s: State, i: nat)
    requires Shape(rows, s) && CountsOk(rows, s) && Enabled(s, Load(i))
    ensures Shape(rows, DoLoad(rows, s, i)) && CountsOk(rows, DoLoad(rows, s, i))
  {
  }

  lemma {:induction false} LoadPc(rows: seq<nat>, s: State, i: nat, j: nat)
    requires Shape(rows, s) && Enabled(s, Load(i)) && j < |s.pcs| && PcOk(rows, s, j) && Shape(rows, DoLoad(rows, s, i))
    ensures PcOk(rows, DoLoad(rows, s, i), j)
  {
  }

  lemma {:induction false} LoadInv(rows: seq<nat>, s: State, i: nat)
    requires Inv(rows, s) && Enabled(s, Load(i))
    ensures Inv(rows, DoLoad(rows, s, i))
  {
    var t := DoLoad(rows, s, i);
    LoadPcs(rows, s, i);
    forall k | 0 <= k < |t.dir| ensures DirOk(t, k) { assert DirOk(s, k); }
    forall ch | 0 <= ch < |t.chunks| ensures ChunkOk(rows, t, ch) {
      assert ChunkOk(rows, s, ch);
      forall o | 0 <= o < CHUNK_SIZE ensures SlotOk(rows, t, ch, o) { assert SlotOk(rows, s, ch, o); }
    }
  }

  lemma {:induction false} AllocateInv(rows: seq<nat>, s: State, i: nat)
    requires Inv(rows, s) && Enabled(s, Allocate(i))
    ensures Inv(rows, DoAllocate(rows, s, i))
  {
    var t := DoAllocate(rows, s, i);
    assert forall ch :: 0 <= ch < |s.chunks| ==> t.chunks[ch] == s.chunks[ch];
    forall k | 0 <= k < |t.dir| ensures DirOk(t, k) { assert DirOk(s, k); }
    forall j | 0 <= j < |t.pcs| ensures PcOk(rows, t, j) { assert PcOk(rows, s, j); }
    forall ch | 0 <= ch < |t.chunks| ensures ChunkOk(rows, t, ch) {
      if ch < |s.chunks| { assert ChunkOk(rows, s, ch); }
      forall o | 0 <= o < CHUNK_SIZE ensures SlotOk(rows, t, ch, o) {
        if ch < |s.chunks| { assert SlotOk(rows, s, ch, o); }
      }
    }
  }

  lemma {:induction false} PublishShape(rows: seq<nat>, s: State, i: nat)
    requires Inv(rows, s) && Enabled(s, Publish(i))
    ensures var t := DoPublish(rows, s, i);
      && Shape(rows, t) && DirsOk(t) && CountsOk(rows, t)
  {
    var t := DoPublish(rows, s, i);
    assert PcOk(rows, s, i) && DirOk(s, ChunkOf(rows[i]));
    NoValues(s.chunks[s.pcs[i].chunk].slots);
    forall l | 0 <= l < |t.dir| ensures DirOk(t, l) { assert DirOk(s, l); }
  }

  lemma {:induction false} PublishPc(rows: seq<nat>, s: State, i: nat, j: nat)
    requires Inv(rows, s) && Enabled(s, Publish(i)) && j < |s.pcs| && Shape(rows, DoPublish(rows, s, i))
    ensures PcOk(rows, DoPublish(rows, s, i), j)
  {
    assert PcOk(rows, s, i) && PcOk(rows, s, j) && DirOk(s, ChunkOf(rows[i]));
  }

  lemma {:induction false} PublishChunk(rows: seq<nat>, s: State, i: nat, ch: nat)
    requires Inv(rows, s) && Enabled(s, Publish(i)) && ch < |s.chunks| && Shape(rows, DoPublish(rows, s, i))
    ensures ChunkOk(rows, DoPublish(rows, s, i), ch)
  {
    var t := DoPublish(rows, s, i);
    var k, mine := ChunkOf(rows[i]), s.pcs[i].chunk;
    assert PcOk(rows, s, i) && DirOk(s, k) && ChunkOk(rows, s, mine) && ChunkOk(rows, s, ch);
    forall o | 0 <= o < CHUNK_SIZE ensures SlotOk(rows, t, ch, o) { assert SlotOk(rows, s, ch, o); }
  }

  lemma {:induction false} PublishInv(rows: seq<nat>, s: State, i: nat)
    requires Inv(rows, s) && Enabled(s, Publish(i))
    ensures Inv(rows, DoPublish(rows, s, i))
  {
    PublishShape(rows, s, i);
    forall j | 0 <= j < |s.pcs| ensures PcOk(rows, DoPublish(rows, s, i), j) { PublishPc(rows, s, i, j); }
    forall ch | 0 <= ch < |s.chunks| ensures ChunkOk(rows, DoPublish(rows, s, i), ch) { PublishChunk(rows, s, i, ch); }
  }

  lemma {:induction false} StorePc(rows: seq<nat>, s: State, i: nat, j: nat)
    requires Inv(rows, s) && Enabled(s, Store(i)) && j < |s.pcs| && Shape(rows, DoStore(rows, s, i))
    ensures PcOk(rows, DoStore(rows, s, i), j)
  {
    assert PcOk(rows, s, i) && PcOk(rows, s, j) && DirOk(s, ChunkOf(rows[i]));
    assert ChunkOk(rows, s, s.pcs[i].chunk) && SlotOk(rows, s, s.pcs[i].chunk, OffsetOf(rows[i]));
    var k := ChunkOf(rows[j]);
    if k < |s.dir| { assert DirOk(s, k); }
    if ChunkOf(rows[i]) == k && OffsetOf(rows[i]) == OffsetOf(rows[j]) { RowsDiffer(rows[i], rows[j]); }
  }

  lemma {:induction false} StoreSlot(rows: seq<nat>, s: State, i: nat, ch: nat, o: nat)
    requires Inv(rows, s) && Enabled(s, Store(i)) && ch < |s.chunks| && o < CHUNK_SIZE && Shape(rows, DoStore(rows, s, i))
    ensures SlotOk(rows, DoStore(rows, s, i), ch, o)
  {
    assert PcOk(rows, s, i) && DirOk(s, ChunkOf(rows[i])) && ChunkOk(rows, s, ch) && SlotOk(rows, s, ch, o);
  }

  lemma {:induction false} StoreShape(rows: seq<nat>, s: State, i: nat)
    requires Inv(rows, s) && Enabled(s, Store(i))
    ensures Shape(rows, DoStore(rows, s, i))
  {
  }

  lemma {:induction false} StoreInv(rows: seq<nat>, s: State, i: nat)
    requires Inv(rows, s) && Enabled(s, Store(i))
    ensures Inv(rows, DoStore(rows, s, i))
  {
    var t := DoStore(rows, s, i);
    StoreShape(rows, s, i);
    forall j | 0 <= j < |t.pcs| ensures PcOk(rows, t, j) { StorePc(rows, s, i, j); }
    forall l | 0 <= l < |t.dir| ensures DirOk(t, l) { assert DirOk(s, l); }
    forall ch | 0 <= ch < |t.chunks| ensures ChunkOk(rows, t, ch) {
      assert ChunkOk(rows, s, ch);
      forall o | 0 <= o < CHUNK_SIZE ensures SlotOk(rows, t, ch, o) { StoreSlot(rows, s, i, ch, o); }
    }
  }

  lemma {:induction false} DropCounts(rows: seq<nat>, s: State)
    requires Inv(rows, s) && Enabled(s, DropNext)
    ensures Shape(rows, DoDropNext(s)) && CountsOk(rows, DoDropNext(s))
  {
    var t, k := DoDropNext(s), s.phase.next;
    assert DirOk(s, k);
    forall j | 0 <= j < |t.pcs| ensures t.reclaimed[j] == Reclaims(rows, t, j) {
      if s.dir[k].Some? { ChunkReclaims(rows, s, k, j); }
      assert PcOk(rows, s, j) && Finished(s.pcs[j]);
    }
    forall v | v in t.reclaimed ensures v < |t.pcs| {
      if v !in s.reclaimed {
        var ch := s.dir[k].value;
        OnlyValues(s.chunks[ch].slots, v);
        var o :| 0 <= o < |s.chunks[ch].slots| && s.chunks[ch].slots[o] == Some(v);
        assert ChunkOk(rows, s, ch) && SlotOk(rows, s, ch, o);
      }
    }
  }

  lemma {:induction false} DropNextInv(rows: seq<nat>, s: State)
    requires Inv(rows, s) && Enabled(s, DropNext)
    ensures Inv(rows, DoDropNext(s))
  {
    var t, k := DoDropNext(s), s.phase.next;
    DropCounts(rows, s);
    assert DirOk(s, k);
    forall j | 0 <= j < |t.pcs| ensures PcOk(rows, t, j) { assert PcOk(rows, s, j); }
    forall l | 0 <= l < |t.dir| ensures DirOk(t, l) { assert DirOk(s, l); }
    forall ch | 0 <= ch < |t.chunks| ensures ChunkOk(rows, t, ch) {
      assert ChunkOk(rows, s, ch);
      forall o | 0 <= o < CHUNK_SIZE ensures SlotOk(rows, t, ch, o) { assert SlotOk(rows, s, ch, o); }
    }
  }

  /** The chunk at directory slot `k` holds exactly the stored values of its own rows, each once. */
  lemma ChunkReclaims(rows: seq<nat>, s: State, k: nat, v: nat)
    requires Inv(rows, s) && k < |s.dir| && s.dir[k].Some? && v < |s.pcs|
    ensures Values(s.chunks[s.dir[k].value].slots)[v] == if s.pcs[v].Stored? && ChunkOf(rows[v]) == k then 1 else 0
  {
    var ch := s.dir[k].value;
    var slots := s.chunks[ch].slots;
    assert DirOk(s, k) && ChunkOk(rows, s, ch) && PcOk(rows, s, v);
    if s.pcs[v].Stored? && ChunkOf(rows[v]) == k {
      forall o | 0 <= o < |slots| && o != OffsetOf(rows[v]) ensures slots[o] != Some(v) {
        assert SlotOk(rows, s, ch, o);
        Located(k, o);
      }
      ValueOnce(slots, v, OffsetOf(rows[v]));
    } else {
      forall o | 0 <= o < |slots| ensures slots[o] != Some(v) {
        assert SlotOk(rows, s, ch, o);
        Located(k, o);
      }
      AbsentValue(slots, v);
    }
  }

  lemma {:induction false} StepInv(rows: seq<nat>, s: State, step: Step)
    requires Inv(rows, s) && Enabled(s, step)
    ensures Inv(rows, Apply(rows, s, step))
  {
    match step
    case Load(i) => LoadInv(rows, s, i);
    case Allocate(i) => AllocateInv(rows, s, i);
    case Publish(i) => PublishInv(rows, s, i);
    case Store(i) => StoreInv(rows, s, i);
    case StartDrop => StartDropInv(rows, s);
    case DropNext => DropNextInv(rows, s);
  }

  lemma {:induction false} StartDropInv(rows: seq<nat>, s: State)
    requires Inv(rows, s) && Enabled(s, StartDrop)
    ensures Inv(rows, s.(phase := Dropping(0)))
  {
    var t := s.(phase := Dropping(0));
    forall j | 0 <= j < |t.pcs| ensures PcOk(rows, t, j) { assert PcOk(rows, s, j); }
    forall l | 0 <= l < |t.dir| ensures DirOk(t, l) { assert DirOk(s, l); }
    forall ch | 0 <= ch < |t.chunks| ensures ChunkOk(rows, t, ch) {
      assert ChunkOk(rows, s, ch);
      forall o | 0 <= o < CHUNK_SIZE ensures SlotOk(rows, t, ch, o) { assert SlotOk(rows, s, ch, o); }
    }
  }

  // ---------------------------------------------------------------------------
  // Runs
  // ---------------------------------------------------------------------------

  predicate StepAt(rows: seq<nat>, run: seq<State>, steps: seq<Step>, i: nat)
    requires |run| == |steps| + 1 && i < |steps|
  {
    Shape(rows, run[i]) && Enabled(run[i], steps[i]) && run[i + 1] == Apply(rows, run[i], steps[i])
  }

  /** A run from the new table: any steps of any calls in any order, and possibly the drop. */
  predicate IsRun(rows: seq<nat>, run: seq<State>, steps: seq<Step>) {
    && |run| == |steps| + 1 && run[0] == Init(rows)
    && forall i :: 0 <= i < |steps| ==> StepAt(rows, run, steps, i)
  }

  lemma {:induction false} RunInv(rows: seq<nat>, run: seq<State>, steps: seq<Step>, k: nat)
    requires IsRun(rows, run, steps) && k < |run|
    ensures Inv(rows, run[k])
  {
    if k == 0 {
      InitInv(rows);
    } else {
      RunInv(rows, run, steps, k - 1);
      assert StepAt(rows, run, steps, k - 1);
      StepInv(rows, run[k - 1], steps[k - 1]);
    }
  }

  /** What a step does to the map: nothing, or a new entry for the row of a successful insert. */
  lemma {:induction false} StepOnMap(rows: seq<nat>, s: State, step: Step, row: nat)
    requires Inv(rows, s) && Enabled(s, step) && Inv(rows, Apply(rows, s, step))
    ensures var t := Apply(rows, s, step);
      && (step.Store? && rows[step.i] == row && Get(s, row).None? ==> Get(t, row) == Some(step.i) && t.pcs[step.i].Stored?)
      && (!(step.Store? && rows[step.i] == row && Get(s, row).None?) ==> Get(t, row) == Get(s, row))
  {
    if step.Store? {
      StoreOnMap(rows, s, step.i, row);
    } else {
      var k := ChunkOf(row);
      if k < |s.dir| { assert DirOk(s, k); }
      if step.Publish? { assert PcOk(rows, s, step.i); }
    }
  }

  lemma {:induction false} StoreOnMap(rows: seq<nat>, s: State, i: nat, row: nat)
    requires Inv(rows, s) && Enabled(s, Store(i)) && Inv(rows, DoStore(rows, s, i))
    ensures var t := DoStore(rows, s, i);
      if rows[i] == row && Get(s, row).None?
      then Get(t, row) == Some(i) && t.pcs[i].Stored?
      else Get(t, row) == Get(s, row)
  {
    var k := ChunkOf(row);
    assert PcOk(rows, s, i) && DirOk(s, ChunkOf(rows[i]));
    if k < |s.dir| { assert DirOk(s, k); }
    if k == ChunkOf(rows[i]) && OffsetOf(row) == OffsetOf(rows[i]) { RowsDiffer(row, rows[i]); }
  }

  // ---------------------------------------------------------------------------
  // Theorems
  // ---------------------------------------------------------------------------

  /**
   The table refines a write-once map: a run's every step leaves the map alone or binds one unbound row,
   to the value of the call that made the step and then reports success.
   */
  lemma {:induction false} WriteOnceMap(rows: seq<nat>, run: seq<State>, steps: seq<Step>, k: nat, row: nat)
    requires IsRun(rows, run, steps) && k < |steps|
    ensures Inv(rows, run[k]) && Inv(rows, run[k + 1])
    ensures Get(run[k + 1], row) == Get(run[k], row)
         || (Get(run[k], row).None? && steps[k].Store? && steps[k].i < |rows| && rows[steps[k].i] == row
             && Get(run[k + 1], row) == Some(steps[k].i) && run[k + 1].pcs[steps[k].i].Stored?)
  {
    RunInv(rows, run, steps, k);
    RunInv(rows, run, steps, k + 1);
    assert StepAt(rows, run, steps, k);
    StepOnMap(rows, run[k], steps[k], row);
  }

  /** A published value never changes. */
  lemma {:induction false} PublishedForever(rows: seq<nat>, run: seq<State>, steps: seq<Step>, a: nat, b: nat, row: nat)
    requires IsRun(rows, run, steps) && a <= b < |run| && Inv(rows, run[a]) && Get(run[a], row).Some?
    ensures Inv(rows, run[b]) && Get(run[b], row) == Get(run[a], row)
    decreases b
  {
    if a < b {
      PublishedForever(rows, run, steps, a, b - 1, row);
      WriteOnceMap(rows, run, steps, b - 1, row);
    }
  }

  /** Of all inserts of one row at most one succeeds. */
  lemma {:induction false} OneSuccessPerRow(rows: seq<nat>, run: seq<State>, steps: seq<Step>, k: nat, i: nat, j: nat)
    requires IsRun(rows, run, steps) && k < |run| && i < |rows| && j < |rows| && i != j && rows[i] == rows[j]
    ensures |run[k].pcs| == |rows| && !(run[k].pcs[i].Stored? && run[k].pcs[j].Stored?)
  {
    RunInv(rows, run, steps, k);
    assert PcOk(rows, run[k], i) && PcOk(rows, run[k], j);
  }

  /** What a finished call reports is true of the map. */
  lemma {:induction false} OutcomesAreTrue(rows: seq<nat>, run: seq<State>, steps: seq<Step>, k: nat, i: nat)
    requires IsRun(rows, run, steps) && k < |run| && i < |rows|
    ensures Inv(rows, run[k])
    ensures run[k].pcs[i].Stored? ==> Get(run[k], rows[i]) == Some(i)
    ensures run[k].pcs[i].Occupied? ==>
      exists j :: 0 <= j < |rows| && j != i && rows[j] == rows[i] && run[k].pcs[j].Stored? && Get(run[k], rows[i]) == Some(j)
    ensures Finished(run[k].pcs[i]) && !run[k].pcs[i].Idle? ==> (run[k].pcs[i].TooLarge? <==> rows[i] >= NUM_CHUNKS * CHUNK_SIZE)
  {
    RunInv(rows, run, steps, k);
    var s := run[k];
    assert PcOk(rows, s, i);
    if s.pcs[i].Occupied? {
      var c, o := ChunkOf(rows[i]), OffsetOf(rows[i]);
      assert DirOk(s, c) && ChunkOk(rows, s, s.dir[c].value) && SlotOk(rows, s, s.dir[c].value, o);
      var j := Get(s, rows[i]).value;
      assert rows[j] == rows[i];
    }
  }

  /** Racing allocations publish one chunk: a directory slot, once set, never changes. */
  lemma {:induction false} OneChunkPerSlot(rows: seq<nat>, run: seq<State>, steps: seq<Step>, a: nat, b: nat, c: nat)
    requires IsRun(rows, run, steps) && a <= b < |run| && c < NUM_CHUNKS && |run[a].dir| == NUM_CHUNKS && run[a].dir[c].Some?
    ensures |run[b].dir| == NUM_CHUNKS && run[b].dir[c] == run[a].dir[c]
    decreases b
  {
    RunInv(rows, run, steps, b);
    if a < b {
      OneChunkPerSlot(rows, run, steps, a, b - 1, c);
      assert StepAt(rows, run, steps, b - 1);
    }
  }

  /** Nothing in use is ever freed: neither the chunk a call holds nor a value the table still answers with. */
  lemma {:induction false} NoUseAfterFree(rows: seq<nat>, run: seq<State>, steps: seq<Step>, k: nat, i: nat)
    requires IsRun(rows, run, steps) && k < |run| && i < |rows|
    ensures var s := run[k];
      && Inv(rows, s)
      && (s.pcs[i].Private? || s.pcs[i].Holding? ==> s.freed[s.pcs[i].chunk] == 0)
      && (s.phase.Live? && Get(s, rows[i]).Some? ==> s.reclaimed[Get(s, rows[i]).value] == 0)
      && s.reclaimed[i] <= 1
  {
    RunInv(rows, run, steps, k);
    var s, c := run[k], ChunkOf(rows[i]);
    assert PcOk(rows, s, i);
    if s.pcs[i].Private? || s.pcs[i].Holding? { assert ChunkOk(rows, s, s.pcs[i].chunk); }
    if s.pcs[i].Holding? { assert DirOk(s, c); }
    if Get(s, rows[i]).Some? {
      assert DirOk(s, c) && ChunkOk(rows, s, s.dir[c].value) && SlotOk(rows, s, s.dir[c].value, OffsetOf(rows[i]));
    }
  }

  /**
   Over the table's whole life, drop included: every value moved in by a call is reclaimed exactly once,
   stored or rejected, and every chunk ever allocated is freed exactly once, published or a loser.
   */
  lemma {:induction false} EverythingReclaimedOnce(rows: seq<nat>, run: seq<State>, steps: seq<Step>, k: nat)
    requires IsRun(rows, run, steps) && k < |run| && run[k].phase == Dropping(NUM_CHUNKS)
    ensures |run[k].pcs| == |rows|
    ensures forall i :: 0 <= i < |rows| ==> run[k].reclaimed[i] == if run[k].pcs[i].Idle? then 0 else 1
    ensures forall ch :: 0 <= ch < |run[k].chunks| ==> run[k].freed[ch] == 1
    ensures forall v :: v in run[k].reclaimed ==> v < |rows|
    ensures forall ch :: ch in run[k].freed ==> ch < |run[k].chunks|
  {
    RunInv(rows, run, steps, k);
    var s := run[k];
    forall i | 0 <= i < |rows| ensures s.reclaimed[i] == if s.pcs[i].Idle? then 0 else 1 {
      assert PcOk(rows, s, i) && Finished(s.pcs[i]);
    }
    forall ch | 0 <= ch < |s.chunks| ensures s.freed[ch] == 1 {
      assert ChunkOk(rows, s, ch);
      if s.chunks[ch].maker < |s.pcs| { assert Finished(s.pcs[s.chunks[ch].maker]); }
    }
  }
}
