/**
 The chunked write-once `NodeTable` as a transition system: any number of `insert` calls at
 once, each transition one atomic load or compare-exchange of the directory or of a slot, then
 the table's exclusive drop. Call `i` inserts its own value, called `i` too, at row `rows[i]`.
 What is freed and reclaimed is counted, so that once and twice can be told apart.
 */
module NodeTable {
  import opened Common

  const CHUNK_SIZE: nat := 65536
  const MAX_ROW_ID_CAPACITY: nat := 1_000_000_000

  /** Length of the directory: enough chunks for every row id below the ceiling. */
  const NUM_CHUNKS: nat := (MAX_ROW_ID_CAPACITY + CHUNK_SIZE - 1) / CHUNK_SIZE

  function ChunkOf(row: nat): nat { row / CHUNK_SIZE }

  function OffsetOf(row: nat): (r: nat)
    ensures r < CHUNK_SIZE
  {
    row % CHUNK_SIZE
  }

  /** A chunk, with the directory index and the call it was allocated for. */
  datatype Chunk = Chunk(home: nat, maker: nat, slots: seq<Option<nat>>)

  datatype Pc =
    | Idle               // not called yet
    | Missing            // loaded a null directory slot
    | Private(chunk: nat) // allocated a chunk, not published
    | Holding(chunk: nat) // has the published chunk, next: CAS of the slot
    | Stored
    | Occupied           // rejected, the row was taken
    | TooLarge           // rejected, the row is beyond the directory

  datatype Phase = Live | Dropping(next: nat)

  /** `reclaimed` counts the values, `freed` the chunks. */
  datatype State = State(
    dir: seq<Option<nat>>, chunks: seq<Chunk>, pcs: seq<Pc>, reclaimed: multiset<nat>, freed: multiset<nat>, phase: Phase)

  function Init(rows: seq<nat>): State {
    State(seq(NUM_CHUNKS, _ => None), [], seq(|rows|, _ => Idle), multiset{}, multiset{}, Live)
  }

  // ---------------------------------------------------------------------------
  // Steps
  // ---------------------------------------------------------------------------

  predicate Shape(rows: seq<nat>, s: State) {
    && |s.dir| == NUM_CHUNKS && |s.pcs| == |rows|
    && (forall ch :: 0 <= ch < |s.chunks| ==> |s.chunks[ch].slots| == CHUNK_SIZE)
    && (forall k :: 0 <= k < |s.dir| ==> s.dir[k].Some? ==> s.dir[k].value < |s.chunks|)
    && (forall i :: 0 <= i < |s.pcs| ==> s.pcs[i].Private? || s.pcs[i].Holding? ==> s.pcs[i].chunk < |s.chunks|)
    && (forall i :: 0 <= i < |s.pcs| ==> s.pcs[i].Missing? || s.pcs[i].Private? ==> ChunkOf(rows[i]) < NUM_CHUNKS)
  }

  datatype Step =
    | Load(i: nat)      // bounds check and load of the directory slot
    | Allocate(i: nat)
    | Publish(i: nat)   // CAS of the directory slot; the loser drops its chunk
    | Store(i: nat)     // CAS of the slot; the loser reclaims its value
    | StartDrop
    | DropNext          // the table's drop reaches the next directory slot

  predicate Finished(pc: Pc) {
    pc.Idle? || pc.Stored? || pc.Occupied? || pc.TooLarge?
  }

  predicate Enabled(s: State, step: Step) {
    match step
    case Load(i) => s.phase.Live? && i < |s.pcs| && s.pcs[i].Idle?
    case Allocate(i) => s.phase.Live? && i < |s.pcs| && s.pcs[i].Missing?
    case Publish(i) => s.phase.Live? && i < |s.pcs| && s.pcs[i].Private?
    case Store(i) => s.phase.Live? && i < |s.pcs| && s.pcs[i].Holding?
    case StartDrop => s.phase.Live? && forall i :: 0 <= i < |s.pcs| ==> Finished(s.pcs[i])
    case DropNext => s.phase.Dropping? && s.phase.next < |s.dir|
  }

  /** The values a chunk's slots hold. */
  function Values(slots: seq<Option<nat>>): multiset<nat> {
    if slots == [] then multiset{}
    else
      var last := slots[|slots| - 1];
      Values(slots[..|slots| - 1]) + (if last.Some? then multiset{last.value} else multiset{})
  }

  /** Dropping a chunk reclaims every value its slots hold and frees it. */
  function DropChunk(s: State, ch: nat): State
    requires ch < |s.chunks|
  {
    s.(reclaimed := s.reclaimed + Values(s.chunks[ch].slots), freed := s.freed + multiset{ch})
  }

  function Apply(rows: seq<nat>, s: State, step: Step): State
    requires Shape(rows, s) && Enabled(s, step)
  {
    match step
    case Load(i) => DoLoad(rows, s, i)
    case Allocate(i) => DoAllocate(rows, s, i)
    case Publish(i) => DoPublish(rows, s, i)
    case Store(i) => DoStore(rows, s, i)
    case StartDrop => s.(phase := Dropping(0))
    case DropNext => DoDropNext(s)
  }

  function DoLoad(rows: seq<nat>, s: State, i: nat): State
    requires Shape(rows, s) && Enabled(s, Load(i))
  {
    var k := ChunkOf(rows[i]);
    if k >= |s.dir| then s.(pcs := s.pcs[i := TooLarge], reclaimed := s.reclaimed + multiset{i})
    else if s.dir[k].Some? then s.(pcs := s.pcs[i := Holding(s.dir[k].value)])
    else s.(pcs := s.pcs[i := Missing])
  }

  function DoAllocate(rows: seq<nat>, s: State, i: nat): State
    requires Shape(rows, s) && Enabled(s, Allocate(i))
  {
    var chunk := Chunk(ChunkOf(rows[i]), i, seq(CHUNK_SIZE, _ => None));
    s.(chunks := s.chunks + [chunk], pcs := s.pcs[i := Private(|s.chunks|)])
  }

  function DoPublish(rows: seq<nat>, s: State, i: nat): State
    requires Shape(rows, s) && Enabled(s, Publish(i))
  {
    var k, ch := ChunkOf(rows[i]), s.pcs[i].chunk;
    if s.dir[k].None? then s.(dir := s.dir[k := Some(ch)], pcs := s.pcs[i := Holding(ch)])
    else DropChunk(s, ch).(pcs := s.pcs[i := Holding(s.dir[k].value)])
  }

  function DoStore(rows: seq<nat>, s: State, i: nat): State
    requires Shape(rows, s) && Enabled(s, Store(i))
  {
    var ch, o := s.pcs[i].chunk, OffsetOf(rows[i]);
    var chunk := s.chunks[ch];
    if chunk.slots[o].None? then
      s.(chunks := s.chunks[ch := chunk.(slots := chunk.slots[o := Some(i)])], pcs := s.pcs[i := Stored])
    else s.(pcs := s.pcs[i := Occupied], reclaimed := s.reclaimed + multiset{i})
  }

  function DoDropNext(s: State): State
    requires Enabled(s, DropNext)
    requires forall k :: 0 <= k < |s.dir| ==> s.dir[k].Some? ==> s.dir[k].value < |s.chunks|
  {
    var k := s.phase.next;
    var after := if s.dir[k].Some? then DropChunk(s, s.dir[k].value) else s;
    after.(phase := Dropping(k + 1))
  }

  // ---------------------------------------------------------------------------
  // The table as a map
  // ---------------------------------------------------------------------------

  /** `get`: the value at `row`, if its chunk exists and its slot is set. */
  function Get(s: State, row: nat): Option<nat>
    requires |s.dir| == NUM_CHUNKS
    requires forall ch :: 0 <= ch < |s.chunks| ==> |s.chunks[ch].slots| == CHUNK_SIZE
    requires forall k :: 0 <= k < |s.dir| ==> s.dir[k].Some? ==> s.dir[k].value < |s.chunks|
  {
    var k := ChunkOf(row);
    if k >= |s.dir| || s.dir[k].None? then None else s.chunks[s.dir[k].value].slots[OffsetOf(row)]
  }

  // ---------------------------------------------------------------------------
  // Invariant
  // ---------------------------------------------------------------------------

  /** The drop has passed directory slot `k`. */
  predicate Gone(s: State, k: nat) {
    s.phase.Dropping? && k < s.phase.next
  }

  /** Still owned: by the directory, or by the call that allocated it. */
  predicate Owned(s: State, ch: nat)
    requires ch < |s.chunks|
  {
    var c := s.chunks[ch];
    || (c.home < |s.dir| && s.dir[c.home] == Some(ch) && !Gone(s, c.home))
    || (c.maker < |s.pcs| && s.pcs[c.maker] == Private(ch))
  }

  /** A set slot holds the value of a successful insert of exactly that row, in the published chunk. */
  predicate SlotOk(rows: seq<nat>, s: State, ch: nat, o: nat)
    requires Shape(rows, s) && ch < |s.chunks| && o < CHUNK_SIZE
  {
    var c := s.chunks[ch];
    c.slots[o].Some? ==>
      && c.slots[o].value < |s.pcs| && s.pcs[c.slots[o].value].Stored?
      && rows[c.slots[o].value] == c.home * CHUNK_SIZE + o
      && c.home < |s.dir| && s.dir[c.home] == Some(ch)
  }

  predicate ChunkOk(rows: seq<nat>, s: State, ch: nat)
    requires Shape(rows, s) && ch < |s.chunks|
  {
    && s.freed[ch] == (if Owned(s, ch) then 0 else 1)
    && forall o :: 0 <= o < CHUNK_SIZE ==> SlotOk(rows, s, ch, o)
  }

  predicate DirOk(s: State, k: nat)
    requires k < |s.dir|
  {
    s.dir[k].Some? ==> s.dir[k].value < |s.chunks| && s.chunks[s.dir[k].value].home == k
  }

  predicate PcOk(rows: seq<nat>, s: State, i: nat)
    requires Shape(rows, s) && i < |s.pcs|
  {
    var k := ChunkOf(rows[i]);
    match s.pcs[i]
    case Idle => true
    case Missing => true
    case Private(ch) =>
      && s.chunks[ch].home == k && s.chunks[ch].maker == i && s.dir[k] != Some(ch)
      && forall o :: 0 <= o < CHUNK_SIZE ==> s.chunks[ch].slots[o].None?
    case Holding(ch) => k < |s.dir| && s.dir[k] == Some(ch)
    case Stored => Get(s, rows[i]) == Some(i)
    case Occupied => Get(s, rows[i]).Some? && Get(s, rows[i]) != Some(i)
    case TooLarge => k >= |s.dir|
  }

  /** How often the value of call `i` has been reclaimed by now. */
  function Reclaims(rows: seq<nat>, s: State, i: nat): nat
    requires i < |s.pcs| == |rows|
  {
    match s.pcs[i]
    case Stored => if Gone(s, ChunkOf(rows[i])) then 1 else 0
    case Occupied => 1
    case TooLarge => 1
    case _ => 0
  }

  predicate DirsOk(s: State) {
    forall k :: 0 <= k < |s.dir| ==> DirOk(s, k)
  }

  predicate ChunksOk(rows: seq<nat>, s: State)
    requires Shape(rows, s)
  {
    forall ch :: 0 <= ch < |s.chunks| ==> ChunkOk(rows, s, ch)
  }

  predicate PcsOk(rows: seq<nat>, s: State)
    requires Shape(rows, s)
  {
    forall i :: 0 <= i < |s.pcs| ==> PcOk(rows, s, i)
  }

  predicate CountsOk(rows: seq<nat>, s: State)
    requires Shape(rows, s)
  {
    && (forall i :: 0 <= i < |s.pcs| ==> s.reclaimed[i] == Reclaims(rows, s, i))
    && (forall v :: v in s.reclaimed ==> v < |s.pcs|)
    && (forall ch :: ch in s.freed ==> ch < |s.chunks|)
  }

  predicate PhaseOk(s: State) {
    s.phase.Dropping? ==> s.phase.next <= |s.dir| && forall i :: 0 <= i < |s.pcs| ==> Finished(s.pcs[i])
  }

  predicate Inv(rows: seq<nat>, s: State) {
    Shape(rows, s) && DirsOk(s) && ChunksOk(rows, s) && PcsOk(rows, s) && CountsOk(rows, s) && PhaseOk(s)
  }
}
