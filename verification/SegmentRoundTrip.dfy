/** Reading back the image of a content gives back that content. */
module SegmentRoundTrip {
  import opened Common
  import opened Bytes
  import opened SegmentFormat
  import opened SegmentReader
  import opened SegmentLayout
  import W = SegmentWriter

  // ---------------------------------------------------------------------------
  // The walk over the adjacency section
  // ---------------------------------------------------------------------------

  lemma {:induction false} LayerParses(b: seq<Byte>, at: nat, limit: nat, layer: seq<seq<nat>>, n: nat)
    requires LayerAt(b, at, layer, n) && LayerFits(layer, n) && n < U32
    requires at + (n + 1) * 4 + |Flat(layer)| * 4 <= limit <= |b|
    ensures ParseLayer(b, at, limit, n) == Some(LayerSpan(at, at + (n + 1) * 4, at + (n + 1) * 4 + |Flat(layer)| * 4))
  {
    OffsetsFit(layer, n);
  }

  function Spans(starts: seq<nat>, n: nat): (r: seq<(nat, nat)>)
    requires |starts| > 0
    ensures |r| == |starts| - 1 && forall k {:trigger r[k]} :: 0 <= k < |r| ==> r[k] == (starts[k], starts[k] + (n + 1) * 4)
  {
    if |starts| == 1 then [] else [(starts[0], starts[0] + (n + 1) * 4)] + Spans(starts[1..], n)
  }

  /** Layer `l` of the section parses, from its start to the next one's. */
  predicate StepParses(b: seq<Byte>, starts: seq<nat>, limit: nat, n: nat, l: nat)
    requires l + 1 < |starts| && limit <= |b|
  {
    ParseLayer(b, starts[l], limit, n) == Some(LayerSpan(starts[l], starts[l] + (n + 1) * 4, starts[l + 1]))
  }

  lemma {:induction false} ParseStep(
    b: seq<Byte>, start: nat, limit: nat, n: nat, count: nat, fewer: nat, end: nat, rest: seq<(nat, nat)>)
    requires limit <= |b| && count == fewer + 1
    requires ParseLayer(b, start, limit, n) == Some(LayerSpan(start, start + (n + 1) * 4, end))
    requires ParseLayers(b, end, limit, n, fewer) == Ok(rest)
    ensures ParseLayers(b, start, limit, n, count) == Ok([(start, start + (n + 1) * 4)] + rest)
  {
    assert fewer == count - 1;
  }

  /** The reader's walk meets every layer and stops at the exact end of the section. */
  lemma {:induction false} RestParses(b: seq<Byte>, starts: seq<nat>, limit: nat, n: nat)
    requires |starts| > 1 && limit <= |b| && forall l :: 0 <= l < |starts| - 1 ==> StepParses(b, starts, limit, n, l)
    ensures forall l :: 0 <= l < |starts| - 2 ==> StepParses(b, starts[1..], limit, n, l)
  {
    forall l | 0 <= l < |starts| - 2 ensures StepParses(b, starts[1..], limit, n, l) { assert StepParses(b, starts, limit, n, l + 1); }
  }

  lemma {:induction false} WalkParses(b: seq<Byte>, starts: seq<nat>, limit: nat, n: nat)
    requires |starts| > 0 && starts[|starts| - 1] == limit <= |b|
    requires forall l :: 0 <= l < |starts| - 1 ==> StepParses(b, starts, limit, n, l)
    ensures ParseLayers(b, starts[0], limit, n, |starts| - 1) == Ok(Spans(starts, n))
  {
    if |starts| > 1 {
      var rest := starts[1..];
      RestParses(b, starts, limit, n);
      WalkParses(b, rest, limit, n);
      assert StepParses(b, starts, limit, n, 0);
      ParseStep(b, starts[0], limit, n, |starts| - 1, |rest| - 1, rest[0], Spans(rest, n));
    }
  }

  lemma {:induction false} StartsAscend(b: seq<Byte>, starts: seq<nat>, layers: seq<seq<seq<nat>>>, n: nat, l: nat)
    requires LayersAt(b, starts, layers, n) && l <= |layers|
    ensures starts[l] <= starts[|layers|]
    decreases |layers| - l
  {
    if l < |layers| {
      assert LayerInPlace(b, starts, layers, n, l);
      StartsAscend(b, starts, layers, n, l + 1);
    }
  }

  lemma {:induction false} LayersParse(b: seq<Byte>, at: nat, limit: nat, starts: seq<nat>, layers: seq<seq<seq<nat>>>, n: nat, count: nat)
    requires LayersAt(b, starts, layers, n) && AllFit(layers, n) && count == |layers|
    requires at == starts[0] && limit == starts[count] <= |b|
    ensures ParseLayers(b, at, limit, n, count) == Ok(Spans(starts, n))
  {
    forall l | 0 <= l < |layers| ensures StepParses(b, starts, limit, n, l) {
      assert LayerInPlace(b, starts, layers, n, l);
      StartsAscend(b, starts, layers, n, l + 1);
      LayerParses(b, starts[l], limit, layers[l], n);
    }
    WalkParses(b, starts, limit, n);
  }

  // ---------------------------------------------------------------------------
  // Acceptance
  // ---------------------------------------------------------------------------

  /** The header of `b` passes its checks and says what `c` says. */
  predicate Announces(crc: Crc, b: seq<Byte>, c: Content, offs: seq<nat>, lens: seq<nat>) {
    && c.rowIds != [] && |b| >= HEADER_LEN && CheckHeader(crc, b) == None && Field(b, OFF_BODY_CRC, 4) == crc(b[HEADER_LEN..])
    && Offs(b) == offs && Lens(b) == lens && CheckSections(|b|, offs, lens, |c.rowIds|, c.dim) == None
    && Field(b, OFF_FORMAT_VERSION, 4) == SEGMENT_FORMAT_VERSION
    && Field(b, OFF_NODE_COUNT, 4) == |c.rowIds| && Field(b, OFF_DIM, 4) == c.dim
    && Field(b, OFF_MAX_LEVEL, 4) == Max(c.levels) && Field(b, OFF_ENTRY_POINT, 4) == c.entry && ParamsOf(b) == c.params
    && Field(b, OFF_ROW_ID_MIN, 8) == c.rowIds[0] && Field(b, OFF_ROW_ID_MAX, 8) == c.rowIds[|c.rowIds| - 1]
  }

  /** `b` shows the reader the sections of `c` at `offs`, the layers at `starts`. */
  predicate Located(b: seq<Byte>, c: Content, offs: seq<nat>, starts: seq<nat>) {
    && |offs| == SECTION_COUNT && RowIdsAt(b, offs[0], c.rowIds) && LevelsAt(b, offs[1], c.levels)
    && LayersAt(b, starts, c.layers, |c.rowIds|) && starts[0] == offs[2] && VectorsAt(b, offs[3], c.vectors, c.dim)
  }

  predicate Shaped(c: Content) {
    && 0 < |c.rowIds| == |c.levels| && |c.vectors| == |c.levels| && |c.layers| == Max(c.levels) + 1
    && c.entry < |c.rowIds| < U32 && Ascending(c.rowIds) && AllFit(c.layers, |c.rowIds|)
  }

  function ReaderOf(b: seq<Byte>, c: Content, offs: seq<nat>, starts: seq<nat>): Reader
    requires |offs| == SECTION_COUNT && c.rowIds != [] && c.entry < |c.levels| && |starts| > 0
  {
    var n := |c.rowIds|;
    Reader(b, n, c.dim, Max(c.levels), Some((c.entry, c.levels[c.entry])), offs[0], offs[1], offs[3], Spans(starts, n),
           c.params, SEGMENT_FORMAT_VERSION, c.rowIds[0], c.rowIds[n - 1])
  }

  lemma {:induction false} HeaderReads(crc: Crc, c: Content)
    requires Valid(c)
    ensures var b := Image(crc, c);
      && |b| >= HEADER_LEN && b[..8] == MAGIC && b[OFF_METRIC] == METRIC_L2 && ParamsOf(b) == c.params
      && Field(b, OFF_FORMAT_VERSION, 4) == SEGMENT_FORMAT_VERSION && Field(b, OFF_FLAGS, 4) == FLAG_LITTLE_ENDIAN
      && Field(b, OFF_NODE_COUNT, 4) == |c.rowIds| && Field(b, OFF_DIM, 4) == c.dim
      && Field(b, OFF_MAX_LEVEL, 4) == Max(c.levels) && Field(b, OFF_ENTRY_POINT, 4) == c.entry
      && Field(b, OFF_ROW_ID_MIN, 8) == c.rowIds[0] && Field(b, OFF_ROW_ID_MAX, 8) == c.rowIds[|c.rowIds| - 1]
  {
    var b := Image(crc, c);
    ImageHeld(crc, c);
    FrontHeld(b, c);
    IdentityHeld(b, c);
    CountsFit(c);
    CountsRead(b, c);
    ParamsRead(b, c);
  }

  lemma {:induction false} TableReads(crc: Crc, c: Content)
    requires Valid(c)
    ensures var b := Image(crc, c); |b| >= HEADER_LEN && Offs(b) == SectionOffs(c) && Lens(b) == SectionLens(c)
  {
    var b := Image(crc, c);
    ImageHeld(crc, c);
    FrontHeld(b, c);
    TableFits(c);
    ViewHeld(b, OFF_SECTION_OFF, SectionOffs(c), 8);
    ViewHeld(b, OFF_SECTION_LEN, SectionLens(c), 4);
  }

  lemma {:induction false} HeaderPasses(crc: Crc, c: Content)
    requires Valid(c)
    ensures CheckHeader(crc, Image(crc, c)) == None
  {
    ChecksumsMatch(crc, c);
    HeaderReads(crc, c);
    CountsFit(c);
  }

  lemma {:induction false} TablePasses(len: nat, offs: seq<nat>, lens: seq<nat>, n: nat, dim: nat)
    requires |offs| == SECTION_COUNT && |lens| == SECTION_COUNT
    requires lens[0] == n * 8 && lens[1] == n && lens[3] == n * (dim * 4)
    requires offs[0] == HEADER_LEN && offs[1] == offs[0] + lens[0] && offs[1] + lens[1] <= offs[2]
    requires offs[2] + lens[2] <= offs[3] && offs[3] + lens[3] == len && offs[2] % 4 == 0 && offs[3] % VECTORS_ALIGN == 0
    ensures CheckSections(len, offs, lens, n, dim) == None
  {
  }

  lemma {:induction false} SectionsPass(c: Content)
    requires Valid(c)
    ensures CheckSections(SectionOffs(c)[3] + SectionLens(c)[3], SectionOffs(c), SectionLens(c), |c.rowIds|, c.dim) == None
  {
    SectionsInOrder(c);
    VectorBytesLength(c.vectors, c.dim);
    TablePasses(SectionOffs(c)[3] + SectionLens(c)[3], SectionOffs(c), SectionLens(c), |c.rowIds|, c.dim);
  }

  lemma {:induction false} ImageAnnounces(crc: Crc, c: Content)
    requires Valid(c)
    ensures Announces(crc, Image(crc, c), c, SectionOffs(c), SectionLens(c))
  {
    HeaderPasses(crc, c);
    HeaderReads(crc, c);
    TableReads(crc, c);
    SectionsPass(c);
    BodyLength(c);
    ChecksumsMatch(crc, c);
  }

  /** `b` holds the four sections of `c` at `offs`. */
  predicate Sections(b: seq<Byte>, c: Content, offs: seq<nat>) {
    && |offs| == SECTION_COUNT && Fits(c.rowIds, 8) && Fits(c.levels, 1)
    && Holds(b, offs[0], Words(c.rowIds, 8)) && Holds(b, offs[1], LevelBytes(c.levels))
    && Holds(b, offs[2], AdjacencyBytes(c.layers)) && Holds(b, offs[3], VectorBytes(c.vectors))
  }

  lemma {:induction false} ImageSections(crc: Crc, c: Content)
    requires Valid(c)
    ensures Sections(Image(crc, c), c, SectionOffs(c))
  {
    ImageHeld(crc, c);
    BodyHeld(Image(crc, c), c);
  }

  lemma {:induction false} ColumnsLocated(b: seq<Byte>, c: Content, offs: seq<nat>)
    requires Sections(b, c, offs)
    ensures RowIdsAt(b, offs[0], c.rowIds) && LevelsAt(b, offs[1], c.levels)
  {
    ViewHeld(b, offs[0], c.rowIds, 8);
  }

  lemma {:induction false} SectionsLocated(b: seq<Byte>, c: Content, offs: seq<nat>)
    requires Sections(b, c, offs) && AllFit(c.layers, |c.rowIds|) && VectorsFit(c.vectors, c.dim)
    ensures Located(b, c, offs, Starts(offs[2], LayerParts(c.layers)))
  {
    ColumnsLocated(b, c, offs);
    LayersHeld(b, offs[2], c.layers, |c.rowIds|);
    VectorsHeld(b, offs[3], c.vectors, c.dim);
    StartsEnds(offs[2], LayerParts(c.layers));
  }

  predicate AtMost(levels: seq<Byte>, max: nat) {
    forall i :: 0 <= i < |levels| ==> levels[i] <= max
  }

  lemma {:induction false} LevelsPass(b: seq<Byte>, at: nat, end: nat, levels: seq<nat>, n: nat, entry: nat)
    requires |b| >= HEADER_LEN && LevelsAt(b, at, levels) && Field(b, OFF_ENTRY_POINT, 4) == entry < |levels| == n < U32
    requires end == at + n
    ensures AtMost(b[at..end], Max(levels))
    ensures EntryOf(b, at, n) == Some(Some((entry, levels[entry])))
  {
    var cut := b[at..end];
    forall i | 0 <= i < |levels| ensures cut[i] <= Max(levels) {
      assert cut[i] == b[at + i] == levels[i];
    }
  }

  lemma {:induction false} BodyAccepted(
    b: seq<Byte>, rowIds: seq<nat>, n: nat, dim: nat, maxLevel: nat, count: nat, offs: seq<nat>, lens: seq<nat>, end: nat, limit: nat,
    spans: seq<(nat, nat)>, entry: Option<(nat, nat)>)
    requires |b| >= HEADER_LEN && |offs| == SECTION_COUNT && |lens| == SECTION_COUNT && n == |rowIds| && count == maxLevel + 1
    requires CheckSections(|b|, offs, lens, n, dim) == None && end == offs[1] + n <= |b| && limit == offs[2] + lens[2] <= |b|
    requires RowIdsAt(b, offs[0], rowIds) && Ascending(rowIds) && AtMost(b[offs[1]..end], maxLevel)
    requires ParseLayers(b, offs[2], limit, n, count) == Ok(spans) && EntryOf(b, offs[1], n) == Some(entry)
    ensures ParseBody(b, n, dim, maxLevel, offs, lens)
         == Ok(Reader(b, n, dim, maxLevel, entry, offs[0], offs[1], offs[3], spans, ParamsOf(b),
                      Field(b, OFF_FORMAT_VERSION, 4), Field(b, OFF_ROW_ID_MIN, 8), Field(b, OFF_ROW_ID_MAX, 8)))
  {
  }

  lemma {:induction false} BodyParses(
    b: seq<Byte>, c: Content, n: nat, count: nat, offs: seq<nat>, lens: seq<nat>, limit: nat, spans: seq<(nat, nat)>)
    requires |b| >= HEADER_LEN && |offs| == SECTION_COUNT && |lens| == SECTION_COUNT
    requires RowIdsAt(b, offs[0], c.rowIds) && LevelsAt(b, offs[1], c.levels) && Ascending(c.rowIds)
    requires Field(b, OFF_ENTRY_POINT, 4) == c.entry < |c.levels| == |c.rowIds| == n < U32 && count == Max(c.levels) + 1
    requires CheckSections(|b|, offs, lens, n, c.dim) == None && limit == offs[2] + lens[2] <= |b|
    requires ParseLayers(b, offs[2], limit, n, count) == Ok(spans)
    ensures ParseBody(b, n, c.dim, Max(c.levels), offs, lens)
         == Ok(Reader(b, n, c.dim, Max(c.levels), Some((c.entry, c.levels[c.entry])), offs[0], offs[1], offs[3], spans, ParamsOf(b),
                      Field(b, OFF_FORMAT_VERSION, 4), Field(b, OFF_ROW_ID_MIN, 8), Field(b, OFF_ROW_ID_MAX, 8)))
  {
    var end, max, entry := offs[1] + n, Max(c.levels), Some((c.entry, c.levels[c.entry]));
    LevelsPass(b, offs[1], end, c.levels, n, c.entry);
    BodyAccepted(b, c.rowIds, n, c.dim, max, count, offs, lens, end, limit, spans, entry);
  }

  lemma {:induction false} HeaderAccepted(crc: Crc, b: seq<Byte>, c: Content, n: nat, offs: seq<nat>, lens: seq<nat>)
    requires Announces(crc, b, c, offs, lens) && n == |c.rowIds|
    ensures Parse(crc, b) == ParseBody(b, n, c.dim, Max(c.levels), offs, lens)
  {
  }

  /** What lies behind the header stands up to the reader's checks. */
  predicate Ready(b: seq<Byte>, c: Content, n: nat, count: nat, offs: seq<nat>, limit: nat, starts: seq<nat>) {
    && |offs| == SECTION_COUNT && limit <= |b| && |starts| > 0
    && RowIdsAt(b, offs[0], c.rowIds) && LevelsAt(b, offs[1], c.levels) && Ascending(c.rowIds)
    && c.entry < |c.levels| == |c.rowIds| == n < U32 && count == Max(c.levels) + 1
    && ParseLayers(b, offs[2], limit, n, count) == Ok(Spans(starts, n))
  }

  /** `from_bytes` accepts, and this is what it returns. */
  lemma {:induction false} ParseSucceeds(
    crc: Crc, b: seq<Byte>, c: Content, n: nat, count: nat, offs: seq<nat>, lens: seq<nat>, limit: nat, starts: seq<nat>)
    requires Announces(crc, b, c, offs, lens) && limit == offs[2] + lens[2] && Ready(b, c, n, count, offs, limit, starts)
    ensures Parse(crc, b) == Ok(ReaderOf(b, c, offs, starts))
  {
    HeaderAccepted(crc, b, c, n, offs, lens);
    BodyParses(b, c, n, count, offs, lens, limit, Spans(starts, n));
  }

  // ---------------------------------------------------------------------------
  // The answers
  // ---------------------------------------------------------------------------

  lemma {:induction false} ArraysReadBack(r: Reader, l: nat, at: nat, offsets: seq<nat>, flat: seq<nat>)
    requires l < |r.layerOff| && r.layerOff[l] == (at, at + |offsets| * 4) && |offsets| == r.nodeCount + 1
    requires at + |offsets| * 4 + |flat| * 4 <= |r.bytes| && View(r.bytes, at, 4, |offsets|) == offsets
    requires offsets[r.nodeCount] == |flat| && View(r.bytes, at + |offsets| * 4, 4, |flat|) == flat
    ensures LayerOffsets(r, l) == offsets && LayerNeighbors(r, l) == flat
  {
    assert LayerOffsets(r, l) == offsets;
  }

  lemma {:induction false} LayerReadsBack(r: Reader, l: nat, at: nat, layer: seq<seq<nat>>)
    requires l < |r.layerOff| && r.layerOff[l] == (at, at + (r.nodeCount + 1) * 4)
    requires |layer| == r.nodeCount && LayerAt(r.bytes, at, layer, r.nodeCount)
    ensures LayerOffsets(r, l) == Offsets(layer) && LayerNeighbors(r, l) == Flat(layer)
  {
    ArraysReadBack(r, l, at, Offsets(layer), Flat(layer));
  }

  lemma {:induction false} NeighborsReadBack(r: Reader, l: nat, at: nat, layer: seq<seq<nat>>, i: nat)
    requires l < |r.layerOff| && l <= r.maxLevel && r.layerOff[l] == (at, at + (r.nodeCount + 1) * 4)
    requires i < |layer| == r.nodeCount && LayerAt(r.bytes, at, layer, r.nodeCount)
    ensures Neighbors(r, i, l) == layer[i]
  {
    LayerReadsBack(r, l, at, layer);
    RowOfFlat(layer, i);
  }

  /** Everything a reader can be asked, answered as the content says. */
  predicate Answers(r: Reader, c: Content) {
    var n := |c.rowIds|;
    && r.nodeCount == n && r.dim == c.dim && r.params == c.params && r.maxLevel == Max(c.levels)
    && c.entry < |c.levels| == n && r.entry == Some((c.entry, c.levels[c.entry]))
    && |c.vectors| == n && |c.layers| == Max(c.levels) + 1 && (forall l :: 0 <= l < |c.layers| ==> |c.layers[l]| == n)
    && (forall i :: 0 <= i < n ==> RowIdAt(r, i) == Some(c.rowIds[i]))
    && (forall i :: 0 <= i < n ==> Level(r, i) == Some(c.levels[i]))
    && (forall i :: 0 <= i < n ==> Vector(r, i) == Some(c.vectors[i]))
    && (forall i, l :: 0 <= i < n && 0 <= l <= r.maxLevel ==> Neighbors(r, i, l) == c.layers[l][i])
  }

  /**
   Any valid content, encoded and read back: the reader accepts, and every accessor answers
   what was encoded, each layer's neighbours in their order.
   */
  lemma {:induction false} RoundTrip(crc: Crc, c: Content)
    requires Valid(c)
    ensures Parse(crc, Image(crc, c)).Ok? && Answers(Parse(crc, Image(crc, c)).value, c)
  {
    ImageAnnounces(crc, c);
    ImageSections(crc, c);
    ValidShaped(c);
    ReadBack(crc, Image(crc, c), c, SectionOffs(c), SectionLens(c));
  }

  lemma {:induction false} ReadBack(crc: Crc, b: seq<Byte>, c: Content, offs: seq<nat>, lens: seq<nat>)
    requires Announces(crc, b, c, offs, lens) && Sections(b, c, offs) && Shaped(c) && VectorsFit(c.vectors, c.dim)
    requires lens[2] == |AdjacencyBytes(c.layers)|
    ensures Parse(crc, b).Ok? && Answers(Parse(crc, b).value, c)
  {
    var n, count, limit, starts := |c.rowIds|, Max(c.levels) + 1, offs[2] + lens[2], Starts(offs[2], LayerParts(c.layers));
    SectionsReady(b, c, n, count, offs, limit, starts);
    ParseSucceeds(crc, b, c, n, count, offs, lens, limit, starts);
    SectionsAnswer(b, c, offs, starts);
  }

  lemma {:induction false} HeldWalked(
    b: seq<Byte>, at: nat, limit: nat, starts: seq<nat>, layers: seq<seq<seq<nat>>>, n: nat, count: nat)
    requires AllFit(layers, n) && Holds(b, at, AdjacencyBytes(layers)) && count == |layers|
    requires limit == at + |AdjacencyBytes(layers)| && starts == Starts(at, LayerParts(layers))
    ensures limit <= |b| && ParseLayers(b, at, limit, n, count) == Ok(Spans(starts, n))
  {
    LayersHeld(b, at, layers, n);
    StartsEnds(at, LayerParts(layers));
    LayersParse(b, at, limit, starts, layers, n, count);
  }

  lemma {:induction false} SectionsReady(
    b: seq<Byte>, c: Content, n: nat, count: nat, offs: seq<nat>, limit: nat, starts: seq<nat>)
    requires Sections(b, c, offs) && Shaped(c) && limit == offs[2] + |AdjacencyBytes(c.layers)|
    requires starts == Starts(offs[2], LayerParts(c.layers)) && n == |c.rowIds| && count == Max(c.levels) + 1
    ensures Ready(b, c, n, count, offs, limit, starts)
  {
    ColumnsLocated(b, c, offs);
    HeldWalked(b, offs[2], limit, starts, c.layers, n, count);
  }

  lemma {:induction false} SectionsAnswer(b: seq<Byte>, c: Content, offs: seq<nat>, starts: seq<nat>)
    requires Sections(b, c, offs) && Shaped(c) && VectorsFit(c.vectors, c.dim)
    requires starts == Starts(offs[2], LayerParts(c.layers))
    ensures Answers(ReaderOf(b, c, offs, starts), c)
  {
    SectionsLocated(b, c, offs);
    AllAnswered(b, c, offs, starts);
  }

  lemma {:induction false} ValidShaped(c: Content)
    requires Valid(c)
    ensures Shaped(c)
  {
  }

  lemma {:induction false} NodeReadsBack(r: Reader, rowIds: seq<nat>, levels: seq<nat>, vectors: seq<seq<nat>>, i: nat)
    requires i < r.nodeCount == |rowIds| == |levels| == |vectors|
    requires RowIdsAt(r.bytes, r.rowIdsOff, rowIds) && LevelsAt(r.bytes, r.levelsOff, levels)
    requires VectorsAt(r.bytes, r.vectorsOff, vectors, r.dim)
    ensures RowIdAt(r, i) == Some(rowIds[i]) && Level(r, i) == Some(levels[i]) && Vector(r, i) == Some(vectors[i])
  {
    assert VectorAt(r.bytes, r.vectorsOff + i * (r.dim * 4), vectors[i], r.dim);
  }

  lemma {:induction false} AllAnswered(b: seq<Byte>, c: Content, offs: seq<nat>, starts: seq<nat>)
    requires Located(b, c, offs, starts) && Shaped(c)
    ensures Answers(ReaderOf(b, c, offs, starts), c)
  {
    var r := ReaderOf(b, c, offs, starts);
    forall i | 0 <= i < |c.rowIds|
      ensures RowIdAt(r, i) == Some(c.rowIds[i]) && Level(r, i) == Some(c.levels[i]) && Vector(r, i) == Some(c.vectors[i])
    {
      NodeReadsBack(r, c.rowIds, c.levels, c.vectors, i);
    }
    forall i, l | 0 <= i < |c.rowIds| && 0 <= l <= r.maxLevel ensures Neighbors(r, i, l) == c.layers[l][i] {
      assert LayerInPlace(b, starts, c.layers, |c.rowIds|, l);
      NeighborsReadBack(r, l, starts[l], c.layers[l], i);
    }
  }

  /** A reader's answers determine the content. */
  lemma {:induction false} AnswersDetermine(r: Reader, c: Content, d: Content)
    requires Answers(r, c) && Answers(r, d)
    ensures c == d
  {
    forall i | 0 <= i < r.nodeCount
      ensures c.rowIds[i] == d.rowIds[i] && c.levels[i] == d.levels[i] && c.vectors[i] == d.vectors[i]
    {
      assert RowIdAt(r, i) == Some(c.rowIds[i]) && Level(r, i) == Some(c.levels[i]) && Vector(r, i) == Some(c.vectors[i]);
    }
    assert c.rowIds == d.rowIds && c.levels == d.levels && c.vectors == d.vectors;
    forall l | 0 <= l <= r.maxLevel ensures c.layers[l] == d.layers[l] {
      forall i | 0 <= i < r.nodeCount ensures c.layers[l][i] == d.layers[l][i] {
        assert Neighbors(r, i, l) == c.layers[l][i];
      }
      assert c.layers[l] == d.layers[l];
    }
    assert c.layers == d.layers;
  }

  /** Different contents have different images. */
  lemma {:induction false} ImagesDiffer(crc: Crc, c: Content, d: Content)
    requires Valid(c) && Valid(d) && c != d
    ensures Image(crc, c) != Image(crc, d)
  {
    RoundTrip(crc, c);
    RoundTrip(crc, d);
    if Image(crc, c) == Image(crc, d) { AnswersDetermine(Parse(crc, Image(crc, c)).value, c, d); }
  }

  /**
   End to end: whatever graph `encode_segment` accepts, a reader of its bytes answers as the graph did.
   The entry point's level is not stored, the reader takes the node's own level for it.
   */
  lemma {:induction false} EncodedReadsBack(crc: Crc, s: W.NodeSource, rowIds: seq<nat>, params: Params)
    requires W.Encodable(s, rowIds, params)
    ensures var parsed := Parse(crc, Image(crc, W.ContentOf(s, rowIds, params)));
      && parsed.Ok? && parsed.value.nodeCount == |rowIds| && parsed.value.dim == s.dimension && parsed.value.params == params
      && (forall i: nat :: i < |rowIds| ==> RowIdAt(parsed.value, i) == Some(rowIds[i]))
      && (forall i: nat :: i < |rowIds| ==> Level(parsed.value, i) == s.level(i))
      && (forall i: nat :: i < |rowIds| ==> Vector(parsed.value, i) == s.vector(i))
      && (forall i: nat, l: nat :: i < |rowIds| && l <= parsed.value.maxLevel ==> Neighbors(parsed.value, i, l) == s.neighbors(i, l))
      && (parsed.value.entry == s.entryPoint <==> s.level(s.entryPoint.value.0) == Some(s.entryPoint.value.1))
  {
    RoundTrip(crc, W.ContentOf(s, rowIds, params));
    AnswersAsSource(Parse(crc, Image(crc, W.ContentOf(s, rowIds, params))).value, s, rowIds, params);
  }

  lemma {:induction false} AnswersAsSource(r: Reader, s: W.NodeSource, rowIds: seq<nat>, params: Params)
    requires W.Populated(s, |rowIds|) && s.entryPoint.Some? && Answers(r, W.ContentOf(s, rowIds, params))
    ensures r.nodeCount == |rowIds| && r.dim == s.dimension && r.params == params
    ensures forall i: nat :: i < |rowIds| ==> RowIdAt(r, i) == Some(rowIds[i])
    ensures forall i: nat :: i < |rowIds| ==> Level(r, i) == s.level(i)
    ensures forall i: nat :: i < |rowIds| ==> Vector(r, i) == s.vector(i)
    ensures forall i: nat, l: nat :: i < |rowIds| && l <= r.maxLevel ==> Neighbors(r, i, l) == s.neighbors(i, l)
    ensures r.entry == s.entryPoint <==> s.level(s.entryPoint.value.0) == Some(s.entryPoint.value.1)
  {
    var c := W.ContentOf(s, rowIds, params);
    forall i: nat | i < |rowIds| ensures Level(r, i) == s.level(i) && Vector(r, i) == s.vector(i) {
      assert W.GoodNode(s, i) && Level(r, i) == Some(c.levels[i]) && Vector(r, i) == Some(c.vectors[i]);
    }
    assert W.GoodNode(s, c.entry);
  }
}
