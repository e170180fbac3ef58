/**
 The on-disk segment format: constants, the logical content of a segment, and the image
 it denotes. `SegmentWriter` produces that image in place, `SegmentReader` reads it back.

 A vector component and the level multiplier are their bit patterns (32 and 64 bits), a
 machine word is a natural number below its bound, and the checksum is any function of the
 bytes it covers.
 */
module SegmentFormat {
  import opened Bytes

  const MAGIC: seq<Byte> := [83, 84, 82, 84, 83, 69, 71, 0]
  const SEGMENT_FORMAT_VERSION: nat := 1
  const HEADER_LEN: nat := 128
  const FLAG_LITTLE_ENDIAN: nat := 1
  const METRIC_L2: nat := 0
  const NO_ENTRY_POINT: nat := 0xFFFF_FFFF
  const VECTORS_ALIGN: nat := 64
  const SECTION_COUNT: nat := 4

  const SECTION_ROW_IDS: nat := 0
  const SECTION_LEVELS: nat := 1
  const SECTION_ADJACENCY: nat := 2
  const SECTION_VECTORS: nat := 3

  const OFF_MAGIC: nat := 0
  const OFF_FORMAT_VERSION: nat := 8
  const OFF_FLAGS: nat := 12
  const OFF_NODE_COUNT: nat := 16
  const OFF_DIM: nat := 20
  const OFF_MAX_LEVEL: nat := 24
  const OFF_ENTRY_POINT: nat := 28
  const OFF_METRIC: nat := 32
  const OFF_M: nat := 34
  const OFF_MMAX0: nat := 36
  const OFF_MMAX: nat := 38
  const OFF_EF_CONSTRUCTION: nat := 40
  const OFF_M_L: nat := 48
  const OFF_ROW_ID_MIN: nat := 56
  const OFF_ROW_ID_MAX: nat := 64
  const OFF_SECTION_OFF: nat := 72
  const OFF_SECTION_LEN: nat := 104
  const OFF_BODY_CRC: nat := 120
  const OFF_HEADER_CRC: nat := 124

  const U16: nat := 0x1_0000
  const U32: nat := 0x1_0000_0000
  const U64: nat := 0x1_0000_0000_0000_0000

  type Word32 = c: nat | c < 0x1_0000_0000
  type Crc = seq<Byte> -> Word32

  datatype Params = Params(m: nat, mmax0: nat, mmax: nat, efConstruction: nat, mL: nat)

  /** What a segment says: `layers[l][i]` is the neighbour list of ordinal `i` at layer `l`. */
  datatype Content = Content(
    rowIds: seq<nat>, dim: nat, levels: seq<nat>, layers: seq<seq<seq<nat>>>, vectors: seq<seq<nat>>,
    entry: nat, params: Params)

  /** `align_up`, saturating at the largest `usize`. */
  function AlignUp(value: nat, align: nat): nat
    requires align > 0
  {
    var up := (value + align - 1) / align * align;
    if up < U64 then up else U64 - 1
  }

  /** For the two alignments the format uses. */
  lemma AlignUpBounds(value: nat, align: nat)
    requires (align == 4 || align == VECTORS_ALIGN) && value + align <= U64
    ensures value <= AlignUp(value, align) < value + align && AlignUp(value, align) % align == 0
  {
    if align == 4 {
      assert value <= (value + 3) / 4 * 4 < value + 4 && (value + 3) / 4 * 4 % 4 == 0;
    } else {
      assert value <= (value + 63) / 64 * 64 < value + 64 && (value + 63) / 64 * 64 % 64 == 0;
    }
  }

  function Max(levels: seq<nat>): (r: nat)
    ensures forall i :: 0 <= i < |levels| ==> levels[i] <= r
    ensures levels != [] ==> exists i :: 0 <= i < |levels| && levels[i] == r
  {
    if levels == [] then 0
    else
      var n := |levels| - 1;
      var r := Max(levels[..n]);
      assert forall i :: 0 <= i < n ==> levels[..n][i] == levels[i];
      assert n > 0 ==> exists i :: 0 <= i < n && levels[i] == r by {
        if n > 0 {
          var i :| 0 <= i < |levels[..n]| && levels[..n][i] == r;
          assert levels[i] == r;
        }
      }
      if n == 0 || levels[n] >= r then assert levels[n] == levels[n]; levels[n] else r
  }

  // ---------------------------------------------------------------------------
  // Adjacency in compressed rows
  // ---------------------------------------------------------------------------

  /** A layer's neighbour lists, one after the other. */
  function Flat(layer: seq<seq<nat>>): seq<nat> {
    if layer == [] then [] else Flat(layer[..|layer| - 1]) + layer[|layer| - 1]
  }

  /** Where each list starts in `Flat`, and where the last one ends. */
  function Offsets(layer: seq<seq<nat>>): (r: seq<nat>)
    ensures |r| == |layer| + 1 && r[0] == 0 && r[|layer|] == |Flat(layer)|
  {
    if layer == [] then [0] else Offsets(layer[..|layer| - 1]) + [|Flat(layer)|]
  }

  lemma {:induction false} OffsetsOfPrefix(layer: seq<seq<nat>>, i: nat)
    requires i <= |layer|
    ensures Offsets(layer)[i] == |Flat(layer[..i])| && Flat(layer[..i]) <= Flat(layer)
  {
    var n := |layer|;
    if i == n {
      assert layer[..i] == layer;
    } else {
      OffsetsOfPrefix(layer[..n - 1], i);
      assert layer[..n - 1][..i] == layer[..i];
    }
  }

  /** Cutting the flat list at two consecutive offsets gives back one neighbour list. */
  lemma RowOfFlat(layer: seq<seq<nat>>, i: nat)
    requires i < |layer|
    ensures Offsets(layer)[i] <= Offsets(layer)[i + 1] <= |Flat(layer)|
    ensures Flat(layer)[Offsets(layer)[i]..Offsets(layer)[i + 1]] == layer[i]
  {
    OffsetsOfPrefix(layer, i);
    OffsetsOfPrefix(layer, i + 1);
    assert layer[..i + 1][..i] == layer[..i];
    var front := Flat(layer[..i + 1]);
    assert front == Flat(layer[..i]) + layer[i];
    assert Flat(layer)[..|front|] == front;
  }

  function LayerBytes(layer: seq<seq<nat>>): seq<Byte> {
    Words(Offsets(layer), 4) + Words(Flat(layer), 4)
  }

  function LayerParts(layers: seq<seq<seq<nat>>>): (r: seq<seq<Byte>>)
    ensures |r| == |layers| && forall l {:trigger r[l]} :: 0 <= l < |r| ==> r[l] == LayerBytes(layers[l])
  {
    if layers == [] then [] else LayerParts(layers[..|layers| - 1]) + [LayerBytes(layers[|layers| - 1])]
  }

  function AdjacencyBytes(layers: seq<seq<seq<nat>>>): seq<Byte> {
    Concat(LayerParts(layers))
  }

  function VectorParts(vectors: seq<seq<nat>>): (r: seq<seq<Byte>>)
    ensures |r| == |vectors| && forall i {:trigger r[i]} :: 0 <= i < |r| ==> r[i] == Words(vectors[i], 4)
  {
    if vectors == [] then [] else VectorParts(vectors[..|vectors| - 1]) + [Words(vectors[|vectors| - 1], 4)]
  }

  function VectorBytes(vectors: seq<seq<nat>>): seq<Byte> {
    Concat(VectorParts(vectors))
  }

  lemma {:induction false} VectorBytesLength(vectors: seq<seq<nat>>, dim: nat)
    requires forall i :: 0 <= i < |vectors| ==> |vectors[i]| == dim
    ensures |VectorBytes(vectors)| == |vectors| * (dim * 4)
  {
    var parts := VectorParts(vectors);
    assert parts[..|parts|] == parts;
    EvenParts(parts, dim * 4, |parts|);
  }

  // ---------------------------------------------------------------------------
  // Geometry
  // ---------------------------------------------------------------------------

  function SectionLens(c: Content): (r: seq<nat>)
    ensures |r| == SECTION_COUNT
  {
    [8 * |c.rowIds|, |c.rowIds|, |AdjacencyBytes(c.layers)|, |VectorBytes(c.vectors)|]
  }

  /** Where sections of these lengths go. */
  function Places(lens: seq<nat>): (r: seq<nat>)
    requires |lens| == SECTION_COUNT
    ensures |r| == SECTION_COUNT
  {
    var levels := HEADER_LEN + lens[0];
    var adjacency := AlignUp(levels + lens[1], 4);
    [HEADER_LEN, levels, adjacency, AlignUp(adjacency + lens[2], VECTORS_ALIGN)]
  }

  function SectionOffs(c: Content): (r: seq<nat>)
    ensures |r| == SECTION_COUNT
  {
    Places(SectionLens(c))
  }

  predicate Rises(xs: seq<nat>, i: nat)
    requires i + 1 < |xs|
  {
    xs[i] < xs[i + 1]
  }

  predicate Falls(xs: seq<nat>, i: nat)
    requires i + 1 < |xs|
  {
    xs[i] > xs[i + 1]
  }

  predicate Ascending(rowIds: seq<nat>) {
    forall i :: 0 <= i < |rowIds| - 1 ==> Rises(rowIds, i)
  }

  predicate ParamsFit(p: Params) {
    p.m < U16 && p.mmax0 < U16 && p.mmax < U16 && p.efConstruction < U16 && p.mL < U64
  }

  predicate LayerFits(layer: seq<seq<nat>>, n: nat) {
    |layer| == n && |Flat(layer)| < U32 && forall i :: 0 <= i < |Flat(layer)| ==> Flat(layer)[i] < n
  }

  predicate AllFit(layers: seq<seq<seq<nat>>>, n: nat) {
    n < U32 && forall l :: 0 <= l < |layers| ==> LayerFits(layers[l], n)
  }

  predicate VectorsFit(vectors: seq<seq<nat>>, dim: nat) {
    forall i :: 0 <= i < |vectors| ==> |vectors[i]| == dim && Fits(vectors[i], 4)
  }

  /** A content the format can hold. */
  predicate Valid(c: Content) {
    var n := |c.rowIds|;
    && 0 < n < U32 && Ascending(c.rowIds) && Fits(c.rowIds, 8)
    && 0 < c.dim < U32 && c.entry < n && ParamsFit(c.params)
    && |c.levels| == n && Fits(c.levels, 1)
    && |c.layers| == Max(c.levels) + 1 && AllFit(c.layers, n) && |c.vectors| == n && VectorsFit(c.vectors, c.dim)
    && LensFit(c)
  }

  predicate LensFit(c: Content) {
    forall i :: 0 <= i < SECTION_COUNT ==> SectionLens(c)[i] < U32
  }

  /** The sections follow each other in order, aligned, with less than one alignment unit between them. */
  lemma SectionsInOrder(c: Content)
    requires LensFit(c)
    ensures var offs, lens := SectionOffs(c), SectionLens(c);
      && offs[0] == HEADER_LEN && offs[0] % 8 == 0
      && offs[1] == offs[0] + lens[0]
      && offs[1] + lens[1] <= offs[2] < offs[1] + lens[1] + 4 && offs[2] % 4 == 0
      && offs[2] + lens[2] <= offs[3] < offs[2] + lens[2] + VECTORS_ALIGN && offs[3] % VECTORS_ALIGN == 0
      && offs[3] + lens[3] < U64
  {
    var offs, lens := SectionOffs(c), SectionLens(c);
    assert lens[0] < U32 && lens[1] < U32 && lens[2] < U32 && lens[3] < U32;
    AlignUpBounds(offs[1] + lens[1], 4);
    AlignUpBounds(offs[2] + lens[2], VECTORS_ALIGN);
  }

  // ---------------------------------------------------------------------------
  // The image
  // ---------------------------------------------------------------------------

  function LevelBytes(levels: seq<nat>): (r: seq<Byte>)
    requires Fits(levels, 1)
    ensures |r| == |levels| && forall i :: 0 <= i < |r| ==> r[i] == levels[i]
  {
    Widths();
    if levels == [] then [] else LevelBytes(levels[..|levels| - 1]) + [levels[|levels| - 1]]
  }

  /** Everything after the header, padding included. */
  function Body(c: Content): seq<Byte>
    requires Valid(c)
  {
    SectionsInOrder(c);
    var offs, lens := SectionOffs(c), SectionLens(c);
    Words(c.rowIds, 8) + LevelBytes(c.levels) + Zeros(offs[2] - offs[1] - lens[1])
    + AdjacencyBytes(c.layers) + Zeros(offs[3] - offs[2] - lens[2]) + VectorBytes(c.vectors)
  }

  function Counts(c: Content): seq<nat> {
    [SEGMENT_FORMAT_VERSION, FLAG_LITTLE_ENDIAN, |c.rowIds|, c.dim, Max(c.levels), c.entry]
  }

  function Tuning(c: Content): seq<nat> {
    [c.params.m, c.params.mmax0, c.params.mmax, c.params.efConstruction]
  }

  function Extremes(c: Content): seq<nat>
    requires c.rowIds != []
  {
    [c.params.mL, c.rowIds[0], c.rowIds[|c.rowIds| - 1]]
  }

  function Identity(c: Content): (r: seq<Byte>)
    ensures |r| == OFF_METRIC
  {
    MAGIC + Words(Counts(c), 4)
  }

  function Build(c: Content): (r: seq<Byte>)
    ensures |r| == OFF_M_L - OFF_METRIC
  {
    [METRIC_L2, 0] + Words(Tuning(c), 2) + Zeros(6)
  }

  /** The header up to its two checksums. */
  function Front(c: Content): (r: seq<Byte>)
    requires c.rowIds != []
    ensures |r| == OFF_BODY_CRC
  {
    Identity(c) + Build(c) + Words(Extremes(c), 8) + Words(SectionOffs(c), 8) + Words(SectionLens(c), 4)
  }

  /** The header up to its own checksum. */
  function Sealed(crc: Crc, c: Content): (r: seq<Byte>)
    requires Valid(c)
    ensures |r| == OFF_HEADER_CRC
  {
    Front(c) + LE(crc(Body(c)), 4)
  }

  function Image(crc: Crc, c: Content): seq<Byte>
    requires Valid(c)
  {
    Sealed(crc, c) + LE(crc(Sealed(crc, c)), 4) + Body(c)
  }
}
