/** Where the image of a content holds what: every header field and every array, as the reader views them. */
module SegmentLayout {
  import opened Bytes
  import opened SegmentFormat
  import opened SegmentReader

  // ---------------------------------------------------------------------------
  // Part by part
  // ---------------------------------------------------------------------------

  lemma {:induction false} BodyLength(c: Content)
    requires Valid(c)
    ensures HEADER_LEN + |Body(c)| == SectionOffs(c)[3] + SectionLens(c)[3]
  {
    SectionsInOrder(c);
  }

  lemma {:induction false} ImageHeld(crc: Crc, c: Content)
    requires Valid(c)
    ensures var b := Image(crc, c);
      && Holds(b, 0, Front(c)) && Holds(b, OFF_BODY_CRC, LE(crc(Body(c)), 4))
      && Holds(b, 0, Sealed(crc, c)) && Holds(b, OFF_HEADER_CRC, LE(crc(Sealed(crc, c)), 4)) && Holds(b, HEADER_LEN, Body(c))
  {
    var b, sealed, own := Image(crc, c), Sealed(crc, c), LE(crc(Sealed(crc, c)), 4);
    HeldInTwo(b, 0, sealed + own, Body(c));
    HeldInTwo(b, 0, sealed, own);
    HeldInTwo(b, 0, Front(c), LE(crc(Body(c)), 4));
  }

  lemma {:induction false} SealHeld(crc: Crc, b: seq<Byte>, sealed: seq<Byte>, body: seq<Byte>)
    requires |sealed| == OFF_HEADER_CRC && |b| == HEADER_LEN + |body|
    requires Holds(b, 0, sealed) && Holds(b, OFF_HEADER_CRC, LE(crc(sealed), 4))
    requires Holds(b, OFF_BODY_CRC, LE(crc(body), 4)) && Holds(b, HEADER_LEN, body)
    ensures Field(b, OFF_BODY_CRC, 4) == crc(b[HEADER_LEN..]) && Field(b, OFF_HEADER_CRC, 4) == crc(b[..OFF_HEADER_CRC])
  {
    Widths();
    FieldHeld(b, OFF_BODY_CRC, crc(body), 4);
    FieldHeld(b, OFF_HEADER_CRC, crc(sealed), 4);
    HeldSlice(b, 0, sealed);
    HeldSlice(b, HEADER_LEN, body);
    assert b[HEADER_LEN..] == b[HEADER_LEN..HEADER_LEN + |body|];
  }

  /** Both checksum fields hold the checksum of the final bytes they cover. */
  lemma {:induction false} ChecksumsMatch(crc: Crc, c: Content)
    requires Valid(c)
    ensures var b := Image(crc, c);
      && |b| >= HEADER_LEN && Field(b, OFF_BODY_CRC, 4) == crc(b[HEADER_LEN..])
      && Field(b, OFF_HEADER_CRC, 4) == crc(b[..OFF_HEADER_CRC])
  {
    ImageHeld(crc, c);
    SealHeld(crc, Image(crc, c), Sealed(crc, c), Body(c));
  }

  lemma {:induction false} FiveHeld(x: seq<Byte>, a: seq<Byte>, b: seq<Byte>, c: seq<Byte>, d: seq<Byte>, e: seq<Byte>)
    requires Holds(x, 0, a + b + c + d + e)
    ensures Holds(x, 0, a) && Holds(x, |a|, b) && Holds(x, |a| + |b|, c)
    ensures Holds(x, |a| + |b| + |c|, d) && Holds(x, |a| + |b| + |c| + |d|, e)
  {
    HeldInTwo(x, 0, a + b + c + d, e);
    HeldInTwo(x, 0, a + b + c, d);
    HeldInTwo(x, 0, a + b, c);
    HeldInTwo(x, 0, a, b);
  }

  lemma {:induction false} FrontHeld(b: seq<Byte>, c: Content)
    requires c.rowIds != [] && Holds(b, 0, Front(c))
    ensures Holds(b, 0, Identity(c)) && Holds(b, OFF_METRIC, Build(c)) && Holds(b, OFF_M_L, Words(Extremes(c), 8))
    ensures Holds(b, OFF_SECTION_OFF, Words(SectionOffs(c), 8)) && Holds(b, OFF_SECTION_LEN, Words(SectionLens(c), 4))
  {
    FiveHeld(b, Identity(c), Build(c), Words(Extremes(c), 8), Words(SectionOffs(c), 8), Words(SectionLens(c), 4));
  }

  lemma {:induction false} IdentityHeld(b: seq<Byte>, c: Content)
    requires Holds(b, 0, Identity(c)) && Holds(b, OFF_METRIC, Build(c))
    ensures b[..8] == MAGIC && Holds(b, OFF_FORMAT_VERSION, Words(Counts(c), 4))
    ensures b[OFF_METRIC] == METRIC_L2 && Holds(b, OFF_M, Words(Tuning(c), 2))
  {
    HeldInTwo(b, 0, MAGIC, Words(Counts(c), 4));
    HeldSlice(b, 0, MAGIC);
    HeldInTwo(b, OFF_METRIC, [METRIC_L2, 0] + Words(Tuning(c), 2), Zeros(6));
    HeldInTwo(b, OFF_METRIC, [METRIC_L2, 0], Words(Tuning(c), 2));
    assert b[OFF_METRIC + 0] == [METRIC_L2, 0][0];
  }

  lemma {:induction false} CountsFit(c: Content)
    requires Valid(c)
    ensures Fits(Counts(c), 4) && Fits(Tuning(c), 2) && Fits(Extremes(c), 8) && Max(c.levels) < 256
  {
    Widths();
    assert Max(c.levels) < 256 by {
      var i :| 0 <= i < |c.levels| && c.levels[i] == Max(c.levels);
    }
  }

  lemma {:induction false} TableFits(c: Content)
    requires Valid(c)
    ensures Fits(SectionOffs(c), 8) && Fits(SectionLens(c), 4)
  {
    Widths();
    SectionsInOrder(c);
  }

  /** Every header field reads back as it was set. */
  lemma {:induction false} CountsRead(b: seq<Byte>, c: Content)
    requires Holds(b, OFF_FORMAT_VERSION, Words(Counts(c), 4)) && Fits(Counts(c), 4)
    ensures Field(b, OFF_FORMAT_VERSION, 4) == SEGMENT_FORMAT_VERSION && Field(b, OFF_FLAGS, 4) == FLAG_LITTLE_ENDIAN
    ensures Field(b, OFF_NODE_COUNT, 4) == |c.rowIds| && Field(b, OFF_DIM, 4) == c.dim
    ensures Field(b, OFF_MAX_LEVEL, 4) == Max(c.levels) && Field(b, OFF_ENTRY_POINT, 4) == c.entry
  {
    ViewHeld(b, OFF_FORMAT_VERSION, Counts(c), 4);
    ViewAt(b, OFF_FORMAT_VERSION, 4, 6, 0);
    ViewAt(b, OFF_FORMAT_VERSION, 4, 6, 1);
    ViewAt(b, OFF_FORMAT_VERSION, 4, 6, 2);
    ViewAt(b, OFF_FORMAT_VERSION, 4, 6, 3);
    ViewAt(b, OFF_FORMAT_VERSION, 4, 6, 4);
    ViewAt(b, OFF_FORMAT_VERSION, 4, 6, 5);
  }

  lemma {:induction false} ParamsRead(b: seq<Byte>, c: Content)
    requires c.rowIds != [] && |b| >= HEADER_LEN && Fits(Tuning(c), 2) && Fits(Extremes(c), 8)
    requires Holds(b, OFF_M, Words(Tuning(c), 2)) && Holds(b, OFF_M_L, Words(Extremes(c), 8))
    ensures ParamsOf(b) == c.params
    ensures Field(b, OFF_ROW_ID_MIN, 8) == c.rowIds[0] && Field(b, OFF_ROW_ID_MAX, 8) == c.rowIds[|c.rowIds| - 1]
  {
    ViewHeld(b, OFF_M, Tuning(c), 2);
    ViewAt(b, OFF_M, 2, 4, 0);
    ViewAt(b, OFF_M, 2, 4, 1);
    ViewAt(b, OFF_M, 2, 4, 2);
    ViewAt(b, OFF_M, 2, 4, 3);
    ViewHeld(b, OFF_M_L, Extremes(c), 8);
    ViewAt(b, OFF_M_L, 8, 3, 0);
    ViewAt(b, OFF_M_L, 8, 3, 1);
    ViewAt(b, OFF_M_L, 8, 3, 2);
  }

  lemma {:induction false} BodyHeld(b: seq<Byte>, c: Content)
    requires Valid(c) && Holds(b, HEADER_LEN, Body(c))
    ensures Holds(b, SectionOffs(c)[0], Words(c.rowIds, 8)) && Holds(b, SectionOffs(c)[1], LevelBytes(c.levels))
    ensures Holds(b, SectionOffs(c)[2], AdjacencyBytes(c.layers)) && Holds(b, SectionOffs(c)[3], VectorBytes(c.vectors))
  {
    SectionsInOrder(c);
    var offs, lens := SectionOffs(c), SectionLens(c);
    var p, q := offs[2] - offs[1] - lens[1], offs[3] - offs[2] - lens[2];
    assert Holds(b, offs[0], Words(c.rowIds, 8) + LevelBytes(c.levels) + Zeros(p) + AdjacencyBytes(c.layers) + Zeros(q) + VectorBytes(c.vectors));
    SixHeld(b, offs[0], Words(c.rowIds, 8), LevelBytes(c.levels), Zeros(p), AdjacencyBytes(c.layers), Zeros(q), VectorBytes(c.vectors));
  }

  lemma {:induction false} SixHeld(b: seq<Byte>, at: nat, rows: seq<Byte>, levels: seq<Byte>, p: seq<Byte>, adj: seq<Byte>, q: seq<Byte>, vecs: seq<Byte>)
    requires Holds(b, at, rows + levels + p + adj + q + vecs)
    ensures Holds(b, at, rows) && Holds(b, at + |rows|, levels) && Holds(b, at + |rows| + |levels| + |p|, adj)
    ensures Holds(b, at + |rows| + |levels| + |p| + |adj| + |q|, vecs)
  {
    HeldInTwo(b, at, rows + levels + p + adj + q, vecs);
    HeldInTwo(b, at, rows + levels + p + adj, q);
    HeldInTwo(b, at, rows + levels + p, adj);
    HeldInTwo(b, at, rows + levels, p);
    HeldInTwo(b, at, rows, levels);
  }

  // ---------------------------------------------------------------------------
  // What the reader sees of each section
  // ---------------------------------------------------------------------------

  /** One layer's offsets and neighbours, viewed from `at`. */
  predicate LayerAt(b: seq<Byte>, at: nat, layer: seq<seq<nat>>, n: nat) {
    && at + (n + 1) * 4 + |Flat(layer)| * 4 <= |b|
    && View(b, at, 4, n + 1) == Offsets(layer) && View(b, at + (n + 1) * 4, 4, |Flat(layer)|) == Flat(layer)
  }

  /** Layer `l` is at `starts[l]`, and the next one right behind it. */
  predicate LayerInPlace(b: seq<Byte>, starts: seq<nat>, layers: seq<seq<seq<nat>>>, n: nat, l: nat)
    requires l < |layers| && |starts| == |layers| + 1
  {
    && LayerAt(b, starts[l], layers[l], n)
    && starts[l + 1] == starts[l] + (n + 1) * 4 + |Flat(layers[l])| * 4
  }

  predicate LayersAt(b: seq<Byte>, starts: seq<nat>, layers: seq<seq<seq<nat>>>, n: nat) {
    |starts| == |layers| + 1 && forall l :: 0 <= l < |layers| ==> LayerInPlace(b, starts, layers, n, l)
  }

  predicate VectorsAt(b: seq<Byte>, at: nat, vectors: seq<seq<nat>>, dim: nat) {
    forall i :: 0 <= i < |vectors| ==> VectorAt(b, at + i * (dim * 4), vectors[i], dim)
  }

  predicate VectorAt(b: seq<Byte>, at: nat, vector: seq<nat>, dim: nat) {
    at + dim * 4 <= |b| && View(b, at, 4, dim) == vector
  }

  predicate LevelsAt(b: seq<Byte>, at: nat, levels: seq<nat>) {
    at + |levels| <= |b| && forall i :: 0 <= i < |levels| ==> b[at + i] == levels[i]
  }

  predicate RowIdsAt(b: seq<Byte>, at: nat, rowIds: seq<nat>) {
    at + |rowIds| * 8 <= |b| && View(b, at, 8, |rowIds|) == rowIds
  }

  lemma {:induction false} OffsetsFit(layer: seq<seq<nat>>, n: nat)
    requires LayerFits(layer, n) && n < U32
    ensures Fits(Offsets(layer), 4) && Fits(Flat(layer), 4)
    ensures forall i :: 0 <= i < n ==> !Falls(Offsets(layer), i)
  {
    Widths();
    forall i | 0 <= i <= n ensures Offsets(layer)[i] < U32 {
      OffsetsOfPrefix(layer, i);
    }
    forall i | 0 <= i < n ensures !Falls(Offsets(layer), i) {
      RowOfFlat(layer, i);
    }
  }

  lemma {:induction false} TwoViews(b: seq<Byte>, at: nat, xs: seq<nat>, ys: seq<nat>)
    requires Holds(b, at, Words(xs, 4) + Words(ys, 4)) && Fits(xs, 4) && Fits(ys, 4)
    ensures at + |xs| * 4 + |ys| * 4 <= |b| && View(b, at, 4, |xs|) == xs && View(b, at + |xs| * 4, 4, |ys|) == ys
  {
    HeldInTwo(b, at, Words(xs, 4), Words(ys, 4));
    ViewHeld(b, at, xs, 4);
    ViewHeld(b, at + |xs| * 4, ys, 4);
  }

  lemma {:induction false} LayerHeld(b: seq<Byte>, at: nat, layer: seq<seq<nat>>, n: nat)
    requires LayerFits(layer, n) && n < U32 && Holds(b, at, LayerBytes(layer))
    ensures LayerAt(b, at, layer, n) && |LayerBytes(layer)| == (n + 1) * 4 + |Flat(layer)| * 4
  {
    OffsetsFit(layer, n);
    TwoViews(b, at, Offsets(layer), Flat(layer));
  }

  /** Where each part starts, and where the last one ends, when the first starts at `at`. */
  function Starts(at: nat, parts: seq<seq<Byte>>): (r: seq<nat>)
    ensures |r| == |parts| + 1 && forall l {:trigger r[l]} :: 0 <= l < |r| ==> r[l] == at + PartStart(parts, l)
  {
    var n := |parts|;
    assert parts[..n] == parts;
    if n == 0 then [at]
    else
      assert forall l :: 0 <= l < n ==> parts[..n - 1][..l] == parts[..l];
      Starts(at, parts[..n - 1]) + [at + |Concat(parts)|]
  }

  lemma {:induction false} StartsEnds(at: nat, parts: seq<seq<Byte>>)
    ensures Starts(at, parts)[0] == at && Starts(at, parts)[|parts|] == at + |Concat(parts)|
  {
    assert parts[..0] == [] && parts[..|parts|] == parts;
  }

  lemma {:induction false} LayerPartHeld(b: seq<Byte>, at: nat, layers: seq<seq<seq<nat>>>, n: nat, l: nat)
    requires AllFit(layers, n) && Holds(b, at, AdjacencyBytes(layers)) && l < |layers|
    ensures LayerAt(b, at + PartStart(LayerParts(layers), l), layers[l], n)
    ensures PartStart(LayerParts(layers), l + 1) == PartStart(LayerParts(layers), l) + (n + 1) * 4 + |Flat(layers[l])| * 4
  {
    PartHeld(b, at, LayerParts(layers), l);
    LayerHeld(b, at + PartStart(LayerParts(layers), l), layers[l], n);
  }

  lemma {:induction false} LayersHeld(b: seq<Byte>, at: nat, layers: seq<seq<seq<nat>>>, n: nat)
    requires AllFit(layers, n) && Holds(b, at, AdjacencyBytes(layers))
    ensures LayersAt(b, Starts(at, LayerParts(layers)), layers, n)
  {
    var starts := Starts(at, LayerParts(layers));
    forall l | 0 <= l < |layers| ensures LayerInPlace(b, starts, layers, n, l) {
      LayerPartHeld(b, at, layers, n, l);
    }
  }

  lemma {:induction false} VectorHeldAt(b: seq<Byte>, start: nat, at: nat, vector: seq<nat>, dim: nat)
    requires Holds(b, start, Words(vector, 4)) && start == at && |vector| == dim && Fits(vector, 4)
    ensures VectorAt(b, at, vector, dim)
  {
    ViewHeld(b, start, vector, 4);
  }

  lemma {:induction false} VectorHeld(b: seq<Byte>, at: nat, vectors: seq<seq<nat>>, dim: nat, i: nat)
    requires Holds(b, at, VectorBytes(vectors)) && i < |vectors| && VectorsFit(vectors, dim)
    ensures VectorAt(b, at + i * (dim * 4), vectors[i], dim)
  {
    var parts := VectorParts(vectors);
    PartHeld(b, at, parts, i);
    EvenParts(parts, dim * 4, i);
    VectorHeldAt(b, at + PartStart(parts, i), at + i * (dim * 4), vectors[i], dim);
  }

  lemma {:induction false} VectorsHeld(b: seq<Byte>, at: nat, vectors: seq<seq<nat>>, dim: nat)
    requires Holds(b, at, VectorBytes(vectors))
    requires VectorsFit(vectors, dim)
    ensures VectorsAt(b, at, vectors, dim)
  {
    forall i | 0 <= i < |vectors| ensures VectorAt(b, at + i * (dim * 4), vectors[i], dim) {
      VectorHeld(b, at, vectors, dim, i);
    }
  }
}
