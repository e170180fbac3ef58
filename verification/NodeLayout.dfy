/**
 The memory of one graph node: header, vector and every layer's slots in a single block of
 bytes. `Node` is the handle on such a block; `Content` is what the block stands for, and every
 accessor is proved against it.
 */
module NodeLayout {
  import opened Common
  import opened Bytes

  const U64: nat := 0x1_0000_0000_0000_0000

  /** The slot value that names no row. */
  const EMPTY: nat := 0xFFFF_FFFF_FFFF_FFFF

  /** `std::alloc::Layout`. */
  datatype Layout = Layout(size: nat, align: nat)

  datatype Shape = Shape(dim: nat, level: nat, mmax0: nat, mmax: nat)

  function RoundUp(n: nat, align: nat): nat
    requires align > 0
  {
    (n + align - 1) / align * align
  }

  /** `Layout::extend`: the layout with the new region behind it, and where that region starts. */
  function Extend(l: Layout, size: nat, align: nat): (Layout, nat)
    requires align > 0
  {
    var at := RoundUp(l.size, align);
    (Layout(at + size, if l.align >= align then l.align else align), at)
  }

  // ---------------------------------------------------------------------------
  // The header, laid out by C's rules
  // ---------------------------------------------------------------------------

  const ROW_AT: nat := 0
  const DIM_AT: nat := 8
  const LEVEL_AT: nat := 12
  const MMAX0_AT: nat := 14
  const MMAX_AT: nat := 16
  const DELETED_AT: nat := 18
  const PUBLISHED_AT: nat := 19

  const HEADER: Layout := Layout(24, 8)

  /** The header's fields in order, each behind the one before, aligned to its own size. */
  lemma HeaderFields()
    ensures var row := Extend(Layout(0, 1), 8, 8);
            var dim := Extend(row.0, 4, 4);
            var level := Extend(dim.0, 1, 1);
            var mmax0 := Extend(level.0, 2, 2);
            var mmax := Extend(mmax0.0, 2, 2);
            var deleted := Extend(mmax.0, 1, 1);
            var published := Extend(deleted.0, 1, 1);
      && row.1 == ROW_AT && dim.1 == DIM_AT && level.1 == LEVEL_AT && mmax0.1 == MMAX0_AT && mmax.1 == MMAX_AT
      && deleted.1 == DELETED_AT && published.1 == PUBLISHED_AT
      && HEADER == Layout(RoundUp(published.0.size, published.0.align), published.0.align)
  {
  }

  // ---------------------------------------------------------------------------
  // Where everything is
  // ---------------------------------------------------------------------------

  function SlotCount(sh: Shape, lc: nat): nat {
    if lc == 0 then sh.mmax0 + 1 else sh.mmax + 1
  }

  /** How many slots lie before layer `lc`. */
  function SlotsBefore(sh: Shape, lc: nat): nat {
    if lc == 0 then 0 else sh.mmax0 + 1 + (lc - 1) * (sh.mmax + 1)
  }

  /** The eight-byte word at which layer 0 starts: the first behind header and vector. */
  function FirstWord(dim: nat): nat {
    (HEADER.size + 4 * dim + 7) / 8
  }

  function SlotAt(sh: Shape, lc: nat, i: nat): nat {
    8 * (FirstWord(sh.dim) + SlotsBefore(sh, lc) + i)
  }

  function BlockSize(sh: Shape): nat {
    SlotAt(sh, sh.level + 1, 0)
  }

  lemma LayerNext(sh: Shape, lc: nat)
    ensures SlotsBefore(sh, lc + 1) == SlotsBefore(sh, lc) + SlotCount(sh, lc)
  {
    if lc > 0 { InBounds(lc - 1, sh.mmax + 1); }
  }

  lemma {:induction false} LayersApart(sh: Shape, a: nat, b: nat)
    requires a < b
    ensures SlotsBefore(sh, a) + SlotCount(sh, a) <= SlotsBefore(sh, b)
    decreases b
  {
    LayerNext(sh, b - 1);
    if a < b - 1 { LayersApart(sh, a, b - 1); }
  }

  /** Different slots share no byte, and all lie between the vector and the end of the block. */
  lemma {:induction false} SlotsApart(sh: Shape, a: nat, i: nat, b: nat, j: nat)
    requires a <= sh.level && i < SlotCount(sh, a) && b <= sh.level && j < SlotCount(sh, b)
    ensures HEADER.size + 4 * sh.dim <= SlotAt(sh, a, i) && SlotAt(sh, a, i) + 8 <= BlockSize(sh)
    ensures (a, i) != (b, j) ==> SlotAt(sh, a, i) + 8 <= SlotAt(sh, b, j) || SlotAt(sh, b, j) + 8 <= SlotAt(sh, a, i)
  {
    LayersApart(sh, a, sh.level + 1);
    if a < b { LayersApart(sh, a, b); }
    if b < a { LayersApart(sh, b, a); }
  }

  /** Header, vector, then one region per layer: where it starts and its size. */
  function Region(sh: Shape, k: nat): (nat, nat) {
    if k == 0 then (0, HEADER.size)
    else if k == 1 then (HEADER.size, 4 * sh.dim)
    else (SlotAt(sh, k - 2, 0), 8 * SlotCount(sh, k - 2))
  }

  /** The regions are in order, apart and inside the block, the layers without a gap. */
  lemma {:induction false} RegionsApart(sh: Shape, a: nat, b: nat)
    requires a < b < sh.level + 4
    ensures Region(sh, a).0 + Region(sh, a).1 <= Region(sh, b).0 && Region(sh, sh.level + 3).0 == BlockSize(sh)
    ensures 2 <= a ==> Region(sh, a).0 + Region(sh, a).1 == Region(sh, a + 1).0
  {
    if a >= 2 {
      LayerNext(sh, a - 2);
      LayersApart(sh, a - 2, b - 2);
    } else {
      VectorFits(sh.dim);
    }
  }

  lemma VectorFits(dim: nat)
    ensures HEADER.size + 4 * dim <= 8 * FirstWord(dim)
  {
  }

  /** Vector elements are aligned to four bytes, everything else to eight. */
  lemma RegionsAligned(sh: Shape, a: nat)
    ensures if a == 1 then Region(sh, a).0 % 4 == 0 else Region(sh, a).0 % 8 == 0
    ensures BlockSize(sh) % 8 == 0
  {
    WordAligned(FirstWord(sh.dim) + SlotsBefore(sh, sh.level + 1));
    if a >= 2 { WordAligned(FirstWord(sh.dim) + SlotsBefore(sh, a - 2)); }
  }

  lemma WordAligned(n: nat)
    ensures 8 * n % 8 == 0
  {
  }

  lemma Product(a: nat, b: nat, d: nat)
    requires a <= b
    ensures a * d <= b * d
  {
  }

  /** What the header's field widths allow keeps the block far below `isize::MAX` bytes. */
  lemma NeverOverflows(sh: Shape)
    requires sh.dim < 0x1_0000_0000 && sh.level < 0x100 && sh.mmax0 < 0x1_0000 && sh.mmax < 0x1_0000
    ensures BlockSize(sh) < 0x8000_0000_0000_0000
  {
    assert sh.level * (sh.mmax + 1) <= 0x100 * (sh.mmax + 1) by { Product(sh.level, 0x100, sh.mmax + 1); }
  }

  lemma RoundUpWords(n: nat)
    ensures RoundUp(n, 8) == 8 * ((n + 7) / 8) && RoundUp(8 * n, 8) == 8 * n
  {
  }

  /** Header, vector and the layers below `lc`. */
  function Laid(sh: Shape, lc: nat): Layout {
    Layout(if lc == 0 then HEADER.size + 4 * sh.dim else SlotAt(sh, lc, 0), 8)
  }

  /** Where a layer goes when everything before it is laid out. */
  lemma {:induction false} LayerLands(sh: Shape, lc: nat)
    ensures RoundUp(Laid(sh, lc).size, 8) == SlotAt(sh, lc, 0) && SlotAt(sh, lc, 0) + 8 * SlotCount(sh, lc) == SlotAt(sh, lc + 1, 0)
  {
    LayerNext(sh, lc);
    RoundUpWords(if lc == 0 then HEADER.size + 4 * sh.dim else FirstWord(sh.dim) + SlotsBefore(sh, lc));
  }

  method AddVector(dim: nat) returns (layout: Layout, at: nat)
    ensures at == HEADER.size && layout == Layout(HEADER.size + 4 * dim, 8)
  {
    var pair := Extend(HEADER, 4 * dim, 4);
    return pair.0, pair.1;
  }

  method AddLayer(sh: Shape, lc: nat, before: Layout) returns (layout: Layout, at: nat)
    requires before == Laid(sh, lc)
    ensures layout == Laid(sh, lc + 1) && at == SlotAt(sh, lc, 0)
  {
    LayerLands(sh, lc);
    var pair := Extend(before, 8 * SlotCount(sh, lc), 8);
    return pair.0, pair.1;
  }

  method PadToAlign(sh: Shape, lc: nat, before: Layout) returns (layout: Layout)
    requires lc > 0 && before == Laid(sh, lc)
    ensures layout == Layout(SlotAt(sh, lc, 0), 8)
  {
    LayerLands(sh, lc);
    return Layout(RoundUp(before.size, before.align), before.align);
  }

  /** `compute_node_layout`. */
  method ComputeNodeLayout(sh: Shape) returns (layout: Layout, vectorOffset: nat, layerOffsets: seq<nat>)
    ensures layout == Layout(BlockSize(sh), 8) && vectorOffset == HEADER.size
    ensures |layerOffsets| == sh.level + 1 && forall lc :: 0 <= lc <= sh.level ==> layerOffsets[lc] == SlotAt(sh, lc, 0)
  {
    layout, vectorOffset := AddVector(sh.dim);
    layerOffsets := [];
    for lc := 0 to sh.level + 1
      invariant layout == Laid(sh, lc)
      invariant |layerOffsets| == lc && forall l :: 0 <= l < lc ==> layerOffsets[l] == SlotAt(sh, l, 0)
    {
      var at;
      layout, at := AddLayer(sh, lc, layout);
      layerOffsets := layerOffsets + [at];
    }
    layout := PadToAlign(sh, sh.level + 1, layout);
  }

  /** `vector_byte_offset`. */
  method VectorByteOffset(dim: nat) returns (at: nat)
    ensures at == HEADER.size
  {
    var layout;
    layout, at := AddVector(dim);
  }

  /** `layer_byte_offset`, `None` for its panic: the same walk, stopped at layer `lc`. */
  method LayerByteOffset(sh: Shape, lc: nat) returns (r: Option<nat>)
    ensures r == if lc <= sh.level then Some(SlotAt(sh, lc, 0)) else None
  {
    if lc > sh.level { return None; }
    var layout, at := AddVector(sh.dim);
    for current := 0 to lc + 1
      invariant layout == Laid(sh, current) && (current > 0 ==> at == SlotAt(sh, current - 1, 0))
    {
      layout, at := AddLayer(sh, current, layout);
    }
    return Some(at);
  }

  // ---------------------------------------------------------------------------
  // What a block stands for
  // ---------------------------------------------------------------------------

  /** A node: `layers[lc][i]` is slot `i` of layer `lc`; vector elements are their 32-bit patterns. */
  datatype Content = Content(row: nat, vector: seq<nat>, mmax0: nat, mmax: nat, layers: seq<seq<nat>>, deleted: bool, published: bool)

  ghost function ShapeOf(c: Content): Shape
    requires c.layers != []
  {
    Shape(|c.vector|, |c.layers| - 1, c.mmax0, c.mmax)
  }

  ghost predicate WellFormed(c: Content) {
    && c.row < U64 && |c.vector| < 0x1_0000_0000 && Fits(c.vector, 4) && c.mmax0 < 0x1_0000 && c.mmax < 0x1_0000
    && 1 <= |c.layers| <= 0x100
    && forall lc :: 0 <= lc < |c.layers| ==> |c.layers[lc]| == SlotCount(ShapeOf(c), lc) && Fits(c.layers[lc], 8)
  }

  function Flag(b: bool): nat {
    if b then 1 else 0
  }

  ghost predicate HeaderHeld(b: seq<Byte>, c: Content)
    requires c.layers != []
  {
    && Holds(b, ROW_AT, LE(c.row, 8)) && Holds(b, DIM_AT, LE(|c.vector|, 4)) && Holds(b, LEVEL_AT, LE(|c.layers| - 1, 1))
    && Holds(b, MMAX0_AT, LE(c.mmax0, 2)) && Holds(b, MMAX_AT, LE(c.mmax, 2))
    && Holds(b, DELETED_AT, LE(Flag(c.deleted), 1)) && Holds(b, PUBLISHED_AT, LE(Flag(c.published), 1))
  }

  ghost predicate SlotHeld(b: seq<Byte>, c: Content, lc: nat, i: nat)
    requires lc < |c.layers| && i < |c.layers[lc]|
  {
    Holds(b, SlotAt(ShapeOf(c), lc, i), LE(c.layers[lc][i], 8))
  }

  ghost predicate Represents(b: seq<Byte>, c: Content) {
    && WellFormed(c) && |b| == BlockSize(ShapeOf(c)) && HeaderHeld(b, c)
    && Holds(b, HEADER.size, Words(c.vector, 4))
    && forall lc, i :: 0 <= lc < |c.layers| && 0 <= i < |c.layers[lc]| ==> SlotHeld(b, c, lc, i)
  }

  /** The content with another value in one slot. */
  ghost function WithSlot(c: Content, lc: nat, i: nat, v: nat): Content
    requires lc < |c.layers| && i < |c.layers[lc]|
  {
    var slots: seq<nat> := c.layers[lc][i := v];
    c.(layers := c.layers[lc := slots])
  }

  /** A block determines its content: no two nodes look alike in memory, and reads are unambiguous. */
  lemma {:induction false} OneContent(b: seq<Byte>, c: Content, d: Content)
    requires Represents(b, c) && Represents(b, d)
    ensures c == d
  {
    HeaderReads(b, c);
    HeaderReads(b, d);
    ViewHeld(b, HEADER.size, c.vector, 4);
    ViewHeld(b, HEADER.size, d.vector, 4);
    forall lc | 0 <= lc < |c.layers| ensures c.layers[lc] == d.layers[lc] {
      LayerReads(b, c, lc);
      LayerReads(b, d, lc);
    }
  }

  lemma HeaderReads(b: seq<Byte>, c: Content)
    requires Represents(b, c)
    ensures |b| >= HEADER.size && Field(b, ROW_AT, 8) == c.row
    ensures Shape(Field(b, DIM_AT, 4), Field(b, LEVEL_AT, 1), Field(b, MMAX0_AT, 2), Field(b, MMAX_AT, 2)) == ShapeOf(c)
    ensures Field(b, DELETED_AT, 1) == Flag(c.deleted) && Field(b, PUBLISHED_AT, 1) == Flag(c.published)
  {
    WordReads(b, ROW_AT, c.row, 8, U64);
    WordReads(b, DIM_AT, |c.vector|, 4, 0x1_0000_0000);
    WordReads(b, LEVEL_AT, |c.layers| - 1, 1, 0x100);
    WordReads(b, MMAX0_AT, c.mmax0, 2, 0x1_0000);
    WordReads(b, MMAX_AT, c.mmax, 2, 0x1_0000);
    WordReads(b, DELETED_AT, Flag(c.deleted), 1, 0x100);
    WordReads(b, PUBLISHED_AT, Flag(c.published), 1, 0x100);
  }

  /** A header field of `w` bytes, which can take `limit` values, reads back. */
  lemma {:induction false} WordReads(b: seq<Byte>, at: nat, n: nat, w: nat, limit: nat)
    requires Holds(b, at, LE(n, w)) && n < limit
    requires (w == 1 && limit == 0x100) || (w == 2 && limit == 0x1_0000) || (w == 4 && limit == 0x1_0000_0000) || (w == 8 && limit == U64)
    ensures at + w <= |b| && Field(b, at, w) == n
  {
    Widths();
    FieldHeld(b, at, n, w);
  }

  /** The region reserved for a layer is exactly that layer's slots. */
  lemma {:induction false} LayerReads(b: seq<Byte>, c: Content, lc: nat)
    requires Represents(b, c) && lc < |c.layers|
    ensures var at, n := SlotAt(ShapeOf(c), lc, 0), SlotCount(ShapeOf(c), lc);
      at + n * 8 <= |b| && View(b, at, 8, n) == c.layers[lc]
  {
    var sh := ShapeOf(c);
    var at, n := SlotAt(sh, lc, 0), SlotCount(sh, lc);
    LayersApart(sh, lc, sh.level + 1);
    forall i | 0 <= i < n ensures View(b, at, 8, n)[i] == c.layers[lc][i] {
      ViewAt(b, at, 8, n, i);
      assert SlotHeld(b, c, lc, i) && at + i * 8 == SlotAt(sh, lc, i);
      FieldHeld(b, at + i * 8, c.layers[lc][i], 8);
    }
  }

  // ---------------------------------------------------------------------------
  // Writing
  // ---------------------------------------------------------------------------

  lemma PutHolds(b: seq<Byte>, at: nat, src: seq<Byte>)
    requires at + |src| <= |b|
    ensures Holds(Put(b, at, src), at, src)
  {
  }

  lemma PutKeeps(b: seq<Byte>, at: nat, src: seq<Byte>, other: nat, part: seq<Byte>)
    requires at + |src| <= |b| && Holds(b, other, part) && (other + |part| <= at || at + |src| <= other)
    ensures Holds(Put(b, at, src), other, part)
  {
  }

  /** A write at or behind `n` leaves what is held before `n`. */
  lemma PrefixKeeps(b: seq<Byte>, b': seq<Byte>, n: nat, at: nat, part: seq<Byte>)
    requires n <= |b| == |b'| && b[..n] == b'[..n] && Holds(b, at, part) && at + |part| <= n
    ensures Holds(b', at, part)
  {
    forall i | 0 <= i < |part| ensures b'[at + i] == part[i] {
      assert b[..n][at + i] == b'[..n][at + i];
    }
  }

  lemma HeaderKeeps(b: seq<Byte>, b': seq<Byte>, n: nat, c: Content)
    requires HEADER.size <= n <= |b| == |b'| && b[..n] == b'[..n] && c.layers != [] && HeaderHeld(b, c)
    ensures HeaderHeld(b', c)
  {
    PrefixKeeps(b, b', n, ROW_AT, LE(c.row, 8));
    PrefixKeeps(b, b', n, DIM_AT, LE(|c.vector|, 4));
    PrefixKeeps(b, b', n, LEVEL_AT, LE(|c.layers| - 1, 1));
    PrefixKeeps(b, b', n, MMAX0_AT, LE(c.mmax0, 2));
    PrefixKeeps(b, b', n, MMAX_AT, LE(c.mmax, 2));
    PrefixKeeps(b, b', n, DELETED_AT, LE(Flag(c.deleted), 1));
    PrefixKeeps(b, b', n, PUBLISHED_AT, LE(Flag(c.published), 1));
  }

  /** Storing into one slot changes that slot and nothing else of the node. */
  lemma {:induction false} StoreRepresents(b: seq<Byte>, c: Content, lc: nat, i: nat, v: nat)
    requires Represents(b, c) && lc < |c.layers| && i < |c.layers[lc]| && v < U64
    ensures var at := SlotAt(ShapeOf(c), lc, i);
      at + 8 <= |b| && Represents(Put(b, at, LE(v, 8)), WithSlot(c, lc, i, v))
  {
    var sh, at, d := ShapeOf(c), SlotAt(ShapeOf(c), lc, i), WithSlot(c, lc, i, v);
    SlotsApart(sh, lc, i, lc, i);
    var b' := Put(b, at, LE(v, 8));
    assert b'[..at] == b[..at];
    Widths();
    assert ShapeOf(d) == sh;
    HeaderKeeps(b, b', at, c);
    PutKeeps(b, at, LE(v, 8), HEADER.size, Words(c.vector, 4));
    forall l, j | 0 <= l < |d.layers| && 0 <= j < |d.layers[l]| ensures SlotHeld(b', d, l, j) {
      SlotsApart(sh, lc, i, l, j);
      if (l, j) == (lc, i) {
        PutHolds(b, at, LE(v, 8));
      } else {
        assert SlotHeld(b, c, l, j);
        PutKeeps(b, at, LE(v, 8), SlotAt(sh, l, j), LE(c.layers[l][j], 8));
      }
    }
  }

  /** Raising a flag changes that flag and nothing else of the node. */
  lemma {:induction false} FlagRepresents(b: seq<Byte>, c: Content, at: nat)
    requires Represents(b, c) && (at == DELETED_AT || at == PUBLISHED_AT)
    ensures at < |b|
    ensures Represents(Put(b, at, LE(1, 1)), if at == DELETED_AT then c.(deleted := true) else c.(published := true))
  {
    var sh := ShapeOf(c);
    var d := if at == DELETED_AT then c.(deleted := true) else c.(published := true);
    SlotsApart(sh, 0, 0, 0, 0);
    var b' := Put(b, at, LE(1, 1));
    assert ShapeOf(d) == sh;
    FlagHeader(b, c, at);
    PutKeeps(b, at, LE(1, 1), HEADER.size, Words(c.vector, 4));
    forall l, j | 0 <= l < |d.layers| && 0 <= j < |d.layers[l]| ensures SlotHeld(b', d, l, j) {
      SlotsApart(sh, l, j, l, j);
      assert SlotHeld(b, c, l, j);
      PutKeeps(b, at, LE(1, 1), SlotAt(sh, l, j), LE(c.layers[l][j], 8));
    }
  }

  lemma FlagHeader(b: seq<Byte>, c: Content, at: nat)
    requires c.layers != [] && HeaderHeld(b, c) && (at == DELETED_AT || at == PUBLISHED_AT)
    ensures HeaderHeld(Put(b, at, LE(1, 1)), if at == DELETED_AT then c.(deleted := true) else c.(published := true))
  {
    PutHolds(b, at, LE(1, 1));
    PutKeeps(b, at, LE(1, 1), ROW_AT, LE(c.row, 8));
    PutKeeps(b, at, LE(1, 1), DIM_AT, LE(|c.vector|, 4));
    PutKeeps(b, at, LE(1, 1), LEVEL_AT, LE(|c.layers| - 1, 1));
    PutKeeps(b, at, LE(1, 1), MMAX0_AT, LE(c.mmax0, 2));
    PutKeeps(b, at, LE(1, 1), MMAX_AT, LE(c.mmax, 2));
    if at == DELETED_AT {
      PutKeeps(b, at, LE(1, 1), PUBLISHED_AT, LE(Flag(c.published), 1));
    } else {
      PutKeeps(b, at, LE(1, 1), DELETED_AT, LE(Flag(c.deleted), 1));
    }
  }

  method Write(block: array<Byte>, at: nat, src: seq<Byte>)
    requires at + |src| <= block.Length
    modifies block
    ensures block[..] == Put(old(block[..]), at, src)
  {
    forall i | 0 <= i < |src| { block[at + i] := src[i]; }
  }

  /** A node as `alloc_node` leaves it: every slot empty, neither flag raised. */
  ghost function Blank(row: nat, vector: seq<nat>, level: nat, mmax0: nat, mmax: nat): (c: Content)
    ensures |c.layers| == level + 1 && ShapeOf(c) == Shape(|vector|, level, mmax0, mmax)
    ensures forall lc :: 0 <= lc <= level ==> c.layers[lc] == seq(SlotCount(ShapeOf(c), lc), _ => EMPTY)
  {
    var sh := Shape(|vector|, level, mmax0, mmax);
    Content(row, vector, mmax0, mmax, seq(level + 1, lc requires 0 <= lc => seq(SlotCount(sh, lc), _ => EMPTY)), false, false)
  }

  class Node {
    const block: array<Byte>
    ghost var content: Content

    ghost predicate Valid()
      reads this, block
    {
      Represents(block[..], content)
    }

    /** `alloc_node`: the arguments are in the range of the header's fields, or it panics. */
    constructor (row: nat, vector: seq<nat>, level: nat, mmax0: nat, mmax: nat)
      requires row < U64 && Fits(vector, 4) && |vector| < 0x1_0000_0000 && level < 0x100 && mmax0 < 0x1_0000 && mmax < 0x1_0000
      ensures fresh(block) && Valid() && content == Blank(row, vector, level, mmax0, mmax)
    {
      var sh := Shape(|vector|, level, mmax0, mmax);
      var layout, vectorOffset, offsets := ComputeNodeLayout(sh);
      var bytes := new Byte[layout.size];
      ghost var c := Blank(row, vector, level, mmax0, mmax);
      block, content := bytes, c;
      new;
      SlotsApart(sh, 0, 0, 0, 0);
      WriteHeader(block, row, sh, c);
      WriteVector(block, vectorOffset, vector, c);
      FillSlots(block, sh, offsets, c);
      BlankFits(row, vector, level, mmax0, mmax);
    }

    /** A store into slot `i` of layer `lc`. */
    method StoreSlot(lc: nat, i: nat, v: nat)
      requires Valid() && lc < |content.layers| && i < |content.layers[lc]| && v < U64
      modifies this`content, block
      ensures Valid() && content == WithSlot(old(content), lc, i, v)
    {
      HeaderReads(block[..], content);
      StoreRepresents(block[..], content, lc, i, v);
      var sh := ReadShape();
      var at := LayerByteOffset(sh, lc);
      Write(block, at.value + 8 * i, LE(v, 8));
      content := WithSlot(content, lc, i, v);
    }

    method MarkDeleted()
      requires Valid()
      modifies this`content, block
      ensures Valid() && content == old(content).(deleted := true)
    {
      FlagRepresents(block[..], content, DELETED_AT);
      Write(block, DELETED_AT, LE(1, 1));
      content := content.(deleted := true);
    }

    method MarkPublished()
      requires Valid()
      modifies this`content, block
      ensures Valid() && content == old(content).(published := true)
    {
      FlagRepresents(block[..], content, PUBLISHED_AT);
      Write(block, PUBLISHED_AT, LE(1, 1));
      content := content.(published := true);
    }

    method ReadShape() returns (sh: Shape)
      requires Valid()
      ensures sh == ShapeOf(content)
    {
      HeaderReads(block[..], content);
      var b := block[..];
      return Shape(Field(b, DIM_AT, 4), Field(b, LEVEL_AT, 1), Field(b, MMAX0_AT, 2), Field(b, MMAX_AT, 2));
    }

    /** `Node::vector`. */
    method Vector() returns (v: seq<nat>)
      requires Valid()
      ensures v == content.vector
    {
      var sh := ReadShape();
      var at := VectorByteOffset(sh.dim);
      ViewHeld(block[..], HEADER.size, content.vector, 4);
      return View(block[..], at, 4, sh.dim);
    }

    /** `Node::layer`, `None` for its panic. */
    method Layer(lc: nat) returns (r: Option<seq<nat>>)
      requires Valid()
      ensures r == if lc < |content.layers| then Some(content.layers[lc]) else None
    {
      var sh := ReadShape();
      if lc > sh.level { return None; }
      var at := LayerByteOffset(sh, lc);
      LayerReads(block[..], content, lc);
      return Some(View(block[..], at.value, 8, SlotCount(sh, lc)));
    }
  }

  method WriteHeader(block: array<Byte>, row: nat, sh: Shape, ghost c: Content)
    requires block.Length >= HEADER.size && c.layers != [] && ShapeOf(c) == sh && c.row == row && !c.deleted && !c.published
    modifies block
    ensures HeaderHeld(block[..], c)
  {
    WriteField(block, ROW_AT, LE(row, 8), 8);
    WriteField(block, DIM_AT, LE(sh.dim, 4), 4);
    WriteField(block, LEVEL_AT, LE(sh.level, 1), 1);
    WriteField(block, MMAX0_AT, LE(sh.mmax0, 2), 2);
    WriteField(block, MMAX_AT, LE(sh.mmax, 2), 2);
    WriteField(block, DELETED_AT, LE(0, 1), 1);
    WriteField(block, PUBLISHED_AT, LE(0, 1), 1);
  }

  method WriteVector(block: array<Byte>, at: nat, vector: seq<nat>, ghost c: Content)
    requires at == HEADER.size && at + 4 * |vector| <= block.Length && c.layers != [] && HeaderHeld(block[..], c)
    modifies block
    ensures HeaderHeld(block[..], c) && Holds(block[..], HEADER.size, Words(vector, 4))
  {
    ghost var before := block[..];
    Write(block, at, Words(vector, 4));
    assert block[..][..HEADER.size] == before[..HEADER.size];
    HeaderKeeps(before, block[..], HEADER.size, c);
    PutHolds(before, HEADER.size, Words(vector, 4));
  }

  lemma BlankFits(row: nat, vector: seq<nat>, level: nat, mmax0: nat, mmax: nat)
    requires row < U64 && Fits(vector, 4) && |vector| < 0x1_0000_0000 && level < 0x100 && mmax0 < 0x1_0000 && mmax < 0x1_0000
    ensures WellFormed(Blank(row, vector, level, mmax0, mmax))
  {
    Widths();
  }

  /** Every slot of every layer, in order. */
  method FillSlots(block: array<Byte>, sh: Shape, offsets: seq<nat>, ghost c: Content)
    requires c == Blank(c.row, c.vector, sh.level, sh.mmax0, sh.mmax) && ShapeOf(c) == sh && block.Length == BlockSize(sh)
    requires |offsets| == sh.level + 1 && forall lc :: 0 <= lc <= sh.level ==> offsets[lc] == SlotAt(sh, lc, 0)
    requires HeaderHeld(block[..], c) && Holds(block[..], HEADER.size, Words(c.vector, 4))
    modifies block
    ensures HeaderHeld(block[..], c) && Holds(block[..], HEADER.size, Words(c.vector, 4))
    ensures forall l, i :: 0 <= l <= sh.level && 0 <= i < |c.layers[l]| ==> SlotHeld(block[..], c, l, i)
  {
    for lc := 0 to sh.level + 1
      invariant HeaderHeld(block[..], c) && Holds(block[..], HEADER.size, Words(c.vector, 4))
      invariant forall l, i :: 0 <= l < lc && 0 <= i < |c.layers[l]| ==> SlotHeld(block[..], c, l, i)
    {
      ghost var before := block[..];
      FillLayer(block, sh, lc, offsets[lc]);
      LayerFilled(before, block[..], sh, c, lc);
    }
  }

  /** Writes that go upwards keep what the earlier ones wrote. */
  method WriteField(block: array<Byte>, at: nat, src: seq<Byte>, w: nat)
    requires at + w <= block.Length && |src| == w
    modifies block
    ensures Holds(block[..], at, src)
    ensures forall other: nat, part: seq<Byte> :: Holds(old(block[..]), other, part) && other + |part| <= at ==> Holds(block[..], other, part)
  {
    ghost var before := block[..];
    Write(block, at, src);
    PutHolds(before, at, src);
    forall other: nat, part: seq<Byte> | Holds(before, other, part) && other + |part| <= at ensures Holds(block[..], other, part) {
      PutKeeps(before, at, src, other, part);
    }
  }

  /** Empties the slots of one layer, which starts at `at`. */
  method FillLayer(block: array<Byte>, sh: Shape, lc: nat, at: nat)
    requires lc <= sh.level && block.Length == BlockSize(sh) && at == SlotAt(sh, lc, 0)
    modifies block
    ensures at <= block.Length && block[..][..at] == old(block[..])[..at]
    ensures Emptied(block[..], sh, lc, SlotCount(sh, lc))
  {
    SlotsApart(sh, lc, 0, lc, 0);
    for i := 0 to SlotCount(sh, lc)
      invariant block[..][..at] == old(block[..])[..at] && Emptied(block[..], sh, lc, i)
    {
      EmptyOneMore(block[..], sh, lc, i);
      Write(block, at + 8 * i, LE(EMPTY, 8));
    }
  }

  /** The first `n` slots of layer `lc` are empty. */
  ghost predicate Emptied(b: seq<Byte>, sh: Shape, lc: nat, n: nat) {
    forall i :: 0 <= i < n ==> Holds(b, SlotAt(sh, lc, i), LE(EMPTY, 8))
  }

  lemma {:induction false} EmptyOneMore(b: seq<Byte>, sh: Shape, lc: nat, i: nat)
    requires lc <= sh.level && |b| == BlockSize(sh) && i < SlotCount(sh, lc) && Emptied(b, sh, lc, i)
    ensures var at := SlotAt(sh, lc, i);
      && at + 8 <= |b| && Emptied(Put(b, at, LE(EMPTY, 8)), sh, lc, i + 1)
      && Put(b, at, LE(EMPTY, 8))[..SlotAt(sh, lc, 0)] == b[..SlotAt(sh, lc, 0)]
  {
    var at := SlotAt(sh, lc, i);
    SlotsApart(sh, lc, i, lc, i);
    PutHolds(b, at, LE(EMPTY, 8));
    forall j | 0 <= j < i ensures Holds(Put(b, at, LE(EMPTY, 8)), SlotAt(sh, lc, j), LE(EMPTY, 8)) {
      PutKeeps(b, at, LE(EMPTY, 8), SlotAt(sh, lc, j), LE(EMPTY, 8));
    }
  }

  /** Filling a layer leaves everything before it. */
  lemma {:induction false} LayerFilled(b: seq<Byte>, b': seq<Byte>, sh: Shape, c: Content, lc: nat)
    requires lc <= sh.level && |b| == |b'| == BlockSize(sh) && SlotAt(sh, lc, 0) <= |b|
    requires b[..SlotAt(sh, lc, 0)] == b'[..SlotAt(sh, lc, 0)]
    requires c == Blank(c.row, c.vector, sh.level, sh.mmax0, sh.mmax) && ShapeOf(c) == sh
    requires HeaderHeld(b, c) && Holds(b, HEADER.size, Words(c.vector, 4))
    requires forall l, i :: 0 <= l < lc && 0 <= i < |c.layers[l]| ==> SlotHeld(b, c, l, i)
    requires Emptied(b', sh, lc, SlotCount(sh, lc))
    ensures HeaderHeld(b', c) && Holds(b', HEADER.size, Words(c.vector, 4))
    ensures forall l, i :: 0 <= l <= lc && 0 <= i < |c.layers[l]| ==> SlotHeld(b', c, l, i)
  {
    var n := SlotAt(sh, lc, 0);
    SlotsApart(sh, lc, 0, lc, 0);
    HeaderKeeps(b, b', n, c);
    PrefixKeeps(b, b', n, HEADER.size, Words(c.vector, 4));
    forall l, i | 0 <= l <= lc && 0 <= i < |c.layers[l]| ensures SlotHeld(b', c, l, i) {
      if l < lc {
        LayersApart(sh, l, lc);
        assert SlotHeld(b, c, l, i);
        PrefixKeeps(b, b', n, SlotAt(sh, l, i), LE(c.layers[l][i], 8));
      }
    }
  }
}
