/**
 `encode_segment`: the imperative encoder, one zero-initialised buffer filled in place. It
 succeeds exactly when the graph has a content the format can hold, and the buffer is then the
 image of that content, so `SegmentRoundTrip` applies to what it returns.
 */
module SegmentWriter {
  import opened Common
  import opened Bytes
  import opened SegmentFormat

  datatype EncodeError = SegmentEmpty | SegmentCorrupt | DimensionMismatch(queryLen: nat, expected: nat) | SegmentTooLarge

  /** What the encoder asks of a graph keyed by ordinals. */
  datatype NodeSource = NodeSource(
    dimension: nat, level: nat -> Option<nat>, vector: nat -> Option<seq<nat>>, neighbors: (nat, nat) -> seq<nat>,
    entryPoint: Option<(nat, nat)>)

  /** What the machine types of the arguments guarantee. */
  ghost predicate Typed(s: NodeSource, rowIds: seq<nat>, params: Params) {
    && Fits(rowIds, 8) && params.mL < U64
    && forall i: nat :: s.vector(i).Some? ==> Fits(s.vector(i).value, 4)
  }

  // ---------------------------------------------------------------------------
  // The content of a graph
  // ---------------------------------------------------------------------------

  ghost predicate GoodNode(s: NodeSource, i: nat) {
    && s.level(i).Some? && s.level(i).value < 256
    && s.vector(i).Some? && |s.vector(i).value| == s.dimension
  }

  ghost predicate Populated(s: NodeSource, n: nat) {
    forall i: nat :: i < n ==> GoodNode(s, i)
  }

  ghost function LevelsOf(s: NodeSource, n: nat): (r: seq<nat>)
    requires Populated(s, n)
    ensures |r| == n && forall i :: 0 <= i < n ==> GoodNode(s, i) && r[i] == s.level(i).value
  {
    seq<nat>(n, i requires 0 <= i < n => assert GoodNode(s, i); s.level(i).value)
  }

  ghost function VectorsOf(s: NodeSource, n: nat): (r: seq<seq<nat>>)
    requires Populated(s, n)
    ensures |r| == n && forall i :: 0 <= i < n ==> GoodNode(s, i) && r[i] == s.vector(i).value
  {
    seq(n, i requires 0 <= i < n => assert GoodNode(s, i); s.vector(i).value)
  }

  function LayerOf(s: NodeSource, n: nat, l: nat): (r: seq<seq<nat>>)
    ensures |r| == n && forall i :: 0 <= i < n ==> r[i] == s.neighbors(i, l)
  {
    seq(n, i requires 0 <= i < n => s.neighbors(i, l))
  }

  ghost function LayersOf(s: NodeSource, n: nat, count: nat): (r: seq<seq<seq<nat>>>)
    ensures |r| == count && forall l :: 0 <= l < count ==> r[l] == LayerOf(s, n, l)
  {
    seq(count, l requires 0 <= l < count => LayerOf(s, n, l))
  }

  ghost function ContentOf(s: NodeSource, rowIds: seq<nat>, params: Params): Content
    requires Populated(s, |rowIds|) && s.entryPoint.Some?
  {
    var levels := LevelsOf(s, |rowIds|);
    Content(rowIds, s.dimension, levels, LayersOf(s, |rowIds|, Max(levels) + 1), VectorsOf(s, |rowIds|),
            s.entryPoint.value.0, params)
  }

  ghost predicate Encodable(s: NodeSource, rowIds: seq<nat>, params: Params) {
    Populated(s, |rowIds|) && s.entryPoint.Some? && Valid(ContentOf(s, rowIds, params))
  }

  /** A neighbour list that names an ordinal outside the segment. */
  ghost predicate Strays(s: NodeSource, n: nat, i: nat, l: nat) {
    exists k :: 0 <= k < |s.neighbors(i, l)| && s.neighbors(i, l)[k] >= n
  }

  /** Each error names a defect the arguments really have. */
  ghost predicate Justified(e: EncodeError, s: NodeSource, rowIds: seq<nat>, params: Params) {
    var n := |rowIds|;
    match e
    case SegmentEmpty => rowIds == [] || s.dimension == 0 || s.entryPoint.None?
    case SegmentCorrupt =>
      || !Ascending(rowIds)
      || (exists i: nat :: i < n && (s.level(i).None? || s.level(i).value >= 256 || s.vector(i).None?))
      || (s.entryPoint.Some? && s.entryPoint.value.0 >= n)
      || (exists i: nat, l: nat :: i < n && l < 256 && Strays(s, n, i, l))
    case DimensionMismatch(queryLen, expected) =>
      expected == s.dimension != queryLen && exists i: nat :: i < n && s.vector(i).Some? && |s.vector(i).value| == queryLen
    case SegmentTooLarge =>
      || n >= U32 || s.dimension >= U32 || !ParamsFit(params)
      || (exists l: nat :: l < 256 && |Flat(LayerOf(s, n, l))| >= U32)
      || (Populated(s, n) && s.entryPoint.Some? && !LensFit(ContentOf(s, rowIds, params)))
  }

  // ---------------------------------------------------------------------------
  // Reading the graph
  // ---------------------------------------------------------------------------

  /** The per-node checks, done before any buffer is sized. */
  method CollectLevels(s: NodeSource, n: nat) returns (r: Result<seq<nat>, EncodeError>)
    ensures r.Ok? <==> Populated(s, n)
    ensures r.Ok? ==> r.value == LevelsOf(s, n)
    ensures r.Err? ==> exists i: nat :: i < n && Faulty(s, i, r.error)
  {
    var levels: seq<nat> := [];
    for i := 0 to n
      invariant |levels| == i
      invariant forall j: nat :: j < i ==> GoodNode(s, j) && levels[j] == s.level(j).value
    {
      var level, vector := s.level(i), s.vector(i);
      if level.None? || level.value >= 256 || vector.None? {
        assert Faulty(s, i, SegmentCorrupt) && !GoodNode(s, i);
        return Err(SegmentCorrupt);
      }
      if |vector.value| != s.dimension {
        assert Faulty(s, i, DimensionMismatch(|vector.value|, s.dimension)) && !GoodNode(s, i);
        return Err(DimensionMismatch(|vector.value|, s.dimension));
      }
      levels := levels + [level.value];
    }
    return Ok(levels);
  }

  ghost predicate Faulty(s: NodeSource, i: nat, e: EncodeError) {
    match e
    case SegmentCorrupt => s.level(i).None? || s.level(i).value >= 256 || s.vector(i).None?
    case DimensionMismatch(queryLen, expected) =>
      s.vector(i).Some? && |s.vector(i).value| == queryLen != expected == s.dimension
    case SegmentEmpty => false
    case SegmentTooLarge => false
  }

  lemma {:induction false} FlatStep(layer: seq<seq<nat>>, i: nat)
    requires i < |layer|
    ensures Flat(layer[..i + 1]) == Flat(layer[..i]) + layer[i]
    ensures Offsets(layer[..i + 1]) == Offsets(layer[..i]) + [|Flat(layer[..i + 1])|]
  {
    assert layer[..i + 1][..i] == layer[..i];
  }

  predicate Below(xs: seq<nat>, n: nat) {
    forall k :: 0 <= k < |xs| ==> xs[k] < n
  }

  /** One layer in compressed rows: the lists one after the other, and where each one ends. */
  method CollectLayer(s: NodeSource, n: nat, l: nat) returns (r: Result<(seq<nat>, seq<nat>), EncodeError>)
    ensures r.Ok? <==> LayerFits(LayerOf(s, n, l), n)
    ensures r.Ok? ==> r.value == (Offsets(LayerOf(s, n, l)), Flat(LayerOf(s, n, l)))
    ensures r.Err? ==> r.error == SegmentTooLarge || r.error == SegmentCorrupt
    ensures r == Err(SegmentTooLarge) ==> |Flat(LayerOf(s, n, l))| >= U32
    ensures r == Err(SegmentCorrupt) ==> exists i: nat :: i < n && Strays(s, n, i, l)
  {
    ghost var layer := LayerOf(s, n, l);
    var offsets, neighbors: seq<nat> := [0], [];
    for i := 0 to n
      invariant offsets == Offsets(layer[..i]) && neighbors == Flat(layer[..i])
      invariant Below(neighbors, n) && (i > 0 ==> |neighbors| < U32)
    {
      var buf := s.neighbors(i, l);
      ghost var before := neighbors;
      for k := 0 to |buf|
        invariant neighbors == before + buf[..k] && Below(neighbors, n)
      {
        if buf[k] >= n {
          FlatStep(layer, i);
          OffsetsOfPrefix(layer, i + 1);
          assert Flat(layer)[|before| + k] == (before + buf)[|before| + k] == buf[k];
          assert Strays(s, n, i, l);
          return Err(SegmentCorrupt);
        }
        neighbors := neighbors + [buf[k]];
      }
      assert buf[..|buf|] == buf;
      FlatStep(layer, i);
      if |neighbors| >= U32 {
        OffsetsOfPrefix(layer, i + 1);
        return Err(SegmentTooLarge);
      }
      offsets := offsets + [|neighbors|];
    }
    assert layer[..n] == layer;
    return Ok((offsets, neighbors));
  }

  /** Every layer from 0 to `maxLevel`. */
  method CollectLayers(s: NodeSource, n: nat, count: nat) returns (r: Result<seq<(seq<nat>, seq<nat>)>, EncodeError>)
    ensures r.Ok? <==> forall l :: 0 <= l < count ==> LayerFits(LayerOf(s, n, l), n)
    ensures r.Ok? ==> Compressed(r.value, LayersOf(s, n, count))
    ensures r.Err? ==> r.error == SegmentTooLarge || r.error == SegmentCorrupt
    ensures r == Err(SegmentTooLarge) ==> exists l: nat :: l < count && |Flat(LayerOf(s, n, l))| >= U32
    ensures r == Err(SegmentCorrupt) ==> exists i: nat, l: nat :: i < n && l < count && Strays(s, n, i, l)
  {
    var layers: seq<(seq<nat>, seq<nat>)> := [];
    for l := 0 to count
      invariant |layers| == l
      invariant forall k :: 0 <= k < l ==> LayerFits(LayerOf(s, n, k), n)
      invariant forall k :: 0 <= k < l ==> layers[k] == (Offsets(LayerOf(s, n, k)), Flat(LayerOf(s, n, k)))
    {
      var layer := CollectLayer(s, n, l);
      if layer.Err? {
        if layer.error == SegmentCorrupt {
          ghost var i: nat :| i < n && Strays(s, n, i, l);
        }
        return Err(layer.error);
      }
      layers := layers + [layer.value];
    }
    return Ok(layers);
  }

  ghost predicate Compressed(csr: seq<(seq<nat>, seq<nat>)>, layers: seq<seq<seq<nat>>>) {
    |csr| == |layers| && forall l :: 0 <= l < |csr| ==> csr[l] == (Offsets(layers[l]), Flat(layers[l]))
  }

  // ---------------------------------------------------------------------------
  // Sizing
  // ---------------------------------------------------------------------------

  /** The adjacency section's length, or nothing once a `usize` would overflow. */
  method AdjacencyLength(csr: seq<(seq<nat>, seq<nat>)>, ghost layers: seq<seq<seq<nat>>>) returns (r: Option<nat>)
    requires Compressed(csr, layers)
    ensures r == if |AdjacencyBytes(layers)| < U64 then Some(|AdjacencyBytes(layers)|) else None
  {
    ghost var parts := LayerParts(layers);
    var total := 0;
    for l := 0 to |csr|
      invariant total == PartStart(parts, l) < U64
    {
      ConcatStep(parts, l);
      PartStartGrows(parts, l + 1);
      var perLayer := (|csr[l].0| + |csr[l].1|) * 4;
      assert |parts[l]| == perLayer;
      if total + perLayer >= U64 { return None; }
      total := total + perLayer;
    }
    assert parts[..|parts|] == parts;
    return Some(total);
  }

  lemma {:induction false} PartStartGrows(parts: seq<seq<Byte>>, i: nat)
    requires i <= |parts|
    ensures PartStart(parts, i) <= |Concat(parts)|
    decreases |parts| - i
  {
    if i == |parts| {
      assert parts[..i] == parts;
    } else {
      ConcatStep(parts, i);
      PartStartGrows(parts, i + 1);
    }
  }

  // ---------------------------------------------------------------------------
  // Writing in place
  // ---------------------------------------------------------------------------

  /** `write_at`: copies `src` into the buffer, or reports that it does not fit. */
  method WriteAt(out: array<Byte>, at: nat, src: seq<Byte>) returns (r: Option<EncodeError>)
    modifies out
    ensures r.None? <==> at + |src| < U64 && at + |src| <= out.Length
    ensures r.None? ==> out[..] == Put(old(out[..]), at, src)
    ensures r.Some? ==> out[..] == old(out[..]) && (r.value == SegmentTooLarge <==> at + |src| >= U64)
  {
    if at + |src| >= U64 { return Some(SegmentTooLarge); }
    if at + |src| > out.Length { return Some(SegmentCorrupt); }
    forall i | 0 <= i < |src| { out[at + i] := src[i]; }
    return None;
  }

  /** The buffer is `done`, then `k` bytes nobody has written yet, then `rest`. */
  ghost predicate Filled(out: array<Byte>, done: seq<Byte>, k: nat, rest: seq<Byte>)
    reads out
  {
    out.Length < U64 && out[..] == done + Zeros(k) + rest
  }

  /** A write behind what is there, into bytes nobody has written yet: it cannot fail. */
  method WriteNext(out: array<Byte>, at: nat, src: seq<Byte>, ghost done: seq<Byte>, ghost k: nat, ghost rest: seq<Byte>)
    requires Filled(out, done, k, rest) && |done| <= at && at + |src| <= |done| + k
    modifies out
    ensures Filled(out, done + Zeros(at - |done|) + src, |done| + k - at - |src|, rest)
  {
    var e := WriteAt(out, at, src);
    PutIntoZeros(done, at - |done|, k, src, rest);
  }

  /** The same without a gap. */
  method WriteBehind(out: array<Byte>, at: nat, src: seq<Byte>, ghost done: seq<Byte>, ghost k: nat, ghost rest: seq<Byte>)
    requires Filled(out, done, k, rest) && |done| == at && |src| <= k
    modifies out
    ensures Filled(out, done + src, k - |src|, rest)
  {
    WriteNext(out, at, src, done, k, rest);
    assert done + Zeros(0) + src == done + src;
  }

  lemma {:induction false} WordsSnoc(xs: seq<nat>, x: nat, w: nat)
    ensures Words(xs + [x], w) == Words(xs, w) + LE(x, w)
  {
    WordsConcat(xs, [x], w);
    assert [x][1..] == [];
    assert Words([x], w) == LE(x, w) + [] == LE(x, w);
  }

  /** Word `i` of an array whose first `i` words are behind `done`. */
  method WriteWord(out: array<Byte>, at: nat, x: nat, w: nat, ghost xs: seq<nat>, ghost i: nat,
                   ghost done: seq<Byte>, ghost k: nat, ghost rest: seq<Byte>)
    requires i < |xs| && xs[i] == x && at == |done| + i * w && w <= k && Filled(out, done + Words(xs[..i], w), k, rest)
    modifies out
    ensures Filled(out, done + Words(xs[..i + 1], w), k - w, rest)
  {
    WriteBehind(out, at, LE(x, w), done + Words(xs[..i], w), k, rest);
    OneMoreWord(xs, i, w, done);
  }

  lemma {:induction false} OneMoreWord(xs: seq<nat>, i: nat, w: nat, done: seq<Byte>)
    requires i < |xs|
    ensures done + Words(xs[..i + 1], w) == done + Words(xs[..i], w) + LE(xs[i], w)
  {
    WordsSnoc(xs[..i], xs[i], w);
    assert xs[..i + 1] == xs[..i] + [xs[i]];
    assert done + Words(xs[..i], w) + LE(xs[i], w) == done + (Words(xs[..i], w) + LE(xs[i], w));
  }

  lemma {:induction false} NoWordYet(xs: seq<nat>, w: nat, done: seq<Byte>)
    ensures done + Words(xs[..0], w) == done && xs[..|xs|] == xs
  {
    assert xs[..0] == [];
  }

  // ---------------------------------------------------------------------------
  // The body
  // ---------------------------------------------------------------------------

  /** The first `i` parts are written behind `done`, with room left for the others. */
  ghost predicate PartsDone(out: array<Byte>, parts: seq<seq<Byte>>, i: nat, done: seq<Byte>, k: nat)
    reads out
  {
    && i <= |parts| && PartStart(parts, i) <= |Concat(parts)| <= k
    && Filled(out, done + Concat(parts[..i]), k - PartStart(parts, i), [])
  }

  lemma {:induction false} PartFits(parts: seq<seq<Byte>>, i: nat, done: seq<Byte>)
    requires i < |parts|
    ensures PartStart(parts, i + 1) == PartStart(parts, i) + |parts[i]| <= |Concat(parts)|
    ensures done + Concat(parts[..i + 1]) == done + Concat(parts[..i]) + parts[i]
  {
    ConcatStep(parts, i);
    PartStartGrows(parts, i + 1);
    assert done + (Concat(parts[..i]) + parts[i]) == done + Concat(parts[..i]) + parts[i];
  }

  lemma {:induction false} NoPartYet(parts: seq<seq<Byte>>, done: seq<Byte>)
    ensures PartStart(parts, 0) == 0 && done + Concat(parts[..0]) == done
    ensures PartStart(parts, |parts|) == |Concat(parts)| && done + Concat(parts[..|parts|]) == done + Concat(parts)
  {
    assert parts[..0] == [] && parts[..|parts|] == parts;
  }

  method WriteLayer(out: array<Byte>, at: nat, offsets: seq<nat>, neighbors: seq<nat>,
                    ghost parts: seq<seq<Byte>>, ghost i: nat, ghost done: seq<Byte>, ghost k: nat)
    requires PartsDone(out, parts, i, done, k) && i < |parts| && at == |done| + PartStart(parts, i)
    requires parts[i] == Words(offsets, 4) + Words(neighbors, 4)
    modifies out
    ensures PartsDone(out, parts, i + 1, done, k)
  {
    PartFits(parts, i, done);
    WriteTwo(out, at, Words(offsets, 4), Words(neighbors, 4), done + Concat(parts[..i]), k - PartStart(parts, i));
  }

  method WriteTwo(out: array<Byte>, at: nat, xs: seq<Byte>, ys: seq<Byte>, ghost done: seq<Byte>, ghost k: nat)
    requires Filled(out, done, k, []) && |done| == at && |xs| + |ys| <= k
    modifies out
    ensures Filled(out, done + (xs + ys), k - |xs + ys|, [])
  {
    WriteBehind(out, at, xs, done, k, []);
    WriteBehind(out, at + |xs|, ys, done + xs, k - |xs|, []);
    assert done + xs + ys == done + (xs + ys);
  }

  method WriteLayers(out: array<Byte>, at: nat, csr: seq<(seq<nat>, seq<nat>)>, ghost layers: seq<seq<seq<nat>>>,
                     ghost done: seq<Byte>, ghost k: nat)
    requires Compressed(csr, layers) && Filled(out, done, k, []) && at == |done| && |AdjacencyBytes(layers)| <= k
    modifies out
    ensures Filled(out, done + AdjacencyBytes(layers), k - |AdjacencyBytes(layers)|, [])
  {
    ghost var parts := LayerParts(layers);
    var cursor := at;
    NoPartYet(parts, done);
    for l := 0 to |csr|
      invariant cursor == at + PartStart(parts, l) && PartsDone(out, parts, l, done, k)
    {
      PartFits(parts, l, done);
      WriteLayer(out, cursor, csr[l].0, csr[l].1, parts, l, done, k);
      cursor := cursor + |csr[l].0| * 4 + |csr[l].1| * 4;
    }
  }

  method WriteVector(out: array<Byte>, at: nat, vector: seq<nat>,
                     ghost parts: seq<seq<Byte>>, ghost i: nat, ghost done: seq<Byte>, ghost k: nat)
    requires PartsDone(out, parts, i, done, k) && i < |parts| && at == |done| + PartStart(parts, i) && parts[i] == Words(vector, 4)
    modifies out
    ensures PartsDone(out, parts, i + 1, done, k)
  {
    PartFits(parts, i, done);
    WriteBehind(out, at, Words(vector, 4), done + Concat(parts[..i]), k - PartStart(parts, i), []);
  }

  method WriteVectors(out: array<Byte>, at: nat, s: NodeSource, n: nat, ghost done: seq<Byte>, ghost k: nat)
    requires Populated(s, n) && Filled(out, done, k, []) && at == |done| && |VectorBytes(VectorsOf(s, n))| <= k
    modifies out
    ensures Filled(out, done + VectorBytes(VectorsOf(s, n)), k - |VectorBytes(VectorsOf(s, n))|, [])
  {
    ghost var parts := VectorParts(VectorsOf(s, n));
    var cursor := at;
    NoPartYet(parts, done);
    for i := 0 to n
      invariant cursor == at + PartStart(parts, i) && PartsDone(out, parts, i, done, k)
    {
      assert GoodNode(s, i);
      var vector := s.vector(i).value;
      PartFits(parts, i, done);
      WriteVector(out, cursor, vector, parts, i, done, k);
      cursor := cursor + |vector| * 4;
    }
  }

  ghost function BodyBytes(rows: seq<Byte>, levels: seq<Byte>, p: nat, adjacency: seq<Byte>, q: nat, vectors: seq<Byte>): seq<Byte> {
    rows + levels + Zeros(p) + adjacency + Zeros(q) + vectors
  }

  /** The four sections, with zeros where the alignment leaves gaps. */
  method WriteBody(out: array<Byte>, rowIds: seq<nat>, levels: seq<nat>, csr: seq<(seq<nat>, seq<nat>)>, s: NodeSource,
                   offLevels: nat, offAdjacency: nat, offVectors: nat, ghost layers: seq<seq<seq<nat>>>)
    requires Fits(levels, 1) && Compressed(csr, layers) && |levels| == |rowIds| && Populated(s, |rowIds|)
    requires offLevels == HEADER_LEN + 8 * |rowIds| && offLevels + |levels| <= offAdjacency
    requires offAdjacency + |AdjacencyBytes(layers)| <= offVectors
    requires out.Length == offVectors + |VectorBytes(VectorsOf(s, |rowIds|))| < U64 && out[..] == Zeros(out.Length)
    modifies out
    ensures var p, q := offAdjacency - offLevels - |levels|, offVectors - offAdjacency - |AdjacencyBytes(layers)|;
      && out[..] == Zeros(HEADER_LEN) + BodyBytes(Words(rowIds, 8), LevelBytes(levels), p, AdjacencyBytes(layers), q,
                                                  VectorBytes(VectorsOf(s, |rowIds|)))
  {
    ghost var h, n := Zeros(HEADER_LEN), |rowIds|;
    ghost var rows, lv, adj, vecs := Words(rowIds, 8), LevelBytes(levels), AdjacencyBytes(layers), VectorBytes(VectorsOf(s, |rowIds|));
    ghost var p, q := offAdjacency - offLevels - n, offVectors - offAdjacency - |adj|;
    ghost var k := out.Length - HEADER_LEN;
    assert out[..] == h + Zeros(k) + [];
    WriteColumns(out, rowIds, levels, offLevels, p, h, k);
    WriteGraph(out, csr, s, |rowIds|, offAdjacency, offVectors, layers, h + rows + lv + Zeros(p));
    BehindHeader(h, rows, lv, Zeros(p), adj, Zeros(q), vecs);
  }

  method WriteColumns(out: array<Byte>, rowIds: seq<nat>, levels: seq<nat>, offLevels: nat, ghost p: nat, ghost h: seq<Byte>, ghost k: nat)
    requires Filled(out, h, k, []) && |h| == HEADER_LEN && offLevels == HEADER_LEN + 8 * |rowIds|
    requires Fits(levels, 1) && 8 * |rowIds| + |levels| + p <= k
    modifies out
    ensures Filled(out, h + Words(rowIds, 8) + LevelBytes(levels) + Zeros(p), k - 8 * |rowIds| - |levels| - p, [])
  {
    WriteBehind(out, HEADER_LEN, Words(rowIds, 8), h, k, []);
    WriteBehind(out, offLevels, LevelBytes(levels), h + Words(rowIds, 8), k - 8 * |rowIds|, []);
    Skip(out, h + Words(rowIds, 8) + LevelBytes(levels), k - 8 * |rowIds| - |levels|, p, []);
  }

  method WriteGraph(out: array<Byte>, csr: seq<(seq<nat>, seq<nat>)>, s: NodeSource, n: nat, offAdjacency: nat, offVectors: nat,
                    ghost layers: seq<seq<seq<nat>>>, ghost done: seq<Byte>)
    requires Compressed(csr, layers) && Populated(s, n) && |done| == offAdjacency
    requires offAdjacency + |AdjacencyBytes(layers)| <= offVectors
    requires out.Length == offVectors + |VectorBytes(VectorsOf(s, n))| && Filled(out, done, out.Length - |done|, [])
    modifies out
    ensures var q := offVectors - offAdjacency - |AdjacencyBytes(layers)|;
      && Filled(out, done + AdjacencyBytes(layers) + Zeros(q) + VectorBytes(VectorsOf(s, n)), 0, [])
  {
    ghost var adj, vecs := AdjacencyBytes(layers), VectorBytes(VectorsOf(s, n));
    ghost var q := offVectors - offAdjacency - |adj|;
    WriteLayers(out, offAdjacency, csr, layers, done, out.Length - |done|);
    Skip(out, done + adj, out.Length - |done| - |adj|, q, []);
    WriteVectors(out, offVectors, s, n, done + adj + Zeros(q), |vecs|);
  }

  lemma {:induction false} BehindHeader(h: seq<Byte>, a: seq<Byte>, b: seq<Byte>, c: seq<Byte>, d: seq<Byte>, e: seq<Byte>, f: seq<Byte>)
    ensures h + a + b + c + d + e + f + Zeros(0) + [] == h + (a + b + c + d + e + f)
  {
    assert h + (a + b) == h + a + b;
    assert h + (a + b + c) == h + (a + b) + c;
    assert h + (a + b + c + d) == h + (a + b + c) + d;
    assert h + (a + b + c + d + e) == h + (a + b + c + d) + e;
    assert h + (a + b + c + d + e + f) == h + (a + b + c + d + e) + f;
  }

  /** Zeros nobody will write count as done. */
  lemma {:induction false} Skip(out: array<Byte>, done: seq<Byte>, k: nat, gap: nat, rest: seq<Byte>)
    requires Filled(out, done, k, rest) && gap <= k
    ensures Filled(out, done + Zeros(gap), k - gap, rest)
  {
    assert Zeros(k) == Zeros(gap) + Zeros(k - gap);
    assert done + (Zeros(gap) + Zeros(k - gap)) + rest == done + Zeros(gap) + Zeros(k - gap) + rest;
  }

  // ---------------------------------------------------------------------------
  // The header
  // ---------------------------------------------------------------------------

  method WriteIdentity(out: array<Byte>, n: nat, dim: nat, maxLevel: nat, entry: nat, ghost xs: seq<nat>, ghost body: seq<Byte>)
    requires Filled(out, [], HEADER_LEN, body) && xs == [SEGMENT_FORMAT_VERSION, FLAG_LITTLE_ENDIAN, n, dim, maxLevel, entry]
    modifies out
    ensures Filled(out, MAGIC + Words(xs, 4), HEADER_LEN - OFF_METRIC, body)
  {
    WriteBehind(out, OFF_MAGIC, MAGIC, [], HEADER_LEN, body);
    NoWordYet(xs, 4, MAGIC);
    assert [] + MAGIC == MAGIC;
    WriteWord(out, OFF_FORMAT_VERSION, SEGMENT_FORMAT_VERSION, 4, xs, 0, MAGIC, 120, body);
    WriteWord(out, OFF_FLAGS, FLAG_LITTLE_ENDIAN, 4, xs, 1, MAGIC, 116, body);
    WriteWord(out, OFF_NODE_COUNT, n, 4, xs, 2, MAGIC, 112, body);
    WriteWord(out, OFF_DIM, dim, 4, xs, 3, MAGIC, 108, body);
    WriteWord(out, OFF_MAX_LEVEL, maxLevel, 4, xs, 4, MAGIC, 104, body);
    WriteWord(out, OFF_ENTRY_POINT, entry, 4, xs, 5, MAGIC, 100, body);
  }

  ghost function BuildBytes(p: Params): (r: seq<Byte>)
    ensures |r| == OFF_M_L - OFF_METRIC
  {
    [METRIC_L2, 0] + Words([p.m, p.mmax0, p.mmax, p.efConstruction], 2) + Zeros(6)
  }

  /** The tuning parameters, each of which has to fit 16 bits. */
  method WriteBuild(out: array<Byte>, p: Params, ghost done: seq<Byte>, ghost body: seq<Byte>) returns (r: Option<EncodeError>)
    requires |done| == OFF_METRIC && Filled(out, done, HEADER_LEN - OFF_METRIC, body) && p.mL < U64
    modifies out
    ensures r == if ParamsFit(p) then None else Some(SegmentTooLarge)
    ensures r.None? ==> Filled(out, done + BuildBytes(p), HEADER_LEN - OFF_M_L, body)
  {
    ghost var front := done + [METRIC_L2, 0];
    ghost var xs := [p.m, p.mmax0, p.mmax, p.efConstruction];
    WriteBehind(out, OFF_METRIC, [METRIC_L2], done, 96, body);
    Skip(out, done + [METRIC_L2], 95, 1, body);
    assert done + [METRIC_L2] + Zeros(1) == front;
    NoWordYet(xs, 2, front);
    if p.m >= U16 { return Some(SegmentTooLarge); }
    WriteWord(out, OFF_M, p.m, 2, xs, 0, front, 94, body);
    if p.mmax0 >= U16 { return Some(SegmentTooLarge); }
    WriteWord(out, OFF_MMAX0, p.mmax0, 2, xs, 1, front, 92, body);
    if p.mmax >= U16 { return Some(SegmentTooLarge); }
    WriteWord(out, OFF_MMAX, p.mmax, 2, xs, 2, front, 90, body);
    if p.efConstruction >= U16 { return Some(SegmentTooLarge); }
    WriteWord(out, OFF_EF_CONSTRUCTION, p.efConstruction, 2, xs, 3, front, 88, body);
    Skip(out, front + Words(xs, 2), 86, 6, body);
    FourParts(done, [METRIC_L2, 0], Words(xs, 2), Zeros(6));
    return None;
  }

  lemma {:induction false} FourParts(a: seq<Byte>, b: seq<Byte>, c: seq<Byte>, d: seq<Byte>)
    ensures a + b + c + d == a + (b + c + d)
  {
  }

  method WriteExtremes(out: array<Byte>, mL: nat, low: nat, high: nat, ghost done: seq<Byte>, ghost body: seq<Byte>)
    requires |done| == OFF_M_L && Filled(out, done, HEADER_LEN - OFF_M_L, body)
    modifies out
    ensures Filled(out, done + Words([mL, low, high], 8), HEADER_LEN - OFF_SECTION_OFF, body)
  {
    ghost var xs := [mL, low, high];
    NoWordYet(xs, 8, done);
    WriteWord(out, OFF_M_L, mL, 8, xs, 0, done, 80, body);
    WriteWord(out, OFF_ROW_ID_MIN, low, 8, xs, 1, done, 72, body);
    WriteWord(out, OFF_ROW_ID_MAX, high, 8, xs, 2, done, 64, body);
  }

  /** The first `i` offsets and the first `i` lengths are written, each behind its own cursor. */
  ghost predicate TableDone(out: array<Byte>, offs: seq<nat>, lens: seq<nat>, i: nat, done: seq<Byte>, body: seq<Byte>)
    requires i <= SECTION_COUNT == |offs| == |lens|
    reads out
  {
    Filled(out, done + Words(offs[..i], 8), (4 - i) * 8, Words(lens[..i], 4) + Zeros((4 - i) * 4 + 8) + body)
  }

  method WriteOffset(out: array<Byte>, i: nat, offs: seq<nat>, lens: seq<nat>, ghost done: seq<Byte>, ghost body: seq<Byte>)
    requires i < SECTION_COUNT == |offs| == |lens| && |done| == OFF_SECTION_OFF && TableDone(out, offs, lens, i, done, body)
    modifies out
    ensures Filled(out, done + Words(offs[..i + 1], 8) + Zeros((3 - i) * 8) + Words(lens[..i], 4), (4 - i) * 4 + 8, body)
  {
    ghost var tail := Words(lens[..i], 4) + Zeros((4 - i) * 4 + 8) + body;
    WriteWord(out, OFF_SECTION_OFF + i * 8, offs[i], 8, offs, i, done, (4 - i) * 8, tail);
    Regroup(done + Words(offs[..i + 1], 8) + Zeros((3 - i) * 8), Words(lens[..i], 4), Zeros((4 - i) * 4 + 8), body);
  }

  method WriteLength(out: array<Byte>, i: nat, offs: seq<nat>, lens: seq<nat>, ghost done: seq<Byte>, ghost body: seq<Byte>)
    requires i < SECTION_COUNT == |offs| == |lens| && |done| == OFF_SECTION_OFF
    requires Filled(out, done + Words(offs[..i + 1], 8) + Zeros((3 - i) * 8) + Words(lens[..i], 4), (4 - i) * 4 + 8, body)
    modifies out
    ensures TableDone(out, offs, lens, i + 1, done, body)
  {
    ghost var front := done + Words(offs[..i + 1], 8) + Zeros((3 - i) * 8);
    WriteWord(out, OFF_SECTION_LEN + i * 4, lens[i], 4, lens, i, front, (4 - i) * 4 + 8, body);
    Regroup(front, Words(lens[..i + 1], 4), Zeros((3 - i) * 4 + 8), body);
  }

  /** Two cursors: the offsets at one, the lengths at the other, both behind what their array has so far. */
  method WriteTable(out: array<Byte>, offs: seq<nat>, lens: seq<nat>, ghost done: seq<Byte>, ghost body: seq<Byte>)
    returns (r: Option<EncodeError>)
    requires |offs| == SECTION_COUNT && |lens| == SECTION_COUNT && |done| == OFF_SECTION_OFF
    requires Filled(out, done, HEADER_LEN - OFF_SECTION_OFF, body)
    modifies out
    ensures r == if exists i :: 0 <= i < SECTION_COUNT && lens[i] >= U32 then Some(SegmentTooLarge) else None
    ensures r.None? ==> Filled(out, done + Words(offs, 8) + Words(lens, 4), HEADER_LEN - OFF_BODY_CRC, body)
  {
    NoWordYet(offs, 8, done);
    NoWordYet(lens, 4, []);
    SplitZeros(done, 32, 24, body);
    for i := 0 to SECTION_COUNT
      invariant forall j :: 0 <= j < i ==> lens[j] < U32
      invariant TableDone(out, offs, lens, i, done, body)
    {
      WriteOffset(out, i, offs, lens, done, body);
      if lens[i] >= U32 { return Some(SegmentTooLarge); }
      WriteLength(out, i, offs, lens, done, body);
    }
    Regroup(done + Words(offs, 8) + Zeros(0), Words(lens, 4), Zeros(8), body);
    assert done + Words(offs, 8) + Zeros(0) == done + Words(offs, 8);
    return None;
  }

  lemma {:induction false} Regroup(a: seq<Byte>, b: seq<Byte>, c: seq<Byte>, d: seq<Byte>)
    ensures a + (b + c + d) == a + b + c + d
  {
  }

  lemma {:induction false} SplitZeros(done: seq<Byte>, k: nat, m: nat, rest: seq<Byte>)
    ensures done + Zeros(k + m) + rest == done + Zeros(k) + ([] + Zeros(m) + rest)
  {
    assert Zeros(k + m) == Zeros(k) + Zeros(m);
  }

  /** The checksums, over the final bytes they cover. */
  method Seal(crc: Crc, out: array<Byte>, ghost front: seq<Byte>, ghost body: seq<Byte>)
    requires |front| == OFF_BODY_CRC && Filled(out, front, HEADER_LEN - OFF_BODY_CRC, body)
    modifies out
    ensures out[..] == SealedBytes(crc, front, body)
  {
    var bodyCrc := crc(out[HEADER_LEN..]);
    assert out[HEADER_LEN..] == body;
    WriteBehind(out, OFF_BODY_CRC, LE(bodyCrc, 4), front, 8, body);
    ghost var sealed := front + LE(crc(body), 4);
    var headerCrc := crc(out[..OFF_HEADER_CRC]);
    assert out[..OFF_HEADER_CRC] == sealed;
    WriteBehind(out, OFF_HEADER_CRC, LE(headerCrc, 4), sealed, 4, body);
    assert sealed + LE(headerCrc, 4) + Zeros(0) + body == sealed + LE(headerCrc, 4) + body;
  }

  // ---------------------------------------------------------------------------
  // The encoder
  // ---------------------------------------------------------------------------

  datatype Gathered = Gathered(levels: seq<nat>, entry: nat, csr: seq<(seq<nat>, seq<nat>)>)

  /** The arguments describe a graph over the ordinals `0..n`. */
  ghost predicate WellFormed(s: NodeSource, rowIds: seq<nat>) {
    var n := |rowIds|;
    && 0 < n < U32 && Ascending(rowIds) && 0 < s.dimension < U32 && Populated(s, n)
    && s.entryPoint.Some? && s.entryPoint.value.0 < n
    && forall l :: 0 <= l <= Max(LevelsOf(s, n)) ==> LayerFits(LayerOf(s, n, l), n)
  }

  lemma {:induction false} MaxBelow(levels: seq<nat>, bound: nat)
    requires levels != [] && forall i :: 0 <= i < |levels| ==> levels[i] < bound
    ensures Max(levels) < bound
  {
    var i :| 0 <= i < |levels| && levels[i] == Max(levels);
  }

  /** Everything the encoder needs of the graph, checked before any buffer is sized. */
  method Gather(s: NodeSource, rowIds: seq<nat>, ghost params: Params) returns (r: Result<Gathered, EncodeError>)
    ensures r.Ok? <==> WellFormed(s, rowIds)
    ensures r.Ok? ==> r.value.levels == LevelsOf(s, |rowIds|) && r.value.entry == s.entryPoint.value.0
    ensures r.Ok? ==> Compressed(r.value.csr, LayersOf(s, |rowIds|, Max(r.value.levels) + 1))
    ensures r.Err? ==> Justified(r.error, s, rowIds, params)
  {
    if rowIds == [] { return Err(SegmentEmpty); }
    var n := |rowIds|;
    if n >= U32 { return Err(SegmentTooLarge); }
    if !Ascending(rowIds) { return Err(SegmentCorrupt); }
    if s.dimension == 0 { return Err(SegmentEmpty); }
    if s.dimension >= U32 { return Err(SegmentTooLarge); }
    var levels := CollectLevels(s, n);
    if levels.Err? {
      ghost var i: nat :| i < n && Faulty(s, i, levels.error);
      return Err(levels.error);
    }
    if s.entryPoint.None? { return Err(SegmentEmpty); }
    if s.entryPoint.value.0 >= n { return Err(SegmentCorrupt); }
    MaxBelow(levels.value, 256);
    var csr := CollectLayers(s, n, Max(levels.value) + 1);
    if csr.Err? { return Err(csr.error); }
    return Ok(Gathered(levels.value, s.entryPoint.value.0, csr.value));
  }

  lemma {:induction false} WhenEncodable(s: NodeSource, rowIds: seq<nat>, params: Params)
    requires Typed(s, rowIds, params)
    ensures Encodable(s, rowIds, params)
       <==> WellFormed(s, rowIds) && ParamsFit(params) && LensFit(ContentOf(s, rowIds, params))
  {
    Widths();
  }

  /** A saturated alignment is too large for whatever comes behind it. */
  lemma {:induction false} NotSaturated(value: nat)
    requires AlignUp(value, VECTORS_ALIGN) < U64 - 1
    ensures value <= AlignUp(value, VECTORS_ALIGN)
  {
    assert value <= (value + 63) / 64 * 64;
  }

  /** Places in checked `usize` arithmetic. */
  method Place(lens: seq<nat>) returns (r: Option<seq<nat>>)
    requires |lens| == SECTION_COUNT && lens[0] == 8 * lens[1] && lens[1] < U32 && lens[2] < U64 && 0 < lens[3] < U64
    ensures r.None? ==> lens[2] >= U32 || lens[3] >= U32
    ensures r.Some? ==> r.value == Places(lens) && Placed(Places(lens), lens)
  {
    var offLevels := HEADER_LEN + lens[0];
    var offAdjacency := AlignUp(offLevels + lens[1], 4);
    AlignUpBounds(offLevels + lens[1], 4);
    if offAdjacency + lens[2] >= U64 { return None; }
    if lens[2] < U32 { AlignUpBounds(offAdjacency + lens[2], VECTORS_ALIGN); }
    var offVectors := AlignUp(offAdjacency + lens[2], VECTORS_ALIGN);
    if offVectors + lens[3] >= U64 { return None; }
    NotSaturated(offAdjacency + lens[2]);
    return Some([HEADER_LEN, offLevels, offAdjacency, offVectors]);
  }

  /** Section lengths and places; `n` and `dim` fit 32 bits by now. */
  method Measure(n: nat, dim: nat, csr: seq<(seq<nat>, seq<nat>)>, ghost c: Content)
    returns (r: Option<(seq<nat>, seq<nat>)>)
    requires 0 < n == |c.rowIds| == |c.vectors| && n < U32 && 0 < dim == c.dim
    requires Compressed(csr, c.layers) && forall i :: 0 <= i < n ==> |c.vectors[i]| == dim
    ensures r.None? ==> !LensFit(c)
    ensures r.Some? ==> r.value == (SectionOffs(c), SectionLens(c)) && Placed(SectionOffs(c), SectionLens(c))
  {
    VectorBytesLength(c.vectors, c.dim);
    ghost var all := SectionLens(c);
    assert LensFit(c) ==> all[2] < U32 && all[3] < U32;
    var adjacencyLen := AdjacencyLength(csr, c.layers);
    if adjacencyLen.None? { return None; }
    var vectorsLen := n * (dim * 4);
    SomeVectorBytes(n, dim);
    if vectorsLen >= U64 { return None; }
    var lens := [8 * n, n, adjacencyLen.value, vectorsLen];
    var offs := Place(lens);
    if offs.None? { return None; }
    return Some((offs.value, lens));
  }

  lemma {:induction false} SomeVectorBytes(n: nat, dim: nat)
    requires n > 0 && dim > 0
    ensures n * (dim * 4) > 0
  {
  }

  predicate Placed(offs: seq<nat>, lens: seq<nat>) {
    && |offs| == SECTION_COUNT && |lens| == SECTION_COUNT
    && offs[0] == HEADER_LEN && offs[1] == offs[0] + lens[0] && offs[1] + lens[1] <= offs[2]
    && offs[2] + lens[2] <= offs[3] && offs[3] + lens[3] < U64
  }

  ghost function FrontBytes(c: Content): (r: seq<Byte>)
    requires c.rowIds != []
    ensures |r| == OFF_BODY_CRC
  {
    MAGIC + Words(Counts(c), 4) + BuildBytes(c.params) + Words(Extremes(c), 8) + Words(SectionOffs(c), 8) + Words(SectionLens(c), 4)
  }

  /** The header up to its checksums; the parameters and the section lengths are checked as they are written. */
  method WriteHeader(out: array<Byte>, rowIds: seq<nat>, dim: nat, maxLevel: nat, entry: nat, params: Params,
                     offs: seq<nat>, lens: seq<nat>, ghost c: Content, ghost body: seq<Byte>) returns (r: Option<EncodeError>)
    requires Filled(out, [], HEADER_LEN, body) && params.mL < U64
    requires rowIds == c.rowIds != [] && dim == c.dim && maxLevel == Max(c.levels) && entry == c.entry && params == c.params
    requires offs == SectionOffs(c) && lens == SectionLens(c)
    modifies out
    ensures r == if ParamsFit(params) && LensFit(c) then None else Some(SegmentTooLarge)
    ensures r.None? ==> Filled(out, FrontBytes(c), HEADER_LEN - OFF_BODY_CRC, body)
  {
    WriteIdentity(out, |rowIds|, dim, maxLevel, entry, Counts(c), body);
    ghost var done := MAGIC + Words(Counts(c), 4);
    r := WriteBuild(out, params, done, body);
    if r.Some? { return; }
    WriteExtremes(out, params.mL, rowIds[0], rowIds[|rowIds| - 1], done + BuildBytes(params), body);
    r := WriteTable(out, offs, lens, done + BuildBytes(params) + Words(Extremes(c), 8), body);
  }

  ghost function BodyOf(c: Content): seq<Byte>
    requires Fits(c.levels, 1) && Placed(SectionOffs(c), SectionLens(c))
  {
    var offs, lens := SectionOffs(c), SectionLens(c);
    BodyBytes(Words(c.rowIds, 8), LevelBytes(c.levels), offs[2] - offs[1] - lens[1], AdjacencyBytes(c.layers),
              offs[3] - offs[2] - lens[2], VectorBytes(c.vectors))
  }

  ghost function SealedBytes(crc: Crc, front: seq<Byte>, body: seq<Byte>): seq<Byte> {
    var sealed := front + LE(crc(body), 4);
    sealed + LE(crc(sealed), 4) + body
  }

  lemma {:induction false} ImageOf(crc: Crc, c: Content)
    requires Valid(c) && Placed(SectionOffs(c), SectionLens(c))
    ensures SealedBytes(crc, FrontBytes(c), BodyOf(c)) == Image(crc, c)
  {
    assert BodyOf(c) == Body(c);
    assert FrontBytes(c) == Front(c);
  }

  /** Allocates the buffer at its final size and fills it: body, header, checksums. */
  method Fill(crc: Crc, s: NodeSource, rowIds: seq<nat>, params: Params, g: Gathered, offs: seq<nat>, lens: seq<nat>, ghost c: Content)
    returns (r: Result<seq<Byte>, EncodeError>)
    requires Populated(s, |rowIds|) && |g.levels| == |rowIds| > 0 && Fits(g.levels, 1) && params.mL < U64
    requires c == Content(rowIds, s.dimension, g.levels, c.layers, VectorsOf(s, |rowIds|), g.entry, params)
    requires Compressed(g.csr, c.layers) && offs == SectionOffs(c) && lens == SectionLens(c) && Placed(offs, lens)
    ensures r.Ok? <==> ParamsFit(params) && LensFit(c)
    ensures r.Ok? ==> r.value == SealedBytes(crc, FrontBytes(c), BodyOf(c))
    ensures r.Err? ==> r.error == SegmentTooLarge
  {
    var out := new Byte[offs[3] + lens[3]](_ => 0);
    assert out[..] == Zeros(out.Length);
    WriteBody(out, rowIds, g.levels, g.csr, s, offs[1], offs[2], offs[3], c.layers);
    ghost var body := BodyOf(c);
    assert [] + Zeros(HEADER_LEN) + body == Zeros(HEADER_LEN) + body;
    var e := WriteHeader(out, rowIds, s.dimension, Max(g.levels), g.entry, params, offs, lens, c, body);
    if e.Some? { return Err(e.value); }
    Seal(crc, out, FrontBytes(c), body);
    return Ok(out[..]);
  }

  method Assemble(crc: Crc, s: NodeSource, rowIds: seq<nat>, params: Params, g: Gathered) returns (r: Result<seq<Byte>, EncodeError>)
    requires Typed(s, rowIds, params) && WellFormed(s, rowIds)
    requires g.levels == LevelsOf(s, |rowIds|) && g.entry == s.entryPoint.value.0
    requires Compressed(g.csr, LayersOf(s, |rowIds|, Max(g.levels) + 1))
    ensures r.Ok? <==> ParamsFit(params) && LensFit(ContentOf(s, rowIds, params))
    ensures r.Ok? ==> Valid(ContentOf(s, rowIds, params)) && r.value == Image(crc, ContentOf(s, rowIds, params))
    ensures r.Err? ==> r.error == SegmentTooLarge
  {
    ghost var c := ContentOf(s, rowIds, params);
    Widths();
    WhenEncodable(s, rowIds, params);
    var geometry := Measure(|rowIds|, s.dimension, g.csr, c);
    if geometry.None? { return Err(SegmentTooLarge); }
    r := Fill(crc, s, rowIds, params, g, geometry.value.0, geometry.value.1, c);
    if r.Ok? { ImageOf(crc, c); }
  }

  /**
   `encode_segment`: succeeds exactly on the graphs whose content the format can hold, returns the image of
   that content, and otherwise names a defect the arguments have.
   */
  method EncodeSegment(crc: Crc, s: NodeSource, rowIds: seq<nat>, params: Params) returns (r: Result<seq<Byte>, EncodeError>)
    requires Typed(s, rowIds, params)
    ensures r.Ok? <==> Encodable(s, rowIds, params)
    ensures r.Ok? ==> r.value == Image(crc, ContentOf(s, rowIds, params))
    ensures r.Err? ==> Justified(r.error, s, rowIds, params)
  {
    WhenEncodable(s, rowIds, params);
    var g := Gather(s, rowIds, params);
    if g.Err? { return Err(g.error); }
    r := Assemble(crc, s, rowIds, params, g.value);
  }
}
