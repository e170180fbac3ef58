/**
 Which bytes the reader accepts, and what it then answers, for every byte sequence whether or not a
 writer made it: acceptance is exactly a sound header and table, matching checksums, and sections that
 show a graph whose ids ascend, whose levels are bounded and whose edges stay inside.
 */
module SegmentAccept {
  import opened Common
  import opened Bytes
  import opened SegmentFormat
  import opened SegmentReader
  import opened SegmentLayout
  import opened SegmentRoundTrip

  // ---------------------------------------------------------------------------
  // Sound bytes
  // ---------------------------------------------------------------------------

  ghost predicate GoodHeader(crc: Crc, b: seq<Byte>) {
    && |b| >= HEADER_LEN && b[OFF_MAGIC..OFF_MAGIC + 8] == MAGIC && b[OFF_METRIC] == METRIC_L2
    && Field(b, OFF_HEADER_CRC, 4) == crc(b[..OFF_HEADER_CRC]) && Field(b, OFF_BODY_CRC, 4) == crc(b[HEADER_LEN..])
    && Field(b, OFF_FORMAT_VERSION, 4) == SEGMENT_FORMAT_VERSION && Field(b, OFF_FLAGS, 4) % 2 == FLAG_LITTLE_ENDIAN
    && Field(b, OFF_NODE_COUNT, 4) > 0 && Field(b, OFF_DIM, 4) > 0 && Field(b, OFF_MAX_LEVEL, 4) < 256
  }

  /** The sections lie behind the header, in order, inside the file, aligned, and of the sizes `n` and `dim` ask for. */
  ghost predicate GoodTable(len: nat, offs: seq<nat>, lens: seq<nat>, n: nat, dim: nat) {
    && |offs| == SECTION_COUNT && |lens| == SECTION_COUNT
    && HEADER_LEN <= offs[0] && offs[0] + lens[0] <= offs[1] && offs[1] + lens[1] <= offs[2]
    && offs[2] + lens[2] <= offs[3] && offs[3] + lens[3] <= len
    && lens[0] == n * 8 && lens[1] == n && lens[3] == n * (dim * 4)
    && offs[0] % 8 == 0 && offs[2] % 4 == 0 && offs[3] % VECTORS_ALIGN == 0
  }

  /** What a graph in a segment must be like. */
  ghost predicate SoundGraph(c: Content, n: nat, maxLevel: nat) {
    && |c.rowIds| == n && |c.levels| == n && |c.vectors| == n && |c.layers| == maxLevel + 1
    && Ascending(c.rowIds) && (forall i :: 0 <= i < n ==> c.levels[i] <= maxLevel) && AllFit(c.layers, n)
  }

  /** The sections of `b` show `c`, its layers at `starts`. */
  ghost predicate Shows(b: seq<Byte>, offs: seq<nat>, lens: seq<nat>, c: Content, starts: seq<nat>) {
    && |offs| == SECTION_COUNT && |lens| == SECTION_COUNT
    && RowIdsAt(b, offs[0], c.rowIds) && LevelsAt(b, offs[1], c.levels) && VectorsAt(b, offs[3], c.vectors, c.dim)
    && LayersAt(b, starts, c.layers, |c.rowIds|) && starts[0] == offs[2] && starts[|c.layers|] == offs[2] + lens[2]
  }

  /** The entry point field names a node, or none. */
  ghost predicate GoodEntry(raw: nat, c: Content) {
    raw == NO_ENTRY_POINT || raw == c.entry < |c.rowIds|
  }

  ghost predicate Acceptable(crc: Crc, b: seq<Byte>) {
    && GoodHeader(crc, b)
    && var n, dim := Field(b, OFF_NODE_COUNT, 4), Field(b, OFF_DIM, 4);
       && GoodTable(|b|, Offs(b), Lens(b), n, dim)
       && exists c, starts :: Graph(b, c, starts)
  }

  ghost predicate Graph(b: seq<Byte>, c: Content, starts: seq<nat>)
    requires |b| >= HEADER_LEN
  {
    && SoundGraph(c, Field(b, OFF_NODE_COUNT, 4), Field(b, OFF_MAX_LEVEL, 4)) && c.dim == Field(b, OFF_DIM, 4) && c.params == ParamsOf(b)
    && Shows(b, Offs(b), Lens(b), c, starts) && GoodEntry(Field(b, OFF_ENTRY_POINT, 4), c)
  }

  // ---------------------------------------------------------------------------
  // Words are bounded
  // ---------------------------------------------------------------------------

  lemma {:induction false} FieldBound(b: seq<Byte>, at: nat, w: nat)
    requires at + w <= |b|
    ensures Field(b, at, w) < Pow256(w)
    decreases w
  {
    if w > 0 { FieldBound(b, at + 1, w - 1); }
  }

  lemma {:induction false} ViewFits(b: seq<Byte>, at: nat, w: nat, n: nat)
    requires at + n * w <= |b|
    ensures Fits(View(b, at, w, n), w)
  {
    forall i | 0 <= i < n ensures View(b, at, w, n)[i] < Pow256(w) {
      ViewAt(b, at, w, n, i);
      FieldBound(b, at + i * w, w);
    }
  }

  // ---------------------------------------------------------------------------
  // Any offsets that start at zero and do not fall are a layer
  // ---------------------------------------------------------------------------

  predicate Cuts(offsets: seq<nat>, flat: seq<nat>) {
    && offsets != [] && offsets[0] == 0 && offsets[|offsets| - 1] == |flat|
    && forall i :: 0 <= i < |offsets| - 1 ==> !Falls(offsets, i)
  }

  lemma {:induction false} CutsRise(offsets: seq<nat>, flat: seq<nat>, i: nat, j: nat)
    requires Cuts(offsets, flat) && i <= j < |offsets|
    ensures offsets[i] <= offsets[j]
    decreases j
  {
    if i < j {
      CutsRise(offsets, flat, i, j - 1);
      assert !Falls(offsets, j - 1);
    }
  }

  function RowsBefore(offsets: seq<nat>, flat: seq<nat>, k: nat): seq<seq<nat>>
    requires Cuts(offsets, flat) && k < |offsets|
  {
    if k == 0 then []
    else
      CutsRise(offsets, flat, k - 1, k);
      CutsRise(offsets, flat, k, |offsets| - 1);
      RowsBefore(offsets, flat, k - 1) + [flat[offsets[k - 1]..offsets[k]]]
  }

  lemma {:induction false} FlatGrows(layer: seq<seq<nat>>, row: seq<nat>)
    ensures Flat(layer + [row]) == Flat(layer) + row
  {
    assert (layer + [row])[..|layer|] == layer;
  }

  lemma {:induction false} RowsFlat(offsets: seq<nat>, flat: seq<nat>, k: nat)
    requires Cuts(offsets, flat) && k < |offsets|
    ensures offsets[k] <= |flat| && |RowsBefore(offsets, flat, k)| == k && Flat(RowsBefore(offsets, flat, k)) == flat[..offsets[k]]
  {
    CutsRise(offsets, flat, k, |offsets| - 1);
    if k > 0 {
      RowsFlat(offsets, flat, k - 1);
      CutsRise(offsets, flat, k - 1, k);
      var front, row := RowsBefore(offsets, flat, k - 1), flat[offsets[k - 1]..offsets[k]];
      FlatGrows(front, row);
      assert flat[..offsets[k]] == flat[..offsets[k - 1]] + row;
    }
  }

  lemma {:induction false} RowsAreLayer(offsets: seq<nat>, flat: seq<nat>, k: nat)
    requires Cuts(offsets, flat) && k < |offsets|
    ensures |RowsBefore(offsets, flat, k)| == k && Offsets(RowsBefore(offsets, flat, k)) == offsets[..k + 1]
  {
    RowsFlat(offsets, flat, k);
    if k > 0 {
      RowsAreLayer(offsets, flat, k - 1);
      var rows := RowsBefore(offsets, flat, k);
      assert rows[..k - 1] == RowsBefore(offsets, flat, k - 1);
      assert offsets[..k + 1] == offsets[..k] + [offsets[k]];
    }
  }

  // ---------------------------------------------------------------------------
  // What was parsed is there
  // ---------------------------------------------------------------------------

  lemma {:induction false} ParsedLayer(b: seq<Byte>, cursor: nat, limit: nat, n: nat) returns (layer: seq<seq<nat>>)
    requires limit <= |b| && ParseLayer(b, cursor, limit, n).Some?
    ensures LayerAt(b, cursor, layer, n) && LayerFits(layer, n)
    ensures ParseLayer(b, cursor, limit, n).value == LayerSpan(cursor, cursor + (n + 1) * 4, cursor + (n + 1) * 4 + |Flat(layer)| * 4)
  {
    var offsets := View(b, cursor, 4, n + 1);
    var flat := View(b, cursor + (n + 1) * 4, 4, offsets[n]);
    assert Cuts(offsets, flat);
    layer := RowsBefore(offsets, flat, n);
    RowsFlat(offsets, flat, n);
    RowsAreLayer(offsets, flat, n);
    assert flat[..offsets[n]] == flat && offsets[..n + 1] == offsets;
    ViewFits(b, cursor, 4, n + 1);
    Widths();
  }

  lemma {:induction false} ParsedLayers(b: seq<Byte>, cursor: nat, limit: nat, n: nat, count: nat)
    returns (layers: seq<seq<seq<nat>>>, starts: seq<nat>)
    requires limit <= |b| && n < U32 && ParseLayers(b, cursor, limit, n, count).Ok?
    ensures |layers| == count && LayersAt(b, starts, layers, n) && AllFit(layers, n)
    ensures starts[0] == cursor && starts[count] == limit && ParseLayers(b, cursor, limit, n, count).value == Spans(starts, n)
    decreases count
  {
    if count == 0 {
      layers, starts := [], [cursor];
    } else {
      var layer := ParsedLayer(b, cursor, limit, n);
      var end := ParseLayer(b, cursor, limit, n).value.end;
      var rest, later := ParsedLayers(b, end, limit, n, count - 1);
      layers, starts := [layer] + rest, [cursor] + later;
      LayerInFront(b, cursor, layer, rest, later, n);
      assert starts[1..] == later;
    }
  }

  lemma {:induction false} LayerInFront(b: seq<Byte>, at: nat, layer: seq<seq<nat>>, rest: seq<seq<seq<nat>>>, later: seq<nat>, n: nat)
    requires LayersAt(b, later, rest, n) && LayerAt(b, at, layer, n) && later[0] == at + (n + 1) * 4 + |Flat(layer)| * 4
    ensures LayersAt(b, [at] + later, [layer] + rest, n)
  {
    var layers, starts := [layer] + rest, [at] + later;
    forall l | 0 <= l < |layers| ensures LayerInPlace(b, starts, layers, n, l) {
      if l > 0 { assert LayerInPlace(b, later, rest, n, l - 1); }
    }
  }

  lemma {:induction false} TableIsGood(len: nat, offs: seq<nat>, lens: seq<nat>, n: nat, dim: nat)
    requires |offs| == SECTION_COUNT && |lens| == SECTION_COUNT
    ensures CheckSections(len, offs, lens, n, dim) == None <==> GoodTable(len, offs, lens, n, dim)
  {
  }

  lemma {:induction false} HeaderIsGood(crc: Crc, b: seq<Byte>)
    ensures CheckHeader(crc, b) == None && Field(b, OFF_BODY_CRC, 4) == crc(b[HEADER_LEN..]) <==> GoodHeader(crc, b)
  {
  }

  lemma {:induction false} ShownVectors(b: seq<Byte>, at: nat, n: nat, dim: nat) returns (vectors: seq<seq<nat>>)
    requires at + n * (dim * 4) <= |b|
    ensures |vectors| == n && VectorsAt(b, at, vectors, dim)
    decreases n
  {
    vectors := [];
    if n > 0 {
      InBounds(n - 1, dim * 4);
      var front := ShownVectors(b, at, n - 1, dim);
      vectors := front + [View(b, at + (n - 1) * (dim * 4), 4, dim)];
      forall i | 0 <= i < n ensures VectorAt(b, at + i * (dim * 4), vectors[i], dim) {
        if i < n - 1 { assert VectorAt(b, at + i * (dim * 4), front[i], dim); }
      }
    }
  }

  function ShownLevels(b: seq<Byte>, at: nat, n: nat): (r: seq<nat>)
    requires at + n <= |b|
    ensures |r| == n && forall i :: 0 <= i < n ==> r[i] == b[at + i]
  {
    seq(n, i requires 0 <= i < n => b[at + i])
  }

  /** The reader of bytes that show `c`. */
  function ReaderFor(b: seq<Byte>, c: Content, n: nat, maxLevel: nat, offs: seq<nat>, starts: seq<nat>): Reader
    requires |b| >= HEADER_LEN && |offs| == SECTION_COUNT && |starts| > 0 && |c.levels| == n
  {
    var raw := Field(b, OFF_ENTRY_POINT, 4);
    Reader(b, n, c.dim, maxLevel, if raw == NO_ENTRY_POINT || raw >= n then None else Some((raw, c.levels[raw])),
           offs[0], offs[1], offs[3], Spans(starts, n), c.params,
           Field(b, OFF_FORMAT_VERSION, 4), Field(b, OFF_ROW_ID_MIN, 8), Field(b, OFF_ROW_ID_MAX, 8))
  }

  /** Every file the reader gets through is one of the sound ones. */
  lemma {:induction false} BodyShows(b: seq<Byte>, n: nat, dim: nat, maxLevel: nat, offs: seq<nat>, lens: seq<nat>)
    returns (c: Content, starts: seq<nat>)
    requires |b| >= HEADER_LEN && |offs| == SECTION_COUNT && |lens| == SECTION_COUNT && n < U32
    requires CheckSections(|b|, offs, lens, n, dim) == None && ParseBody(b, n, dim, maxLevel, offs, lens).Ok?
    ensures SoundGraph(c, n, maxLevel) && c.dim == dim && c.params == ParamsOf(b) && Shows(b, offs, lens, c, starts)
    ensures GoodEntry(Field(b, OFF_ENTRY_POINT, 4), c)
    ensures ParseBody(b, n, dim, maxLevel, offs, lens) == Ok(ReaderFor(b, c, n, maxLevel, offs, starts))
  {
    TableIsGood(|b|, offs, lens, n, dim);
    BodyParts(b, n, dim, maxLevel, offs, lens, offs[2] + lens[2]);
    var layers;
    layers, starts := ParsedLayers(b, offs[2], offs[2] + lens[2], n, maxLevel + 1);
    var vectors := ShownVectors(b, offs[3], n, dim);
    var raw := Field(b, OFF_ENTRY_POINT, 4);
    c := Content(View(b, offs[0], 8, n), dim, ShownLevels(b, offs[1], n), layers, vectors, raw, ParamsOf(b));
  }

  /** What the body's checks have established when they are through. */
  lemma {:induction false} BodyParts(b: seq<Byte>, n: nat, dim: nat, maxLevel: nat, offs: seq<nat>, lens: seq<nat>, limit: nat)
    requires |b| >= HEADER_LEN && |offs| == SECTION_COUNT && |lens| == SECTION_COUNT && limit == offs[2] + lens[2]
    requires CheckSections(|b|, offs, lens, n, dim) == None && ParseBody(b, n, dim, maxLevel, offs, lens).Ok?
    requires offs[0] + n * 8 <= |b| && offs[1] + n <= |b| && limit <= |b|
    ensures Ascending(View(b, offs[0], 8, n)) && (forall i :: 0 <= i < n ==> ShownLevels(b, offs[1], n)[i] <= maxLevel)
    ensures ParseLayers(b, offs[2], limit, n, maxLevel + 1).Ok?
    ensures var raw := Field(b, OFF_ENTRY_POINT, 4); raw == NO_ENTRY_POINT || raw < n
    ensures var raw := Field(b, OFF_ENTRY_POINT, 4);
      ParseBody(b, n, dim, maxLevel, offs, lens)
      == Ok(Reader(b, n, dim, maxLevel, if raw == NO_ENTRY_POINT || raw >= n then None else Some((raw, ShownLevels(b, offs[1], n)[raw])),
                   offs[0], offs[1], offs[3], ParseLayers(b, offs[2], limit, n, maxLevel + 1).value, ParamsOf(b),
                   Field(b, OFF_FORMAT_VERSION, 4), Field(b, OFF_ROW_ID_MIN, 8), Field(b, OFF_ROW_ID_MAX, 8)))
  {
    var cut := b[offs[1]..offs[1] + n];
    assert forall i :: 0 <= i < n ==> cut[i] == ShownLevels(b, offs[1], n)[i];
  }

  // ---------------------------------------------------------------------------
  // Sound bytes are accepted
  // ---------------------------------------------------------------------------

  lemma {:induction false} ShownLevelsPass(b: seq<Byte>, at: nat, end: nat, levels: seq<nat>, maxLevel: nat)
    requires LevelsAt(b, at, levels) && end == at + |levels| && forall i :: 0 <= i < |levels| ==> levels[i] <= maxLevel
    ensures AtMost(b[at..end], maxLevel)
  {
    forall i | 0 <= i < |levels| ensures b[at..end][i] <= maxLevel { assert b[at..end][i] == b[at + i] == levels[i]; }
  }

  lemma {:induction false} ShownParses(b: seq<Byte>, n: nat, dim: nat, maxLevel: nat, offs: seq<nat>, lens: seq<nat>, c: Content, starts: seq<nat>)
    requires |b| >= HEADER_LEN && GoodTable(|b|, offs, lens, n, dim) && n < U32
    requires SoundGraph(c, n, maxLevel) && c.dim == dim && c.params == ParamsOf(b) && Shows(b, offs, lens, c, starts)
    requires GoodEntry(Field(b, OFF_ENTRY_POINT, 4), c)
    ensures CheckSections(|b|, offs, lens, n, dim) == None
    ensures ParseBody(b, n, dim, maxLevel, offs, lens) == Ok(ReaderFor(b, c, n, maxLevel, offs, starts))
  {
    var end, limit, raw := offs[1] + n, offs[2] + lens[2], Field(b, OFF_ENTRY_POINT, 4);
    TableIsGood(|b|, offs, lens, n, dim);
    ShownLevelsPass(b, offs[1], end, c.levels, maxLevel);
    LayersParse(b, offs[2], limit, starts, c.layers, n, maxLevel + 1);
    var entry := if raw == NO_ENTRY_POINT then None else Some((raw, c.levels[raw]));
    assert EntryOf(b, offs[1], n) == Some(entry);
    BodyAccepted(b, c.rowIds, n, dim, maxLevel, maxLevel + 1, offs, lens, end, limit, Spans(starts, n), entry);
  }

  lemma {:induction false} CountIsSmall(b: seq<Byte>)
    requires |b| >= HEADER_LEN
    ensures Field(b, OFF_NODE_COUNT, 4) < U32
  {
    Widths();
    FieldBound(b, OFF_NODE_COUNT, 4);
  }

  /** With a sound header and table, parsing is parsing the body. */
  lemma {:induction false} ParseIsParseBody(crc: Crc, b: seq<Byte>)
    requires GoodHeader(crc, b)
    ensures var n, dim, max := Field(b, OFF_NODE_COUNT, 4), Field(b, OFF_DIM, 4), Field(b, OFF_MAX_LEVEL, 4);
      if CheckSections(|b|, Offs(b), Lens(b), n, dim) == None
      then Parse(crc, b) == ParseBody(b, n, dim, max, Offs(b), Lens(b))
      else Parse(crc, b).Err?
  {
    HeaderIsGood(crc, b);
  }

  lemma {:induction false} ParsedHeader(crc: Crc, b: seq<Byte>)
    requires Parse(crc, b).Ok?
    ensures GoodHeader(crc, b)
  {
    HeaderIsGood(crc, b);
  }

  /** The graph an accepted file shows, and the reader for it. */
  lemma {:induction false} ParsedGraph(crc: Crc, b: seq<Byte>) returns (c: Content, starts: seq<nat>)
    requires Parse(crc, b).Ok?
    ensures GoodHeader(crc, b) && GoodTable(|b|, Offs(b), Lens(b), Field(b, OFF_NODE_COUNT, 4), Field(b, OFF_DIM, 4)) && Graph(b, c, starts)
    ensures Parse(crc, b) == Ok(ReaderFor(b, c, Field(b, OFF_NODE_COUNT, 4), Field(b, OFF_MAX_LEVEL, 4), Offs(b), starts))
  {
    ParsedHeader(crc, b);
    ParseIsParseBody(crc, b);
    CountIsSmall(b);
    var n, dim, max := Field(b, OFF_NODE_COUNT, 4), Field(b, OFF_DIM, 4), Field(b, OFF_MAX_LEVEL, 4);
    TableIsGood(|b|, Offs(b), Lens(b), n, dim);
    c, starts := BodyShows(b, n, dim, max, Offs(b), Lens(b));
  }

  /** The reader accepts exactly the sound files. */
  lemma {:induction false} AcceptsExactly(crc: Crc, b: seq<Byte>)
    ensures Parse(crc, b).Ok? <==> Acceptable(crc, b)
  {
    if Parse(crc, b).Ok? { var c, starts := ParsedGraph(crc, b); }
    if Acceptable(crc, b) {
      var c, starts :| Graph(b, c, starts);
      CountIsSmall(b);
      ParseIsParseBody(crc, b);
      ShownParses(b, Field(b, OFF_NODE_COUNT, 4), Field(b, OFF_DIM, 4), Field(b, OFF_MAX_LEVEL, 4), Offs(b), Lens(b), c, starts);
    }
  }

  // ---------------------------------------------------------------------------
  // The answers
  // ---------------------------------------------------------------------------

  /** Whatever the reader is asked, it answers as the sound graph `c` says, and with nothing outside of it. */
  ghost predicate Tells(r: Reader, c: Content) {
    var n := r.nodeCount;
    && SoundGraph(c, n, r.maxLevel) && r.dim == c.dim && r.params == c.params
    && (r.entry.Some? ==> c.entry < n && r.entry == Some((c.entry, c.levels[c.entry])))
    && (forall i :: 0 <= i < n ==> RowIdAt(r, i) == Some(c.rowIds[i]) && Level(r, i) == Some(c.levels[i]) && Vector(r, i) == Some(c.vectors[i]))
    && (forall i :: i >= n ==> RowIdAt(r, i) == None && Level(r, i) == None && Vector(r, i) == None)
    && (forall i, l :: 0 <= i < n && 0 <= l <= r.maxLevel ==> Neighbors(r, i, l) == c.layers[l][i])
    && (forall i: nat, l: nat :: i >= n || l > r.maxLevel ==> Neighbors(r, i, l) == [])
  }

  lemma {:induction false} ReaderTells(b: seq<Byte>, n: nat, maxLevel: nat, offs: seq<nat>, lens: seq<nat>, c: Content, starts: seq<nat>)
    requires |b| >= HEADER_LEN && SoundGraph(c, n, maxLevel) && Shows(b, offs, lens, c, starts) && GoodEntry(Field(b, OFF_ENTRY_POINT, 4), c)
    ensures Tells(ReaderFor(b, c, n, maxLevel, offs, starts), c)
  {
    var r := ReaderFor(b, c, n, maxLevel, offs, starts);
    forall i | 0 <= i < n
      ensures RowIdAt(r, i) == Some(c.rowIds[i]) && Level(r, i) == Some(c.levels[i]) && Vector(r, i) == Some(c.vectors[i])
    {
      NodeReadsBack(r, c.rowIds, c.levels, c.vectors, i);
    }
    forall i, l | 0 <= i < n && 0 <= l <= maxLevel ensures Neighbors(r, i, l) == c.layers[l][i] {
      assert LayerInPlace(b, starts, c.layers, n, l);
      NeighborsReadBack(r, l, starts[l], c.layers[l], i);
    }
  }

  /**
   Every accepted file, whoever wrote it: header, version, metric and both checksums are right, and all
   the reader's answers are those of one graph with ascending row ids, bounded levels and edges inside.
   */
  lemma {:induction false} AcceptedAnswers(crc: Crc, b: seq<Byte>) returns (c: Content)
    requires Parse(crc, b).Ok?
    ensures GoodHeader(crc, b) && Parse(crc, b).value.bytes == b && Tells(Parse(crc, b).value, c)
    ensures Parse(crc, b).value.entry.None? <==> Field(b, OFF_ENTRY_POINT, 4) == NO_ENTRY_POINT
  {
    var starts;
    c, starts := ParsedGraph(crc, b);
    ReaderTells(b, Field(b, OFF_NODE_COUNT, 4), Field(b, OFF_MAX_LEVEL, 4), Offs(b), Lens(b), c, starts);
  }

  // ---------------------------------------------------------------------------
  // Damage
  // ---------------------------------------------------------------------------

  lemma {:induction false} FieldSame(a: seq<Byte>, b: seq<Byte>, at: nat, w: nat)
    requires at + w <= |a| && at + w <= |b| && forall i :: at <= i < at + w ==> a[i] == b[i]
    ensures Field(a, at, w) == Field(b, at, w)
    decreases w
  {
    if w > 0 { FieldSame(a, b, at + 1, w - 1); }
  }

  /** Damage behind the header of a written segment is found, as far as the checksum can tell. */
  lemma {:induction false} DamageIsFound(crc: Crc, c: Content, b: seq<Byte>)
    requires Valid(c) && |b| >= HEADER_LEN && b[..HEADER_LEN] == Image(crc, c)[..HEADER_LEN] && crc(b[HEADER_LEN..]) != crc(Body(c))
    ensures Parse(crc, b).Err?
  {
    var a := Image(crc, c);
    ImageHeld(crc, c);
    Widths();
    FieldHeld(a, OFF_BODY_CRC, crc(Body(c)), 4);
    forall i | OFF_BODY_CRC <= i < OFF_BODY_CRC + 4 ensures a[i] == b[i] { assert a[..HEADER_LEN][i] == b[..HEADER_LEN][i]; }
    FieldSame(a, b, OFF_BODY_CRC, 4);
    if Parse(crc, b).Ok? { ParsedHeader(crc, b); }
  }
}
