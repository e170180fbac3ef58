/**
 `SegmentReader::from_bytes` and its accessors: the checks in the code's order, and typed
 views of sub-ranges of the bytes that answer with nothing rather than out of range.
 */
module SegmentReader {
  import opened Common
  import opened Bytes
  import opened SegmentFormat

  datatype Corrupt =
    | TooShort | BadMagic | HeaderCrc | BadVersion | NotLittleEndian | BadMetric
    | NoNodes | NoDimension | MaxLevelTooHigh | SectionOutOfFile | SectionsOverlap
    | WrongSectionSize | Misaligned | BodyCrc | NotAscending | LevelTooHigh
    | BadLayer | TrailingAdjacency | BadEntry

  datatype Reader = Reader(
    bytes: seq<Byte>, nodeCount: nat, dim: nat, maxLevel: nat, entry: Option<(nat, nat)>,
    rowIdsOff: nat, levelsOff: nat, vectorsOff: nat, layerOff: seq<(nat, nat)>, params: Params,
    formatVersion: nat, rowIdMin: nat, rowIdMax: nat)

  /** Where one layer's two arrays start, and where it ends. */
  datatype LayerSpan = LayerSpan(offsetsAt: nat, neighborsAt: nat, end: nat)

  /** One layer of the adjacency section, starting at `cursor` and ending within `limit`. */
  function ParseLayer(b: seq<Byte>, cursor: nat, limit: nat, n: nat): (r: Option<LayerSpan>)
    requires limit <= |b|
    ensures r.Some? ==> cursor <= r.value.neighborsAt <= r.value.end <= limit
  {
    var offsetsEnd := cursor + (n + 1) * 4;
    if offsetsEnd > limit then None
    else
      var offsets := View(b, cursor, 4, n + 1);
      if offsets[0] != 0 || exists i :: 0 <= i < n && Falls(offsets, i) then None
      else
        var end := offsetsEnd + offsets[n] * 4;
        if end > limit then None
        else
          var neighbors := View(b, offsetsEnd, 4, offsets[n]);
          if exists i :: 0 <= i < |neighbors| && neighbors[i] >= n then None
          else Some(LayerSpan(cursor, offsetsEnd, end))
  }

  /** The layers still to be parsed from `cursor` on, down to the exact end of the section. */
  function ParseLayers(b: seq<Byte>, cursor: nat, limit: nat, n: nat, count: nat): Result<seq<(nat, nat)>, Corrupt>
    requires limit <= |b|
    decreases count
  {
    if count == 0 then
      if cursor == limit then Ok([]) else Err(TrailingAdjacency)
    else
      match ParseLayer(b, cursor, limit, n)
      case None => Err(BadLayer)
      case Some(span) =>
        match ParseLayers(b, span.end, limit, n, count - 1)
        case Err(e) => Err(e)
        case Ok(rest) => Ok([(span.offsetsAt, span.neighborsAt)] + rest)
  }

  /** The section table is in range, ordered, aligned and of the sizes the geometry implies. */
  function CheckSections(len: nat, offs: seq<nat>, lens: seq<nat>, n: nat, dim: nat): Option<Corrupt>
    requires |offs| == SECTION_COUNT && |lens| == SECTION_COUNT
  {
    if exists i :: 0 <= i < SECTION_COUNT && (offs[i] < HEADER_LEN || offs[i] + lens[i] > len) then Some(SectionOutOfFile)
    else if exists i :: 1 <= i < SECTION_COUNT && offs[i] < offs[i - 1] + lens[i - 1] then Some(SectionsOverlap)
    else if lens[SECTION_ROW_IDS] != n * 8 || lens[SECTION_LEVELS] != n || lens[SECTION_VECTORS] != n * (dim * 4)
    then Some(WrongSectionSize)
    else if offs[SECTION_ROW_IDS] % 8 != 0 || offs[SECTION_ADJACENCY] % 4 != 0 || offs[SECTION_VECTORS] % VECTORS_ALIGN != 0
    then Some(Misaligned)
    else None
  }

  function CheckHeader(crc: Crc, b: seq<Byte>): Option<Corrupt> {
    if |b| < HEADER_LEN then Some(TooShort)
    else if b[OFF_MAGIC..OFF_MAGIC + 8] != MAGIC then Some(BadMagic)
    else if Field(b, OFF_HEADER_CRC, 4) != crc(b[..OFF_HEADER_CRC]) then Some(HeaderCrc)
    else if Field(b, OFF_FORMAT_VERSION, 4) != SEGMENT_FORMAT_VERSION then Some(BadVersion)
    else if Field(b, OFF_FLAGS, 4) % 2 == 0 then Some(NotLittleEndian)
    else if b[OFF_METRIC] != METRIC_L2 then Some(BadMetric)
    else if Field(b, OFF_NODE_COUNT, 4) == 0 then Some(NoNodes)
    else if Field(b, OFF_DIM, 4) == 0 then Some(NoDimension)
    else if Field(b, OFF_MAX_LEVEL, 4) > 255 then Some(MaxLevelTooHigh)
    else None
  }

  function Offs(b: seq<Byte>): (r: seq<nat>)
    requires |b| >= HEADER_LEN
    ensures |r| == SECTION_COUNT
  {
    View(b, OFF_SECTION_OFF, 8, SECTION_COUNT)
  }

  function Lens(b: seq<Byte>): (r: seq<nat>)
    requires |b| >= HEADER_LEN
    ensures |r| == SECTION_COUNT
  {
    View(b, OFF_SECTION_LEN, 4, SECTION_COUNT)
  }

  function EntryOf(b: seq<Byte>, levelsOff: nat, n: nat): Option<Option<(nat, nat)>>
    requires |b| >= HEADER_LEN && levelsOff + n <= |b|
  {
    var raw := Field(b, OFF_ENTRY_POINT, 4);
    if raw == NO_ENTRY_POINT then Some(None)
    else if raw >= n then None
    else Some(Some((raw, b[levelsOff + raw])))
  }

  function ParamsOf(b: seq<Byte>): Params
    requires |b| >= HEADER_LEN
  {
    Params(Field(b, OFF_M, 2), Field(b, OFF_MMAX0, 2), Field(b, OFF_MMAX, 2), Field(b, OFF_EF_CONSTRUCTION, 2), Field(b, OFF_M_L, 8))
  }

  /** `from_bytes`. */
  function Parse(crc: Crc, b: seq<Byte>): (r: Result<Reader, Corrupt>) {
    var bad := CheckHeader(crc, b);
    if bad.Some? then Err(bad.value)
    else
      var n, dim := Field(b, OFF_NODE_COUNT, 4), Field(b, OFF_DIM, 4);
      var bad := CheckSections(|b|, Offs(b), Lens(b), n, dim);
      if bad.Some? then Err(bad.value)
      else if Field(b, OFF_BODY_CRC, 4) != crc(b[HEADER_LEN..]) then Err(BodyCrc)
      else ParseBody(b, n, dim, Field(b, OFF_MAX_LEVEL, 4), Offs(b), Lens(b))
  }

  /** The rest of `from_bytes`, once header, section table and checksums are found good. */
  function ParseBody(b: seq<Byte>, n: nat, dim: nat, maxLevel: nat, offs: seq<nat>, lens: seq<nat>): Result<Reader, Corrupt>
    requires |b| >= HEADER_LEN && |offs| == SECTION_COUNT && |lens| == SECTION_COUNT
    requires CheckSections(|b|, offs, lens, n, dim) == None
  {
    assert offs[0] + lens[0] <= |b| && offs[1] + lens[1] <= |b| && offs[2] + lens[2] <= |b|;
    var levels := b[offs[1]..offs[1] + n];
    if !Ascending(View(b, offs[0], 8, n)) then Err(NotAscending)
    else if exists i :: 0 <= i < n && levels[i] > maxLevel then Err(LevelTooHigh)
    else
      match ParseLayers(b, offs[2], offs[2] + lens[2], n, maxLevel + 1)
      case Err(e) => Err(e)
      case Ok(layerOff) =>
        match EntryOf(b, offs[1], n)
        case None => Err(BadEntry)
        case Some(entry) =>
          Ok(Reader(b, n, dim, maxLevel, entry, offs[0], offs[1], offs[3], layerOff, ParamsOf(b),
                    Field(b, OFF_FORMAT_VERSION, 4), Field(b, OFF_ROW_ID_MIN, 8), Field(b, OFF_ROW_ID_MAX, 8)))
  }

  // ---------------------------------------------------------------------------
  // Accessors: out of range means nothing, never a fault
  // ---------------------------------------------------------------------------

  /** `b[at..at + n * w]` as words, or nothing when it does not lie inside `b`. */
  function TryView(b: seq<Byte>, at: nat, w: nat, n: nat): seq<nat> {
    if at + n * w <= |b| then View(b, at, w, n) else []
  }

  function RowIdAt(r: Reader, local: nat): Option<nat> {
    var ids := TryView(r.bytes, r.rowIdsOff, 8, r.nodeCount);
    if local < |ids| then Some(ids[local]) else None
  }

  function Level(r: Reader, local: nat): Option<nat> {
    if local < r.nodeCount && r.levelsOff + r.nodeCount <= |r.bytes| then Some(r.bytes[r.levelsOff + local]) else None
  }

  function LayerOffsets(r: Reader, layer: nat): seq<nat> {
    if layer < |r.layerOff| then TryView(r.bytes, r.layerOff[layer].0, 4, r.nodeCount + 1) else []
  }

  function LayerNeighbors(r: Reader, layer: nat): seq<nat> {
    var offsets := LayerOffsets(r, layer);
    if layer < |r.layerOff| then
      TryView(r.bytes, r.layerOff[layer].1, 4, if offsets == [] then 0 else offsets[|offsets| - 1])
    else []
  }

  function Neighbors(r: Reader, local: nat, layer: nat): seq<nat> {
    if local >= r.nodeCount || layer > r.maxLevel then []
    else
      var offsets := LayerOffsets(r, layer);
      if local + 1 >= |offsets| then []
      else
        var neighbors := LayerNeighbors(r, layer);
        if offsets[local] <= offsets[local + 1] <= |neighbors| then neighbors[offsets[local]..offsets[local + 1]] else []
  }

  function Vector(r: Reader, local: nat): Option<seq<nat>> {
    if local >= r.nodeCount then None
    else
      var start := r.vectorsOff + local * (r.dim * 4);
      if start + r.dim * 4 <= |r.bytes| then Some(View(r.bytes, start, 4, r.dim)) else None
  }
}
