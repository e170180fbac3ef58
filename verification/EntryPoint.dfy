/**
 The entry point as the code stores it: row and level packed into one 64-bit word, with the
 all-ones word for "no entry". The build protocol works on the unpacked pair; the lemmas
 here show that each word operation is exactly the protocol's operation on the pair.
 */
module EntryPoint {
  import opened Common
  import opened Build

  const WORD: nat := 0x1_0000_0000_0000_0000
  const NO_ENTRY: nat := WORD - 1
  const LEVELS: nat := 256
  /** Rows must stay below this for the shift not to lose bits. */
  const ROW_LIMIT: nat := 0x100_0000_0000_0000

  type Word = w: nat | w < WORD

  function Clamp(level: nat): (r: nat)
    ensures r < LEVELS
  {
    if level < LEVELS then level else LEVELS - 1
  }

  /** `(row << 8) | min(level, 255)`: the shift drops the high bits of the row. */
  function Pack(row: Word, level: nat): Word {
    PackBound(row, level);
    row * LEVELS % WORD + Clamp(level)
  }

  lemma PackBound(row: nat, level: nat)
    ensures row * LEVELS % WORD + Clamp(level) < WORD
    ensures row * LEVELS % WORD == (row % ROW_LIMIT) * LEVELS
  {
    var q, r := row / ROW_LIMIT, row % ROW_LIMIT;
    assert row == q * ROW_LIMIT + r;
    assert row * LEVELS == q * WORD + r * LEVELS;
    assert r * LEVELS < WORD;
    ModUnique(row * LEVELS, q, r * LEVELS);
  }

  lemma ModUnique(x: nat, q: nat, r: nat)
    requires x == q * WORD + r && r < WORD
    ensures x % WORD == r && x / WORD == q
  {
    var q', r' := x / WORD, x % WORD;
    assert x == q' * WORD + r';
    assert (q - q') * WORD == r' - r;
  }

  function Unpack(w: Word): Entry {
    Entry(w / LEVELS, w % LEVELS)
  }

  /** The pair a word stands for. */
  function Decoded(w: Word): Option<Entry> {
    if w == NO_ENTRY then None else Some(Unpack(w))
  }

  /** Packing loses nothing exactly when the row fits 56 bits and the level 8. */
  lemma PackRoundTrips(row: Word, level: nat)
    ensures Unpack(Pack(row, level)) == Entry(row, level) <==> row < ROW_LIMIT && level < LEVELS
    ensures Pack(row, level) == NO_ENTRY <==> row % ROW_LIMIT == ROW_LIMIT - 1 && level >= LEVELS - 1
  {
    PackBound(row, level);
  }

  /** The pair that packing and unpacking leave of a row and a level. */
  function Stored(row: Word, level: nat): Option<Entry> {
    var e := Entry(row % ROW_LIMIT, Clamp(level));
    if e == Entry(ROW_LIMIT - 1, LEVELS - 1) then None else Some(e)
  }

  /** A word in place of the pair is exact if and only if the pair fits and is not the one that packs to all ones. */
  lemma StoredExactly(row: Word, level: nat)
    ensures Decoded(Pack(row, level)) == Stored(row, level)
    ensures Stored(row, level) == Some(Entry(row, level)) <==>
      row < ROW_LIMIT && level < LEVELS && !(row == ROW_LIMIT - 1 && level == LEVELS - 1)
  {
    PackBound(row, level);
  }

  /** Distinct words stand for distinct pairs, so a compare-exchange on words compares pairs. */
  lemma DecodedInjective(v: Word, w: Word)
    requires Decoded(v) == Decoded(w)
    ensures v == w
  {
  }

  function CompareExchange(w: Word, expected: Word, desired: Word): Word {
    if w == expected then desired else w
  }

  /** What `Graph::insert` guarantees of the rows and levels it packs. */
  predicate Packable(row: nat, level: nat) {
    row < ROW_LIMIT - 1 && level <= MAX_LEVEL
  }

  /** `claim_if_empty` on the word is `DoClaimEntry` on the pair. */
  lemma ClaimRefines(s: State, t: Row, w: Word)
    requires CanClaimEntry(s, t) && s.entry == Decoded(w) && Packable(t, s.nodes[t].level)
    ensures DoClaimEntry(s, t).entry == Decoded(CompareExchange(w, NO_ENTRY, Pack(t, s.nodes[t].level)))
  {
    PackRoundTrips(t, s.nodes[t].level);
  }

  /** The compare-exchange of `advance_if_higher` on the word is `DoAdvanceCas` on the pair. */
  lemma AdvanceRefines(s: State, t: Row, w: Word, loaded: Word)
    requires CanAdvanceCas(s, t) && s.entry == Decoded(w) && s.pcs[t].cur == Decoded(loaded)
    requires Packable(t, s.nodes[t].level)
    ensures DoAdvanceCas(s, t).entry == Decoded(CompareExchange(w, loaded, Pack(t, s.nodes[t].level)))
  {
    PackRoundTrips(t, s.nodes[t].level);
    if s.entry == s.pcs[t].cur { DecodedInjective(w, loaded); }
  }

  /** The word in place, as one thread uses it. */
  class Cell {
    var packed: Word

    constructor ()
      ensures Decoded(packed) == None
    {
      packed := NO_ENTRY;
    }

    method Get() returns (e: Option<Entry>)
      ensures e == Decoded(packed)
    {
      if packed == NO_ENTRY { return None; }
      return Some(Unpack(packed));
    }

    method ClaimIfEmpty(row: Word, level: nat) returns (r: Result<(), Entry>)
      modifies this
      ensures match old(Decoded(packed))
        case None => r == Ok(()) && Decoded(packed) == Stored(row, level)
        case Some(e) => r == Err(e) && packed == old(packed)
    {
      StoredExactly(row, level);
      var actual := packed;
      if actual == NO_ENTRY {
        packed := Pack(row, level);
        return Ok(());
      }
      return Err(Unpack(actual));
    }

    method AdvanceIfHigher(row: Word, level: nat)
      modifies this
      ensures Decoded(packed) == match old(Decoded(packed))
        case None => Stored(row, level)
        case Some(e) => if level <= e.level then Some(e) else Stored(row, level)
    {
      StoredExactly(row, level);
      var proposed := Pack(row, level);
      var current := packed;
      if current != NO_ENTRY && level <= Unpack(current).level { return; }
      packed := CompareExchange(packed, current, proposed);
    }
  }
}
