/** `LiveSet`: the dense bitset of live row ids behind filtered search, one bit per id up to the largest. */
module LiveSet {
  /** Bit `i` of a word. */
  predicate Bit(word: bv64, i: bv8)
    requires i < 64
  {
    (word >> i) & 1 == 1
  }

  /** Setting a bit sets that one only. */
  lemma SetBit(word: bv64, k: bv8, i: bv8)
    requires k < 64 && i < 64
    ensures Bit(word | (1 << k), i) <==> i == k || Bit(word, i)
  {
  }

  lemma NoBit(i: bv8)
    requires i < 64
    ensures !Bit(0, i)
  {
  }

  /** The place of id `id` in its word. */
  function BitOf(id: nat): (r: bv8)
    ensures r < 64
  {
    (id % 64) as bv8
  }

  /** Two ids share word and bit only if they are the same. */
  lemma IdsDiffer(a: nat, b: nat)
    requires a / 64 == b / 64 && BitOf(a) == BitOf(b)
    ensures a == b
  {
    BitBack(a % 64);
    BitBack(b % 64);
  }

  lemma BitBack(n: nat)
    requires n < 64
    ensures n as bv8 as nat == n
  {
  }

  /** Setting the bit of `k` changes what its word says of `k`, and of no other id. */
  lemma WordSet(word: bv64, k: nat, id: nat)
    requires id / 64 == k / 64
    ensures Bit(word | (1 << BitOf(k)), BitOf(id)) <==> id == k || Bit(word, BitOf(id))
  {
    SetBit(word, BitOf(k), BitOf(id));
    if BitOf(id) == BitOf(k) { IdsDiffer(id, k); }
  }

  class Bitset {
    const bits: array<bv64>

    predicate Contains(id: nat)
      reads this, bits
    {
      id / 64 < bits.Length && Bit(bits[id / 64], BitOf(id))
    }

    /** `from_row_ids`: `rowIds` in any order, with or without repeats. */
    constructor (rowIds: seq<nat>)
      ensures fresh(bits) && forall id: nat :: Contains(id) <==> id in rowIds
    {
      var max := 0;
      for i := 0 to |rowIds|
        invariant forall j :: 0 <= j < i ==> rowIds[j] <= max
      {
        if rowIds[i] > max { max := rowIds[i]; }
      }
      var words := new bv64[max / 64 + 1](_ => 0);
      bits := words;
      new;
      forall id: nat ensures !Contains(id) { NoBit(BitOf(id)); }
      for i := 0 to |rowIds|
        invariant fresh(bits) && bits.Length == max / 64 + 1
        invariant forall id: nat :: Contains(id) <==> id in rowIds[..i]
      {
        Set(rowIds[i]);
        assert rowIds[..i + 1] == rowIds[..i] + [rowIds[i]];
      }
      assert rowIds[..|rowIds|] == rowIds;
    }

    method Set(k: nat)
      requires k / 64 < bits.Length
      modifies bits
      ensures forall id: nat :: Contains(id) <==> id == k || old(Contains(id))
    {
      var was := bits[k / 64];
      bits[k / 64] := was | (1 << BitOf(k));
      forall id: nat ensures Contains(id) <==> id == k || old(Contains(id)) {
        if id / 64 == k / 64 { WordSet(was, k, id); }
      }
    }
  }
}
