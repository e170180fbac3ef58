/** Little-endian words and the arrays of words a segment is made of. */
module Bytes {

  type Byte = b: nat | b < 256

  function Pow256(w: nat): (r: nat)
    ensures r > 0
  {
    if w == 0 then 1 else 256 * Pow256(w - 1)
  }

  lemma Widths()
    ensures Pow256(1) == 0x100 && Pow256(2) == 0x1_0000 && Pow256(4) == 0x1_0000_0000
    ensures Pow256(8) == 0x1_0000_0000_0000_0000
  {
    assert Pow256(0) == 1;
    assert Pow256(1) == 0x100;
    assert Pow256(2) == 0x1_0000;
    assert Pow256(3) == 0x100_0000;
    assert Pow256(4) == 0x1_0000_0000;
    assert Pow256(5) == 0x100_0000_0000;
    assert Pow256(6) == 0x1_0000_0000_0000;
    assert Pow256(7) == 0x100_0000_0000_0000;
  }

  /** The `w` low bytes of `n`, lowest first. */
  function LE(n: nat, w: nat): (r: seq<Byte>)
    ensures |r| == w
  {
    if w == 0 then [] else [n % 256] + LE(n / 256, w - 1)
  }

  /** The `w`-byte word that starts at `at`. */
  function Field(b: seq<Byte>, at: nat, w: nat): nat
    requires at + w <= |b|
    decreases |b| - at
  {
    if w == 0 then 0 else b[at] + 256 * Field(b, at + 1, w - 1)
  }

  /** The bytes from `at` on viewed as `n` words of `w` bytes. */
  function View(b: seq<Byte>, at: nat, w: nat, n: nat): (r: seq<nat>)
    requires at + n * w <= |b|
    ensures |r| == n
    decreases n
  {
    if n == 0 then []
    else
      InBounds(n - 1, w);
      [Field(b, at, w)] + View(b, at + w, w, n - 1)
  }

  lemma {:induction false} ViewAt(b: seq<Byte>, at: nat, w: nat, n: nat, i: nat)
    requires at + n * w <= |b| && i < n
    ensures at + i * w + w <= |b| && View(b, at, w, n)[i] == Field(b, at + i * w, w)
    decreases n
  {
    InBounds(n - 1, w);
    if i == 0 {
      assert i * w == 0;
    } else {
      InBounds(i - 1, w);
      ViewAt(b, at + w, w, n - 1, i - 1);
    }
  }

  predicate Fits(xs: seq<nat>, w: nat) {
    forall i :: 0 <= i < |xs| ==> xs[i] < Pow256(w)
  }

  /** An array of `w`-byte words. */
  function Words(xs: seq<nat>, w: nat): (r: seq<Byte>)
    ensures |r| == |xs| * w
  {
    if xs == [] then []
    else
      assert |xs| * w == w + |xs[1..]| * w;
      LE(xs[0], w) + Words(xs[1..], w)
  }

  lemma InBounds(i: nat, w: nat)
    ensures 0 <= i * w <= (i + 1) * w && (i + 1) * w == i * w + w
  {
  }

  lemma {:induction false} WordsConcat(xs: seq<nat>, ys: seq<nat>, w: nat)
    ensures Words(xs + ys, w) == Words(xs, w) + Words(ys, w)
  {
    if xs == [] {
      assert xs + ys == ys;
    } else {
      var head, rest := LE(xs[0], w), Words(xs[1..], w);
      calc {
        Words(xs + ys, w);
        { assert (xs + ys)[1..] == xs[1..] + ys; }
        head + Words(xs[1..] + ys, w);
        { WordsConcat(xs[1..], ys, w); }
        head + (rest + Words(ys, w));
        { assert head + (rest + Words(ys, w)) == (head + rest) + Words(ys, w); }
        Words(xs, w) + Words(ys, w);
      }
    }
  }

  function Zeros(n: nat): (r: seq<Byte>)
    ensures |r| == n && forall i :: 0 <= i < n ==> r[i] == 0
  {
    seq(n, _ => 0)
  }

  /** `src` copied over `b` at `at`. */
  function Put(b: seq<Byte>, at: nat, src: seq<Byte>): (r: seq<Byte>)
    requires at + |src| <= |b|
    ensures |r| == |b|
  {
    b[..at] + src + b[at + |src|..]
  }

  /** Writing into a zeroed gap, `gap` bytes past what is already there. */
  lemma PutIntoZeros(a: seq<Byte>, gap: nat, k: nat, src: seq<Byte>, rest: seq<Byte>)
    requires gap + |src| <= k
    ensures Put(a + Zeros(k) + rest, |a| + gap, src) == a + Zeros(gap) + src + Zeros(k - gap - |src|) + rest
  {
    var b := a + Zeros(k) + rest;
    assert b[..|a| + gap] == a + Zeros(gap);
    assert b[|a| + gap + |src|..] == Zeros(k - gap - |src|) + rest;
  }

  // ---------------------------------------------------------------------------
  // What a range of bytes holds
  // ---------------------------------------------------------------------------

  /** The bytes of `b` from `at` on start with `part`. */
  predicate Holds(b: seq<Byte>, at: nat, part: seq<Byte>) {
    at + |part| <= |b| && forall i :: 0 <= i < |part| ==> b[at + i] == part[i]
  }

  lemma HeldInTwo(b: seq<Byte>, at: nat, front: seq<Byte>, back: seq<Byte>)
    requires Holds(b, at, front + back)
    ensures Holds(b, at, front) && Holds(b, at + |front|, back)
  {
    var whole := front + back;
    forall i | 0 <= i < |front| ensures b[at + i] == front[i] {
      assert whole[i] == front[i];
    }
    forall i | 0 <= i < |back| ensures b[at + |front| + i] == back[i] {
      assert whole[|front| + i] == back[i];
    }
  }

  lemma HeldSlice(b: seq<Byte>, at: nat, part: seq<Byte>)
    requires Holds(b, at, part)
    ensures b[at..at + |part|] == part
  {
  }

  /** A word reads back where it is held. */
  lemma {:induction false} FieldHeld(b: seq<Byte>, at: nat, n: nat, w: nat)
    requires Holds(b, at, LE(n, w)) && n < Pow256(w)
    ensures Field(b, at, w) == n
    decreases w
  {
    if w > 0 {
      HeldInTwo(b, at, [n % 256], LE(n / 256, w - 1));
      FieldHeld(b, at + 1, n / 256, w - 1);
      assert b[at + 0] == [n % 256][0];
    }
  }

  /** An array of words is viewed as those words where it is held. */
  lemma {:induction false} ViewHeld(b: seq<Byte>, at: nat, xs: seq<nat>, w: nat)
    requires Holds(b, at, Words(xs, w)) && Fits(xs, w)
    ensures View(b, at, w, |xs|) == xs
    decreases |xs|
  {
    if xs != [] {
      HeldInTwo(b, at, LE(xs[0], w), Words(xs[1..], w));
      FieldHeld(b, at, xs[0], w);
      ViewHeld(b, at + w, xs[1..], w);
      InBounds(|xs| - 1, w);
    }
  }

  // ---------------------------------------------------------------------------
  // Many parts, one after the other
  // ---------------------------------------------------------------------------

  function Concat(parts: seq<seq<Byte>>): seq<Byte> {
    if parts == [] then [] else Concat(parts[..|parts| - 1]) + parts[|parts| - 1]
  }

  /** Where part `i` starts. */
  function PartStart(parts: seq<seq<Byte>>, i: nat): nat
    requires i <= |parts|
  {
    |Concat(parts[..i])|
  }

  lemma ConcatStep(parts: seq<seq<Byte>>, i: nat)
    requires i < |parts|
    ensures Concat(parts[..i + 1]) == Concat(parts[..i]) + parts[i]
  {
    assert parts[..i + 1][..i] == parts[..i];
  }

  lemma {:induction false} PartHeldBelow(b: seq<Byte>, at: nat, parts: seq<seq<Byte>>, i: nat, m: nat)
    requires i < m <= |parts| && Holds(b, at, Concat(parts[..m]))
    ensures Holds(b, at + PartStart(parts, i), parts[i]) && PartStart(parts, i + 1) == PartStart(parts, i) + |parts[i]|
    decreases m
  {
    ConcatStep(parts, m - 1);
    HeldInTwo(b, at, Concat(parts[..m - 1]), parts[m - 1]);
    if i < m - 1 { PartHeldBelow(b, at, parts, i, m - 1); }
  }

  /** Part `i` is held where it starts. */
  lemma PartHeld(b: seq<Byte>, at: nat, parts: seq<seq<Byte>>, i: nat)
    requires i < |parts| && Holds(b, at, Concat(parts))
    ensures Holds(b, at + PartStart(parts, i), parts[i]) && PartStart(parts, i + 1) == PartStart(parts, i) + |parts[i]|
  {
    assert parts[..|parts|] == parts;
    PartHeldBelow(b, at, parts, i, |parts|);
  }

  lemma {:induction false} EvenParts(parts: seq<seq<Byte>>, k: nat, i: nat)
    requires (forall j :: 0 <= j < |parts| ==> |parts[j]| == k) && i <= |parts|
    ensures PartStart(parts, i) == i * k
  {
    if i > 0 {
      EvenParts(parts, k, i - 1);
      ConcatStep(parts, i - 1);
      InBounds(i - 1, k);
    }
  }
}
