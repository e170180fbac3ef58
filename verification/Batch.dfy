/**
 `HnswIndex::insert_batch_parallel`: one row first, the others dealt round robin to worker
 threads. Rows are their positions in the batch. How the insert of a row ends, and whether a
 thread can be had for a chunk, is up to the `World`; nothing is said of the order in which
 different workers' inserts interleave.
 */
module Batch {
  import opened Common

  const MIN_ROWS_PER_CHUNK: nat := 64

  /** How an insert, a chunk of inserts or the whole batch ends. */
  datatype End = Fine | Refused(error: nat) | Panicked

  datatype ChunkOutcome = Ran(end: End) | SpawnFailed(error: nat)

  datatype World = World(insertEnds: nat -> End, spawnFails: nat -> Option<nat>)

  // ---------------------------------------------------------------------------
  // Dealing the rows
  // ---------------------------------------------------------------------------

  /** How many of the first `n` rows dealt to `k` chunks go to chunk `c`. */
  function Share(n: nat, k: nat, c: nat): nat
    requires k > 0
  {
    n / k + if c < n % k then 1 else 0
  }

  lemma ProductOrder(a: nat, b: nat, d: nat)
    ensures a < b ==> a * d + d <= b * d
  {
    if a < b { assert (a + 1) * d <= b * d; }
  }

  lemma DivMod(n: nat, k: nat, q: nat, c: nat)
    requires c < k && n == q * k + c
    ensures n / k == q && n % k == c
  {
    ProductOrder(q, n / k, k);
    ProductOrder(n / k, q, k);
  }

  /** The next row goes to chunk `n % k`, and there to the end. */
  lemma ShareStep(n: nat, k: nat, c: nat)
    requires c < k
    ensures Share(n, k, n % k) == n / k
    ensures Share(n + 1, k, c) == Share(n, k, c) + if c == n % k then 1 else 0
  {
    var q, r := n / k, n % k;
    assert n == q * k + r;
    if r + 1 < k {
      DivMod(n + 1, k, q, r + 1);
    } else {
      assert (q + 1) * k == q * k + k;
      DivMod(n + 1, k, q + 1, 0);
    }
  }

  /** `chunks` deals the rows `from..from + n` round robin. */
  ghost predicate Dealt(chunks: seq<seq<nat>>, from: nat, n: nat, k: nat) {
    && k > 0 && |chunks| == k
    && forall c :: 0 <= c < k ==> DealtTo(chunks[c], from, n, k, c)
  }

  ghost predicate DealtTo(chunk: seq<nat>, from: nat, n: nat, k: nat, c: nat)
    requires k > 0
  {
    |chunk| == Share(n, k, c) && forall j :: 0 <= j < |chunk| ==> chunk[j] == from + Place(j, k, c)
  }

  function Place(j: nat, k: nat, c: nat): nat {
    j * k + c
  }

  method Deal(from: nat, n: nat, k: nat) returns (chunks: seq<seq<nat>>)
    requires k > 0
    ensures Dealt(chunks, from, n, k)
  {
    chunks := seq(k, _ => []);
    for i := 0 to n
      invariant Dealt(chunks, from, i, k)
    {
      ghost var before := chunks;
      var c := i % k;
      chunks := chunks[c := chunks[c] + [from + i]];
      forall d | 0 <= d < k ensures DealtTo(chunks[d], from, i + 1, k, d) {
        assert DealtTo(before[d], from, i, k, d);
        ShareStep(i, k, d);
        assert Place(i / k, k, i % k) == i;
      }
    }
  }

  /** Every row is dealt to one place, and only there. */
  lemma {:induction false} DealtOnce(chunks: seq<seq<nat>>, from: nat, n: nat, k: nat, i: nat)
    requires Dealt(chunks, from, n, k) && i < n
    ensures i % k < k && i / k < |chunks[i % k]| && chunks[i % k][i / k] == from + i
    ensures forall c, j :: 0 <= c < k && 0 <= j < |chunks[c]| && chunks[c][j] == from + i ==> c == i % k && j == i / k
  {
    assert DealtTo(chunks[i % k], from, n, k, i % k);
    RowHasPlace(n, k, i);
    assert Place(i / k, k, i % k) == i;
    forall c, j | 0 <= c < k && 0 <= j < |chunks[c]| && chunks[c][j] == from + i ensures c == i % k && j == i / k {
      assert DealtTo(chunks[c], from, n, k, c);
      DivMod(i, k, j, c);
    }
  }

  lemma RowHasPlace(n: nat, k: nat, i: nat)
    requires k > 0 && i < n
    ensures i / k < Share(n, k, i % k)
  {
    Quotient(n, k);
    Quotient(i, k);
    NoLater(n / k, n % k, i / k, i % k, k);
  }

  lemma Quotient(n: nat, k: nat)
    requires k > 0
    ensures n == n / k * k + n % k && n % k < k
  {
  }

  lemma NoLater(q: nat, r: nat, p: nat, c: nat, k: nat)
    requires p * k + c < q * k + r && r < k
    ensures p < q || (p == q && c < r)
  {
    ProductOrder(q, p, k);
  }

  /** Only rows of the batch are dealt. */
  lemma {:induction false} PlaceHasRow(n: nat, k: nat, c: nat, j: nat)
    requires c < k && j < Share(n, k, c)
    ensures Place(j, k, c) < n
  {
    var q, r := n / k, n % k;
    assert n == q * k + r;
    if j < q {
      assert q * k >= (j + 1) * k == j * k + k;
    }
  }

  lemma {:induction false} DealtInRange(chunks: seq<seq<nat>>, from: nat, n: nat, k: nat, c: nat, j: nat)
    requires Dealt(chunks, from, n, k) && c < k && j < |chunks[c]|
    ensures from <= chunks[c][j] < from + n && chunks[c][j] - from == Place(j, k, c)
  {
    assert DealtTo(chunks[c], from, n, k, c);
    PlaceHasRow(n, k, c, j);
  }

  // ---------------------------------------------------------------------------
  // How many chunks
  // ---------------------------------------------------------------------------

  function DivCeil(n: nat, d: nat): nat
    requires d > 0
  {
    n / d + if n % d == 0 then 0 else 1
  }

  lemma DivCeilBounds(n: nat, d: nat)
    requires d > 0
    ensures n <= DivCeil(n, d) * d && (DivCeil(n, d) == 0 || (DivCeil(n, d) - 1) * d < n)
  {
    var q := n / d;
    assert n == q * d + n % d && (q + 1) * d == q * d + d;
    if q > 0 { assert (q - 1) * d == q * d - d; }
  }

  /** A batch that is split at all is split into two chunks or more, never more than there are threads. */
  lemma ChunkCount(n: nat, threads: nat)
    requires threads >= 1 && n >= 1
    ensures var size := ChunkSize(n, threads);
      size >= MIN_ROWS_PER_CHUNK && (size < n ==> 2 <= DivCeil(n, size) <= threads)
  {
    var size := ChunkSize(n, threads);
    DivCeilBounds(n, threads);
    DivCeilBounds(n, size);
    Between(n, threads, DivCeil(n, threads), size, DivCeil(n, size));
  }

  lemma Between(n: nat, threads: nat, even: nat, size: nat, count: nat)
    requires n <= even * threads && even <= size && n <= count * size && (count == 0 || (count - 1) * size < n)
    ensures size < n ==> 2 <= count <= threads
  {
    if size < n {
      ProductOrder(count, 2, size);
      assert even * threads <= size * threads;
      if count > 0 { ProductOrder(threads, count - 1, size); }
    }
  }

  /** With two threads or more, exactly the batches that do not fit one chunk are split. */
  lemma SplitDecision(n: nat, threads: nat)
    requires threads >= 2
    ensures ChunkSize(n, threads) < n <==> n > MIN_ROWS_PER_CHUNK
  {
    DivCeilBounds(n, threads);
    var even := DivCeil(n, threads);
    if n > MIN_ROWS_PER_CHUNK && even >= n { ProductOrder(0, even - 1, threads); TwoOrMore(even - 1, threads); }
  }

  lemma TwoOrMore(a: nat, threads: nat)
    requires threads >= 2
    ensures a * threads >= 2 * a
  {
  }

  /** The size a chunk should have at least. */
  function ChunkSize(n: nat, threads: nat): nat {
    var even := DivCeil(n, if threads >= 1 then threads else 1);
    if even >= MIN_ROWS_PER_CHUNK then even else MIN_ROWS_PER_CHUNK
  }

  // ---------------------------------------------------------------------------
  // Inserting
  // ---------------------------------------------------------------------------

  /** A worker tries its rows in order, up to the first that does not end well, and ends as that one. */
  ghost predicate Worked(w: World, chunk: seq<nat>, tried: seq<nat>, end: End) {
    && tried <= chunk
    && (end.Fine? ==> tried == chunk)
    && (!end.Fine? ==> tried != [] && w.insertEnds(tried[|tried| - 1]) == end)
    && forall i :: 0 <= i < |tried| - (if end.Fine? then 0 else 1) ==> w.insertEnds(tried[i]).Fine?
  }

  method Work(w: World, chunk: seq<nat>) returns (tried: seq<nat>, end: End)
    ensures Worked(w, chunk, tried, end)
  {
    tried := [];
    for i := 0 to |chunk|
      invariant tried == chunk[..i]
      invariant forall j :: 0 <= j < i ==> w.insertEnds(chunk[j]).Fine?
    {
      tried := tried + [chunk[i]];
      if !w.insertEnds(chunk[i]).Fine? { return tried, w.insertEnds(chunk[i]); }
    }
    end := Fine;
  }

  /** What an outcome contributes to the verdict. */
  function ErrorOf(o: ChunkOutcome): Option<nat> {
    match o
    case Ran(Refused(e)) => Some(e)
    case SpawnFailed(e) => Some(e)
    case Ran(_) => None
  }

  /** The first error wins over every panic; without one, a panic wins. */
  ghost predicate Verdict(outcomes: seq<ChunkOutcome>, end: End) {
    match end
    case Refused(e) =>
      exists i :: 0 <= i < |outcomes| && ErrorOf(outcomes[i]) == Some(e) && forall j :: 0 <= j < i ==> ErrorOf(outcomes[j]).None?
    case Panicked =>
      (forall j :: 0 <= j < |outcomes| ==> ErrorOf(outcomes[j]).None?) && exists i :: 0 <= i < |outcomes| && outcomes[i] == Ran(Panicked)
    case Fine =>
      forall j :: 0 <= j < |outcomes| ==> outcomes[j] == Ran(Fine)
  }

  method Fold(outcomes: seq<ChunkOutcome>) returns (end: End)
    ensures Verdict(outcomes, end)
  {
    var firstError: Option<nat>, panic := None, false;
    for i := 0 to |outcomes|
      invariant firstError.Some? ==> exists j :: 0 <= j < i && ErrorOf(outcomes[j]) == firstError && forall l :: 0 <= l < j ==> ErrorOf(outcomes[l]).None?
      invariant firstError.None? ==> forall j :: 0 <= j < i ==> ErrorOf(outcomes[j]).None?
      invariant panic <==> exists j :: 0 <= j < i && outcomes[j] == Ran(Panicked)
    {
      match outcomes[i] {
        case Ran(Fine) =>
        case Ran(Refused(e)) => if firstError.None? { firstError := Some(e); }
        case Ran(Panicked) => panic := true;
        case SpawnFailed(e) => if firstError.None? { firstError := Some(e); }
      }
    }
    if firstError.Some? { return Refused(firstError.value); }
    end := if panic then Panicked else Fine;
  }

  /** One worker's log per chunk, in chunk order, and how each ended. */
  ghost predicate RanAll(w: World, chunks: seq<seq<nat>>, logs: seq<seq<nat>>, outcomes: seq<ChunkOutcome>) {
    && |logs| == |outcomes| == |chunks|
    && forall c :: 0 <= c < |chunks| ==> RanOne(w, chunks[c], c, logs[c], outcomes[c])
  }

  ghost predicate RanOne(w: World, chunk: seq<nat>, c: nat, log: seq<nat>, outcome: ChunkOutcome) {
    match w.spawnFails(c)
    case Some(e) => log == [] && outcome == SpawnFailed(e)
    case None => outcome.Ran? && Worked(w, chunk, log, outcome.end)
  }

  method RunChunks(w: World, chunks: seq<seq<nat>>) returns (logs: seq<seq<nat>>, outcomes: seq<ChunkOutcome>)
    ensures RanAll(w, chunks, logs, outcomes)
  {
    logs, outcomes := [], [];
    for c := 0 to |chunks|
      invariant |logs| == |outcomes| == c
      invariant forall d :: 0 <= d < c ==> RanOne(w, chunks[d], d, logs[d], outcomes[d])
    {
      if w.spawnFails(c).Some? {
        logs, outcomes := logs + [[]], outcomes + [SpawnFailed(w.spawnFails(c).value)];
      } else {
        var tried, end := Work(w, chunks[c]);
        logs, outcomes := logs + [tried], outcomes + [Ran(end)];
      }
    }
  }

  // ---------------------------------------------------------------------------
  // The batch
  // ---------------------------------------------------------------------------

  ghost predicate Tried(logs: seq<seq<nat>>, row: nat) {
    exists a, i :: 0 <= a < |logs| && 0 <= i < |logs[a]| && logs[a][i] == row
  }

  /** No row is handed to `insert_owned` twice, and none from outside the batch. */
  ghost predicate AtMostOnce(logs: seq<seq<nat>>, n: nat) {
    && (forall a, i :: 0 <= a < |logs| && 0 <= i < |logs[a]| ==> logs[a][i] < n)
    && (forall a, i, b, j :: 0 <= a < |logs| && 0 <= i < |logs[a]| && 0 <= b < |logs| && 0 <= j < |logs[b]| && logs[a][i] == logs[b][j] ==>
          a == b && i == j)
  }

  /** The batch's end is Ok only if every row went in, and otherwise has a cause. */
  ghost predicate Accounted(w: World, n: nat, logs: seq<seq<nat>>, end: End) {
    match end
    case Fine => forall row :: 0 <= row < n ==> Tried(logs, row) && w.insertEnds(row).Fine?
    case Refused(e) => (exists row :: Tried(logs, row) && w.insertEnds(row) == end) || (exists c :: 0 <= c < |logs| - 1 && w.spawnFails(c) == Some(e))
    case Panicked => (exists row :: Tried(logs, row) && w.insertEnds(row) == end) && forall row :: Tried(logs, row) ==> !w.insertEnds(row).Refused?
  }

  lemma {:induction false} SoloAccounted(w: World, n: nat, logs: seq<seq<nat>>, end: End, rows: seq<nat>, tried: seq<nat>)
    requires n >= 1 && w.insertEnds(0).Fine? && logs == [[0], tried]
    requires |rows| == n - 1 && (forall i :: 0 <= i < |rows| ==> rows[i] == i + 1) && Worked(w, rows, tried, end)
    ensures AtMostOnce(logs, n) && Accounted(w, n, logs, end)
  {
    assert forall i :: 0 <= i < |tried| ==> logs[1][i] == i + 1;
    if end.Fine? {
      forall row | 0 <= row < n ensures Tried(logs, row) && w.insertEnds(row).Fine? {
        assert if row == 0 then logs[0][0] == row else logs[1][row - 1] == row;
      }
    } else {
      var last := |tried| - 1;
      assert Tried(logs, logs[1][last]);
    }
  }

  lemma {:induction false} SplitOnce(w: World, n: nat, k: nat, chunks: seq<seq<nat>>, logs: seq<seq<nat>>, outcomes: seq<ChunkOutcome>)
    requires n >= 1 && Dealt(chunks, 1, n - 1, k) && RanAll(w, chunks, logs, outcomes)
    ensures AtMostOnce([[0]] + logs, n)
  {
    var all := [[0]] + logs;
    forall a, i | 0 <= a < |all| && 0 <= i < |all[a]|
      ensures all[a][i] < n && (a == 0 ==> all[a][i] == 0) && (a > 0 ==> all[a][i] == 1 + Place(i, k, a - 1))
    {
      if a > 0 { LogDealt(w, n, k, chunks, logs, outcomes, a - 1, i); }
    }
    forall a, i, b, j | 0 <= a < |all| && 0 <= i < |all[a]| && 0 <= b < |all| && 0 <= j < |all[b]| && all[a][i] == all[b][j]
      ensures a == b && i == j
    {
      if a > 0 && b > 0 {
        DivMod(Place(i, k, a - 1), k, i, a - 1);
        DivMod(Place(j, k, b - 1), k, j, b - 1);
      }
    }
  }

  lemma {:induction false} LogDealt(w: World, n: nat, k: nat, chunks: seq<seq<nat>>, logs: seq<seq<nat>>,
                                    outcomes: seq<ChunkOutcome>, c: nat, i: nat)
    requires n >= 1 && Dealt(chunks, 1, n - 1, k) && RanAll(w, chunks, logs, outcomes) && c < k && i < |logs[c]|
    ensures logs[c][i] == 1 + Place(i, k, c) < n
  {
    assert RanOne(w, chunks[c], c, logs[c], outcomes[c]);
    DealtInRange(chunks, 1, n - 1, k, c, i);
  }

  lemma {:induction false} SplitAccounted(w: World, n: nat, k: nat, chunks: seq<seq<nat>>, logs: seq<seq<nat>>,
                                          outcomes: seq<ChunkOutcome>, end: End)
    requires n >= 1 && w.insertEnds(0).Fine? && Dealt(chunks, 1, n - 1, k) && RanAll(w, chunks, logs, outcomes) && Verdict(outcomes, end)
    ensures Accounted(w, n, [[0]] + logs, end)
  {
    var all := [[0]] + logs;
    match end
    case Fine =>
      forall row | 0 <= row < n ensures Tried(all, row) && w.insertEnds(row).Fine? {
        if row == 0 { TriedAt(all, 0, 0); } else { FineRow(w, n, k, chunks, logs, outcomes, row); }
      }
    case Refused(e) =>
      var c :| 0 <= c < |outcomes| && ErrorOf(outcomes[c]) == Some(e);
      BadEnd(w, chunks, logs, outcomes, c);
    case Panicked =>
      var c :| 0 <= c < |outcomes| && outcomes[c] == Ran(Panicked);
      BadEnd(w, chunks, logs, outcomes, c);
      forall row | Tried(all, row) ensures !w.insertEnds(row).Refused? { NotRefused(w, chunks, logs, outcomes, row); }
  }

  lemma TriedAt(logs: seq<seq<nat>>, a: nat, i: nat)
    requires a < |logs| && i < |logs[a]|
    ensures Tried(logs, logs[a][i])
  {
  }

  lemma {:induction false} FineRow(w: World, n: nat, k: nat, chunks: seq<seq<nat>>, logs: seq<seq<nat>>,
                                   outcomes: seq<ChunkOutcome>, row: nat)
    requires 0 < row < n && Dealt(chunks, 1, n - 1, k) && RanAll(w, chunks, logs, outcomes) && Verdict(outcomes, Fine)
    ensures Tried([[0]] + logs, row) && w.insertEnds(row).Fine?
  {
    var c, j := (row - 1) % k, (row - 1) / k;
    DealtOnce(chunks, 1, n - 1, k, row - 1);
    assert RanOne(w, chunks[c], c, logs[c], outcomes[c]) && outcomes[c] == Ran(Fine);
    TriedAt([[0]] + logs, c + 1, j);
  }

  /** A chunk that ended badly tried a row that did, unless it never got a thread. */
  lemma {:induction false} BadEnd(w: World, chunks: seq<seq<nat>>, logs: seq<seq<nat>>, outcomes: seq<ChunkOutcome>, c: nat)
    requires RanAll(w, chunks, logs, outcomes) && c < |outcomes| && outcomes[c] != Ran(Fine)
    ensures outcomes[c].Ran? ==> exists row :: Tried([[0]] + logs, row) && w.insertEnds(row) == outcomes[c].end
    ensures outcomes[c].SpawnFailed? ==> w.spawnFails(c) == Some(outcomes[c].error)
  {
    assert RanOne(w, chunks[c], c, logs[c], outcomes[c]);
    if outcomes[c].Ran? { TriedAt([[0]] + logs, c + 1, |logs[c]| - 1); }
  }

  lemma {:induction false} NotRefused(w: World, chunks: seq<seq<nat>>, logs: seq<seq<nat>>, outcomes: seq<ChunkOutcome>, row: nat)
    requires RanAll(w, chunks, logs, outcomes) && w.insertEnds(0).Fine? && Tried([[0]] + logs, row)
    requires forall j :: 0 <= j < |outcomes| ==> ErrorOf(outcomes[j]).None?
    ensures !w.insertEnds(row).Refused?
  {
    var all := [[0]] + logs;
    var a, i :| 0 <= a < |all| && 0 <= i < |all[a]| && all[a][i] == row;
    if a > 0 {
      assert RanOne(w, chunks[a - 1], a - 1, logs[a - 1], outcomes[a - 1]) && ErrorOf(outcomes[a - 1]).None?;
    }
  }

  /**
   `insert_batch_parallel` of `n` rows, with `threads` asked for and `cores` to be had. Besides the
   rows each worker tried, it returns how many chunks it split the rows behind the first into.
   */
  method InsertBatchParallel(w: World, n: nat, threads: nat, cores: nat) returns (end: End, logs: seq<seq<nat>>, chunks: nat)
    requires cores >= 1
    ensures AtMostOnce(logs, n) && Accounted(w, n, logs, end)
    ensures n > 0 ==> logs != [] && logs[0] == [0]
    ensures n > 0 && !w.insertEnds(0).Fine? ==> end == w.insertEnds(0) && logs == [[0]]
    ensures n > 0 && w.insertEnds(0).Fine? ==> (chunks > 0 <==> threads >= 2 && cores >= 2 && n - 1 > MIN_ROWS_PER_CHUNK)
    ensures chunks > 0 ==> 2 <= chunks <= threads && chunks <= cores && |logs| == chunks + 1
    ensures chunks > 0 ==> n > 0 && forall a :: 1 <= a <= chunks ==> |logs[a]| <= Share(n - 1, chunks, a - 1)
  {
    logs, chunks := [], 0;
    if n == 0 { return Fine, logs, chunks; }
    logs := [[0]];
    if !w.insertEnds(0).Fine? {
      assert logs[0][0] == 0;
      return w.insertEnds(0), logs, chunks;
    }
    var rest := seq(n - 1, i requires 0 <= i < n - 1 => i + 1);
    if rest == [] {
      assert logs[0][0] == 0;
      return Fine, logs, chunks;
    }
    var clamped := if threads <= cores then threads else cores;
    var size := ChunkSize(|rest|, clamped);
    if clamped >= 2 { SplitDecision(|rest|, clamped); }
    if clamped <= 1 || size >= |rest| {
      var tried;
      tried, end := Work(w, rest);
      logs := logs + [tried];
      SoloAccounted(w, n, logs, end, rest, tried);
      return end, logs, chunks;
    }
    ChunkCount(|rest|, clamped);
    chunks := DivCeil(|rest|, size);
    var dealt := Deal(1, |rest|, chunks);
    var workers, outcomes := RunChunks(w, dealt);
    end := Fold(outcomes);
    logs := logs + workers;
    SplitOnce(w, n, chunks, dealt, workers, outcomes);
    SplitAccounted(w, n, chunks, dealt, workers, outcomes, end);
    forall a | 1 <= a <= chunks ensures |logs[a]| <= Share(n - 1, chunks, a - 1) {
      var c := a - 1;
      assert RanOne(w, dealt[c], c, workers[c], outcomes[c]) && DealtTo(dealt[c], 1, n - 1, chunks, c);
    }
  }
}
