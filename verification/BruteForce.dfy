/** `brute_force_search`: the exact reference, and its agreement with the graph search. */
module BruteForce {
  import opened Common
  import opened Heuristic
  import opened Search

  datatype BruteError = InvalidArgument

  /** The rows a scan of `n` vectors ranges over. */
  function Indices(n: nat): (r: set<nat>)
    ensures |r| == n && forall i :: i in r <==> 0 <= i < n
  {
    if n == 0 then {} else Indices(n - 1) + {n - 1}
  }

  /** The distance of every row of a column, as a total function. */
  function ColumnScore(vectors: seq<Vector>, metric: (Vector, Vector) -> real, query: Vector): nat -> real {
    (i: nat) => if i < |vectors| then metric(vectors[i], query) else 0.0
  }

  /** Each row scored, in column order. */
  predicate ScoredColumn(vectors: seq<Vector>, metric: (Vector, Vector) -> real, query: Vector, s: seq<Scored>) {
    && |s| == |vectors|
    && forall i :: 0 <= i < |s| ==> s[i] == Scored(i, ColumnScore(vectors, metric, query)(i))
  }

  /** `select_nth_unstable`: some rearrangement with nothing nearer at or after `k` than before it. */
  method SelectNth(s: seq<Scored>, k: nat) returns (r: seq<Scored>)
    requires k < |s|
    ensures multiset(r) == multiset(s)
    ensures forall i, j :: 0 <= i < k <= j < |r| ==> r[i].dist <= r[j].dist
  {
    r := SortByDist(s);
  }

  lemma PermutationFacts(s: seq<Scored>, r: seq<Scored>)
    requires multiset(r) == multiset(s)
    ensures |r| == |s| && (forall x :: x in r <==> x in s) && (DistinctIds(s) ==> DistinctIds(r))
  {
    assert |multiset(r)| == |r| && |multiset(s)| == |s|;
    assert forall x :: x in r <==> x in multiset(r);
    assert forall x :: x in s <==> x in multiset(s);
    if DistinctIds(s) { PermutationKeepsDistinct(s, r); }
  }

  lemma MissingIsLate(r: seq<Scored>, k: nat, n: nat)
    requires k <= |r| && n < |r| && Missing(SortByDist(r[..k]), r[n].id)
    ensures n >= k
  {
    SortKeepsMembers(r[..k]);
    assert forall m :: 0 <= m < k ==> r[..k][m] in r[..k];
  }

  lemma SortedPrefixIsBest(vectors: seq<Vector>, metric: (Vector, Vector) -> real, query: Vector,
                           s: seq<Scored>, r: seq<Scored>, k: nat)
    requires ScoredColumn(vectors, metric, query, s) && multiset(r) == multiset(s) && k <= |s|
    requires forall i, j :: 0 <= i < k <= j < |r| ==> r[i].dist <= r[j].dist
    ensures |r| == |s| && Best(Indices(|vectors|), ColumnScore(vectors, metric, query), k, SortByDist(r[..k]))
  {
    var score := ColumnScore(vectors, metric, query);
    PermutationFacts(s, r);
    var front := r[..k];
    var hits := SortByDist(front);
    SortKeepsMembers(front);
    forall i | 0 <= i < |hits| ensures hits[i].id in Indices(|vectors|) && hits[i].dist == score(hits[i].id) {
      assert hits[i] in front;
      assert hits[i] in r;
    }
    forall x, i | x in Indices(|vectors|) && Missing(hits, x) && 0 <= i < |hits| ensures hits[i].dist <= score(x) {
      assert s[x] in r;
      var n :| 0 <= n < |r| && r[n] == s[x];
      MissingIsLate(r, k, n);
      assert hits[i] in front;
      var m :| 0 <= m < k && r[m] == hits[i];
    }
  }

  /** The `k` nearest rows of the column, or an error when the query has the wrong dimension. */
  method BruteForceSearch(vectors: seq<Vector>, dim: nat, metric: (Vector, Vector) -> real, query: Vector, k: nat)
    returns (r: Result<seq<Scored>, BruteError>)
    ensures r.Err? <==> |query| != dim
    ensures r.Ok? ==> Best(Indices(|vectors|), ColumnScore(vectors, metric, query), k, r.value)
  {
    if |query| != dim { return Err(InvalidArgument); }
    var scored: seq<Scored> := [];
    var i := 0;
    while i < |vectors|
      invariant i <= |vectors| && ScoredColumn(vectors[..i], metric, query, scored)
    {
      scored := scored + [Scored(i, metric(vectors[i], query))];
      i := i + 1;
    }
    assert vectors[..i] == vectors;
    ghost var full := scored;
    var n := if k <= |scored| then k else |scored|;
    if n < |scored| { scored := SelectNth(scored, n); }
    SortedPrefixIsBest(vectors, metric, query, full, scored, n);
    scored := SortByDist(scored[..n]);
    SameSizeBest(vectors, metric, query, n, k, scored);
    return Ok(scored);
  }

  lemma SameSizeBest(vectors: seq<Vector>, metric: (Vector, Vector) -> real, query: Vector, n: nat, k: nat, hits: seq<Scored>)
    requires Best(Indices(|vectors|), ColumnScore(vectors, metric, query), n, hits)
    requires n == if k <= |vectors| then k else |vectors|
    ensures Best(Indices(|vectors|), ColumnScore(vectors, metric, query), k, hits)
  {
  }

  // ---------------------------------------------------------------------------
  // Agreement with the graph search
  // ---------------------------------------------------------------------------

  /** A scan of the column holding exactly `rows`, told in terms of those rows. */
  function Relabeled(rows: seq<Id>, hits: seq<Scored>): (r: seq<Scored>)
    requires forall i :: 0 <= i < |hits| ==> hits[i].id < |rows|
    ensures |r| == |hits| && forall i :: 0 <= i < |r| ==> r[i] == Scored(rows[hits[i].id], hits[i].dist)
  {
    seq(|hits|, i requires 0 <= i < |hits| => Scored(rows[hits[i].id], hits[i].dist))
  }

  lemma RelabeledHits(rows: seq<Id>, score: nat -> real, column: nat -> real, k: nat, hits: seq<Scored>)
    requires Distinct(rows) && (forall i :: 0 <= i < |rows| ==> column(i) == score(rows[i]))
    requires Best(Indices(|rows|), column, k, hits)
    ensures var r := Relabeled(rows, hits);
      && SortedByDist(r) && DistinctIds(r)
      && forall i :: 0 <= i < |r| ==> r[i].id in Members(rows) && r[i].dist == score(r[i].id)
  {
    var r := Relabeled(rows, hits);
    forall i, j | 0 <= i < j < |r| ensures r[i].id != r[j].id {
      assert hits[i].id != hits[j].id;
      assert rows[hits[i].id] != rows[hits[j].id];
    }
  }

  lemma RelabeledMissing(rows: seq<Id>, hits: seq<Scored>, n: nat)
    requires (forall i :: 0 <= i < |hits| ==> hits[i].id < |rows|) && n < |rows|
    requires Missing(Relabeled(rows, hits), rows[n])
    ensures Missing(hits, n)
  {
    forall j | 0 <= j < |hits| ensures hits[j].id != n { assert Relabeled(rows, hits)[j].id == rows[hits[j].id]; }
  }

  lemma RelabeledBest(rows: seq<Id>, score: nat -> real, column: nat -> real, k: nat, hits: seq<Scored>)
    requires Distinct(rows) && (forall i :: 0 <= i < |rows| ==> column(i) == score(rows[i]))
    requires Best(Indices(|rows|), column, k, hits)
    ensures Best(Members(rows), score, k, Relabeled(rows, hits))
  {
    MembersSize(rows);
    RelabeledHits(rows, score, column, k, hits);
    var r := Relabeled(rows, hits);
    forall x, i | x in Members(rows) && Missing(r, x) && 0 <= i < |r| ensures r[i].dist <= score(x) {
      var n :| 0 <= n < |rows| && rows[n] == x;
      RelabeledMissing(rows, hits, n);
      assert n in Indices(|rows|) && hits[i].dist <= column(n);
    }
  }

  /**
   A graph search that was exact and a scan over a column of exactly the eligible rows return
   the same distances, position by position: the filter never hides a reachable row.
   */
  lemma SearchAgreesWithBruteForce(p: Probe, start: Id, k: nat, found: seq<Scored>,
                                   rows: seq<Id>, vectors: seq<Vector>, scanned: seq<Scored>, i: nat)
    requires Best(Eligible(p, 0, start), Score(p), k, found)
    requires Distinct(rows) && Members(rows) == Eligible(p, 0, start) && |vectors| == |rows|
    requires forall n :: 0 <= n < |rows| ==> rows[n] in p.src.vectors && vectors[n] == p.src.vectors[rows[n]]
    requires forall v: Vector :: p.metric(v, p.query) == p.metric(p.query, v)
    requires Best(Indices(|vectors|), ColumnScore(vectors, p.metric, p.query), k, scanned)
    requires i < |found|
    ensures |scanned| == |found| && scanned[i].dist == found[i].dist
  {
    RelabeledBest(rows, Score(p), ColumnScore(vectors, p.metric, p.query), k, scanned);
    BestDistancesAgree(Eligible(p, 0, start), Score(p), k, found, Relabeled(rows, scanned), i);
  }
}
