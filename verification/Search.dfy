/**
 `search_layer_generic` and `k_nn_search_generic` over an abstract `NodeSource`.

 The candidate min-heap and the result max-heap are sets here, a pop taking any nearest
 (any furthest) member, which is all the heaps promise among equal distances. A row
 without a vector is at distance infinity, as in the code.

 Every row is expanded at most once per search, so "the neighbours of a row" is whatever
 that one expansion read: the results below also cover a search over a graph that is
 being changed meanwhile.
 */
module Search {
  import opened Common
  import opened Heuristic

  type Id = nat
  type Vector = seq<real>

  /** What a `NodeSource` answers. */
  datatype Source = Source(
    entryPoint: Option<(Id, nat)>,
    levels: map<Id, nat>,
    vectors: map<Id, Vector>,
    adjacency: map<(Id, nat), seq<Id>>,
    rowIds: Id -> nat,
    deleted: set<Id>,
    dimension: nat)

  /** One query: what is searched, for what, and through which filter. */
  datatype Probe = Probe(src: Source, metric: (Vector, Vector) -> real, query: Vector, filter: nat -> bool)

  /** The neighbour list an expansion of `x` reads: nothing if `x` does not take part in the layer. */
  function Neighbors(p: Probe, x: Id, lc: nat): seq<Id> {
    if x in p.src.levels && lc <= p.src.levels[x] && (x, lc) in p.src.adjacency then p.src.adjacency[(x, lc)] else []
  }

  function Dist(p: Probe, x: Id): real
    requires x in p.src.vectors
  {
    p.metric(p.query, p.src.vectors[x])
  }

  /** `a` is no farther from the query than `b`, a missing vector being infinitely far. */
  predicate NoFarther(p: Probe, a: Id, b: Id) {
    b in p.src.vectors ==> a in p.src.vectors && Dist(p, a) <= Dist(p, b)
  }

  /** Admitted into results: stored, not tombstoned, accepted by the filter. */
  predicate Passes(p: Probe, x: Id) {
    x in p.src.vectors && x !in p.src.deleted && p.filter(p.src.rowIds(x))
  }

  // ---------------------------------------------------------------------------
  // Reachability
  // ---------------------------------------------------------------------------

  ghost predicate IsPath(p: Probe, lc: nat, path: seq<Id>, from: Id, to: Id) {
    && path != [] && path[0] == from && path[|path| - 1] == to
    && forall i :: 0 < i < |path| ==> path[i] in Neighbors(p, path[i - 1], lc)
  }

  ghost predicate Reaches(p: Probe, lc: nat, from: Id, to: Id) {
    exists path :: IsPath(p, lc, path, from, to)
  }

  lemma ReachesSelf(p: Probe, lc: nat, x: Id)
    ensures Reaches(p, lc, x, x)
  {
    assert IsPath(p, lc, [x], x, x);
  }

  lemma ReachesNeighbor(p: Probe, lc: nat, from: Id, x: Id, y: Id)
    requires Reaches(p, lc, from, x) && y in Neighbors(p, x, lc)
    ensures Reaches(p, lc, from, y)
  {
    var path :| IsPath(p, lc, path, from, x);
    var longer := path + [y];
    assert IsPath(p, lc, longer, from, y);
  }

  ghost predicate Closed(p: Probe, lc: nat, s: set<Id>) {
    forall x, y :: x in s && y in Neighbors(p, x, lc) ==> y in s
  }

  lemma {:induction false} ClosedHoldsPath(p: Probe, lc: nat, s: set<Id>, path: seq<Id>, from: Id, to: Id)
    requires Closed(p, lc, s) && from in s && IsPath(p, lc, path, from, to)
    ensures to in s
    decreases |path|
  {
    if |path| > 1 {
      var n := |path| - 1;
      assert IsPath(p, lc, path[..n], from, path[n - 1]);
      ClosedHoldsPath(p, lc, s, path[..n], from, path[n - 1]);
    }
  }

  /** All ids any neighbour list mentions. */
  function Universe(p: Probe): set<Id> {
    set k, y | k in p.src.adjacency && y in p.src.adjacency[k] :: y
  }

  /** The rows a search from `from` can reach and may return. */
  ghost function Eligible(p: Probe, lc: nat, from: Id): set<Id> {
    set x | x in Universe(p) + {from} && Passes(p, x) && Reaches(p, lc, from, x)
  }

  // ---------------------------------------------------------------------------
  // What a search keeps
  // ---------------------------------------------------------------------------

  /**
   How many results a search from `entry` keeps. A width of zero still keeps one slot for
   the entry it starts with, and none when that entry does not pass.
   */
  function Width(p: Probe, entry: Id, ef: nat): nat {
    if ef >= 1 then ef else if Passes(p, entry) then 1 else 0
  }

  /** `result` holds the `width` nearest of the passing rows visited. */
  ghost predicate Kept(p: Probe, width: nat, visited: set<Id>, result: set<Id>) {
    && result <= visited && |result| <= width
    && (forall x :: x in result ==> Passes(p, x))
    && (forall x :: x in visited && Passes(p, x) && x !in result ==> Outside(p, width, result, x))
  }

  /** `x` is rightly left out of a full result. */
  ghost predicate Outside(p: Probe, width: nat, result: set<Id>, x: Id) {
    |result| >= width && forall y :: y in result ==> NoFarther(p, y, x)
  }

  /** A visited row is waiting, expanded, or not worth expanding. */
  ghost predicate Frontier(p: Probe, width: nat, visited: set<Id>, cand: set<Id>, expanded: set<Id>, result: set<Id>) {
    && (forall x :: x in visited ==> x in cand || x in expanded || Outside(p, width, result, x))
    && (forall x :: x in result ==> x in cand || x in expanded)
  }

  lemma {:induction false} FurthestExists(p: Probe, s: set<Id>) returns (f: Id)
    requires s != {}
    ensures f in s && forall y :: y in s ==> NoFarther(p, y, f)
  {
    var x :| x in s;
    if s == {x} {
      f := x;
    } else {
      var g := FurthestExists(p, s - {x});
      f := if NoFarther(p, g, x) then x else g;
      forall y | y in s ensures NoFarther(p, y, f) { if y != x { assert y in s - {x}; } }
    }
  }

  lemma {:induction false} NearestExists(p: Probe, s: set<Id>) returns (f: Id)
    requires s != {}
    ensures f in s && forall y :: y in s ==> NoFarther(p, f, y)
  {
    var x :| x in s;
    if s == {x} {
      f := x;
    } else {
      var g := NearestExists(p, s - {x});
      f := if NoFarther(p, x, g) then x else g;
      forall y | y in s ensures NoFarther(p, f, y) { if y != x { assert y in s - {x}; } }
    }
  }

  /** `peek` of the result heap. */
  method PeekFurthest(p: Probe, s: set<Id>) returns (f: Id)
    requires s != {}
    ensures f in s && forall y :: y in s ==> NoFarther(p, y, f)
  {
    ghost var g := FurthestExists(p, s);
    f :| f in s && forall y :: y in s ==> NoFarther(p, y, f);
  }

  /** `pop` of the candidate heap. */
  method PeekNearest(p: Probe, s: set<Id>) returns (f: Id)
    requires s != {}
    ensures f in s && forall y :: y in s ==> NoFarther(p, f, y)
  {
    ghost var g := NearestExists(p, s);
    f :| f in s && forall y :: y in s ==> NoFarther(p, f, y);
  }

  // ---------------------------------------------------------------------------
  // Admitting one newly visited row
  // ---------------------------------------------------------------------------

  /** Adding `x` to a result and evicting its furthest member keeps the nearest. */
  lemma EvictKeeps(p: Probe, width: nat, visited: set<Id>, result: set<Id>, x: Id, f: Id)
    requires Kept(p, width, visited, result) && x !in visited && Passes(p, x) && |result| == width
    requires f in result + {x} && forall y :: y in result + {x} ==> NoFarther(p, y, f)
    ensures Kept(p, width, visited + {x}, result + {x} - {f})
    ensures |result + {x} - {f}| == width
  {
    var r := result + {x} - {f};
    assert |result + {x}| == width + 1;
    forall z | z in visited + {x} && Passes(p, z) && z !in r ensures Outside(p, width, r, z) {
      forall y | y in r ensures NoFarther(p, y, z) {
        assert y in result + {x};
        assert NoFarther(p, y, f);
        if z != f {
          assert z !in result && Outside(p, width, result, z);
          assert if f == x then y in result else NoFarther(p, f, z);
        }
      }
    }
  }

  lemma RejectKeeps(p: Probe, width: nat, visited: set<Id>, result: set<Id>, x: Id)
    requires Kept(p, width, visited, result) && x !in visited
    requires Passes(p, x) ==> Outside(p, width, result, x)
    ensures Kept(p, width, visited + {x}, result)
  {
  }

  /** The state of a search between two newly visited rows. */
  ghost predicate Searching(p: Probe, entry: Id, ef: nat, lc: nat, visited: set<Id>, cand: set<Id>,
                            expanded: set<Id>, result: set<Id>) {
    && entry in visited && cand <= visited && expanded <= visited && cand !! expanded
    && visited <= Universe(p) + {entry}
    && (forall x :: x in visited ==> Reaches(p, lc, entry, x))
    && Kept(p, Width(p, entry, ef), visited, result)
    && Frontier(p, Width(p, entry, ef), visited, cand, expanded, result)
    && (ef == 0 ==> |result| == Width(p, entry, ef))
  }

  /** Outranked by a full result once, outranked for good. */
  lemma OutsideStays(p: Probe, width: nat, result: set<Id>, x: Id, f: Id, z: Id)
    requires Outside(p, width, result, z) && |result + {x} - {f}| == |result|
    requires f in result + {x} && forall y :: y in result + {x} ==> NoFarther(p, y, f)
    ensures Outside(p, width, result + {x} - {f}, z)
  {
    forall y | y in result + {x} - {f} ensures NoFarther(p, y, z) {
      assert if f == x then y in result else NoFarther(p, y, f) && NoFarther(p, f, z);
    }
  }

  /** A newly visited row: queue it if it may matter, and keep it if it passes and is near enough. */
  method Admit(p: Probe, ghost entry: Id, ef: nat, ghost lc: nat, ghost from: Id, x: Id,
               ghost visited: set<Id>, cand: set<Id>, ghost expanded: set<Id>, result: set<Id>)
    returns (cand': set<Id>, result': set<Id>)
    requires Searching(p, entry, ef, lc, visited, cand, expanded, result)
    requires x !in visited && from in visited && x in Neighbors(p, from, lc)
    ensures Searching(p, entry, ef, lc, visited + {x}, cand', expanded, result')
    ensures cand <= cand'
  {
    ghost var width := Width(p, entry, ef);
    ReachesNeighbor(p, lc, entry, from, x);
    assert x in Universe(p);
    var shouldAdd := true;
    if result != {} {
      var f := PeekFurthest(p, result);
      shouldAdd := !NoFarther(p, f, x) || |result| < ef;
      assert !shouldAdd ==> Outside(p, width, result, x);
    }
    if !shouldAdd {
      RejectKeeps(p, width, visited, result, x);
      return cand, result;
    }
    cand' := cand + {x};
    if !Passes(p, x) {
      RejectKeeps(p, width, visited, result, x);
      return cand', result;
    }
    result' := result + {x};
    if |result'| > ef {
      var f := PeekFurthest(p, result');
      EvictKeeps(p, width, visited, result, x, f);
      forall z | Outside(p, width, result, z) ensures Outside(p, width, result' - {f}, z) {
        OutsideStays(p, width, result, x, f, z);
      }
      result' := result' - {f};
    }
  }

  /** Visit the neighbours `buf` of the popped row `from`, in list order. */
  method Expand(p: Probe, ghost entry: Id, ef: nat, lc: nat, from: Id,
                visited: set<Id>, cand: set<Id>, ghost expanded: set<Id>, result: set<Id>)
    returns (visited': set<Id>, cand': set<Id>, result': set<Id>)
    requires Searching(p, entry, ef, lc, visited, cand, expanded, result) && from in visited
    ensures Searching(p, entry, ef, lc, visited', cand', expanded, result')
    ensures visited' == visited + Members(Neighbors(p, from, lc))
    ensures cand <= cand' && (visited' == visited ==> cand' == cand)
  {
    visited', cand', result' := visited, cand, result;
    var buf := Neighbors(p, from, lc);
    var i := 0;
    while i < |buf|
      invariant i <= |buf|
      invariant Searching(p, entry, ef, lc, visited', cand', expanded, result')
      invariant visited' == visited + (set y | y in buf[..i])
      invariant cand <= cand' && (visited' == visited ==> cand' == cand)
    {
      assert buf[..i + 1] == buf[..i] + [buf[i]];
      if buf[i] !in visited' {
        cand', result' := Admit(p, entry, ef, lc, from, buf[i], visited', cand', expanded, result');
        visited' := visited' + {buf[i]};
      }
      i := i + 1;
    }
    assert buf[..|buf|] == buf;
  }

  // ---------------------------------------------------------------------------
  // The layer search
  // ---------------------------------------------------------------------------

  const SATURATION_THRESHOLD_PERCENT: nat := 95

  /** The least number of rounds that is at least 7 and at least three tenths of `ef`. */
  function Patience(ef: nat): (n: nat)
    ensures 7 <= n && 3 * ef <= 10 * n && (n > 7 ==> 10 * (n - 1) < 3 * ef)
  {
    var t := (3 * ef + 9) / 10;
    if t > 7 then t else 7
  }

  /** Every expanded row's neighbours have been visited. */
  ghost predicate Covered(p: Probe, lc: nat, visited: set<Id>, expanded: set<Id>) {
    forall x, y :: x in expanded && y in Neighbors(p, x, lc) ==> y in visited
  }

  /** Results of a finished search, as promised to its callers. */
  ghost predicate SearchedLayer(p: Probe, entry: Id, ef: nat, lc: nat, saturated: bool,
                                visited: set<Id>, expanded: set<Id>, result: set<Id>) {
    && entry in visited && expanded <= visited <= Universe(p) + {entry}
    && (forall x :: x in visited ==> Reaches(p, lc, entry, x))
    && Covered(p, lc, visited, expanded)
    && Kept(p, Width(p, entry, ef), visited, result)
    && (!saturated ==>
          && (forall x :: x in visited ==> x in expanded || Outside(p, Width(p, entry, ef), result, x))
          && (forall x :: x in result ==> x in expanded))
    && (saturated ==> 100 * |result| >= SATURATION_THRESHOLD_PERCENT * ef)
  }

  // ---------------------------------------------------------------------------
  // What a search did
  // ---------------------------------------------------------------------------

  /** `x` has a list in layer `lc`. */
  predicate TakesPart(p: Probe, x: Id, lc: nat) {
    x in p.src.levels && lc <= p.src.levels[x]
  }

  /** The rows visited by a search from `entry` that has expanded `order`. */
  ghost function VisitedBy(p: Probe, entry: Id, lc: nat, order: seq<Id>): set<Id> {
    if order == [] then {entry}
    else VisitedBy(p, entry, lc, order[..|order| - 1]) + Members(Neighbors(p, order[|order| - 1], lc))
  }

  /** The rows a search expanded, in order, the results it had before the first and after each, and how it ended. */
  datatype Trail = Trail(order: seq<Id>, results: seq<set<Id>>, saturated: bool)

  ghost predicate KeptAt(p: Probe, entry: Id, ef: nat, lc: nat, order: seq<Id>, results: seq<set<Id>>, k: nat)
    requires k <= |order| && |results| == |order| + 1
  {
    Kept(p, Width(p, entry, ef), VisitedBy(p, entry, lc, order[..k]), results[k])
  }

  /**
   Expansion `k` was due: of a row visited and not expanded before, as near as every other such row
   that a full result does not outrank, and not itself farther than everything in a full result.
   */
  ghost predicate Due(p: Probe, entry: Id, ef: nat, lc: nat, order: seq<Id>, results: seq<set<Id>>, k: nat)
    requires k < |order| && |results| == |order| + 1
  {
    && order[k] in VisitedBy(p, entry, lc, order[..k]) && order[k] !in order[..k]
    && (forall x :: x in VisitedBy(p, entry, lc, order[..k]) && x !in order[..k] ==>
          NoFarther(p, order[k], x) || Outside(p, Width(p, entry, ef), results[k], x))
    && WorthIt(p, ef, results[k], order[k])
    && (!TakesPart(p, order[k], lc) ==> results[k + 1] == results[k])
  }

  /** A full result does not rule `c` out. */
  ghost predicate WorthIt(p: Probe, ef: nat, result: set<Id>, c: Id) {
    result == {} || |result| < ef || exists y :: y in result && NoFarther(p, c, y)
  }

  ghost predicate Traced(p: Probe, entry: Id, ef: nat, lc: nat, order: seq<Id>, results: seq<set<Id>>) {
    && |results| == |order| + 1
    && (forall k :: 0 <= k <= |order| ==> KeptAt(p, entry, ef, lc, order, results, k))
    && (forall k :: 0 <= k < |order| ==> Due(p, entry, ef, lc, order, results, k))
  }

  lemma {:induction false} KeptStays(p: Probe, entry: Id, ef: nat, lc: nat, order: seq<Id>, results: seq<set<Id>>, c: Id, r: set<Id>, k: nat)
    requires k <= |order| && |results| == |order| + 1 && KeptAt(p, entry, ef, lc, order, results, k)
    ensures KeptAt(p, entry, ef, lc, order + [c], results + [r], k)
  {
    assert (order + [c])[..k] == order[..k];
  }

  lemma {:induction false} DueStays(p: Probe, entry: Id, ef: nat, lc: nat, order: seq<Id>, results: seq<set<Id>>, c: Id, r: set<Id>, k: nat)
    requires k < |order| && |results| == |order| + 1 && Due(p, entry, ef, lc, order, results, k)
    ensures Due(p, entry, ef, lc, order + [c], results + [r], k)
  {
    assert (order + [c])[..k] == order[..k];
  }

  lemma {:induction false} VisitedGrows(p: Probe, entry: Id, lc: nat, order: seq<Id>, c: Id)
    ensures VisitedBy(p, entry, lc, order + [c]) == VisitedBy(p, entry, lc, order) + Members(Neighbors(p, c, lc))
  {
    assert (order + [c])[..|order|] == order;
  }

  /** One more expansion, of a row that is due. */
  lemma {:induction false} TraceGrows(p: Probe, entry: Id, ef: nat, lc: nat, order: seq<Id>, results: seq<set<Id>>, c: Id, r: set<Id>)
    requires Traced(p, entry, ef, lc, order, results) && Due(p, entry, ef, lc, order + [c], results + [r], |order|)
    requires Kept(p, Width(p, entry, ef), VisitedBy(p, entry, lc, order + [c]), r)
    ensures Traced(p, entry, ef, lc, order + [c], results + [r])
  {
    var n := |order| + 1;
    forall k | 0 <= k <= n ensures KeptAt(p, entry, ef, lc, order + [c], results + [r], k) {
      if k < n { KeptStays(p, entry, ef, lc, order, results, c, r, k); } else { assert (order + [c])[..n] == order + [c]; }
    }
    forall k | 0 <= k < n ensures Due(p, entry, ef, lc, order + [c], results + [r], k) {
      if k < |order| { DueStays(p, entry, ef, lc, order, results, c, r, k); }
    }
  }

  /** The results after each expansion of a row that takes part in the layer. */
  ghost function Rounds(p: Probe, lc: nat, order: seq<Id>, results: seq<set<Id>>): seq<set<Id>>
    requires |results| == |order| + 1
  {
    if order == [] then []
    else
      var n := |order| - 1;
      Rounds(p, lc, order[..n], results[..n + 1]) + if TakesPart(p, order[n], lc) then [results[n + 1]] else []
  }

  lemma {:induction false} RoundsGrow(p: Probe, lc: nat, order: seq<Id>, results: seq<set<Id>>, c: Id, r: set<Id>)
    requires |results| == |order| + 1
    ensures Rounds(p, lc, order + [c], results + [r]) == Rounds(p, lc, order, results) + if TakesPart(p, c, lc) then [r] else []
  {
    assert (order + [c])[..|order|] == order && (results + [r])[..|results|] == results;
  }

  /** Everything still queued is farther than a full result: the search is over. */
  lemma SettledEnds(p: Probe, entry: Id, ef: nat, lc: nat, visited: set<Id>, cand: set<Id>, expanded: set<Id>,
                    result: set<Id>, c: Id, f: Id)
    requires Searching(p, entry, ef, lc, visited, cand, expanded, result)
    requires c in cand && forall y :: y in cand ==> NoFarther(p, c, y)
    requires f in result && (forall y :: y in result ==> NoFarther(p, y, f)) && !NoFarther(p, c, f) && |result| >= ef
    requires Covered(p, lc, visited, expanded)
    ensures SearchedLayer(p, entry, ef, lc, false, visited, expanded, result)
  {
  }

  lemma SearchStarts(p: Probe, entry: Id, ef: nat, lc: nat)
    ensures Searching(p, entry, ef, lc, {entry}, {entry}, {}, if Passes(p, entry) then {entry} else {})
  {
    ReachesSelf(p, lc, entry);
  }

  lemma PopKeeps(p: Probe, entry: Id, ef: nat, lc: nat, visited: set<Id>, cand: set<Id>, expanded: set<Id>,
                 result: set<Id>, c: Id)
    requires Searching(p, entry, ef, lc, visited, cand, expanded, result) && c in cand
    ensures Searching(p, entry, ef, lc, visited, cand - {c}, expanded + {c}, result) && c in visited
  {
  }

  lemma Exhausted(p: Probe, entry: Id, ef: nat, lc: nat, visited: set<Id>, expanded: set<Id>, result: set<Id>)
    requires Searching(p, entry, ef, lc, visited, {}, expanded, result) && Covered(p, lc, visited, expanded)
    ensures SearchedLayer(p, entry, ef, lc, false, visited, expanded, result)
  {
  }

  lemma SaturatedEnds(p: Probe, entry: Id, ef: nat, lc: nat, visited: set<Id>, cand: set<Id>, expanded: set<Id>, result: set<Id>)
    requires Searching(p, entry, ef, lc, visited, cand, expanded, result) && Covered(p, lc, visited, expanded)
    requires 100 * |result| >= SATURATION_THRESHOLD_PERCENT * ef
    ensures SearchedLayer(p, entry, ef, lc, true, visited, expanded, result)
  {
  }

  /** Two results in a row that share almost everything a full one could hold. */
  predicate Steady(ef: nat, a: set<Id>, b: set<Id>) {
    ef > 0 && |a * b| * 100 / ef >= SATURATION_THRESHOLD_PERCENT
  }

  /** How many of the latest rounds, in a row, were steady; `rounds` are the results after each expansion. */
  ghost function Streak(ef: nat, rounds: seq<set<Id>>): nat {
    if |rounds| >= 2 && Steady(ef, rounds[|rounds| - 2], rounds[|rounds| - 1]) then
      1 + Streak(ef, rounds[..|rounds| - 1])
    else
      0
  }

  /** No round so far used up the patience. */
  ghost predicate StillPatient(ef: nat, rounds: seq<set<Id>>) {
    forall i :: 0 <= i <= |rounds| ==> Streak(ef, rounds[..i]) < Patience(ef)
  }

  /** The search went on exactly as long as its patience lasted. */
  ghost predicate StoppedInTime(ef: nat, saturate: bool, saturated: bool, rounds: seq<set<Id>>, result: set<Id>) {
    if saturated then
      && saturate && rounds != [] && rounds[|rounds| - 1] == result
      && StillPatient(ef, rounds[..|rounds| - 1]) && Streak(ef, rounds) == Patience(ef)
    else
      saturate ==> StillPatient(ef, rounds)
  }

  ghost function RowsOf(tr: Trail): set<Id>
    requires tr.results != []
  {
    tr.results[|tr.results| - 1]
  }

  /** A finished search: every expansion was due, the last result is the answer, and it ended neither early nor late. */
  ghost predicate Searched(p: Probe, entry: Id, ef: nat, lc: nat, saturate: bool, tr: Trail) {
    && Traced(p, entry, ef, lc, tr.order, tr.results)
    && SearchedLayer(p, entry, ef, lc, tr.saturated, VisitedBy(p, entry, lc, tr.order), Members(tr.order), RowsOf(tr))
    && StoppedInTime(ef, saturate, tr.saturated, Rounds(p, lc, tr.order, tr.results), RowsOf(tr))
    && (tr.saturated ==> tr.order != [] && TakesPart(p, tr.order[|tr.order| - 1], lc))
  }

  lemma {:induction false} PatienceLasts(ef: nat, rounds: seq<set<Id>>, result: set<Id>)
    requires StillPatient(ef, rounds) && Streak(ef, rounds + [result]) < Patience(ef)
    ensures StillPatient(ef, rounds + [result])
  {
    var longer := rounds + [result];
    forall i | 0 <= i <= |longer| ensures Streak(ef, longer[..i]) < Patience(ef) {
      assert longer[..i] == if i <= |rounds| then rounds[..i] else longer;
    }
  }

  /** One round of the saturation bookkeeping: how often in a row the results barely changed. */
  method Saturation(ef: nat, ghost rounds: seq<set<Id>>, previous: set<Id>, result: set<Id>, streak: nat)
    returns (stop: bool, streak': nat)
    requires previous == (if rounds == [] then {} else rounds[|rounds| - 1])
    requires streak == Streak(ef, rounds) < Patience(ef)
    ensures streak' == Streak(ef, rounds + [result]) <= Patience(ef)
    ensures stop <==> streak' == Patience(ef)
    ensures stop ==> 100 * |result| >= SATURATION_THRESHOLD_PERCENT * ef
  {
    assert (rounds + [result])[..|rounds|] == rounds;
    stop, streak' := false, streak;
    if previous != {} && ef > 0 {
      OverlapBound(previous, result);
      var overlap := |previous * result|;
      PercentBound(overlap, ef);
      if overlap * 100 / ef >= SATURATION_THRESHOLD_PERCENT {
        streak' := streak + 1;
        stop := streak' >= Patience(ef);
      } else {
        streak' := 0;
      }
    }
  }

  lemma PercentBound(overlap: nat, ef: nat)
    requires ef > 0
    ensures overlap * 100 / ef >= SATURATION_THRESHOLD_PERCENT ==> overlap * 100 >= SATURATION_THRESHOLD_PERCENT * ef
  {
    var q := overlap * 100 / ef;
    assert overlap * 100 == q * ef + overlap * 100 % ef;
    assert q >= SATURATION_THRESHOLD_PERCENT ==> q * ef >= SATURATION_THRESHOLD_PERCENT * ef;
  }

  lemma Shrinks(u: set<Id>, a: set<Id>, b: set<Id>)
    requires a <= b <= u && a != b
    ensures u - b < u - a
  {
    var x :| x in b && x !in a;
    assert x in u - a && x !in u - b;
  }

  /** The variables of the loop: the candidate and result heaps, the visited set and the saturation counters. */
  datatype Loop = Loop(seen: set<Id>, cand: set<Id>, result: set<Id>, previous: set<Id>, streak: nat)

  /** The counters are those of `rounds`, and patience has lasted. */
  ghost predicate Counted(ef: nat, rounds: seq<set<Id>>, previous: set<Id>, streak: nat) {
    && previous == (if rounds == [] then {} else rounds[|rounds| - 1])
    && streak == Streak(ef, rounds) < Patience(ef) && StillPatient(ef, rounds)
  }

  /** Between two iterations of the loop. */
  ghost predicate Underway(p: Probe, entry: Id, ef: nat, lc: nat, s: Loop, expanded: set<Id>) {
    Searching(p, entry, ef, lc, s.seen, s.cand, expanded, s.result) && Covered(p, lc, s.seen, expanded)
  }

  /** Everything queued is farther than a full result. */
  method Settled(p: Probe, ghost entry: Id, ef: nat, ghost lc: nat, s: Loop, c: Id, ghost expanded: set<Id>) returns (stop: bool)
    requires Underway(p, entry, ef, lc, s, expanded) && c in s.cand && forall y :: y in s.cand ==> NoFarther(p, c, y)
    ensures stop ==> SearchedLayer(p, entry, ef, lc, false, s.seen, expanded, s.result)
    ensures !stop ==> WorthIt(p, ef, s.result, c)
  {
    stop := false;
    if s.result != {} && |s.result| >= ef {
      var f := PeekFurthest(p, s.result);
      stop := !NoFarther(p, c, f);
      if stop { SettledEnds(p, entry, ef, lc, s.seen, s.cand, expanded, s.result, c, f); }
    }
  }

  /** Expand the popped row `c`, unless it does not take part in the layer. */
  method Visit(p: Probe, ghost entry: Id, ef: nat, lc: nat, s: Loop, c: Id, ghost expanded: set<Id>) returns (t: Loop, takesPart: bool)
    requires Underway(p, entry, ef, lc, s, expanded) && c in s.cand
    ensures Underway(p, entry, ef, lc, t, expanded + {c}) && t.previous == s.previous && t.streak == s.streak
    ensures Universe(p) + {entry} - t.seen < Universe(p) + {entry} - s.seen || (t.seen == s.seen && t.cand < s.cand)
    ensures takesPart <==> TakesPart(p, c, lc)
    ensures t.seen == s.seen + Members(Neighbors(p, c, lc)) && (!takesPart ==> t.result == s.result)
  {
    PopKeeps(p, entry, ef, lc, s.seen, s.cand, expanded, s.result, c);
    t := s.(cand := s.cand - {c});
    takesPart := TakesPart(p, c, lc);
    if takesPart {
      var seen, cand, result := Expand(p, entry, ef, lc, c, t.seen, t.cand, expanded + {c}, t.result);
      if seen != t.seen { Shrinks(Universe(p) + {entry}, t.seen, seen); }
      t := t.(seen := seen, cand := cand, result := result);
    }
  }

  /** The saturation bookkeeping after an expansion. */
  method Count(ef: nat, ghost rounds: seq<set<Id>>, s: Loop) returns (stop: bool, t: Loop)
    requires Counted(ef, rounds, s.previous, s.streak)
    ensures t.seen == s.seen && t.cand == s.cand && t.result == s.result
    ensures !stop ==> Counted(ef, rounds + [s.result], t.previous, t.streak)
    ensures stop ==> 100 * |s.result| >= SATURATION_THRESHOLD_PERCENT * ef && StoppedInTime(ef, true, true, rounds + [s.result], s.result)
  {
    var streak;
    stop, streak := Saturation(ef, rounds, s.previous, s.result, s.streak);
    t := s.(previous := s.result, streak := streak);
    if stop {
      assert (rounds + [s.result])[..|rounds|] == rounds;
    } else {
      PatienceLasts(ef, rounds, s.result);
    }
  }

  lemma CountStarts(ef: nat)
    ensures Counted(ef, [], {}, 0)
  {
  }

  lemma NeverStopped(ef: nat, saturate: bool, rounds: seq<set<Id>>, previous: set<Id>, streak: nat, result: set<Id>)
    requires saturate ==> Counted(ef, rounds, previous, streak)
    ensures StoppedInTime(ef, saturate, false, rounds, result)
  {
  }

  /** `order` and `results` are the trace of the search so far. */
  ghost predicate Tracks(p: Probe, entry: Id, ef: nat, lc: nat, s: Loop, order: seq<Id>, results: seq<set<Id>>) {
    && Traced(p, entry, ef, lc, order, results)
    && VisitedBy(p, entry, lc, order) == s.seen && results[|order|] == s.result
  }

  lemma {:induction false} TraceStarts(p: Probe, entry: Id, ef: nat, lc: nat, s: Loop)
    requires Underway(p, entry, ef, lc, s, {}) && s.seen == {entry}
    ensures Tracks(p, entry, ef, lc, s, [], [s.result]) && Members([]) == {} && Rounds(p, lc, [], [s.result]) == []
  {
    assert KeptAt(p, entry, ef, lc, [], [s.result], 0);
  }

  /** The popped row is due. */
  lemma {:induction false} PopIsDue(p: Probe, entry: Id, ef: nat, lc: nat, s: Loop, order: seq<Id>, results: seq<set<Id>>, c: Id, r: set<Id>)
    requires Underway(p, entry, ef, lc, s, Members(order)) && Tracks(p, entry, ef, lc, s, order, results)
    requires c in s.cand && (forall y :: y in s.cand ==> NoFarther(p, c, y)) && WorthIt(p, ef, s.result, c)
    requires !TakesPart(p, c, lc) ==> r == s.result
    ensures Due(p, entry, ef, lc, order + [c], results + [r], |order|)
  {
    assert (order + [c])[..|order|] == order;
    assert c !in Members(order);
  }

  lemma {:induction false} TrackOn(p: Probe, entry: Id, ef: nat, lc: nat, s: Loop, order: seq<Id>, results: seq<set<Id>>, c: Id, t: Loop)
    requires Underway(p, entry, ef, lc, s, Members(order)) && Tracks(p, entry, ef, lc, s, order, results)
    requires c in s.cand && (forall y :: y in s.cand ==> NoFarther(p, c, y)) && WorthIt(p, ef, s.result, c)
    requires Underway(p, entry, ef, lc, t, Members(order) + {c}) && t.seen == s.seen + Members(Neighbors(p, c, lc))
    requires !TakesPart(p, c, lc) ==> t.result == s.result
    ensures Tracks(p, entry, ef, lc, t, order + [c], results + [t.result]) && Members(order + [c]) == Members(order) + {c}
  {
    PopIsDue(p, entry, ef, lc, s, order, results, c, t.result);
    VisitedGrows(p, entry, lc, order, c);
    TraceGrows(p, entry, ef, lc, order, results, c, t.result);
  }

  /** Visit the popped row, and say so in the trace. */
  method VisitNext(p: Probe, ghost entry: Id, ef: nat, lc: nat, s: Loop, c: Id, ghost order: seq<Id>, ghost results: seq<set<Id>>)
    returns (t: Loop, takesPart: bool)
    requires Underway(p, entry, ef, lc, s, Members(order)) && Tracks(p, entry, ef, lc, s, order, results)
    requires c in s.cand && (forall y :: y in s.cand ==> NoFarther(p, c, y)) && WorthIt(p, ef, s.result, c)
    ensures Underway(p, entry, ef, lc, t, Members(order + [c])) && Tracks(p, entry, ef, lc, t, order + [c], results + [t.result])
    ensures Rounds(p, lc, order + [c], results + [t.result]) == Rounds(p, lc, order, results) + if takesPart then [t.result] else []
    ensures takesPart == TakesPart(p, c, lc) && t.previous == s.previous && t.streak == s.streak
    ensures Universe(p) + {entry} - t.seen < Universe(p) + {entry} - s.seen || (t.seen == s.seen && t.cand < s.cand)
  {
    t, takesPart := Visit(p, entry, ef, lc, s, c, Members(order));
    TrackOn(p, entry, ef, lc, s, order, results, c, t);
    RoundsGrow(p, lc, order, results, c, t.result);
  }

  lemma {:induction false} SearchEnds(p: Probe, entry: Id, ef: nat, lc: nat, saturate: bool, s: Loop, tr: Trail, rounds: seq<set<Id>>)
    requires Tracks(p, entry, ef, lc, s, tr.order, tr.results) && rounds == Rounds(p, lc, tr.order, tr.results)
    requires SearchedLayer(p, entry, ef, lc, tr.saturated, s.seen, Members(tr.order), s.result)
    requires StoppedInTime(ef, saturate, tr.saturated, rounds, s.result)
    requires tr.saturated ==> tr.order != [] && TakesPart(p, tr.order[|tr.order| - 1], lc)
    ensures Searched(p, entry, ef, lc, saturate, tr) && RowsOf(tr) == s.result
  {
  }

  lemma {:induction false} EndsSaturated(p: Probe, entry: Id, ef: nat, lc: nat, s: Loop, order: seq<Id>, results: seq<set<Id>>, rounds: seq<set<Id>>)
    requires Underway(p, entry, ef, lc, s, Members(order)) && Tracks(p, entry, ef, lc, s, order, results)
    requires rounds == Rounds(p, lc, order, results) && StoppedInTime(ef, true, true, rounds, s.result)
    requires 100 * |s.result| >= SATURATION_THRESHOLD_PERCENT * ef && order != [] && TakesPart(p, order[|order| - 1], lc)
    ensures Searched(p, entry, ef, lc, true, Trail(order, results, true)) && RowsOf(Trail(order, results, true)) == s.result
  {
    SaturatedEnds(p, entry, ef, lc, s.seen, s.cand, Members(order), s.result);
    SearchEnds(p, entry, ef, lc, true, s, Trail(order, results, true), rounds);
  }

  lemma {:induction false} EndsSettled(p: Probe, entry: Id, ef: nat, lc: nat, saturate: bool, s: Loop, order: seq<Id>, results: seq<set<Id>>, rounds: seq<set<Id>>)
    requires Tracks(p, entry, ef, lc, s, order, results) && SearchedLayer(p, entry, ef, lc, false, s.seen, Members(order), s.result)
    requires rounds == Rounds(p, lc, order, results) && (saturate ==> Counted(ef, rounds, s.previous, s.streak))
    ensures Searched(p, entry, ef, lc, saturate, Trail(order, results, false)) && RowsOf(Trail(order, results, false)) == s.result
  {
    NeverStopped(ef, saturate, rounds, s.previous, s.streak, s.result);
    SearchEnds(p, entry, ef, lc, saturate, s, Trail(order, results, false), rounds);
  }

  method SearchLayerSet(p: Probe, entry: Id, ef: nat, lc: nat, saturate: bool) returns (result: set<Id>, ghost tr: Trail)
    ensures Searched(p, entry, ef, lc, saturate, tr) && result == RowsOf(tr)
  {
    var s := Loop({entry}, {entry}, if Passes(p, entry) then {entry} else {}, {}, 0);
    ghost var order, results, rounds := [], [s.result], [];
    SearchStarts(p, entry, ef, lc);
    CountStarts(ef);
    TraceStarts(p, entry, ef, lc, s);
    while s.cand != {}
      invariant Underway(p, entry, ef, lc, s, Members(order)) && Tracks(p, entry, ef, lc, s, order, results)
      invariant rounds == Rounds(p, lc, order, results) && (saturate ==> Counted(ef, rounds, s.previous, s.streak))
      decreases Universe(p) + {entry} - s.seen, s.cand
    {
      var c := PeekNearest(p, s.cand);
      var stop := Settled(p, entry, ef, lc, s, c, Members(order));
      if stop {
        EndsSettled(p, entry, ef, lc, saturate, s, order, results, rounds);
        return s.result, Trail(order, results, false);
      }
      var takesPart;
      s, takesPart := VisitNext(p, entry, ef, lc, s, c, order, results);
      order, results := order + [c], results + [s.result];
      if takesPart {
        if saturate {
          stop, s := Count(ef, rounds, s);
          if stop {
            EndsSaturated(p, entry, ef, lc, s, order, results, rounds + [s.result]);
            return s.result, Trail(order, results, true);
          }
        }
        rounds := rounds + [s.result];
      }
    }
    Exhausted(p, entry, ef, lc, s.seen, Members(order), s.result);
    EndsSettled(p, entry, ef, lc, saturate, s, order, results, rounds);
    return s.result, Trail(order, results, false);
  }

  lemma OverlapBound(a: set<Id>, b: set<Id>)
    ensures |a * b| <= |b|
  {
    assert b == (a * b) + (b - a);
  }

  // ---------------------------------------------------------------------------
  // The result as a list
  // ---------------------------------------------------------------------------

  /** `hits` lists exactly `rows`, each with its distance, nearest first. */
  ghost predicate Lists(p: Probe, hits: seq<Scored>, rows: set<Id>) {
    && SortedByDist(hits) && DistinctIds(hits)
    && (forall i :: 0 <= i < |hits| ==>
          hits[i].id in rows && hits[i].id in p.src.vectors && hits[i].dist == Dist(p, hits[i].id))
    && (forall x :: x in rows ==> exists i :: 0 <= i < |hits| && hits[i].id == x)
  }

  /** Drain the result heap in whatever order it iterates, then sort by distance. */
  method Drain(p: Probe, rows: set<Id>) returns (hits: seq<Scored>)
    requires forall x :: x in rows ==> x in p.src.vectors
    ensures Lists(p, hits, rows)
  {
    var unsorted: seq<Scored>, left := [], rows;
    while left != {}
      invariant left <= rows && DistinctIds(unsorted)
      invariant forall i :: 0 <= i < |unsorted| ==>
        && unsorted[i].id in rows && unsorted[i].id !in left && unsorted[i].id in p.src.vectors
        && unsorted[i].dist == Dist(p, unsorted[i].id)
      invariant forall x :: x in rows && x !in left ==> exists i :: 0 <= i < |unsorted| && unsorted[i].id == x
      decreases left
    {
      var x :| x in left;
      ghost var before := unsorted;
      unsorted := unsorted + [Scored(x, Dist(p, x))];
      left := left - {x};
      forall y | y in rows && y !in left ensures exists i :: 0 <= i < |unsorted| && unsorted[i].id == y {
        if y == x {
          assert unsorted[|before|].id == y;
        } else {
          var i :| 0 <= i < |before| && before[i].id == y;
          assert unsorted[i].id == y;
        }
      }
    }
    hits := SortByDist(unsorted);
    SortedLists(p, unsorted, rows);
  }

  lemma SortedLists(p: Probe, unsorted: seq<Scored>, rows: set<Id>)
    requires DistinctIds(unsorted)
    requires forall i :: 0 <= i < |unsorted| ==>
      unsorted[i].id in rows && unsorted[i].id in p.src.vectors && unsorted[i].dist == Dist(p, unsorted[i].id)
    requires forall x :: x in rows ==> exists i :: 0 <= i < |unsorted| && unsorted[i].id == x
    ensures Lists(p, SortByDist(unsorted), rows)
  {
    var hits := SortByDist(unsorted);
    SortKeepsMembers(unsorted);
    forall i | 0 <= i < |hits|
      ensures hits[i].id in rows && hits[i].id in p.src.vectors && hits[i].dist == Dist(p, hits[i].id)
    {
      assert hits[i] in unsorted;
      var j :| 0 <= j < |unsorted| && unsorted[j] == hits[i];
    }
    forall x | x in rows ensures exists i :: 0 <= i < |hits| && hits[i].id == x {
      var i :| 0 <= i < |unsorted| && unsorted[i].id == x;
      assert unsorted[i] in hits;
    }
  }

  lemma {:induction false} ListsSize(p: Probe, hits: seq<Scored>, rows: set<Id>)
    requires Lists(p, hits, rows)
    ensures |hits| == |rows|
  {
    MembersSize(Ids(hits));
    assert Members(Ids(hits)) == rows by {
      forall x | x in rows ensures x in Ids(hits) {
        var i :| 0 <= i < |hits| && hits[i].id == x;
        assert Ids(hits)[i] == x;
      }
    }
    assert Distinct(Ids(hits));
  }

  /** Wide enough for everything eligible, and for saturation never to set in. */
  ghost predicate WideEnough(p: Probe, entry: Id, ef: nat, lc: nat, saturate: bool) {
    if saturate
    then 100 * |Eligible(p, lc, entry)| < SATURATION_THRESHOLD_PERCENT * ef
    else ef >= 1 && |Eligible(p, lc, entry)| <= ef
  }

  /** What every search promises of its hits alone. */
  ghost predicate Answers(p: Probe, entry: Id, ef: nat, lc: nat, saturate: bool, hits: seq<Scored>) {
    && SortedByDist(hits) && DistinctIds(hits) && |hits| <= Width(p, entry, ef)
    && (forall i :: 0 <= i < |hits| ==> hits[i].id in Eligible(p, lc, entry) && hits[i].dist == Score(p)(hits[i].id))
    && (ef >= 1 && Passes(p, entry) ==> hits != [])
    && (WideEnough(p, entry, ef, lc, saturate) ==> Best(Eligible(p, lc, entry), Score(p), ef, hits))
  }

  lemma {:induction false} SearchAnswers(p: Probe, entry: Id, ef: nat, lc: nat, saturate: bool, saturated: bool,
                                         visited: set<Id>, expanded: set<Id>, rows: set<Id>, hits: seq<Scored>)
    requires SearchedLayer(p, entry, ef, lc, saturated, visited, expanded, rows) && (saturated ==> saturate)
    requires Lists(p, hits, rows) && |hits| == |rows|
    ensures Answers(p, entry, ef, lc, saturate, hits)
  {
    RowsAreEligible(p, entry, ef, lc, saturated, visited, expanded, rows);
    ReturnsAsManyAsItCan(p, entry, ef, lc, saturated, visited, expanded, rows);
    if WideEnough(p, entry, ef, lc, saturate) {
      if saturate {
        SparseSearchIsExact(p, entry, ef, lc, saturated, visited, expanded, rows);
      } else {
        WideSearchIsExact(p, entry, ef, lc, visited, expanded, rows);
      }
      TruncatedIsBest(p, rows, hits, ef, Score(p));
      assert hits == if ef <= |hits| then hits[..ef] else hits;
    }
  }

  /**
   `search_layer_generic`. The hits are, nearest first and without repeats, the `Width` nearest
   of the passing rows visited; unless saturation stopped the search, every hit was expanded,
   and a visited row was left unexpanded only because a full result outranked it. The trail has
   every expansion, nearest first, with the results after it; saturation stops the search at the
   first round that makes a streak of `Patience(ef)` steady ones, and at no other.
   */
  method SearchLayer(p: Probe, entry: Id, ef: nat, lc: nat, saturate: bool) returns (hits: seq<Scored>, ghost tr: Trail)
    ensures Answers(p, entry, ef, lc, saturate, hits)
    ensures Searched(p, entry, ef, lc, saturate, tr) && Lists(p, hits, RowsOf(tr)) && |hits| == |RowsOf(tr)|
  {
    var result;
    result, tr := SearchLayerSet(p, entry, ef, lc, saturate);
    hits := Drain(p, result);
    ListsSize(p, hits, result);
    SearchAnswers(p, entry, ef, lc, saturate, tr.saturated, VisitedBy(p, entry, lc, tr.order), Members(tr.order), result, hits);
  }

  /** A finished search returns as many rows as its width and the visited passing rows allow. */
  lemma ReturnsAsManyAsItCan(p: Probe, entry: Id, ef: nat, lc: nat, saturated: bool,
                             visited: set<Id>, expanded: set<Id>, rows: set<Id>)
    requires SearchedLayer(p, entry, ef, lc, saturated, visited, expanded, rows)
    ensures var passing := set x | x in visited && Passes(p, x);
      |rows| == if Width(p, entry, ef) <= |passing| then Width(p, entry, ef) else |passing|
    ensures ef >= 1 && Passes(p, entry) ==> rows != {}
  {
    var passing := set x | x in visited && Passes(p, x);
    SubsetSize(rows, passing);
    if |rows| < Width(p, entry, ef) {
      assert rows == passing;
    }
    if Passes(p, entry) { assert entry in passing; }
  }

  /** Without saturation no passing neighbour of a hit is left out while nearer than the furthest hit. */
  lemma NeighborsOfHitsConsidered(p: Probe, entry: Id, ef: nat, lc: nat, visited: set<Id>, expanded: set<Id>,
                                  rows: set<Id>, hit: Id, y: Id, z: Id)
    requires SearchedLayer(p, entry, ef, lc, false, visited, expanded, rows)
    requires hit in rows && y in Neighbors(p, hit, lc) && Passes(p, y) && y !in rows && z in rows
    ensures |rows| == Width(p, entry, ef) && Dist(p, z) <= Dist(p, y)
  {
    assert hit in expanded && y in visited;
    assert Outside(p, Width(p, entry, ef), rows, y);
    assert NoFarther(p, z, y);
  }

  // ---------------------------------------------------------------------------
  // Exactness
  // ---------------------------------------------------------------------------

  lemma SameSizeSubset(a: set<Id>, b: set<Id>)
    requires a <= b && |a| >= |b|
    ensures a == b
  {
    assert b == a + (b - a);
    assert |b| == |a| + |b - a|;
  }

  lemma RowsAreEligible(p: Probe, entry: Id, ef: nat, lc: nat, saturated: bool, visited: set<Id>, expanded: set<Id>, rows: set<Id>)
    requires SearchedLayer(p, entry, ef, lc, saturated, visited, expanded, rows)
    ensures rows <= Eligible(p, lc, entry)
  {
  }

  lemma ClosedVisitsAll(p: Probe, entry: Id, lc: nat, visited: set<Id>)
    requires Closed(p, lc, visited) && entry in visited
    ensures forall x :: Reaches(p, lc, entry, x) ==> x in visited
  {
    forall x | Reaches(p, lc, entry, x) ensures x in visited {
      var path :| IsPath(p, lc, path, entry, x);
      ClosedHoldsPath(p, lc, visited, path, entry, x);
    }
  }

  /** A search wide enough for everything eligible, and not stopped by saturation, misses nothing. */
  lemma WideSearchIsExact(p: Probe, entry: Id, ef: nat, lc: nat, visited: set<Id>, expanded: set<Id>, rows: set<Id>)
    requires SearchedLayer(p, entry, ef, lc, false, visited, expanded, rows)
    requires ef >= 1 && |Eligible(p, lc, entry)| <= ef
    ensures rows == Eligible(p, lc, entry)
  {
    RowsAreEligible(p, entry, ef, lc, false, visited, expanded, rows);
    if |rows| >= ef {
      SameSizeSubset(rows, Eligible(p, lc, entry));
    } else {
      assert forall x :: x in visited ==> x in expanded;
      ClosedVisitsAll(p, entry, lc, visited);
    }
  }

  /** Well below the saturation threshold, saturation cannot trigger. */
  lemma SparseSearchIsExact(p: Probe, entry: Id, ef: nat, lc: nat, saturated: bool, visited: set<Id>, expanded: set<Id>, rows: set<Id>)
    requires SearchedLayer(p, entry, ef, lc, saturated, visited, expanded, rows)
    requires 100 * |Eligible(p, lc, entry)| < SATURATION_THRESHOLD_PERCENT * ef
    ensures !saturated && rows == Eligible(p, lc, entry)
  {
    RowsAreEligible(p, entry, ef, lc, saturated, visited, expanded, rows);
    SubsetSize(rows, Eligible(p, lc, entry));
    WideSearchIsExact(p, entry, ef, lc, visited, expanded, rows);
  }

  /** No hit is for row `x`. */
  ghost predicate Missing(hits: seq<Scored>, x: nat) {
    forall j :: 0 <= j < |hits| ==> hits[j].id != x
  }

  /** `hits` are `k` rows of `rows` (all, if there are fewer) such that no other row is nearer. */
  ghost predicate Best(rows: set<nat>, score: nat -> real, k: nat, hits: seq<Scored>) {
    && SortedByDist(hits) && DistinctIds(hits)
    && |hits| == (if k <= |rows| then k else |rows|)
    && (forall i :: 0 <= i < |hits| ==> hits[i].id in rows && hits[i].dist == score(hits[i].id))
    && (forall x, i :: x in rows && Missing(hits, x) && 0 <= i < |hits| ==> hits[i].dist <= score(x))
  }

  /** The `k` best distances are determined, whichever rows carry them. */
  lemma BestDistancesAgree(rows: set<nat>, score: nat -> real, k: nat, a: seq<Scored>, b: seq<Scored>, i: nat)
    requires Best(rows, score, k, a) && Best(rows, score, k, b) && i < |a|
    ensures |b| == |a| && a[i].dist == b[i].dist
  {
    NotNearer(rows, score, k, a, b, i);
    NotNearer(rows, score, k, b, a, i);
  }

  lemma NotNearer(rows: set<nat>, score: nat -> real, k: nat, a: seq<Scored>, b: seq<Scored>, i: nat)
    requires Best(rows, score, k, a) && Best(rows, score, k, b) && i < |a|
    ensures |b| == |a| && a[i].dist >= b[i].dist
  {
    var j := Pigeonhole(Ids(a[..i + 1]), Ids(b[..i]));
    var x := a[j].id;
    assert a[j].dist == score(x) && a[j].dist <= a[i].dist;
    if !Missing(b, x) {
      var m :| 0 <= m < |b| && b[m].id == x;
      NotInFront(b, i, m);
      assert b[i].dist <= b[m].dist;
    }
  }

  lemma NotInFront(b: seq<Scored>, i: nat, m: nat)
    requires i <= |b| && m < |b| && b[m].id !in Ids(b[..i])
    ensures m >= i
  {
    assert forall n :: 0 <= n < i ==> Ids(b[..i])[n] in Ids(b[..i]);
  }

  lemma Pigeonhole(a: seq<nat>, b: seq<nat>) returns (j: nat)
    requires Distinct(a) && |b| < |a|
    ensures j < |a| && a[j] !in b
  {
    MembersSize(a);
    MembersSize(b);
    if Members(a) <= Members(b) {
      SubsetSize(Members(a), Members(b));
      assert false;
    }
    var x :| x in Members(a) && x !in Members(b);
    j :| 0 <= j < |a| && a[j] == x;
  }

  lemma {:induction false} TruncatedIsBest(p: Probe, rows: set<Id>, hits: seq<Scored>, k: nat, score: nat -> real)
    requires Lists(p, hits, rows) && |hits| == |rows|
    requires forall x :: x in rows ==> x in p.src.vectors && score(x) == Dist(p, x)
    ensures Best(rows, score, k, if k <= |hits| then hits[..k] else hits)
  {
    var cut := if k <= |hits| then hits[..k] else hits;
    forall x, i | x in rows && Missing(cut, x) && 0 <= i < |cut| ensures cut[i].dist <= score(x)
    {
      var j :| 0 <= j < |hits| && hits[j].id == x;
      assert i < j && cut[i] == hits[i];
    }
    assert SortedByDist(cut) && DistinctIds(cut);
  }

  /** The distance of a stored row, as a total function. */
  function Score(p: Probe): nat -> real {
    x => if x in p.src.vectors then Dist(p, x) else 0.0
  }

  /** Step `i` of a descent from layer `top`: on to a row that the width-one search of the layer returns, or stay if it returns none. */
  ghost predicate DescentStep(p: Probe, top: nat, path: seq<Id>, trails: seq<Trail>, i: nat)
    requires i < |trails| && |path| == |trails| + 1 && i <= top
  {
    && Searched(p, path[i], 1, top - i, true, trails[i])
    && (if RowsOf(trails[i]) == {} then path[i + 1] == path[i] else path[i + 1] in RowsOf(trails[i]))
  }

  /** One step per layer, `path[i]` being the row in layer `top - i`. */
  ghost predicate DescentPath(p: Probe, top: nat, path: seq<Id>, trails: seq<Trail>) {
    |path| == |trails| + 1 && |trails| <= top && forall i :: 0 <= i < |trails| ==> DescentStep(p, top, path, trails, i)
  }

  /** The descent from `first` in layer `top` arrives at `to` in the base layer. */
  ghost predicate Descends(p: Probe, top: nat, first: Id, to: Id) {
    exists path, trails :: DescentPath(p, top, path, trails) && |trails| == top && path[0] == first && path[top] == to
  }

  lemma {:induction false} StepStays(p: Probe, top: nat, path: seq<Id>, trails: seq<Trail>, to: Id, tr: Trail, i: nat)
    requires |path| == |trails| + 1 && |trails| < top && i < |trails| && DescentStep(p, top, path, trails, i)
    ensures DescentStep(p, top, path + [to], trails + [tr], i)
  {
  }

  lemma {:induction false} NewStep(p: Probe, top: nat, path: seq<Id>, trails: seq<Trail>, to: Id, hits: seq<Scored>, tr: Trail)
    requires |path| == |trails| + 1 && |trails| < top && Searched(p, path[|trails|], 1, top - |trails|, true, tr)
    requires Lists(p, hits, RowsOf(tr)) && |hits| == |RowsOf(tr)| && to == if hits != [] then hits[0].id else path[|trails|]
    ensures DescentStep(p, top, path + [to], trails + [tr], |trails|)
  {
  }

  /** One layer of the descent. */
  method DescendOne(p: Probe, ghost top: nat, from: Id, level: nat, ghost path: seq<Id>, ghost trails: seq<Trail>)
    returns (to: Id, ghost tr: Trail)
    requires DescentPath(p, top, path, trails) && |trails| + level == top && level > 0 && path[|trails|] == from
    ensures DescentPath(p, top, path + [to], trails + [tr])
  {
    var found;
    found, tr := SearchLayer(p, from, 1, level, true);
    to := if found != [] then found[0].id else from;
    NewStep(p, top, path, trails, to, found, tr);
    PathGrows(p, top, path, trails, to, tr);
  }

  lemma {:induction false} PathGrows(p: Probe, top: nat, path: seq<Id>, trails: seq<Trail>, to: Id, tr: Trail)
    requires DescentPath(p, top, path, trails) && |trails| < top && DescentStep(p, top, path + [to], trails + [tr], |trails|)
    ensures DescentPath(p, top, path + [to], trails + [tr])
  {
    forall i | 0 <= i < |trails| + 1 ensures DescentStep(p, top, path + [to], trails + [tr], i) {
      if i < |trails| { StepStays(p, top, path, trails, to, tr, i); }
    }
  }

  /** The greedy descent through the upper layers. */
  method Descend(p: Probe, first: Id, top: nat) returns (entry: Id)
    ensures Descends(p, top, first, entry)
  {
    var level := top;
    entry := first;
    ghost var path: seq<Id>, trails: seq<Trail> := [first], [];
    while level >= 1
      invariant 0 <= level && |trails| + level == top && DescentPath(p, top, path, trails) && path[0] == first && path[|trails|] == entry
    {
      ghost var tr;
      entry, tr := DescendOne(p, top, entry, level, path, trails);
      path, trails := path + [entry], trails + [tr];
      level := level - 1;
    }
  }

  datatype KnnError = DimensionMismatch(queryLen: nat, expected: nat)

  /**
   `k_nn_search_generic`: descend with width one to the row `start`, then search the base
   layer from it. The answer is the `k` best of what that search returned; when what is eligible
   from `start` stays below the saturation threshold of the width, it is the `k` best of that.
   */
  method KnnSearch(p: Probe, k: nat, ef: nat) returns (r: Result<seq<Scored>, KnnError>, ghost start: Id, ghost tr: Trail)
    ensures r.Err? <==> p.src.dimension != 0 && |p.query| != p.src.dimension
    ensures r.Err? ==> r.error == DimensionMismatch(|p.query|, p.src.dimension)
    ensures r.Ok? && p.src.entryPoint.None? ==> r.value == []
    ensures r.Ok? ==> |r.value| <= k && SortedByDist(r.value) && DistinctIds(r.value)
    ensures r.Ok? ==> forall i :: 0 <= i < |r.value| ==> Passes(p, r.value[i].id) && r.value[i].dist == Dist(p, r.value[i].id)
    ensures r.Ok? && p.src.entryPoint.Some? ==> Descends(p, p.src.entryPoint.value.1, p.src.entryPoint.value.0, start)
    ensures r.Ok? && p.src.entryPoint.Some? ==> Searched(p, start, ef, 0, true, tr) && Best(RowsOf(tr), Score(p), k, r.value)
    ensures r.Ok? && p.src.entryPoint.Some? && 100 * |Eligible(p, 0, start)| < SATURATION_THRESHOLD_PERCENT * ef ==>
      Best(Eligible(p, 0, start), Score(p), k, r.value)
  {
    start, tr := 0, Trail([], [], false);
    if p.src.dimension != 0 && |p.query| != p.src.dimension {
      return Err(DimensionMismatch(|p.query|, p.src.dimension)), start, tr;
    }
    if p.src.entryPoint.None? { return Ok([]), start, tr; }
    var entry := Descend(p, p.src.entryPoint.value.0, p.src.entryPoint.value.1);
    start := entry;
    var hits;
    hits, tr := SearchLayer(p, entry, ef, 0, true);
    var cut := if k <= |hits| then hits[..k] else hits;
    KnnAnswers(p, entry, k, ef, tr, hits);
    return Ok(cut), start, tr;
  }

  lemma {:induction false} KnnAnswers(p: Probe, start: Id, k: nat, ef: nat, tr: Trail, hits: seq<Scored>)
    requires Searched(p, start, ef, 0, true, tr) && Lists(p, hits, RowsOf(tr)) && |hits| == |RowsOf(tr)|
    ensures var cut := if k <= |hits| then hits[..k] else hits;
      && Best(RowsOf(tr), Score(p), k, cut)
      && (forall i :: 0 <= i < |cut| ==> Passes(p, cut[i].id) && cut[i].dist == Dist(p, cut[i].id))
      && (100 * |Eligible(p, 0, start)| < SATURATION_THRESHOLD_PERCENT * ef ==> Best(Eligible(p, 0, start), Score(p), k, cut))
  {
    var rows := RowsOf(tr);
    TruncatedIsBest(p, rows, hits, k, Score(p));
    if 100 * |Eligible(p, 0, start)| < SATURATION_THRESHOLD_PERCENT * ef {
      SparseSearchIsExact(p, start, ef, 0, tr.saturated, VisitedBy(p, start, 0, tr.order), Members(tr.order), rows);
    }
  }
}
