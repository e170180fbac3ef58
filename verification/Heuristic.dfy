/**
 Neighbour selection (`select_neighbors_heuristic_into`): a stable sort by distance
 to the query followed by a greedy pass that skips a candidate as soon as some pick
 is closer to it than `distance / alpha`.

 `SelectInto` is the imperative form with its two caller-owned buffers, `Select` the
 function it computes, and `IsSelection` the declarative meaning, which `Select`
 satisfies and which pins the result down uniquely.
 */
module Heuristic {

  /** A candidate row and its distance to the query. */
  datatype Scored = Scored(id: nat, dist: real)

  /** The distance between two stored rows. */
  type Metric = (nat, nat) -> real

  predicate SortedByDist(s: seq<Scored>) {
    forall i, j :: 0 <= i < j < |s| ==> s[i].dist <= s[j].dist
  }

  predicate DistinctIds(s: seq<Scored>) {
    forall i, j :: 0 <= i < j < |s| ==> s[i].id != s[j].id
  }

  predicate Distinct(s: seq<nat>) {
    forall i, j :: 0 <= i < j < |s| ==> s[i] != s[j]
  }

  function Ids(s: seq<Scored>): (r: seq<nat>)
    ensures |r| == |s| && forall i :: 0 <= i < |s| ==> r[i] == s[i].id
  {
    seq(|s|, i requires 0 <= i < |s| => s[i].id)
  }

  /** Places `x` in front of the first element that is no nearer: later equals stay behind it. */
  function InsertByDist(x: Scored, s: seq<Scored>): (r: seq<Scored>)
    ensures |r| == |s| + 1 && multiset(r) == multiset(s) + multiset{x}
  {
    if s == [] || x.dist <= s[0].dist then [x] + s
    else
      assert s == [s[0]] + s[1..];
      [s[0]] + InsertByDist(x, s[1..])
  }

  lemma {:induction false} InsertKeepsOrder(x: Scored, s: seq<Scored>)
    requires SortedByDist(s)
    ensures SortedByDist(InsertByDist(x, s))
  {
    if s != [] && s[0].dist < x.dist {
      var rest := InsertByDist(x, s[1..]);
      InsertKeepsOrder(x, s[1..]);
      forall k | 0 <= k < |rest| ensures s[0].dist <= rest[k].dist {
        assert rest[k] in multiset(rest);
        assert rest[k] == x || rest[k] in s[1..];
      }
    }
  }

  /** The stable sort `sort_by` performs on finite distances. */
  function SortByDist(s: seq<Scored>): (r: seq<Scored>)
    ensures |r| == |s| && multiset(r) == multiset(s)
    ensures SortedByDist(r)
  {
    if s == [] then [] else
      assert s == [s[0]] + s[1..];
      InsertKeepsOrder(s[0], SortByDist(s[1..]));
      InsertByDist(s[0], SortByDist(s[1..]))
  }

  /** Sorting neither invents, drops nor repeats a candidate. */
  lemma SortKeepsMembers(s: seq<Scored>)
    ensures forall x :: x in SortByDist(s) <==> x in s
    ensures DistinctIds(s) ==> DistinctIds(SortByDist(s))
  {
    var r := SortByDist(s);
    assert forall x :: x in r <==> x in multiset(r);
    assert forall x :: x in s <==> x in multiset(s);
    if DistinctIds(s) { PermutationKeepsDistinct(s, r); }
  }

  lemma PermutationKeepsDistinct(s: seq<Scored>, r: seq<Scored>)
    requires DistinctIds(s) && multiset(r) == multiset(s)
    ensures DistinctIds(r)
  {
    forall i, j | 0 <= i < j < |r| ensures r[i].id != r[j].id {
      TwoOccurrences(r, i, j);
      if r[i].id == r[j].id { MembersShareId(s, r[i], r[j]); }
    }
  }

  lemma TwoOccurrences(r: seq<Scored>, i: nat, j: nat)
    requires i < j < |r|
    ensures r[i] == r[j] ==> multiset(r)[r[i]] >= 2
    ensures r[i] in multiset(r) && r[j] in multiset(r)
  {
    assert r == r[..i] + [r[i]] + r[i + 1..j] + [r[j]] + r[j + 1..];
  }

  lemma MembersShareId(s: seq<Scored>, x: Scored, y: Scored)
    requires DistinctIds(s) && x in multiset(s) && y in multiset(s) && x.id == y.id
    ensures x == y && multiset(s)[x] == 1
  {
    var i :| 0 <= i < |s| && s[i] == x;
    var j :| 0 <= j < |s| && s[j] == y;
    assert s == s[..i] + [s[i]] + s[i + 1..];
    assert x !in s[..i] && x !in s[i + 1..];
  }

  /** The first element of the sorted list: the nearest, and among equals the earliest. */
  lemma {:induction false} SortHead(s: seq<Scored>) returns (k: nat)
    requires s != []
    ensures k < |s| && SortByDist(s)[0] == s[k]
    ensures forall i :: 0 <= i < |s| && i != k ==> s[k].dist < s[i].dist || (s[k].dist == s[i].dist && k < i)
  {
    if |s| == 1 {
      k := 0;
    } else {
      var k' := SortHead(s[1..]);
      var rest := SortByDist(s[1..]);
      k := if s[0].dist <= rest[0].dist then 0 else k' + 1;
      forall i | 0 <= i < |s| && i != k
        ensures s[k].dist < s[i].dist || (s[k].dist == s[i].dist && k < i)
      {
        if i != 0 { assert s[i] == s[1..][i - 1]; }
      }
    }
  }

  /** Some pick is closer to candidate `x` than `x`'s own relaxed distance to the query. */
  predicate Dominated(x: Scored, picked: seq<nat>, alpha: real, d: Metric)
    requires alpha > 0.0
  {
    exists p :: p in picked && d(x.id, p) < x.dist / alpha
  }

  /** The greedy pass over the candidates `w`, given the picks made so far. */
  function Greedy(w: seq<Scored>, m: nat, alpha: real, d: Metric, picked: seq<nat>): seq<nat>
    requires alpha > 0.0
  {
    if w == [] || |picked| >= m then picked
    else if Dominated(w[0], picked, alpha, d) then Greedy(w[1..], m, alpha, d, picked)
    else Greedy(w[1..], m, alpha, d, picked + [w[0].id])
  }

  function Select(candidates: seq<Scored>, m: nat, alpha: real, d: Metric): seq<nat>
    requires alpha > 0.0
  {
    Greedy(SortByDist(candidates), m, alpha, d, [])
  }

  // ---------------------------------------------------------------------------
  // The imperative form
  // ---------------------------------------------------------------------------

  /** The two scratch buffers a caller keeps across calls. */
  class Buffers {
    var working: seq<Scored>
    var out: seq<nat>

    constructor ()
      ensures working == [] && out == []
    {
      working, out := [], [];
    }

    /** The result depends on the arguments alone: whatever the buffers held before is gone. */
    method SelectInto(candidates: seq<Scored>, m: nat, alpha: real, d: Metric)
      requires alpha > 0.0
      modifies this
      ensures working == SortByDist(candidates)
      ensures out == Select(candidates, m, alpha, d)
    {
      var w := SortByDist(candidates);
      working, out := w, [];
      ghost var goal := Greedy(w, m, alpha, d, []);
      assert w[0..] == w;
      var i := 0;
      while i < |w| && |out| < m
        invariant i <= |w| && working == w
        invariant Greedy(w[i..], m, alpha, d, out) == goal
      {
        var picked := out;
        var dominated := IsDominated(w[i], picked, alpha, d);
        GreedyStep(w, i, m, alpha, d, picked);
        if !dominated { out := picked + [w[i].id]; }
        i := i + 1;
      }
    }
  }

  /** One iteration of the greedy loop. */
  lemma GreedyStep(w: seq<Scored>, i: nat, m: nat, alpha: real, d: Metric, picked: seq<nat>)
    requires alpha > 0.0 && i < |w| && |picked| < m
    ensures Greedy(w[i..], m, alpha, d, picked) ==
      Greedy(w[i + 1..], m, alpha, d, if Dominated(w[i], picked, alpha, d) then picked else picked + [w[i].id])
  {
    assert w[i..][1..] == w[i + 1..];
  }

  /** The `any` over the picks made so far. */
  method IsDominated(x: Scored, picked: seq<nat>, alpha: real, d: Metric) returns (dominated: bool)
    requires alpha > 0.0
    ensures dominated <==> Dominated(x, picked, alpha, d)
  {
    dominated := false;
    for k := 0 to |picked|
      invariant dominated <==> Dominated(x, picked[..k], alpha, d)
    {
      assert picked[..k + 1] == picked[..k] + [picked[k]];
      if d(x.id, picked[k]) < x.dist / alpha { return true; }
    }
    assert picked[..|picked|] == picked;
  }

  // ---------------------------------------------------------------------------
  // What a selection means
  // ---------------------------------------------------------------------------

  /** Position `p` is dominated by one of the picked positions `ps` of the sorted list `w`. */
  predicate DominatedAt(w: seq<Scored>, p: nat, ps: seq<nat>, alpha: real, d: Metric)
    requires alpha > 0.0 && p < |w|
    requires forall k :: 0 <= k < |ps| ==> ps[k] < |w|
  {
    exists k :: 0 <= k < |ps| && ps[k] < p && d(w[p].id, w[ps[k]].id) < w[p].dist / alpha
  }

  /**
   `ps` lists the picked positions of the sorted candidates: at most `m`, in order (so
   nearest first), none dominated by an earlier pick, and every position passed over
   before the last pick (every one at all, when fewer than `m` were picked) dominated by
   an earlier, hence no farther, pick.
   */
  predicate IsSelection(w: seq<Scored>, m: nat, alpha: real, d: Metric, ps: seq<nat>)
    requires alpha > 0.0
  {
    && |ps| <= m
    && (forall k :: 0 <= k < |ps| ==> ps[k] < |w|)
    && (forall j, k :: 0 <= j < k < |ps| ==> ps[j] < ps[k])
    && (forall k :: 0 <= k < |ps| ==> !DominatedAt(w, ps[k], ps, alpha, d))
    && (forall p :: 0 <= p < |w| && p !in ps && (|ps| < m || (|ps| > 0 && p < ps[|ps| - 1])) ==>
          DominatedAt(w, p, ps, alpha, d))
  }

  /** The rows at the picked positions. */
  function At(w: seq<Scored>, ps: seq<nat>): (r: seq<nat>)
    requires forall k :: 0 <= k < |ps| ==> ps[k] < |w|
    ensures |r| == |ps| && forall k :: 0 <= k < |ps| ==> r[k] == w[ps[k]].id
  {
    seq(|ps|, k requires 0 <= k < |ps| => w[ps[k]].id)
  }

  /** The positions the greedy pass picks, scanning from `i` with `ps` already picked. */
  function GreedyAt(w: seq<Scored>, i: nat, m: nat, alpha: real, d: Metric, ps: seq<nat>): (r: seq<nat>)
    requires alpha > 0.0 && i <= |w|
    requires forall k :: 0 <= k < |ps| ==> ps[k] < i
    ensures forall k :: 0 <= k < |r| ==> r[k] < |w|
    decreases |w| - i
  {
    if i == |w| || |ps| >= m then ps
    else if Dominated(w[i], At(w, ps), alpha, d) then GreedyAt(w, i + 1, m, alpha, d, ps)
    else GreedyAt(w, i + 1, m, alpha, d, ps + [i])
  }

  lemma {:induction false} GreedyIsGreedyAt(w: seq<Scored>, i: nat, m: nat, alpha: real, d: Metric, ps: seq<nat>)
    requires alpha > 0.0 && i <= |w|
    requires forall k :: 0 <= k < |ps| ==> ps[k] < i
    ensures Greedy(w[i..], m, alpha, d, At(w, ps)) == At(w, GreedyAt(w, i, m, alpha, d, ps))
    decreases |w| - i
  {
    if i < |w| && |ps| < m {
      assert w[i..][1..] == w[i + 1..];
      if Dominated(w[i], At(w, ps), alpha, d) {
        GreedyIsGreedyAt(w, i + 1, m, alpha, d, ps);
      } else {
        GreedyIsGreedyAt(w, i + 1, m, alpha, d, ps + [i]);
        assert At(w, ps + [i]) == At(w, ps) + [w[i].id];
      }
    }
  }

  /** The scan so far: everything before `i` is either picked or dominated by a pick. */
  predicate Scanned(w: seq<Scored>, i: nat, m: nat, alpha: real, d: Metric, ps: seq<nat>)
    requires alpha > 0.0 && i <= |w|
  {
    && |ps| <= m
    && (forall k :: 0 <= k < |ps| ==> ps[k] < i)
    && (forall j, k :: 0 <= j < k < |ps| ==> ps[j] < ps[k])
    && (forall k :: 0 <= k < |ps| ==> !DominatedAt(w, ps[k], ps, alpha, d))
    && (forall p :: 0 <= p < i && p !in ps ==> DominatedAt(w, p, ps, alpha, d))
  }

  lemma DominatedForms(w: seq<Scored>, i: nat, alpha: real, d: Metric, ps: seq<nat>)
    requires alpha > 0.0 && i < |w|
    requires forall k :: 0 <= k < |ps| ==> ps[k] < i
    ensures Dominated(w[i], At(w, ps), alpha, d) <==> DominatedAt(w, i, ps, alpha, d)
  {
    if DominatedAt(w, i, ps, alpha, d) {
      var k :| 0 <= k < |ps| && ps[k] < i && d(w[i].id, w[ps[k]].id) < w[i].dist / alpha;
      assert At(w, ps)[k] in At(w, ps);
    }
  }

  /** Picking a later position changes nothing about the earlier ones. */
  lemma DominatedPrefix(w: seq<Scored>, p: nat, i: nat, alpha: real, d: Metric, ps: seq<nat>)
    requires alpha > 0.0 && p <= i < |w|
    requires forall k :: 0 <= k < |ps| ==> ps[k] < |w|
    ensures DominatedAt(w, p, ps + [i], alpha, d) <==> DominatedAt(w, p, ps, alpha, d)
  {
    var qs := ps + [i];
    if DominatedAt(w, p, ps, alpha, d) {
      var k :| 0 <= k < |ps| && ps[k] < p && d(w[p].id, w[ps[k]].id) < w[p].dist / alpha;
      assert qs[k] == ps[k];
    }
  }

  lemma ScanStep(w: seq<Scored>, i: nat, m: nat, alpha: real, d: Metric, ps: seq<nat>)
    requires alpha > 0.0 && i < |w| && Scanned(w, i, m, alpha, d, ps) && |ps| < m
    ensures Dominated(w[i], At(w, ps), alpha, d) ==> Scanned(w, i + 1, m, alpha, d, ps)
    ensures !Dominated(w[i], At(w, ps), alpha, d) ==> Scanned(w, i + 1, m, alpha, d, ps + [i])
  {
    DominatedForms(w, i, alpha, d, ps);
    if !Dominated(w[i], At(w, ps), alpha, d) {
      var qs := ps + [i];
      forall k | 0 <= k < |qs| ensures !DominatedAt(w, qs[k], qs, alpha, d) {
        DominatedPrefix(w, qs[k], i, alpha, d, ps);
      }
      forall p | 0 <= p < i + 1 && p !in qs ensures DominatedAt(w, p, qs, alpha, d) {
        assert qs[|ps|] == i;
        assert p !in ps;
        DominatedPrefix(w, p, i, alpha, d, ps);
      }
    }
  }

  lemma ScanEnds(w: seq<Scored>, i: nat, m: nat, alpha: real, d: Metric, ps: seq<nat>)
    requires alpha > 0.0 && i <= |w| && Scanned(w, i, m, alpha, d, ps)
    requires i == |w| || |ps| == m
    requires |ps| == m && m > 0 ==> i <= ps[m - 1] + 1
    ensures IsSelection(w, m, alpha, d, ps)
  {
  }

  lemma {:induction false} GreedyAtSelects(w: seq<Scored>, i: nat, m: nat, alpha: real, d: Metric, ps: seq<nat>)
    requires alpha > 0.0 && i <= |w| && Scanned(w, i, m, alpha, d, ps)
    requires |ps| == m && m > 0 ==> i <= ps[m - 1] + 1
    ensures IsSelection(w, m, alpha, d, GreedyAt(w, i, m, alpha, d, ps))
    decreases |w| - i
  {
    if i == |w| || |ps| == m {
      ScanEnds(w, i, m, alpha, d, ps);
    } else {
      ScanStep(w, i, m, alpha, d, ps);
      if Dominated(w[i], At(w, ps), alpha, d) {
        GreedyAtSelects(w, i + 1, m, alpha, d, ps);
      } else {
        GreedyAtSelects(w, i + 1, m, alpha, d, ps + [i]);
      }
    }
  }

  /** Two selections agree position by position. */
  lemma {:induction false} SelectionPrefix(w: seq<Scored>, m: nat, alpha: real, d: Metric,
                                           ps: seq<nat>, qs: seq<nat>, n: nat)
    requires alpha > 0.0 && IsSelection(w, m, alpha, d, ps) && IsSelection(w, m, alpha, d, qs)
    requires n <= |ps| && n <= |qs|
    ensures ps[..n] == qs[..n]
  {
    if n > 0 {
      SelectionPrefix(w, m, alpha, d, ps, qs, n - 1);
      SelectionNext(w, m, alpha, d, ps, qs, n - 1);
      SelectionNext(w, m, alpha, d, qs, ps, n - 1);
      PrefixGrows(ps, qs, n - 1);
    }
  }

  lemma PrefixGrows(ps: seq<nat>, qs: seq<nat>, n: nat)
    requires n < |ps| && n < |qs| && ps[..n] == qs[..n] && ps[n] == qs[n]
    ensures ps[..n + 1] == qs[..n + 1]
  {
    assert ps[..n + 1] == ps[..n] + [ps[n]] && qs[..n + 1] == qs[..n] + [qs[n]];
  }

  /** After a common prefix of `n` picks, `qs` cannot go on to an earlier position than `ps`. */
  lemma SelectionNext(w: seq<Scored>, m: nat, alpha: real, d: Metric, ps: seq<nat>, qs: seq<nat>, n: nat)
    requires alpha > 0.0 && IsSelection(w, m, alpha, d, ps) && IsSelection(w, m, alpha, d, qs)
    requires n < |qs| && n <= |ps| && ps[..n] == qs[..n]
    ensures n < |ps| && ps[n] <= qs[n]
  {
    assert forall k :: 0 <= k < n ==> ps[..n][k] == qs[..n][k];
    var passedOver := DominatedAt(w, qs[n], ps, alpha, d);
    if n == |ps| || qs[n] < ps[n] {
      assert false;
    }
  }

  /** The greedy result is a selection, and no other position list is one. */
  lemma SelectMeaning(candidates: seq<Scored>, m: nat, alpha: real, d: Metric) returns (ps: seq<nat>)
    requires alpha > 0.0
    ensures IsSelection(SortByDist(candidates), m, alpha, d, ps)
    ensures Select(candidates, m, alpha, d) == At(SortByDist(candidates), ps)
    ensures forall qs :: IsSelection(SortByDist(candidates), m, alpha, d, qs) ==> qs == ps
  {
    var w := SortByDist(candidates);
    ps := GreedyAt(w, 0, m, alpha, d, []);
    GreedyAtSelects(w, 0, m, alpha, d, []);
    GreedyIsGreedyAt(w, 0, m, alpha, d, []);
    assert w[0..] == w && At(w, []) == [];
    forall qs | IsSelection(w, m, alpha, d, qs) ensures qs == ps {
      var n := if |ps| < |qs| then |ps| else |qs|;
      SelectionPrefix(w, m, alpha, d, ps, qs, n);
      if n < |qs| { SelectionNext(w, m, alpha, d, ps, qs, n); }
      if n < |ps| { SelectionNext(w, m, alpha, d, qs, ps, n); }
      assert ps == ps[..n] && qs == qs[..n];
    }
  }

  /**
   What the graph relies on: at most `m` distinct candidates are kept, and when anything
   can be kept the nearest candidate is (the earliest one among equals).
   */
  lemma SelectKeepsNearest(candidates: seq<Scored>, m: nat, alpha: real, d: Metric) returns (k: nat)
    requires alpha > 0.0 && m >= 1 && candidates != [] && DistinctIds(candidates)
    ensures var r := Select(candidates, m, alpha, d);
      && 1 <= |r| <= m && Distinct(r)
      && (forall x :: x in r ==> exists i :: 0 <= i < |candidates| && candidates[i].id == x)
    ensures k < |candidates| && candidates[k].id in Select(candidates, m, alpha, d)
    ensures forall i :: 0 <= i < |candidates| && i != k ==>
      candidates[k].dist < candidates[i].dist || (candidates[k].dist == candidates[i].dist && k < i)
  {
    var w := SortByDist(candidates);
    SortKeepsMembers(candidates);
    k := SortHead(candidates);
    var ps := SelectMeaning(candidates, m, alpha, d);
    HeadPicked(w, m, alpha, d, ps);
    PicksAreDistinct(w, ps);
    PicksAreCandidates(candidates, ps);
  }

  /** Nothing dominates the first candidate, so it is picked whenever anything can be. */
  lemma HeadPicked(w: seq<Scored>, m: nat, alpha: real, d: Metric, ps: seq<nat>)
    requires alpha > 0.0 && m >= 1 && w != [] && IsSelection(w, m, alpha, d, ps)
    ensures ps != [] && w[0].id in At(w, ps)
  {
    if 0 !in ps { assert false; }
    var j :| 0 <= j < |ps| && ps[j] == 0;
    assert At(w, ps)[j] == w[0].id;
  }

  lemma PicksAreDistinct(w: seq<Scored>, ps: seq<nat>)
    requires DistinctIds(w) && (forall k :: 0 <= k < |ps| ==> ps[k] < |w|)
    requires forall j, k :: 0 <= j < k < |ps| ==> ps[j] < ps[k]
    ensures Distinct(At(w, ps))
  {
  }

  lemma PicksAreCandidates(candidates: seq<Scored>, ps: seq<nat>)
    requires forall k :: 0 <= k < |ps| ==> ps[k] < |candidates|
    ensures forall x :: x in At(SortByDist(candidates), ps) ==> exists i :: 0 <= i < |candidates| && candidates[i].id == x
  {
    var w := SortByDist(candidates);
    SortKeepsMembers(candidates);
    forall x | x in At(w, ps) ensures exists i :: 0 <= i < |candidates| && candidates[i].id == x {
      var i :| 0 <= i < |ps| && w[ps[i]].id == x;
      assert w[ps[i]] in w;
      var n :| 0 <= n < |candidates| && candidates[n] == w[ps[i]];
      assert candidates[n].id == x;
    }
  }

  function Members(s: seq<nat>): set<nat> {
    set x | x in s
  }

  lemma {:induction false} MembersSize(s: seq<nat>)
    ensures |Members(s)| <= |s|
    ensures Distinct(s) ==> |Members(s)| == |s|
  {
    if s != [] {
      var n := |s| - 1;
      MembersSize(s[..n]);
      assert Members(s) == Members(s[..n]) + {s[n]};
      assert Distinct(s) ==> s[n] !in Members(s[..n]);
    }
  }
}
