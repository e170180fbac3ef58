/** The layer search meets what the build protocol asks of the searches its inserts run. */
module SearchInBuild {
  import opened Common
  import opened Heuristic
  import opened Build
  import opened Search

  /**
   An insert searches with a filter that accepts every row. Whatever such a search visited and
   returned is a legal result of a search of the layer, for that set of rows seen or a larger one.
   */
  lemma LayerSearchIsLegal(c: Config, t: Row, p: Probe, entry: Id, ef: nat, lc: nat, saturated: bool,
                           visited: set<Id>, expanded: set<Id>, rows: set<Id>, hits: seq<Scored>, seen: set<Id>)
    requires SearchedLayer(p, entry, ef, lc, saturated, visited, expanded, rows) && visited <= seen
    requires Lists(p, hits, rows) && |hits| == |rows|
    requires entry in p.src.vectors && (forall x :: p.filter(x))
    requires forall x :: x in p.src.vectors ==> Dist(p, x) == c.dist(t, x)
    ensures SearchResult(c, t, ef, entry, seen, p.src.deleted, Ids(hits))
  {
    var found := Ids(hits);
    assert Distinct(found);
    forall x | x in found ensures x in visited {
      var i :| 0 <= i < |hits| && hits[i].id == x;
    }
    assert SortedByDist(Scores(c, t, found));
    ReturnsAsManyAsItCan(p, entry, ef, lc, saturated, visited, expanded, rows);
    if entry !in p.src.deleted {
      var passing := set x | x in visited && Passes(p, x);
      assert entry in passing;
    }
  }

  // ---------------------------------------------------------------------------
  // The search as a run of the protocol
  // ---------------------------------------------------------------------------

  /** The lists of layer `lc` are those of the graph in state `s`. */
  ghost predicate ReadsFrom(p: Probe, s: State, lc: nat) {
    forall x, y :: y in Neighbors(p, x, lc) ==> Holds(s, lc, x, y)
  }

  ghost predicate Holds(s: State, lc: nat, x: Id, y: Id) {
    HasLayer(s, x, lc) && exists i :: 0 <= i < |ListAt(s, x, lc).slots| && ListAt(s, x, lc).slots[i] == Some(y)
  }

  /** The insert of `t` loads slot after slot; `None` if the protocol does not allow it. */
  ghost function AfterLoads(s: State, t: Row, loads: seq<(Row, nat)>): Option<State> {
    if loads == [] then Some(s)
    else
      var n := |loads| - 1;
      var m := AfterLoads(s, t, loads[..n]);
      if m.Some? && CanLoad(m.value, t, loads[n].0, loads[n].1) then Some(DoLoad(m.value, t, loads[n].0, loads[n].1)) else None
  }

  /** After some loads the insert has seen `rows`; nothing else has changed. */
  ghost predicate Gathered(s: State, t: Row, loads: seq<(Row, nat)>, rows: set<Id>) {
    && t in s.pcs && s.pcs[t].Searching?
    && var m := AfterLoads(s, t, loads);
       && m.Some? && m.value.nodes == s.nodes && m.value.deleted == s.deleted && t in m.value.pcs && m.value.pcs[t].Searching?
       && m.value.pcs[t].lc == s.pcs[t].lc && m.value.pcs[t].entry == s.pcs[t].entry && rows <= m.value.pcs[t].seen
  }

  /** One more load, of a row some seen row lists. */
  lemma {:induction false} LoadNext(s: State, t: Row, p: Probe, loads: seq<(Row, nat)>, rows: set<Id>, x: Id, y: Id)
    returns (more: seq<(Row, nat)>)
    requires Gathered(s, t, loads, rows) && ReadsFrom(p, s, s.pcs[t].lc) && x in rows && y in Neighbors(p, x, s.pcs[t].lc)
    ensures Gathered(s, t, more, rows + {y})
  {
    assert Holds(s, s.pcs[t].lc, x, y);
    var slots := ListAt(s, x, s.pcs[t].lc).slots;
    var i :| 0 <= i < |slots| && slots[i] == Some(y);
    more := loads + [(x, i)];
    assert more[..|loads|] == loads;
    assert CanLoad(AfterLoads(s, t, loads).value, t, x, i);
  }

  lemma {:induction false} LoadPath(s: State, t: Row, p: Probe, loads: seq<(Row, nat)>, rows: set<Id>, path: seq<Id>, from: Id, to: Id)
    returns (more: seq<(Row, nat)>)
    requires Gathered(s, t, loads, rows) && ReadsFrom(p, s, s.pcs[t].lc) && from in rows && IsPath(p, s.pcs[t].lc, path, from, to)
    ensures Gathered(s, t, more, rows + {to})
    decreases |path|
  {
    var n := |path| - 1;
    if n == 0 {
      assert rows + {to} == rows;
      more := loads;
    } else {
      assert IsPath(p, s.pcs[t].lc, path[..n], from, path[n - 1]);
      more := LoadPath(s, t, p, loads, rows, path[..n], from, path[n - 1]);
      more := LoadNext(s, t, p, more, rows + {path[n - 1]}, path[n - 1], to);
    }
  }

  lemma {:induction false} LoadAll(s: State, t: Row, p: Probe, from: Id, rows: set<Id>) returns (loads: seq<(Row, nat)>)
    requires t in s.pcs && s.pcs[t].Searching? && from in s.pcs[t].seen && ReadsFrom(p, s, s.pcs[t].lc)
    requires forall x :: x in rows ==> Reaches(p, s.pcs[t].lc, from, x)
    ensures Gathered(s, t, loads, rows + {from})
    decreases |rows|
  {
    loads := [];
    if rows != {} {
      var x :| x in rows;
      loads := LoadAll(s, t, p, from, rows - {x});
      var path :| IsPath(p, s.pcs[t].lc, path, from, x);
      loads := LoadPath(s, t, p, loads, rows - {x} + {from}, path, from, x);
    }
  }

  /**
   A layer search over the graph as it stands is a run of the protocol: loads of single slots,
   each of a list of a row seen before, after which the insert may end its search with the hits.
   */
  lemma {:induction false} LayerSearchIsRun(c: Config, s: State, t: Row, p: Probe, saturated: bool, visited: set<Id>,
                                            expanded: set<Id>, rows: set<Id>, hits: seq<Scored>)
    returns (loads: seq<(Row, nat)>)
    requires t in s.nodes && t in s.pcs && s.pcs[t].Searching? && s.pcs[t].entry in s.pcs[t].seen
    requires var pc, ef := s.pcs[t], if s.pcs[t].lc > s.nodes[t].level then 1 else c.ef;
      && ReadsFrom(p, s, pc.lc) && SearchedLayer(p, pc.entry, ef, pc.lc, saturated, visited, expanded, rows)
      && pc.entry in p.src.vectors
    requires Lists(p, hits, rows) && |hits| == |rows|
    requires (forall x :: p.filter(x)) && p.src.deleted == s.deleted && forall x :: x in p.src.vectors ==> Dist(p, x) == c.dist(t, x)
    ensures Gathered(s, t, loads, visited) && CanEndSearch(c, AfterLoads(s, t, loads).value, t, Ids(hits))
  {
    var pc, ef := s.pcs[t], if s.pcs[t].lc > s.nodes[t].level then 1 else c.ef;
    loads := LoadAll(s, t, p, pc.entry, visited);
    var m := AfterLoads(s, t, loads).value;
    LayerSearchIsLegal(c, t, p, pc.entry, ef, pc.lc, saturated, visited, expanded, rows, hits, m.pcs[t].seen);
  }
}
