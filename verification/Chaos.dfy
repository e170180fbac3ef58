/**
 The chaos worker as a protocol: the pool set-up, then any number of agents at once, over a
 dataset whose commits are atomic. Process 0 is the pool set-up, process `p > 0` is agent
 `p - 1`; every transition is one registry access, one printed line, one `begin`, one `commit`
 or one lookup scan of one process.

 The dataset hands out row ids in increasing order, a delete or update needs a live target,
 and a commit with a target may fail with a conflict. Which verb a slot draws, which eligible
 row is picked as target and how the processes interleave are left open.
 */
module Chaos {
  import opened Common

  const POOL_SIZE: nat := 6

  datatype Config = Config(agents: nat, opsPerAgent: nat)

  datatype Verb = Insert | Delete | Update | MultiBatchInsert

  /** `resolve_slot_consumption`. */
  function ResolveSlots(verb: Verb, remaining: nat): (Verb, nat) {
    match verb
    case MultiBatchInsert => if remaining < 2 then (Insert, 1) else (MultiBatchInsert, 2)
    case _ => (verb, 1)
  }

  /** Business ids: negative for the pool, numbered through over the agents' slots otherwise. */
  function BusinessId(c: Config, p: nat, op: nat): int {
    if p == 0 then -1 - op else (p - 1) * c.opsPerAgent + op
  }

  function Slots(c: Config, p: nat): nat {
    if p == 0 then POOL_SIZE else c.opsPerAgent
  }

  /** What an op does, as its start line announces it. */
  datatype Action = InsertRow(id: int) | InsertTwo(id0: int, id1: int) | DeleteRow(target: nat) | UpdateRow(target: nat, id: int)

  function Ids(a: Action): seq<int> {
    match a
    case InsertRow(id) => [id]
    case InsertTwo(id0, id1) => [id0, id1]
    case DeleteRow(_) => []
    case UpdateRow(_, id) => [id]
  }

  function TargetOf(a: Action): Option<nat> {
    match a
    case DeleteRow(t) => Some(t)
    case UpdateRow(t, _) => Some(t)
    case _ => None
  }

  function Width(a: Action): nat {
    if a.InsertTwo? then 2 else 1
  }

  datatype Outcome = Committed(action: Action, rows: seq<nat>) | Dropped

  /** `made` are the row ids the commit assigned; the worker only learns them by looking them up. */
  datatype Pc =
    | Idle
    | Chosen(action: Action)                                   // next: start line
    | Running(action: Action, attempt: nat)                    // next: begin
    | Begun(action: Action, attempt: nat)                      // next: commit
    | Landed(action: Action, made: seq<nat>, found: seq<nat>)  // next: lookup
    | Ended(outcome: Outcome)                                  // next: registry
    | Recorded(outcome: Outcome)                               // next: completion line
    | Panicked

  /** `op` is the slot the loop is at. */
  datatype Proc = Proc(op: nat, pc: Pc)

  datatype Line = Start(p: nat, op: nat, action: Action) | Done(p: nat, op: nat, outcome: Outcome)

  /** `live` maps row ids to business ids; `lists[0]` is the pool, `lists[p]` what agent `p - 1` owns. */
  datatype State = State(live: map<nat, int>, nextRow: nat, lists: seq<seq<nat>>, procs: seq<Proc>, log: seq<Line>)

  function Init(c: Config): State {
    State(map[], 0, seq(c.agents + 1, _ => []), seq(c.agents + 1, _ => Proc(0, Idle)), [])
  }

  // ---------------------------------------------------------------------------
  // Registry
  // ---------------------------------------------------------------------------

  function Position(xs: seq<nat>, x: nat): (r: Option<nat>)
    ensures r.Some? ==> r.value < |xs| && xs[r.value] == x
    ensures r.None? <==> x !in xs
  {
    if xs == [] then None
    else if xs[0] == x then Some(0)
    else
      var r := Position(xs[1..], x);
      if r.None? then None else Some(r.value + 1)
  }

  /** The last element moves into the gap. */
  function SwapRemove(xs: seq<nat>, at: nat): seq<nat>
    requires at < |xs|
  {
    xs[at := xs[|xs| - 1]][..|xs| - 1]
  }

  /** `Registry::remove`: from the pool, or else from the acting agent's own rows. */
  function Remove(lists: seq<seq<nat>>, p: nat, row: nat): (r: seq<seq<nat>>)
    requires p < |lists|
    ensures |r| == |lists|
  {
    var inPool, inOwn := Position(lists[0], row), Position(lists[p], row);
    if inPool.Some? then lists[0 := SwapRemove(lists[0], inPool.value)]
    else if inOwn.Some? then lists[p := SwapRemove(lists[p], inOwn.value)]
    else lists
  }

  function Record(lists: seq<seq<nat>>, p: nat, outcome: Outcome): (r: seq<seq<nat>>)
    requires p < |lists|
    ensures |r| == |lists|
  {
    match outcome
    case Dropped => lists
    case Committed(a, rows) =>
      var rest := if TargetOf(a).Some? then Remove(lists, p, TargetOf(a).value) else lists;
      rest[p := rest[p] + rows]
  }

  /** The shared registry object; its lists are what the protocol's `lists` are. */
  class Registry {
    var poolLive: seq<nat>
    var ownLive: seq<seq<nat>>

    ghost function Lists(): seq<seq<nat>>
      reads this
    {
      [poolLive] + ownLive
    }

    constructor (agents: nat)
      ensures |ownLive| == agents && Lists() == seq(agents + 1, _ => [])
    {
      poolLive, ownLive := [], seq(agents, _ => []);
    }

    method RecordPoolRow(row: nat)
      modifies this
      ensures ownLive == old(ownLive) && Lists() == old(Lists())[0 := old(poolLive) + [row]]
    {
      poolLive := poolLive + [row];
    }

    method RecordOwnRow(agent: nat, row: nat)
      requires agent < |ownLive|
      modifies this
      ensures |ownLive| == old(|ownLive|) && Lists() == old(Lists())[agent + 1 := old(ownLive[agent]) + [row]]
    {
      ownLive := ownLive[agent := ownLive[agent] + [row]];
    }

    method RemoveRow(agent: nat, row: nat)
      requires agent < |ownLive|
      modifies this
      ensures |ownLive| == old(|ownLive|) && Lists() == Remove(old(Lists()), agent + 1, row)
    {
      var inPool, inOwn := Position(poolLive, row), Position(ownLive[agent], row);
      if inPool.Some? {
        poolLive := SwapRemove(poolLive, inPool.value);
      } else if inOwn.Some? {
        ownLive := ownLive[agent := SwapRemove(ownLive[agent], inOwn.value)];
      }
    }

    /** What process `p` does with the registry once its op has ended; the pool set-up only inserts. */
    method RecordOutcome(p: nat, outcome: Outcome)
      requires p <= |ownLive| && (p == 0 && outcome.Committed? ==> TargetOf(outcome.action).None?)
      modifies this
      ensures |ownLive| == old(|ownLive|) && Lists() == Record(old(Lists()), p, outcome)
    {
      if outcome.Dropped? { return; }
      var target := TargetOf(outcome.action);
      if target.Some? { RemoveRow(p - 1, target.value); }
      ghost var rest := Lists();
      assert rest[p := rest[p] + []] == rest by { assert rest[p] + [] == rest[p]; }
      for i := 0 to |outcome.rows|
        invariant |ownLive| == old(|ownLive|) && |rest| == |ownLive| + 1
        invariant Lists() == rest[p := rest[p] + outcome.rows[..i]]
      {
        ghost var before := Lists();
        assert before[p] + [outcome.rows[i]] == rest[p] + outcome.rows[..i + 1];
        if p == 0 { RecordPoolRow(outcome.rows[i]); } else { RecordOwnRow(p - 1, outcome.rows[i]); }
        assert Lists() == before[p := before[p] + [outcome.rows[i]]];
      }
      assert outcome.rows[..|outcome.rows|] == outcome.rows;
    }
  }

  // ---------------------------------------------------------------------------
  // Steps
  // ---------------------------------------------------------------------------

  datatype Step =
    | Choose(p: nat, verb: Verb, target: Option<nat>)
    | PrintStart(p: nat)
    | Begin(p: nat)
    | Commit(p: nat)
    | Conflict(p: nat)
    | Refuse(p: nat)
    | Lookup(p: nat, row: nat)
    | LookupPanic(p: nat)
    | Settle(p: nat)
    | Register(p: nat)
    | PrintDone(p: nat)

  /** The rows a scan for a business id finds. */
  function Hits(live: map<nat, int>, id: int): set<nat> {
    set r | r in live && live[r] == id
  }

  predicate Exhausted(c: Config, s: State, p: nat)
    requires p < |s.procs|
  {
    s.procs[p].pc.Idle? && s.procs[p].op >= Slots(c, p)
  }

  predicate Sound(c: Config, s: State) {
    |s.procs| == c.agents + 1 == |s.lists|
  }

  /** A target comes from the pool or the agent's own rows, and there is none only if both are empty. */
  predicate Eligible(s: State, p: nat, target: Option<nat>)
    requires p < |s.lists|
  {
    match target
    case Some(t) => t in s.lists[0] || t in s.lists[p]
    case None => s.lists[0] == [] && s.lists[p] == []
  }

  predicate Enabled(c: Config, s: State, step: Step)
    requires Sound(c, s)
  {
    && step.p < |s.procs| && (step.p == 0 || Exhausted(c, s, 0))
    && var pc := s.procs[step.p].pc;
       match step
       case Choose(p, verb, target) =>
         && pc.Idle? && s.procs[p].op < Slots(c, p) && (p == 0 ==> verb == Insert)
         && (verb.Delete? || verb.Update? ==> Eligible(s, p, target))
       case PrintStart(p) => pc.Chosen?
       case Begin(p) => pc.Running?
       case Commit(p) => pc.Begun? && (TargetOf(pc.action).Some? ==> TargetOf(pc.action).value in s.live)
       case Conflict(p) => pc.Begun? && TargetOf(pc.action).Some?
       case Refuse(p) => pc.Begun? && TargetOf(pc.action).Some? && TargetOf(pc.action).value !in s.live
       case Lookup(p, row) => pc.Landed? && |pc.found| < |Ids(pc.action)| && Hits(s.live, Ids(pc.action)[|pc.found|]) == {row}
       case LookupPanic(p) => pc.Landed? && |pc.found| < |Ids(pc.action)| && |Hits(s.live, Ids(pc.action)[|pc.found|])| != 1
       case Settle(p) => pc.Landed? && |pc.found| == |Ids(pc.action)|
       case Register(p) => pc.Ended?
       case PrintDone(p) => pc.Recorded?
  }

  function At(s: State, p: nat, pc: Pc): State
    requires p < |s.procs|
  {
    s.(procs := s.procs[p := s.procs[p].(pc := pc)])
  }

  /** The resolved verb, after a downgrade for want of slots or of a target. */
  function Resolve(c: Config, p: nat, op: nat, verb: Verb, target: Option<nat>): Action
    requires op <= Slots(c, p)
  {
    var id := BusinessId(c, p, op);
    var (resolved, _) := ResolveSlots(verb, Slots(c, p) - op);
    match resolved
    case Insert => InsertRow(id)
    case MultiBatchInsert => InsertTwo(id, BusinessId(c, p, op + 1))
    case Delete => if target.Some? then DeleteRow(target.value) else InsertRow(id)
    case Update => if target.Some? then UpdateRow(target.value, id) else InsertRow(id)
  }

  /** Row ids from `first` on, one per business id. */
  function NewRows(ids: seq<int>, first: nat): (r: map<nat, int>)
    ensures forall x :: x in r <==> first <= x < first + |ids|
    ensures forall x :: x in r ==> r[x] == ids[x - first]
  {
    if ids == [] then map[]
    else
      var n := |ids| - 1;
      NewRows(ids[..n], first)[first + n := ids[n]]
  }

  /** The rows of an atomic commit: ids from `nextRow` on, the target gone. */
  function Committing(s: State, p: nat, a: Action): State
    requires p < |s.procs|
  {
    var ids := Ids(a);
    var kept := if TargetOf(a).Some? then s.live - {TargetOf(a).value} else s.live;
    var made := seq(|ids|, j requires 0 <= j < |ids| => s.nextRow + j);
    At(s.(live := kept + NewRows(ids, s.nextRow), nextRow := s.nextRow + |ids|), p, Landed(a, made, []))
  }

  function Apply(c: Config, s: State, step: Step): State
    requires Sound(c, s) && Enabled(c, s, step)
  {
    var p := step.p;
    var pc, op := s.procs[p].pc, s.procs[p].op;
    match step
    case Choose(_, verb, target) => At(s, p, Chosen(Resolve(c, p, op, verb, target)))
    case PrintStart(_) => At(s, p, Running(pc.action, 1)).(log := s.log + [Start(p, op, pc.action)])
    case Begin(_) =>
      if TargetOf(pc.action).Some? && TargetOf(pc.action).value !in s.live then At(s, p, Ended(Dropped))
      else At(s, p, Begun(pc.action, pc.attempt))
    case Commit(_) => Committing(s, p, pc.action)
    case Conflict(_) => if pc.attempt == 1 then At(s, p, Running(pc.action, 2)) else At(s, p, Ended(Dropped))
    case Refuse(_) => At(s, p, Ended(Dropped))
    case Lookup(_, row) => At(s, p, Landed(pc.action, pc.made, pc.found + [row]))
    case LookupPanic(_) => At(s, p, Panicked)
    case Settle(_) => At(s, p, Ended(Committed(pc.action, pc.found)))
    case Register(_) => At(s, p, Recorded(pc.outcome)).(lists := Record(s.lists, p, pc.outcome))
    case PrintDone(_) =>
      var width := if pc.outcome.Committed? then Width(pc.outcome.action) else 1;
      s.(procs := s.procs[p := Proc(op + width, Idle)], log := s.log + [Done(p, op, pc.outcome)])
  }

  // ---------------------------------------------------------------------------
  // Runs
  // ---------------------------------------------------------------------------

  predicate StepAt(c: Config, run: seq<State>, steps: seq<Step>, i: nat)
    requires |run| == |steps| + 1 && i < |steps|
  {
    Sound(c, run[i]) && Enabled(c, run[i], steps[i]) && run[i + 1] == Apply(c, run[i], steps[i])
  }

  /** A run on an empty dataset; every state of it is a point at which the process may crash. */
  predicate IsRun(c: Config, run: seq<State>, steps: seq<Step>) {
    && |run| == |steps| + 1 && run[0] == Init(c)
    && forall i :: 0 <= i < |steps| ==> StepAt(c, run, steps, i)
  }

  /** Every process has used up its slots. */
  predicate CleanExit(c: Config, s: State) {
    Sound(c, s) && forall p :: 0 <= p < |s.procs| ==> Exhausted(c, s, p)
  }

  // ---------------------------------------------------------------------------
  // What the printed lines say
  // ---------------------------------------------------------------------------

  /** The op of process `p` that has a start line and no completion line yet. */
  function Open(log: seq<Line>, p: nat): Option<(nat, Action)> {
    if log == [] then None
    else
      var last := log[|log| - 1];
      if last.p != p then Open(log[..|log| - 1], p)
      else if last.Start? then Some((last.op, last.action)) else None
  }

  /** Row ids acknowledged as inserted, and as tombstoned. */
  function Inserted(log: seq<Line>): set<nat> {
    if log == [] then {}
    else
      var last := log[|log| - 1];
      Inserted(log[..|log| - 1])
      + (if last.Done? && last.outcome.Committed? then set r | r in last.outcome.rows else {})
  }

  function Tombstoned(log: seq<Line>): set<nat> {
    if log == [] then {}
    else
      var last := log[|log| - 1];
      Tombstoned(log[..|log| - 1])
      + (if last.Done? && last.outcome.Committed? && TargetOf(last.outcome.action).Some?
         then {TargetOf(last.outcome.action).value} else {})
  }

  /** Start and completion lines of every process alternate, the completion for the op that was started. */
  predicate Alternating(log: seq<Line>) {
    log != [] ==>
      var front, last := log[..|log| - 1], log[|log| - 1];
      && Alternating(front)
      && match last {
           case Start(p, _, _) => Open(front, p).None?
           case Done(p, op, outcome) =>
             && Open(front, p).Some? && Open(front, p).value.0 == op
             && (outcome.Committed? ==> outcome.action == Open(front, p).value.1 && |outcome.rows| == |Ids(outcome.action)|)
         }
  }

  /** `crash_tolerance`: rows that may be missing, and how many unknown rows there may be. */
  function MayBeLost(log: seq<Line>, p: nat): set<nat> {
    var open := Open(log, p);
    if open.Some? && TargetOf(open.value.1).Some? then {TargetOf(open.value.1).value} else {}
  }

  function MayBePhantom(log: seq<Line>, procs: nat): nat {
    if procs == 0 then 0
    else
      var open := Open(log, procs - 1);
      MayBePhantom(log, procs - 1) + (if open.Some? then |Ids(open.value.1)| else 0)
  }
}
