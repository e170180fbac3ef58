/** What every state of the chaos worker keeps. */
module ChaosInvariants {
  import opened Common
  import opened Chaos

  // ---------------------------------------------------------------------------
  // What a process is in the middle of
  // ---------------------------------------------------------------------------

  /** The target of an op that has not committed. */
  function Pending(pc: Pc): Option<nat> {
    match pc
    case Chosen(a) => TargetOf(a)
    case Running(a, _) => TargetOf(a)
    case Begun(a, _) => TargetOf(a)
    case _ => None
  }

  /** What a committed op did that its completion line does not say yet. */
  function Landing(pc: Pc): Option<(Action, seq<nat>)> {
    match pc
    case Landed(a, made, _) => Some((a, made))
    case Ended(Committed(a, rows)) => Some((a, rows))
    case Recorded(Committed(a, rows)) => Some((a, rows))
    case _ => None
  }

  function Unlogged(pc: Pc): seq<nat> {
    if Landing(pc).Some? then Landing(pc).value.1 else []
  }

  function Struck(pc: Pc): Option<nat> {
    if Landing(pc).Some? then TargetOf(Landing(pc).value.0) else None
  }

  /** The same, as long as the registry does not know it either. */
  function Unlisted(pc: Pc): seq<nat> {
    if pc.Recorded? then [] else Unlogged(pc)
  }

  function Claim(pc: Pc): Option<nat> {
    if pc.Recorded? then None else Struck(pc)
  }

  function Doing(pc: Pc): Option<Action> {
    match pc
    case Chosen(a) => Some(a)
    case Running(a, _) => Some(a)
    case Begun(a, _) => Some(a)
    case _ => if Landing(pc).Some? then Some(Landing(pc).value.0) else None
  }

  ghost predicate InFlight(pc: Pc) {
    pc.Running? || pc.Begun? || pc.Landed? || pc.Ended? || pc.Recorded?
  }

  function OutcomeOf(pc: Pc): Option<Outcome> {
    match pc
    case Ended(o) => Some(o)
    case Recorded(o) => Some(o)
    case _ => None
  }

  // ---------------------------------------------------------------------------
  // Slots and ids
  // ---------------------------------------------------------------------------

  ghost predicate ActionOk(c: Config, p: nat, op: nat, a: Action) {
    && op + Width(a) <= Slots(c, p) && |Ids(a)| <= Width(a)
    && forall j :: 0 <= j < |Ids(a)| ==> Ids(a)[j] == BusinessId(c, p, op + j)
  }

  ghost predicate ProcOk(c: Config, s: State, p: nat)
    requires p < |s.procs|
  {
    var op, pc := s.procs[p].op, s.procs[p].pc;
    && op <= Slots(c, p) && !pc.Panicked?
    && (Doing(pc).Some? ==> ActionOk(c, p, op, Doing(pc).value))
    && (OutcomeOf(pc) == Some(Dropped) ==> op < Slots(c, p))
    && (pc.Landed? ==> |pc.found| <= |pc.made| && pc.found == pc.made[..|pc.found|])
    && (Landing(pc).Some? ==> |Landing(pc).value.1| == |Ids(Landing(pc).value.0)|)
    && forall j :: 0 <= j < |Unlisted(pc)| ==> LandedRow(s.live, pc, j)
  }

  ghost predicate LandedRow(live: map<nat, int>, pc: Pc, j: nat)
    requires j < |Unlisted(pc)|
  {
    j < |Ids(Landing(pc).value.0)| && Unlisted(pc)[j] in live && live[Unlisted(pc)[j]] == Ids(Landing(pc).value.0)[j]
  }

  /** The slots of a process whose ids may be in the dataset. */
  function Past(proc: Proc): nat {
    proc.op + (if Landing(proc.pc).Some? then Width(Landing(proc.pc).value.0) else 0)
  }

  ghost predicate PastSlot(c: Config, s: State, q: nat, k: nat, id: int) {
    q < |s.procs| && k < Past(s.procs[q]) && k < Slots(c, q) && id == BusinessId(c, q, k)
  }

  ghost predicate LiveId(c: Config, s: State, r: nat)
    requires r in s.live
  {
    exists q, k :: PastSlot(c, s, q, k, s.live[r])
  }

  /** No business id is live twice, and none is live before its slot has committed. */
  ghost predicate IdsOk(c: Config, s: State) {
    && (forall r :: r in s.live ==> LiveId(c, s, r))
    && (forall r, t :: r in s.live && t in s.live && s.live[r] == s.live[t] ==> r == t)
  }

  // ---------------------------------------------------------------------------
  // Rows and the registry
  // ---------------------------------------------------------------------------

  ghost predicate Listed(s: State, r: nat) {
    exists q :: 0 <= q < |s.lists| && r in s.lists[q]
  }

  ghost predicate Claimed(s: State, r: nat) {
    exists q :: 0 <= q < |s.procs| && Claim(s.procs[q].pc) == Some(r)
  }

  ghost predicate JustMade(s: State, r: nat) {
    exists q :: 0 <= q < |s.procs| && r in Unlisted(s.procs[q].pc)
  }

  /** A row nobody but its maker can know: in no list, no target. */
  ghost predicate HiddenOk(s: State, q: nat, r: nat)
    requires q < |s.procs|
  {
    r in Unlisted(s.procs[q].pc) ==>
      && !Listed(s, r)
      && forall t :: 0 <= t < |s.procs| ==> Pending(s.procs[t].pc) != Some(r) && (t != q ==> r !in Unlisted(s.procs[t].pc))
  }

  /** A row whose removal has committed but is not in the registry yet. */
  ghost predicate ClaimOk(s: State, q: nat)
    requires q < |s.procs| == |s.lists|
  {
    Claim(s.procs[q].pc).Some? ==>
      var r := Claim(s.procs[q].pc).value;
      && r < s.nextRow && r !in s.live && (r in s.lists[0] || r in s.lists[q])
      && forall t :: 0 <= t < |s.procs| && t != q ==> Claim(s.procs[t].pc) != Some(r)
  }

  /** A target is a pool row or the agent's own, never another agent's. */
  ghost predicate PendingOk(s: State, q: nat)
    requires q < |s.procs| == |s.lists|
  {
    Pending(s.procs[q].pc).Some? ==>
      var r := Pending(s.procs[q].pc).value;
      r < s.nextRow && forall t :: 0 < t < |s.lists| && t != q ==> r !in s.lists[t]
  }

  ghost predicate NoDup(xs: seq<nat>) {
    forall i, j :: 0 <= i < j < |xs| ==> xs[i] != xs[j]
  }

  ghost predicate ListOk(s: State, q: nat)
    requires q < |s.lists|
  {
    && NoDup(s.lists[q])
    && (forall r :: r in s.lists[q] ==> r < s.nextRow && (r in s.live || Claimed(s, r)))
    && forall t, r :: 0 <= t < |s.lists| && t != q && r in s.lists[q] ==> r !in s.lists[t]
  }

  ghost predicate RowsOk(c: Config, s: State)
    requires Sound(c, s)
  {
    && (forall q, r :: 0 <= q < |s.procs| ==> HiddenOk(s, q, r))
    && (forall q :: 0 <= q < |s.procs| ==> ClaimOk(s, q))
    && (forall q :: 0 <= q < |s.procs| ==> PendingOk(s, q))
    && (forall q :: 0 <= q < |s.lists| ==> ListOk(s, q))
    && (forall r :: r in s.live ==> r < s.nextRow && (Listed(s, r) || JustMade(s, r)))
    && (forall q :: 0 <= q < |s.procs| ==> NoDup(Unlisted(s.procs[q].pc)))
  }

  // ---------------------------------------------------------------------------
  // The log
  // ---------------------------------------------------------------------------

  ghost predicate OpenOk(s: State, p: nat)
    requires p < |s.procs|
  {
    var op, pc, open := s.procs[p].op, s.procs[p].pc, Open(s.log, p);
    && (open.Some? <==> InFlight(pc))
    && (open.Some? ==> open.value.0 == op && (Doing(pc).Some? ==> open.value.1 == Doing(pc).value))
    && (OutcomeOf(pc) == Some(Dropped) ==> TargetOf(open.value.1).Some?)
  }

  /** A start line lies in a slot its process has passed, or is the open one. */
  ghost predicate SlotUsed(s: State, i: nat)
    requires i < |s.log|
  {
    s.log[i].Start? && s.log[i].p < |s.procs| ==>
      || s.log[i].op + Width(s.log[i].action) <= s.procs[s.log[i].p].op
      || Open(s.log, s.log[i].p) == Some((s.log[i].op, s.log[i].action))
  }

  ghost predicate SlotsUsed(s: State) {
    forall i :: 0 <= i < |s.log| ==> SlotUsed(s, i)
  }

  /** No slot is used twice. */
  ghost predicate SlotsApart(log: seq<Line>) {
    forall i, j :: 0 <= i < j < |log| && log[i].Start? && log[j].Start? && log[i].p == log[j].p ==>
      log[i].op + Width(log[i].action) <= log[j].op
  }

  ghost predicate LogOk(s: State) {
    && Alternating(s.log) && SlotsApart(s.log) && SlotsUsed(s)
    && (forall i :: 0 <= i < |s.log| ==> s.log[i].p < |s.procs|)
    && (forall p :: 0 <= p < |s.procs| ==> OpenOk(s, p))
  }

  ghost predicate MadeUnlogged(s: State, r: nat) {
    exists q :: 0 <= q < |s.procs| && r in Unlogged(s.procs[q].pc)
  }

  ghost predicate StruckUnlogged(s: State, r: nat) {
    exists q :: 0 <= q < |s.procs| && Struck(s.procs[q].pc) == Some(r)
  }

  /** The live rows are what the lines acknowledge and what committed ops in flight did. */
  ghost predicate EffectOk(s: State, r: nat) {
    r in s.live <==> (r in Inserted(s.log) || MadeUnlogged(s, r)) && !(r in Tombstoned(s.log) || StruckUnlogged(s, r))
  }

  ghost predicate EffectsOk(s: State) {
    && (forall r :: EffectOk(s, r))
    && (forall r :: r in Inserted(s.log) || r in Tombstoned(s.log) ==> r < s.nextRow)
    && (forall q, j :: 0 <= q < |s.procs| && 0 <= j < |Unlogged(s.procs[q].pc)| ==> Unlogged(s.procs[q].pc)[j] < s.nextRow)
    && (forall q :: 0 <= q < |s.procs| && Struck(s.procs[q].pc).Some? ==> Struck(s.procs[q].pc).value < s.nextRow)
  }

  ghost predicate Inv(c: Config, s: State) {
    && Sound(c, s) && (forall p :: 0 <= p < |s.procs| ==> ProcOk(c, s, p))
    && IdsOk(c, s) && RowsOk(c, s) && LogOk(s) && EffectsOk(s)
  }
}
