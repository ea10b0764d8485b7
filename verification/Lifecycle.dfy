/** The use-case lifecycle as pure data: the legality table, the ranks, and what the engine
    does to one use case once the verdicts of its gates are known. */
module Lifecycle {
  import opened Vocabulary

  datatype LifecycleState =
    | Requested | VendorCheck | ProductCheck | Intake | UnderAssessment | TreatmentPending
    | PendingAuthorisation | Authorised | HaltedProhibited | Held | Deployed | Retired

  datatype Event = Created | Advance | Hold | Halt | Restore | Authorise

  datatype Verdict = Advances | Parks | Halts

  /** One row of the transition log, with the event that the audit row beside it records. */
  datatype Edge = Edge(source: LifecycleState, event: Event, target: LifecycleState)

  /** What a transition writes on a use case: the state, the held hint and the log. */
  datatype Cursor = Cursor(state: LifecycleState, heldFrom: Option<LifecycleState>, log: seq<Edge>)

  /** The single forward hop out of each auto-advanced state. */
  function Successor(s: LifecycleState): Option<LifecycleState> {
    match s
    case Requested => Some(VendorCheck)
    case VendorCheck => Some(ProductCheck)
    case ProductCheck => Some(Intake)
    case Intake => Some(UnderAssessment)
    case UnderAssessment => Some(TreatmentPending)
    case TreatmentPending => Some(PendingAuthorisation)
    case _ => None
  }

  /** States from which a hold is meaningful. */
  predicate IsAdvanced(s: LifecycleState) {
    || s.VendorCheck? || s.ProductCheck? || s.Intake? || s.UnderAssessment? || s.TreatmentPending?
    || s.PendingAuthorisation? || s.Authorised?
  }

  predicate IsLegal(source: LifecycleState, event: Event, target: LifecycleState) {
    match event
    case Created => Successor(source) == Some(target)
    case Advance => Successor(source) == Some(target)
    case Halt => target.HaltedProhibited? && !source.HaltedProhibited?
    case Hold => target.Held? && IsAdvanced(source)
    case Restore => source.Held? && IsAdvanced(target)
    case Authorise => source.PendingAuthorisation? && target.Authorised?
  }

  /** Position in the forward sequence; HELD, HALTED_PROHIBITED, DEPLOYED and RETIRED have none. */
  function Rank(s: LifecycleState): Option<nat> {
    match s
    case Requested => Some(0)
    case VendorCheck => Some(1)
    case ProductCheck => Some(2)
    case Intake => Some(3)
    case UnderAssessment => Some(4)
    case TreatmentPending => Some(5)
    case PendingAuthorisation => Some(6)
    case Authorised => Some(7)
    case _ => None
  }

  function AtRank(r: nat): (s: LifecycleState)
    requires r <= 7
    ensures Rank(s) == Some(r)
  {
    match r
    case 0 => Requested
    case 1 => VendorCheck
    case 2 => ProductCheck
    case 3 => Intake
    case 4 => UnderAssessment
    case 5 => TreatmentPending
    case 6 => PendingAuthorisation
    case _ => Authorised
  }

  /** The verdicts of the six gates, in canonical order: vendor, product, classification,
      assessment, treatment, authorisation. Entry k guards the state of rank k + 1. Only the
      classification gate can halt. */
  type Vector = v: seq<Verdict> | |v| == 6 && forall k | 0 <= k < 6 && k != 2 :: !v[k].Halts?
    witness [Advances, Advances, Advances, Advances, Advances, Advances]

  /** Index of the first entry at or after `k` that does not advance, or |v|. */
  function FirstBlock(v: seq<Verdict>, k: nat): (r: nat)
    requires k <= |v|
    ensures k <= r <= |v|
    ensures forall j | k <= j < r :: v[j].Advances?
    ensures r < |v| ==> !v[r].Advances?
    decreases |v| - k
  {
    if k < |v| && v[k].Advances? then FirstBlock(v, k + 1) else k
  }

  predicate AllPass(v: Vector) {
    forall k | 0 <= k < 6 :: v[k].Advances?
  }

  /** The earliest unsatisfied gate's state, or the ceiling when nothing blocks. */
  function Target(v: Vector): (s: LifecycleState)
    ensures Rank(s).Some? && 1 <= Rank(s).value <= 6
  {
    var b := FirstBlock(v, 0);
    if b < 6 then AtRank(b + 1) else PendingAuthorisation
  }

  /** Rank at which the auto-advance walk stops when it starts at rank `r`. The gate of
      REQUESTED always passes and the authorisation gate is not part of the walk. */
  function RestRank(v: Vector, r: nat): (n: nat)
    requires r <= 6
    ensures r <= n <= 6
  {
    if r == 6 then 6 else FirstBlock(v[..5], if r == 0 then 0 else r - 1) + 1
  }

  /** The walk steps off rank `r`: the gate there passes and the ceiling is not reached. */
  predicate StepsOff(v: Vector, r: nat) {
    r == 0 || (1 <= r <= 5 && v[r - 1].Advances?)
  }

  /** The resting rank is where the walk stops: every rank before it is stepped off, and it is not. */
  lemma RestRankIsWhereTheWalkStops(v: Vector, r: nat, n: nat)
    requires r <= 6
    ensures n == RestRank(v, r) <==>
            r <= n <= 6 && (forall k | r <= k < n :: StepsOff(v, k)) && !StepsOff(v, n)
  {
    var n0 := RestRank(v, r);
    if r < 6 {
      assert forall k | 0 <= k < 5 :: v[..5][k] == v[k];
    }
    assert forall k | r <= k < n0 :: StepsOff(v, k);
    assert !StepsOff(v, n0);
  }

  // --- The engine on one cursor -----------------------------------------------------------

  /** One hop: entering HELD records where from, leaving HELD clears it, and one row is logged. */
  function Hop(c: Cursor, event: Event, target: LifecycleState): Cursor {
    Cursor(target,
           if event.Hold? then Some(c.state) else if c.state.Held? then None else c.heldFrom,
           c.log + [Edge(c.state, event, target)])
  }

  function HopEvent(r: nat): Event {
    if r == 0 then Created else Advance
  }

  /** One log row per rank crossed from rank `r` up to rank `n`. */
  function Ladder(r: nat, n: nat): (edges: seq<Edge>)
    requires r <= n <= 6
    ensures |edges| == n - r
  {
    seq(n - r, k requires 0 <= k < n - r => Edge(AtRank(r + k), HopEvent(r + k), AtRank(r + k + 1)))
  }

  /** The cursor after climbing from its rank to rank `n`. */
  function Climb(c: Cursor, n: nat): Cursor
    requires Rank(c.state).Some? && Rank(c.state).value <= n <= 6
  {
    Cursor(AtRank(n), c.heldFrom, c.log + Ladder(Rank(c.state).value, n))
  }

  lemma ClimbOneMore(c: Cursor, n: nat)
    requires Rank(c.state).Some? && Rank(c.state).value <= n < 6
    ensures Climb(c, n + 1) == Hop(Climb(c, n), HopEvent(n), AtRank(n + 1))
  {
  }

  lemma ClimbOnce(c: Cursor)
    requires Rank(c.state).Some? && Rank(c.state).value < 6
    ensures Climb(c, Rank(c.state).value + 1) == Hop(c, HopEvent(Rank(c.state).value), AtRank(Rank(c.state).value + 1))
  {
  }

  lemma ClimbFurther(c: Cursor, n: nat)
    requires Rank(c.state).Some? && Rank(c.state).value <= n < 6
    ensures Climb(Climb(c, n), n + 1) == Climb(c, n + 1)
  {
  }

  lemma ClimbNowhere(c: Cursor)
    requires Rank(c.state).Some? && Rank(c.state).value <= 6
    ensures Climb(c, Rank(c.state).value) == c
  {
  }

  /** The states that the walk can leave or rest at. */
  predicate Ranked(s: LifecycleState) {
    Rank(s).Some? && Rank(s).value <= 6
  }

  /** The walk climbs to the rank where it rests; from any other state it does not move. */
  function Walked(c: Cursor, v: Vector): Cursor {
    if Ranked(c.state) then Climb(c, RestRank(v, Rank(c.state).value)) else c
  }

  /** Auto-advance: halt first, otherwise walk. */
  function Advanced(c: Cursor, v: Vector): Cursor {
    if !c.state.HaltedProhibited? && v[2].Halts? then Hop(c, Halt, HaltedProhibited) else Walked(c, v)
  }

  /** An already-passed gate no longer passes. */
  predicate Regresses(s: LifecycleState, v: Vector) {
    && !v[2].Halts?
    && Rank(s).Some?
    && (if s.Authorised? then !AllPass(v) else Rank(s).value > Rank(Target(v)).value)
  }

  /** Re-evaluation; None where the rank lookup would fail. */
  function Reevaluated(c: Cursor, v: Vector): Option<Cursor> {
    if c.state.HaltedProhibited? then Some(c)
    else if v[2].Halts? then Some(Hop(c, Halt, HaltedProhibited))
    else if c.state.Held? then Some(Hop(c, Restore, Target(v)))
    else if Rank(c.state).None? then None
    else if Regresses(c.state, v) then Some(Hop(c, Hold, Held))
    else Some(Advanced(c, v))
  }

  /** A state that the engine can be handed on some run. */
  predicate Live(s: LifecycleState) {
    !s.Deployed? && !s.Retired?
  }

  /** Where re-evaluation settles. */
  function Settled(s: LifecycleState, v: Vector): LifecycleState {
    if s.HaltedProhibited? || v[2].Halts? then HaltedProhibited
    else if s.Authorised? && AllPass(v) then Authorised
    else Target(v)
  }

  /** When the target outranks the current rank, the step-by-step walk stops exactly there. */
  lemma WalkReachesTarget(v: Vector, r: nat)
    requires r <= 6 && r <= Rank(Target(v)).value
    ensures RestRank(v, r) == Rank(Target(v)).value
  {
  }

  /** The step-by-step walk refines the vector: when the target outranks the current state, the
      auto-advance ends exactly there, with one logged hop per rank crossed. */
  lemma AdvanceRefinesVector(c: Cursor, v: Vector)
    requires !v[2].Halts? && Rank(c.state).Some? && Rank(c.state).value < Rank(Target(v)).value
    ensures var after := Advanced(c, v);
            && after.state == Target(v) && after.heldFrom == c.heldFrom
            && |after.log| == |c.log| + Rank(Target(v)).value - Rank(c.state).value
            && after.log == c.log + Ladder(Rank(c.state).value, Rank(Target(v)).value)
  {
  }

  /** Re-evaluating fails only off the live states, and stays on them. */
  lemma ReevaluationIsTotalOnLive(c: Cursor, v: Vector)
    ensures Reevaluated(c, v).Some? <==> Live(c.state) || v[2].Halts?
    ensures Reevaluated(c, v).Some? ==> Live(Reevaluated(c, v).value.state)
  {
  }

  /** One call reaches the settled state exactly when nothing regresses; otherwise it holds. */
  lemma OneCallSettlesIff(c: Cursor, v: Vector)
    requires Live(c.state)
    ensures Reevaluated(c, v).Some?
    ensures Reevaluated(c, v).value.state == Settled(c.state, v) <==> !Regresses(c.state, v)
    ensures Regresses(c.state, v) ==> Reevaluated(c, v) == Some(Hop(c, Hold, Held))
  {
  }

  /** A call changes nothing exactly when the cursor already rests at its settled state. */
  lemma SettledMeansUntouched(c: Cursor, v: Vector)
    requires Live(c.state)
    ensures Reevaluated(c, v) == Some(c) <==> c.state == Settled(c.state, v)
  {
    OneCallSettlesIff(c, v);
    if c.state == Settled(c.state, v) && Rank(c.state).Some? && Rank(c.state).value <= 6 {
      WalkReachesTarget(v, Rank(c.state).value);
      ClimbNowhere(c);
    }
  }

  /** A first call that does not regress leaves the settled state what it was. */
  lemma SettledIsStable(c: Cursor, v: Vector)
    requires Live(c.state)
    ensures Reevaluated(c, v).Some?
    ensures var s := Reevaluated(c, v).value.state;
            s == Settled(s, v) <==> !Regresses(c.state, v)
  {
  }

  /** With the gates fixed, two calls always settle and every further call changes nothing. */
  lemma TwoCallsSettle(c: Cursor, v: Vector)
    requires Live(c.state)
    ensures var once := Reevaluated(c, v);
            && once.Some?
            && var twice := Reevaluated(once.value, v);
            && twice.Some? && twice.value.state == Settled(c.state, v)
            && Reevaluated(twice.value, v) == twice
  {
    OneCallSettlesIff(c, v);
    ReevaluationIsTotalOnLive(c, v);
    var once := Reevaluated(c, v).value;
    OneCallSettlesIff(once, v);
    SettledMeansUntouched(Reevaluated(once, v).value, v);
  }

  /** The comment on the table calls `authorise` the only way into AUTHORISED, but the table
      itself also admits a restore; the engine never asks for that one, because no vector
      targets AUTHORISED and no walk rests there. */
  lemma AuthorisedEdges(source: LifecycleState, event: Event, v: Vector, r: nat)
    requires r <= 6
    ensures IsLegal(source, event, Authorised) <==>
            (event.Authorise? && source.PendingAuthorisation?) || (event.Restore? && source.Held?)
    ensures !Target(v).Authorised? && !AtRank(RestRank(v, r)).Authorised?
  {
  }
}
