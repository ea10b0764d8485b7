/** The lifecycle engine on the database (app/services/lifecycle_service.py): the only writer of
    a use case's state, its held hint and its transition log. */
module LifecycleService {
  import opened Vocabulary
  import opened Lifecycle
  import opened Store
  import opened Gates

  // --- What the calls leave behind -------------------------------------------------------

  /** A transition decided on the state `read`: refused when illegal, and refused without effect
      when the use case has left that state meanwhile. */
  function Transitioned(d: Db, u: Id, read: LifecycleState, event: Event, target: LifecycleState): Reply
    requires u in d.useCases
  {
    if !IsLegal(read, event, target) then Refuse(d, IllegalTransition)
    else if d.useCases[u].cursor.state != read then Refuse(d, Conflict)
    else Done(WithCursor(d, u, Hop(d.useCases[u].cursor, event, target)))
  }

  ghost function AutoAdvanced(d: Db, u: Id): Db
    requires u in d.useCases
  {
    WithCursor(d, u, Advanced(d.useCases[u].cursor, FullVector(d, u)))
  }

  ghost function ReEvaluated(d: Db, u: Id): Reply
    requires u in d.useCases
  {
    match Reevaluated(d.useCases[u].cursor, FullVector(d, u))
    case Some(c) => Done(WithCursor(d, u, c))
    case None => Refuse(d, MissingRank)
  }

  /** The fan-out worker loop: one re-evaluation per identifier, skipping deleted rows and
      stopping at the first failure. */
  ghost function FannedOut(d: Db, ids: seq<Id>): (r: Reply)
    ensures r.db.useCases.Keys == d.useCases.Keys && r.db == d.(useCases := r.db.useCases)
  {
    if |ids| == 0 then Done(d)
    else
      var before := FannedOut(d, ids[..|ids| - 1]);
      if before.error.Some? || ids[|ids| - 1] !in d.useCases then before
      else ReEvaluated(before.db, ids[|ids| - 1])
  }

  // --- The calls -------------------------------------------------------------------------

  method ApplyTransition(s: Session, u: Id, read: LifecycleState, event: Event, target: LifecycleState)
    returns (error: Option<Error>)
    requires u in s.useCases
    modifies s
    ensures s.Tables() == Transitioned(old(s.Tables()), u, read, event, target).db
    ensures error == Transitioned(old(s.Tables()), u, read, event, target).error
  {
    if !IsLegal(read, event, target) {
      return Some(IllegalTransition);
    }
    var cursor := s.useCases[u].cursor;
    if cursor.state != read {
      return Some(Conflict);
    }
    cursor := cursor.(state := target);
    if event.Hold? {
      cursor := cursor.(heldFrom := Some(read));
    } else if read.Held? {
      cursor := cursor.(heldFrom := None);
    }
    cursor := cursor.(log := cursor.log + [Edge(read, event, target)]);
    s.useCases := s.useCases[u := s.useCases[u].(cursor := cursor)];
    error := None;
  }

  /** The query for the AIIA of a use case: any row that fits. */
  method FindAiia(s: Session, u: Id) returns (aiia: Option<Id>)
    requires OneAiia(s.assessments)
    ensures aiia == AiiaOf(s.assessments, u)
  {
    if exists a | a in s.assessments :: IsAiiaOf(s.assessments, u, a) {
      var a :| a in s.assessments && IsAiiaOf(s.assessments, u, a);
      aiia := Some(a);
    } else {
      aiia := None;
    }
  }

  /** The gate guarding the current resting state; None where none is wired. */
  function GateForState(d: Db, u: Id, aiia: Option<Id>): Option<GateResult>
    requires u in d.useCases && (aiia.Some? ==> aiia.value in d.assessments)
  {
    match d.useCases[u].cursor.state
    case Requested => Some(GateResult(Advances, NotApplicableHere))
    case VendorCheck => Some(VendorGate(d, u))
    case ProductCheck => Some(ProductGate(d, u))
    case Intake => Some(ClassificationReadiness(d, u))
    case UnderAssessment => Some(AssessmentGate(d, u, aiia))
    case TreatmentPending => Some(TreatmentGate(d, u))
    case _ => None
  }

  method AdvanceUseCase(s: Session, u: Id)
    requires u in s.useCases && OneAiia(s.assessments)
    modifies s
    ensures s.Tables() == AutoAdvanced(old(s.Tables()), u)
  {
    if !s.useCases[u].cursor.state.HaltedProhibited? {
      var readiness := ClassificationReadiness(s.Tables(), u);
      if readiness.verdict.Halts? {
        var error := ApplyTransition(s, u, s.useCases[u].cursor.state, Halt, HaltedProhibited);
        assert error.None?;
        return;
      }
    }
    WalkGates(s, u);
  }

  /** One round of the walk: the gate of the current state is evaluated on the database as it is,
      and the use case crosses it if it advances. */
  method CrossGate(s: Session, u: Id) returns (crossed: bool)
    requires u in s.useCases && OneAiia(s.assessments)
    modifies s
    ensures var d := old(s.Tables()); var c := d.useCases[u].cursor;
            && (crossed <==> Ranked(c.state) && StepsOff(FullVector(d, u), Rank(c.state).value))
            && (crossed ==> Rank(c.state).value < 6)
            && s.Tables() == if crossed then WithCursor(d, u, Climb(c, Rank(c.state).value + 1)) else d
  {
    var state := s.useCases[u].cursor.state;
    var aiia := FindAiia(s, u);
    var gate := GateForState(s.Tables(), u, aiia);
    GateOfRank(s.Tables(), u);
    if gate.None? || !gate.value.verdict.Advances? {
      return false;
    }
    ClimbOnce(s.useCases[u].cursor);
    var error := ApplyTransition(s, u, state, if state.Requested? then Created else Advance, Successor(state).value);
    assert error.None?;
    crossed := true;
  }

  /** The cursor when the walk has reached rank `n`. */
  function Partway(c: Cursor, n: nat): Cursor {
    if Ranked(c.state) && Rank(c.state).value <= n <= 6 then Climb(c, n) else c
  }

  /** What a round of the walk starts from and, if it crosses, ends with. */
  lemma OneRound(d: Db, u: Id, n: nat)
    requires u in d.useCases && n <= 6
    ensures var c := d.useCases[u].cursor; var e := WithCursor(d, u, Partway(c, n));
            && FullVector(e, u) == FullVector(d, u)
            && (Ranked(c.state) && Rank(c.state).value <= n < 6 ==>
                  WithCursor(e, u, Climb(Partway(c, n), n + 1)) == WithCursor(d, u, Partway(c, n + 1)))
  {
    var c := d.useCases[u].cursor;
    GatesIgnoreCursors(d, u, Partway(c, n), u);
    if Ranked(c.state) && Rank(c.state).value <= n < 6 {
      ClimbFurther(c, n);
      OverwriteCursor(d, u, Climb(c, n), Climb(c, n + 1));
    }
  }

  /** The walk: cross one gate after another until the first that does not advance, or the ceiling. */
  method WalkGates(s: Session, u: Id)
    requires u in s.useCases && OneAiia(s.assessments)
    modifies s
    ensures s.Tables() == WithCursor(old(s.Tables()), u, Walked(old(s.useCases[u].cursor), FullVector(old(s.Tables()), u)))
  {
    hide FullVector, RestRank, StepsOff, Ladder;
    ghost var d := s.Tables();
    ghost var v, c := FullVector(d, u), d.useCases[u].cursor;
    ghost var start: nat := if Ranked(c.state) then Rank(c.state).value else 0;
    ghost var here: nat := start;
    SameCursor(d, u);
    if Ranked(c.state) { ClimbNowhere(c); }
    var crossed := true;
    while crossed
      invariant start <= here <= 6
      invariant s.Tables() == WithCursor(d, u, Partway(c, here))
      invariant Ranked(c.state) ==> forall k | start <= k < here :: StepsOff(v, k)
      invariant !crossed && Ranked(c.state) ==> !StepsOff(v, here)
      decreases 6 - here, crossed
    {
      OneRound(d, u, here);
      assert u in s.Tables().useCases && s.Tables().assessments == d.assessments;
      crossed := CrossGate(s, u);
      if crossed {
        here := here + 1;
      }
    }
    if Ranked(c.state) { RestRankIsWhereTheWalkStops(v, start, here); }
  }

  /** First non-advance entry of the vector, walked in order. */
  method TargetFromVector(results: seq<GateResult>, ghost v: Vector)
    returns (target: LifecycleState, blocking: Option<GateResult>)
    requires |results| == 6 && forall k | 0 <= k < 6 :: results[k].verdict == v[k]
    ensures target == Target(v) && (blocking.None? <==> AllPass(v))
    ensures blocking.Some? ==> blocking.value in results && !blocking.value.verdict.Advances?
  {
    for k := 0 to 6
      invariant FirstBlock(v, 0) == FirstBlock(v, k)
      invariant forall j | 0 <= j < k :: v[j].Advances?
    {
      if !results[k].verdict.Advances? {
        return AtRank(k + 1), Some(results[k]);
      }
    }
    return PendingAuthorisation, None;
  }

  /** The manual lever and the fan-out's worker. */
  method ReEvaluate(s: Session, u: Id) returns (error: Option<Error>)
    requires u in s.useCases && OneAiia(s.assessments)
    modifies s
    ensures s.Tables() == ReEvaluated(old(s.Tables()), u).db
    ensures error == ReEvaluated(old(s.Tables()), u).error
  {
    SameCursor(s.Tables(), u);
    var state := s.useCases[u].cursor.state;
    if state.HaltedProhibited? {
      return None;
    }
    var readiness := ClassificationReadiness(s.Tables(), u);
    if readiness.verdict.Halts? {
      error := ApplyTransition(s, u, state, Halt, HaltedProhibited);
      return;
    }
    error := MoveToRest(s, u);
  }

  /** The part of the re-evaluation below the halt rule: restore, keep, advance or hold. */
  method MoveToRest(s: Session, u: Id) returns (error: Option<Error>)
    requires u in s.useCases && OneAiia(s.assessments)
    requires !s.useCases[u].cursor.state.HaltedProhibited? && !FullVector(s.Tables(), u)[2].Halts?
    modifies s
    ensures s.Tables() == ReEvaluated(old(s.Tables()), u).db
    ensures error == ReEvaluated(old(s.Tables()), u).error
  {
    var state := s.useCases[u].cursor.state;
    var aiia := FindAiia(s, u);
    ghost var v := FullVector(s.Tables(), u);
    var target, blocking := TargetFromVector(GateResults(s.Tables(), u, aiia), v);
    if state.Held? {
      error := ApplyTransition(s, u, state, Restore, target);
    } else if state.Authorised? {
      error := KeepOrHold(s, u, blocking.None?);
    } else if Rank(state).None? {
      error := Some(MissingRank);
    } else if Rank(target).value > Rank(state).value {
      AdvanceUseCase(s, u);
      error := None;
    } else {
      error := KeepOrHold(s, u, Rank(target).value == Rank(state).value);
    }
  }

  /** An already-passed gate has lapsed, or nothing has. */
  method KeepOrHold(s: Session, u: Id, keep: bool) returns (error: Option<Error>)
    requires u in s.useCases && Rank(s.useCases[u].cursor.state).Some? && !FullVector(s.Tables(), u)[2].Halts?
    requires keep <==> s.useCases[u].cursor.state == Settled(s.useCases[u].cursor.state, FullVector(s.Tables(), u))
    requires !keep ==> Regresses(s.useCases[u].cursor.state, FullVector(s.Tables(), u))
    modifies s
    ensures s.Tables() == ReEvaluated(old(s.Tables()), u).db
    ensures error == ReEvaluated(old(s.Tables()), u).error
  {
    if keep {
      SettledMeansUntouched(s.useCases[u].cursor, FullVector(s.Tables(), u));
      SameCursor(s.Tables(), u);
      return None;
    }
    error := ApplyTransition(s, u, s.useCases[u].cursor.state, Hold, Held);
  }

  method FanOut(s: Session, ids: seq<Id>) returns (error: Option<Error>)
    requires OneAiia(s.assessments)
    modifies s
    ensures s.Tables() == FannedOut(old(s.Tables()), ids).db
    ensures error == FannedOut(old(s.Tables()), ids).error
  {
    ghost var d := s.Tables();
    error := None;
    for k := 0 to |ids|
      invariant s.Tables() == FannedOut(d, ids[..k]).db && error.None? && FannedOut(d, ids[..k]).error.None?
      invariant OneAiia(s.assessments)
    {
      assert ids[..k + 1][..k] == ids[..k];
      if ids[k] in s.useCases {
        error := ReEvaluate(s, ids[k]);
        if error.Some? {
          FailureStopsTheFanOut(d, ids, k + 1);
          return;
        }
      }
    }
    assert ids[..|ids|] == ids;
  }

  // --- Lemmas about the specifications ----------------------------------------------------

  /** The gate wired to a resting state is the vector's entry for its rank, and none is wired to
      the ceiling or to a state without a rank. */
  lemma GateOfRank(d: Db, u: Id)
    requires u in d.useCases
    ensures var gate, rank := GateForState(d, u, AiiaOf(d.assessments, u)), Rank(d.useCases[u].cursor.state);
            gate.Some? && gate.value.verdict.Advances? <==>
            rank.Some? && rank.value <= 5 && StepsOff(FullVector(d, u), rank.value)
  {
  }

  lemma SameCursor(d: Db, u: Id)
    requires u in d.useCases
    ensures WithCursor(d, u, d.useCases[u].cursor) == d
  {
  }

  lemma OverwriteCursor(d: Db, u: Id, c: Cursor, c': Cursor)
    requires u in d.useCases
    ensures WithCursor(WithCursor(d, u, c), u, c') == WithCursor(d, u, c')
  {
  }

  lemma {:induction false} FailureStopsTheFanOut(d: Db, ids: seq<Id>, k: nat)
    requires k <= |ids| && FannedOut(d, ids[..k]).error.Some?
    ensures FannedOut(d, ids) == FannedOut(d, ids[..k])
    decreases |ids| - k
  {
    if k == |ids| {
      assert ids[..k] == ids;
    } else {
      assert ids[..k + 1][..k] == ids[..k];
      FailureStopsTheFanOut(d, ids, k + 1);
    }
  }

  /** With the gates and the clock left alone, two calls reach the settled state of the vector and
      a third writes nothing at all. */
  lemma ReEvaluateConverges(d: Db, u: Id)
    requires u in d.useCases && Live(d.useCases[u].cursor.state)
    ensures var once := ReEvaluated(d, u);
            var twice := ReEvaluated(once.db, u);
            && once.error.None? && twice.error.None?
            && twice.db.useCases[u].cursor.state == Settled(d.useCases[u].cursor.state, FullVector(d, u))
            && ReEvaluated(twice.db, u) == Done(twice.db)
  {
    var c, v := d.useCases[u].cursor, FullVector(d, u);
    TwoCallsSettle(c, v);
    var c1 := Reevaluated(c, v).value;
    var c2 := Reevaluated(c1, v).value;
    GatesIgnoreCursors(d, u, c1, u);
    OverwriteCursor(d, u, c1, c2);
    GatesIgnoreCursors(d, u, c2, u);
    OverwriteCursor(d, u, c2, c2);
  }

  // --- Fan-out ----------------------------------------------------------------------------

  /** How often `u` occurs in `ids`. */
  function Occurrences(ids: seq<Id>, u: Id): nat {
    if |ids| == 0 then 0 else Occurrences(ids[..|ids| - 1], u) + if ids[|ids| - 1] == u then 1 else 0
  }

  /** The cursor after that many re-evaluations against a fixed vector: the third changes nothing. */
  function After(c: Cursor, v: Vector, times: nat): (r: Cursor)
    requires Live(c.state)
    ensures Live(r.state)
  {
    TwoCallsSettle(c, v);
    ReevaluationIsTotalOnLive(c, v);
    var once := Reevaluated(c, v).value;
    ReevaluationIsTotalOnLive(once, v);
    if times == 0 then c else if times == 1 then once else Reevaluated(once, v).value
  }

  predicate AllLive(d: Db) {
    forall u | u in d.useCases :: Live(d.useCases[u].cursor.state)
  }

  /** Any sequence of re-evaluations, that is any concatenation of interrupted, reordered or
      repeated fan-outs, never fails; it moves each use case by the number of its own occurrences
      alone and changes no gate vector. */
  lemma {:induction false} FanOutIsPointwise(d: Db, ids: seq<Id>, u: Id)
    requires AllLive(d) && u in d.useCases
    ensures FannedOut(d, ids).error.None?
    ensures FannedOut(d, ids).db.useCases[u] ==
            d.useCases[u].(cursor := After(d.useCases[u].cursor, FullVector(d, u), Occurrences(ids, u)))
    ensures FullVector(FannedOut(d, ids).db, u) == FullVector(d, u)
  {
    if |ids| > 0 {
      var front, last := ids[..|ids| - 1], ids[|ids| - 1];
      FanOutIsPointwise(d, front, u);
      if last in d.useCases {
        FanOutIsPointwise(d, front, last);
        var e := FannedOut(d, front).db;
        var c := e.useCases[last].cursor;
        TwoCallsSettle(d.useCases[last].cursor, FullVector(d, last));
        ReevaluationIsTotalOnLive(c, FullVector(d, last));
        GatesIgnoreCursors(e, last, Reevaluated(c, FullVector(d, last)).value, u);
      }
    }
  }

  /** Crash tolerance: once a use case has been re-evaluated at least twice it rests at the state
      its vector settles on, whatever the order, the repetitions and the interruptions; a use case
      never re-evaluated is untouched; and re-evaluating a settled one again writes nothing. */
  lemma FanOutSettles(d: Db, ids: seq<Id>, u: Id)
    requires AllLive(d) && u in d.useCases
    ensures Occurrences(ids, u) >= 2 ==>
              var e := FannedOut(d, ids).db;
              && e.useCases[u].cursor.state == Settled(d.useCases[u].cursor.state, FullVector(d, u))
              && ReEvaluated(e, u) == Done(e)
    ensures Occurrences(ids, u) == 0 ==> FannedOut(d, ids).db.useCases[u] == d.useCases[u]
  {
    FanOutIsPointwise(d, ids, u);
    TwoCallsSettle(d.useCases[u].cursor, FullVector(d, u));
    SameCursor(FannedOut(d, ids).db, u);
  }

  /** Order and multiplicity beyond two are irrelevant. */
  lemma FanOutOrderIsIrrelevant(d: Db, ids: seq<Id>, ids': seq<Id>)
    requires AllLive(d)
    requires forall u | u in d.useCases ::
               Occurrences(ids, u) == Occurrences(ids', u) || (Occurrences(ids, u) >= 2 && Occurrences(ids', u) >= 2)
    ensures FannedOut(d, ids) == FannedOut(d, ids')
  {
    var e, e' := FannedOut(d, ids), FannedOut(d, ids');
    forall u | u in d.useCases ensures e.db.useCases[u] == e'.db.useCases[u] {
      FanOutIsPointwise(d, ids, u);
      FanOutIsPointwise(d, ids', u);
    }
    NeverFails(d, ids);
    NeverFails(d, ids');
    assert e.db.useCases == e'.db.useCases;
  }

  lemma {:induction false} NeverFails(d: Db, ids: seq<Id>)
    requires AllLive(d)
    ensures FannedOut(d, ids).error.None?
  {
    if |ids| > 0 {
      var front, last := ids[..|ids| - 1], ids[|ids| - 1];
      NeverFails(d, front);
      if last in d.useCases { FanOutIsPointwise(d, ids, last); }
    }
  }

  /** A run over distinct use cases changes a use case again on the second pass exactly when it
      regressed: the first pass held it and the second restores it. */
  lemma SecondPass(d: Db, ids: seq<Id>, u: Id)
    requires AllLive(d) && AllLive(FannedOut(d, ids).db) && u in d.useCases && Occurrences(ids, u) <= 1
    ensures var once := FannedOut(d, ids).db;
            FannedOut(once, ids).db.useCases[u] == once.useCases[u] <==>
            Occurrences(ids, u) == 0 || !Regresses(d.useCases[u].cursor.state, FullVector(d, u))
  {
    hide FullVector, FannedOut;
    var once := FannedOut(d, ids).db;
    var c, v := d.useCases[u].cursor, FullVector(d, u);
    FanOutIsPointwise(d, ids, u);
    FanOutIsPointwise(once, ids, u);
    hide Occurrences;
    if Occurrences(ids, u) == 1 {
      SettledIsStable(c, v);
      ReevaluationIsTotalOnLive(c, v);
      SettledMeansUntouched(Reevaluated(c, v).value, v);
    }
  }

  /** The fan-out is documented as idempotent. A run over distinct use cases is, exactly when none
      of them regresses. */
  lemma FanOutIsIdempotentIff(d: Db, ids: seq<Id>)
    requires AllLive(d) && forall u :: Occurrences(ids, u) <= 1
    ensures var once := FannedOut(d, ids);
            FannedOut(once.db, ids) == once <==>
            forall u | u in d.useCases && Occurrences(ids, u) == 1 ::
              !Regresses(d.useCases[u].cursor.state, FullVector(d, u))
  {
    hide FullVector, FannedOut, Regresses, Occurrences, Live;
    var once := FannedOut(d, ids).db;
    forall u | u in d.useCases ensures Live(once.useCases[u].cursor.state) { FanOutIsPointwise(d, ids, u); }
    var twice := FannedOut(once, ids).db;
    forall u | u in d.useCases
      ensures twice.useCases[u] == once.useCases[u] <==>
              Occurrences(ids, u) == 0 || !Regresses(d.useCases[u].cursor.state, FullVector(d, u))
    {
      SecondPass(d, ids, u);
    }
    NeverFails(d, ids);
    NeverFails(once, ids);
    assert twice.useCases == once.useCases <==> forall u | u in d.useCases :: twice.useCases[u] == once.useCases[u];
  }
}
