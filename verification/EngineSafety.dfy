/** The engine and the classification writers keep the invariant, and move the database on. */
module EngineSafety {
  import opened Vocabulary
  import opened Lifecycle
  import opened Store
  import opened Gates
  import opened Counting
  import opened Invariants
  import opened LifecycleService
  import opened ClassificationService

  // --- The engine ---------------------------------------------------------------------------

  /** A move of the engine: the log grows and still replays, nothing enters AUTHORISED, and a
      halted use case stays put. */
  predicate Moves(p: Cursor, q: Cursor) {
    && Replayed(q.log) == Some(q) && Entries(q.log) == Entries(p.log)
    && p.log <= q.log && (p.state.HaltedProhibited? ==> q == p)
  }

  lemma HopReplays(c: Cursor, event: Event, target: LifecycleState)
    requires Replayed(c.log) == Some(c) && Admissible(c.state, event, target)
    ensures var q := Hop(c, event, target);
            && Replayed(q.log) == Some(q) && Entries(q.log) == Entries(c.log) + (if target.Authorised? then 1 else 0)
            && c.log <= q.log && !c.state.HaltedProhibited?
  {
  }

  lemma RungIsAdmissible(n: nat)
    requires n < 6
    ensures Admissible(AtRank(n), HopEvent(n), AtRank(n + 1)) && !AtRank(n + 1).Authorised?
  {
  }

  lemma {:induction false} ClimbMoves(c: Cursor, n: nat)
    requires Replayed(c.log) == Some(c) && Ranked(c.state) && Rank(c.state).value <= n <= 6
    ensures Moves(c, Climb(c, n))
    decreases n
  {
    hide Replayed, Admissible, Hop, HopEvent, Ladder;
    if Rank(c.state).value == n {
      ClimbNowhere(c);
    } else {
      ClimbMoves(c, n - 1);
      ClimbOneMore(c, n - 1);
      RungIsAdmissible(n - 1);
      HopReplays(Climb(c, n - 1), HopEvent(n - 1), AtRank(n));
    }
  }

  lemma AdvancedMoves(c: Cursor, v: Vector)
    requires Replayed(c.log) == Some(c)
    ensures Moves(c, Advanced(c, v))
  {
    if !c.state.HaltedProhibited? && v[2].Halts? {
      HopReplays(c, Halt, HaltedProhibited);
    } else if Ranked(c.state) {
      ClimbMoves(c, RestRank(v, Rank(c.state).value));
    }
  }

  /** Replaying never reaches DEPLOYED or RETIRED, and the held hint is set exactly in HELD, where
      it names the state that the last hop left. */
  lemma {:induction false} ReplayedCursor(log: seq<Edge>)
    ensures var c := Replayed(log);
            c.Some? ==>
              && Live(c.value.state) && c.value.log == log
              && (c.value.heldFrom.Some? <==> c.value.state.Held?)
              && (c.value.state.Held? ==> |log| > 0 && c.value.heldFrom == Some(log[|log| - 1].source))
  {
    if |log| > 0 {
      ReplayedCursor(log[..|log| - 1]);
      assert log == log[..|log| - 1] + [log[|log| - 1]];
    }
  }

  lemma ReevaluatedMoves(c: Cursor, v: Vector)
    requires Replayed(c.log) == Some(c)
    ensures Reevaluated(c, v).Some? && Moves(c, Reevaluated(c, v).value)
  {
    hide Replayed, Advanced, Hop;
    ReplayedCursor(c.log);
    if c.state.HaltedProhibited? {
    } else if v[2].Halts? {
      HopReplays(c, Halt, HaltedProhibited);
    } else if c.state.Held? {
      HopReplays(c, Restore, Target(v));
    } else if Regresses(c.state, v) {
      HopReplays(c, Hold, Held);
    } else {
      AdvancedMoves(c, v);
    }
  }

  /** The only place where prohibition can be open is use case `u`. */
  predicate HaltedBut(d: Db, u: Id) {
    forall w {:trigger HaltOk(d.useCases[w])} | w in d.useCases && w != u :: HaltOk(d.useCases[w])
  }

  /** The table of use cases with one row moved on, or one more row. */
  lemma RowTableOk(p: map<Id, UseCase>, u: Id, row: UseCase, atos: seq<Ato>, systems: set<Id>, n: nat)
    requires CursorsOk(p, atos) && VersionsOk(p) && SystemsOk(p, systems)
    requires CursorOk(row.cursor, AtosOf(atos, u)) && SnapshotsOk(row.classifications) && row.system in systems
    requires if u in p then UseCaseEvolves(p[u], row) else u >= n
    ensures var q := p[u := row]; CursorsOk(q, atos) && VersionsOk(q) && SystemsOk(q, systems) && UseCasesEvolve(p, q, n)
  {
    var q := p[u := row];
    forall w | w in q
      ensures CursorOk(q[w].cursor, AtosOf(atos, w)) && SnapshotsOk(q[w].classifications) && (w in p ==> UseCaseEvolves(p[w], q[w]))
    {
      if w != u { assert CursorOk(p[w].cursor, AtosOf(atos, w)) && SnapshotsOk(p[w].classifications); }
    }
  }

  /** One use case's row moves on. */
  lemma RowKeeps(d: Db, u: Id, row: UseCase)
    requires Consistent(d) && u in d.useCases && HaltedBut(d, u) && UseCaseEvolves(d.useCases[u], row)
    requires CursorOk(row.cursor, AtosOf(d.atos, u)) && SnapshotsOk(row.classifications)
    ensures var e := WithRow(d, u, row);
            Consistent(e) && HaltedBut(e, u) && Evolves(d, e) && (HaltOk(row) ==> Inv(e))
  {
    var e := WithRow(d, u, row);
    RowTableOk(d.useCases, u, row, d.atos, d.world.systems.Keys, d.nextId);
    EvolvesIsReflexive(d);
    hide CursorsOk, VersionsOk, SystemsOk, UseCasesEvolve, AssessmentsEvolve, ItemsEvolve;
    assert e.useCases.Keys == d.useCases.Keys;
    forall w | w in d.useCases && w != u ensures HaltOk(e.useCases[w]) { assert HaltOk(d.useCases[w]); }
  }

  lemma CursorMoveKeeps(d: Db, u: Id, c: Cursor)
    requires Consistent(d) && u in d.useCases && HaltedBut(d, u) && Moves(d.useCases[u].cursor, c)
    requires HaltOk(d.useCases[u].(cursor := c))
    ensures Inv(WithCursor(d, u, c)) && Evolves(d, WithCursor(d, u, c))
  {
    assert CursorOk(d.useCases[u].cursor, AtosOf(d.atos, u)) && SnapshotsOk(d.useCases[u].classifications);
    RowKeeps(d, u, d.useCases[u].(cursor := c));
  }

  lemma AutoAdvanceKeeps(d: Db, u: Id)
    requires Consistent(d) && u in d.useCases && HaltedBut(d, u)
    ensures Inv(AutoAdvanced(d, u)) && Evolves(d, AutoAdvanced(d, u))
  {
    var c := d.useCases[u].cursor;
    assert CursorOk(c, AtosOf(d.atos, u));
    AdvancedMoves(c, FullVector(d, u));
    CursorMoveKeeps(d, u, Advanced(c, FullVector(d, u)));
  }

  lemma ReEvaluateKeeps(d: Db, u: Id)
    requires Inv(d) && u in d.useCases
    ensures ReEvaluated(d, u).error.None?
    ensures Inv(ReEvaluated(d, u).db) && Evolves(d, ReEvaluated(d, u).db)
  {
    var c := d.useCases[u].cursor;
    assert CursorOk(c, AtosOf(d.atos, u)) && HaltOk(d.useCases[u]);
    ReevaluatedMoves(c, FullVector(d, u));
    CursorMoveKeeps(d, u, Reevaluated(c, FullVector(d, u)).value);
  }

  // --- Classification -----------------------------------------------------------------------

  lemma {:induction false} LatestIsCount(cs: seq<Classification>)
    requires forall k | 0 <= k < |cs| :: cs[k].version == k + 1
    ensures LatestVersion(cs) == |cs|
  {
    if |cs| > 0 { LatestIsCount(cs[..|cs| - 1]); }
  }

  lemma {:induction false} NewestIsCurrent(cs: seq<Classification>)
    requires forall k | 0 <= k < |cs| :: cs[k].isCurrent <==> k == |cs| - 1
    ensures CurrentSnapshot(cs) == if |cs| == 0 then None else Some(cs[|cs| - 1])
  {
  }

  lemma SnapshotKeeps(d: Db, u: Id, tier: Tier, status: ClassificationStatus, stamp: bool)
    requires Consistent(d) && u in d.useCases && HaltedBut(d, u)
    ensures var e := Snapshotted(d, u, tier, status, stamp); Inv(e) && Evolves(d, e)
  {
    var row := WithSnapshot(d.useCases[u], tier, status, stamp);
    assert CursorOk(d.useCases[u].cursor, AtosOf(d.atos, u)) && SnapshotsOk(d.useCases[u].classifications);
    LatestIsCount(d.useCases[u].classifications);
    RowKeeps(d, u, row);
    AutoAdvanceKeeps(WithRow(d, u, row), u);
    EvolvesIsTransitive(d, WithRow(d, u, row), Snapshotted(d, u, tier, status, stamp));
  }

  lemma NewUseCaseKeeps(d: Db, system: Id, categories: seq<bool>)
    requires Inv(d) && system in d.world.systems
    ensures var e := WithNewUseCase(d, system, categories); Consistent(e) && HaltedBut(e, d.nextId) && Evolves(d, e)
  {
    var e := WithNewUseCase(d, system, categories);
    forall t | t in d.atos ensures t.useCase != d.nextId {
      assert AtoOk(d.assessments, t);
      assert RowOk(d.assessments, d.useCases.Keys, d.assessments[t.assessment]);
    }
    AtosExist(d.atos, d.nextId);
    forall a | a in d.assessments ensures RowOk(d.assessments, e.useCases.Keys, d.assessments[a]) {
      assert RowOk(d.assessments, d.useCases.Keys, d.assessments[a]);
    }
    RowTableOk(d.useCases, d.nextId, e.useCases[d.nextId], d.atos, d.world.systems.Keys, d.nextId);
    EvolvesIsReflexive(d);
    hide CursorsOk, VersionsOk, SystemsOk, UseCasesEvolve, AssessmentsEvolve, ItemsEvolve;
    forall w | w in d.useCases ensures HaltOk(e.useCases[w]) { assert HaltOk(d.useCases[w]); }
  }

  lemma RegisterKeeps(d: Db, system: Id, categories: seq<bool>, tier: Tier, status: ClassificationStatus, stamp: bool)
    requires Inv(d)
    ensures var e := Registered(d, system, categories, tier, status, stamp).db; Inv(e) && Evolves(d, e)
  {
    EvolvesIsReflexive(d);
    if system in d.world.systems {
      var e := WithNewUseCase(d, system, categories);
      NewUseCaseKeeps(d, system, categories);
      SnapshotKeeps(e, d.nextId, tier, status, stamp);
      EvolvesIsTransitive(d, e, Snapshotted(e, d.nextId, tier, status, stamp));
    }
  }

  lemma SignOffKeeps(d: Db, u: Id)
    requires Inv(d)
    ensures Inv(SignedOffBy(d, u).db) && Evolves(d, SignedOffBy(d, u).db)
  {
    EvolvesIsReflexive(d);
    if SignedOffBy(d, u).error.None? {
      var row := d.useCases[u];
      var tier := CurrentSnapshot(row.classifications).value.tier;
      var row' := row.(classifications := SignOffCurrent(row.classifications), euTier := tier);
      assert CursorOk(row.cursor, AtosOf(d.atos, u)) && SnapshotsOk(row.classifications) && Fresh(d);
      hide Consistent, Evolves, CursorOk;
      RowKeeps(d, u, row');
      AutoAdvanceKeeps(WithRow(d, u, row'), u);
      EvolvesIsTransitive(d, WithRow(d, u, row'), SignedOffBy(d, u).db);
    }
  }
}
