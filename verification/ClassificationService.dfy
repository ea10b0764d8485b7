/** The two writers of classification snapshots (app/services/classification.py and
    app/services/context_classification.py) and the reviewer's sign-off. */
module ClassificationService {
  import opened Vocabulary
  import opened Lifecycle
  import opened Store
  import opened Gates
  import opened LifecycleService
  import ContextResolver

  // --- What the calls leave behind -------------------------------------------------------

  function Unflagged(cs: seq<Classification>): (r: seq<Classification>)
    ensures |r| == |cs| && forall k | 0 <= k < |cs| :: r[k] == cs[k].(isCurrent := false)
  {
    seq(|cs|, k requires 0 <= k < |cs| => cs[k].(isCurrent := false))
  }

  /** The highest version so far, 0 when there is none. */
  function LatestVersion(cs: seq<Classification>): nat {
    if |cs| == 0 then 0
    else
      var before := LatestVersion(cs[..|cs| - 1]);
      if cs[|cs| - 1].version > before then cs[|cs| - 1].version else before
  }

  /** The use case with one more snapshot, now the only current one. */
  function WithSnapshot(row: UseCase, tier: Tier, status: ClassificationStatus, stamp: bool): UseCase {
    var cs := row.classifications;
    row.(classifications := Unflagged(cs) + [Classification(tier, LatestVersion(cs) + 1, true, status)],
         euTier := if stamp then tier else row.euTier)
  }

  function WithRow(d: Db, u: Id, row: UseCase): Db {
    d.(useCases := d.useCases[u := row])
  }

  ghost function Snapshotted(d: Db, u: Id, tier: Tier, status: ClassificationStatus, stamp: bool): Db
    requires u in d.useCases
  {
    AutoAdvanced(WithRow(d, u, WithSnapshot(d.useCases[u], tier, status, stamp)), u)
  }

  const NEW_CURSOR := Cursor(Requested, None, [])

  /** A fresh use case, not yet classified. */
  function WithNewUseCase(d: Db, system: Id, categories: seq<bool>): Db {
    WithRow(d, d.nextId, UseCase(system, Unclassified, categories, NEW_CURSOR, [])).(nextId := d.nextId + 1)
  }

  /** A use case registered and classified in one transaction. */
  ghost function Registered(d: Db, system: Id, categories: seq<bool>, tier: Tier, status: ClassificationStatus, stamp: bool): Reply {
    if system !in d.world.systems then Refuse(d, NotFound)
    else Done(Snapshotted(WithNewUseCase(d, system, categories), d.nextId, tier, status, stamp))
  }

  /** An override is stored only when it differs from the computed tier. */
  function StoredTier(computed: Tier, override: Option<Tier>): Tier {
    if override.Some? then override.value else computed
  }

  /** The context path: nothing is written while unresolved; otherwise a snapshot that does not
      stamp the use case's tier. */
  ghost function ContextRecorded(d: Db, u: Id, outcome: ContextResolver.Resolution, override: Option<Tier>): Reply {
    if u !in d.useCases then Refuse(d, NotFound)
    else if outcome.Failed? then Refuse(d, outcome.error)
    else if outcome.kind.Unresolved? || outcome.tier.None? then Done(d)
    else
      var stored := StoredTier(outcome.tier.value, override);
      if !Storable(stored) then Refuse(d, if stored != outcome.tier.value then Unprocessable else Internal)
      else Done(Snapshotted(d, u, stored, PendingReview, false))
  }

  function SignOffCurrent(cs: seq<Classification>): (r: seq<Classification>)
    ensures |r| == |cs|
    ensures forall k | 0 <= k < |cs| :: r[k] == if cs[k].isCurrent then cs[k].(status := SignedOff) else cs[k]
  {
    seq(|cs|, k requires 0 <= k < |cs| => if cs[k].isCurrent then cs[k].(status := SignedOff) else cs[k])
  }

  /** Sign-off ratifies the current snapshot's tier on the use case. */
  ghost function SignedOffBy(d: Db, u: Id): Reply {
    if u !in d.useCases then Refuse(d, NotFound)
    else
      var row := d.useCases[u];
      var snapshot := CurrentSnapshot(row.classifications);
      if snapshot.None? then Refuse(d, NotFound)
      else if !snapshot.value.status.PendingReview? then Refuse(d, Conflict)
      else
        var row' := row.(classifications := SignOffCurrent(row.classifications), euTier := snapshot.value.tier);
        Done(AutoAdvanced(WithRow(d, u, row'), u))
  }

  // --- The calls -------------------------------------------------------------------------

  method NextVersion(cs: seq<Classification>) returns (version: nat)
    ensures version == LatestVersion(cs) + 1
  {
    var latest := 0;
    for k := 0 to |cs|
      invariant latest == LatestVersion(cs[..k])
    {
      assert cs[..k + 1][..k] == cs[..k];
      if cs[k].version > latest {
        latest := cs[k].version;
      }
    }
    assert cs[..|cs|] == cs;
    version := latest + 1;
  }

  /** The row with the prior snapshot unset and the new one inserted. */
  method InsertSnapshot(before: UseCase, tier: Tier, status: ClassificationStatus, stamp: bool) returns (row: UseCase)
    ensures row == WithSnapshot(before, tier, status, stamp)
  {
    row := before;
    var version := NextVersion(row.classifications);
    row := row.(classifications := Unflagged(row.classifications));
    row := row.(classifications := row.classifications + [Classification(tier, version, true, status)]);
    if stamp {
      row := row.(euTier := tier);
    }
  }

  method SnapshotClassification(s: Session, u: Id, tier: Tier, status: ClassificationStatus, stamp: bool)
    requires u in s.useCases && OneAiia(s.assessments)
    modifies s
    ensures s.Tables() == Snapshotted(old(s.Tables()), u, tier, status, stamp)
  {
    var row := InsertSnapshot(s.useCases[u], tier, status, stamp);
    s.useCases := s.useCases[u := row];
    assert s.Tables() == WithRow(old(s.Tables()), u, row);
    AdvanceUseCase(s, u);
  }

  method RegisterUseCase(s: Session, system: Id, categories: seq<bool>, tier: Tier, status: ClassificationStatus, stamp: bool)
    returns (error: Option<Error>)
    requires OneAiia(s.assessments)
    modifies s
    ensures s.Tables() == Registered(old(s.Tables()), system, categories, tier, status, stamp).db
    ensures error == Registered(old(s.Tables()), system, categories, tier, status, stamp).error
  {
    if system !in s.world.systems {
      return Some(NotFound);
    }
    var u := s.nextId;
    s.nextId := s.nextId + 1;
    s.useCases := s.useCases[u := UseCase(system, Unclassified, categories, NEW_CURSOR, [])];
    assert s.Tables() == WithNewUseCase(old(s.Tables()), system, categories);
    SnapshotClassification(s, u, tier, status, stamp);
    error := None;
  }

  method ComputeAndRecord(s: Session, u: Id, answers: seq<ContextResolver.Answer>, tree: seq<ContextResolver.Question>,
                          override: Option<Tier>)
    returns (outcome: ContextResolver.Resolution, error: Option<Error>)
    requires OneAiia(s.assessments)
    modifies s
    ensures outcome == ContextResolver.Resolve(tree, ContextResolver.Indexed(answers))
    ensures s.Tables() == ContextRecorded(old(s.Tables()), u, outcome, override).db
    ensures error == ContextRecorded(old(s.Tables()), u, outcome, override).error
  {
    outcome := ContextResolver.ResolveContextClassification(answers, tree);
    if u !in s.useCases {
      return outcome, Some(NotFound);
    }
    if outcome.Failed? {
      return outcome, Some(outcome.error);
    }
    if outcome.kind.Unresolved? || outcome.tier.None? {
      return outcome, None;
    }
    var stored := outcome.tier.value;
    if override.Some? && override != outcome.tier {
      if !Storable(override.value) {
        return outcome, Some(Unprocessable);
      }
      stored := override.value;
    }
    if !Storable(stored) {
      return outcome, Some(Internal);
    }
    SnapshotClassification(s, u, stored, PendingReview, false);
    error := None;
  }

  method SignOffClassification(s: Session, u: Id) returns (error: Option<Error>)
    requires OneAiia(s.assessments)
    modifies s
    ensures s.Tables() == SignedOffBy(old(s.Tables()), u).db
    ensures error == SignedOffBy(old(s.Tables()), u).error
  {
    if u !in s.useCases {
      return Some(NotFound);
    }
    var snapshot := CurrentSnapshot(s.useCases[u].classifications);
    if snapshot.None? {
      return Some(NotFound);
    }
    if !snapshot.value.status.PendingReview? {
      return Some(Conflict);
    }
    var row := s.useCases[u];
    row := row.(classifications := SignOffCurrent(row.classifications));
    row := row.(euTier := snapshot.value.tier);
    s.useCases := s.useCases[u := row];
    AdvanceUseCase(s, u);
    error := None;
  }
}
