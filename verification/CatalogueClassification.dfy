/** The tier a catalogue product proposes (app/services/classification.py) and how registration
    records it (app/routers/v1/registrations.py). */
module CatalogueClassification {
  import opened Vocabulary
  import opened Store
  import opened Lifecycle
  import opened Invariants
  import opened ClassificationService
  import opened EngineSafety
  import opened ClassificationLaws
  import opened ContextResolver

  /** A primary mapping of one of the product's categories. */
  datatype Mapping = Mapping(category: Id, tier: Tier)

  datatype Disposition = Authoritative | DownSelection

  datatype Proposal = Proposal(tier: Tier, disposition: Disposition)

  /** `min(rows, key=_tier_rank)`: the first among the most severe. */
  function Governing(rows: seq<Mapping>): (best: Mapping)
    requires |rows| > 0
    ensures best in rows && forall r | r in rows :: TierRank(best.tier) <= TierRank(r.tier)
  {
    if |rows| == 1 then rows[0]
    else
      assert rows == [rows[0]] + rows[1..];
      var rest := Governing(rows[1..]);
      if TierRank(rows[0].tier) <= TierRank(rest.tier) then rows[0] else rest
  }

  function OfCategory(rows: seq<Mapping>, c: Id): (r: seq<Mapping>)
    ensures forall x :: x in r <==> x in rows && x.category == c
  {
    if |rows| == 0 then []
    else
      assert rows == [rows[0]] + rows[1..];
      (if rows[0].category == c then [rows[0]] else []) + OfCategory(rows[1..], c)
  }

  /** The declared category governs; without one the whole product does; without any mapping, or
      without a product, the context questions have to be asked. */
  function ResolveClassification(linked: bool, rows: seq<Mapping>, declared: Option<Id>): Proposal {
    if !linked then Proposal(RequiresContext, Authoritative)
    else if declared.Some? then
      var own := OfCategory(rows, declared.value);
      if own == [] then Proposal(RequiresContext, Authoritative)
      else
        assert own[0] in rows;
        var tier := Governing(own).tier;
        Proposal(tier, if TierRank(tier) <= TierRank(Governing(rows).tier) then Authoritative else DownSelection)
    else if rows == [] then Proposal(RequiresContext, Authoritative)
    else Proposal(Governing(rows).tier, Authoritative)
  }

  /** No mapping of the product is more severe than this tier. */
  predicate Covers(tier: Tier, rows: seq<Mapping>) {
    forall r | r in rows :: TierRank(tier) <= TierRank(r.tier)
  }

  predicate Undecided(tier: Tier) {
    tier.Unclassified? || tier.RequiresContext?
  }

  /** A mapped proposal is milder than some mapping of its product exactly when it is marked a
      down-selection. */
  lemma DownSelectionIsExact(linked: bool, rows: seq<Mapping>, declared: Option<Id>)
    ensures var p := ResolveClassification(linked, rows, declared);
            p.disposition.DownSelection? <==>
              linked && declared.Some? && OfCategory(rows, declared.value) != [] && !Covers(p.tier, rows)
  {
  }

  /** Mappings of the declared category, or of the whole product where none is declared. */
  predicate Relevant(r: Mapping, declared: Option<Id>) {
    declared.Some? ==> r.category == declared.value
  }

  /** The proposal is the most severe tier among the relevant mappings of the product; the context questions
      have to be asked exactly when there is no product, no relevant mapping, or none with a decided tier. */
  lemma ProposalIsMostSevere(linked: bool, rows: seq<Mapping>, declared: Option<Id>)
    ensures var p := ResolveClassification(linked, rows, declared);
            if linked && exists r | r in rows :: Relevant(r, declared)
            then && (exists r | r in rows :: Relevant(r, declared) && r.tier == p.tier)
                 && forall r | r in rows && Relevant(r, declared) :: TierRank(p.tier) <= TierRank(r.tier)
            else p == Proposal(RequiresContext, Authoritative)
  {
    if declared.Some? && OfCategory(rows, declared.value) != [] {
      var own := OfCategory(rows, declared.value);
      assert own[0] in own && Governing(own) in own;
    }
    if declared.None? && rows != [] { assert Governing(rows) in rows; }
  }

  /** How a registration records a proposal: only a down-selection leaves the use case unstamped. */
  function StatusOf(p: Proposal): ClassificationStatus {
    if p.tier.RequiresContext? then PendingReview else if p.disposition.Authoritative? then SignedOff else PendingReview
  }

  predicate Stamps(p: Proposal) {
    p.tier.RequiresContext? || p.disposition.Authoritative?
  }

  /** Nothing is ever registered at a tier milder than its product calls for: until somebody signs off,
      the ratified tier is undecided or at least as severe as every mapping of the product, whatever
      category was declared. */
  lemma RegistrationNeverUnderclassifies(d: Db, system: Id, categories: seq<bool>,
                                         linked: bool, rows: seq<Mapping>, declared: Option<Id>)
    requires system in d.world.systems
    ensures var p := ResolveClassification(linked, rows, declared);
            var e := Registered(d, system, categories, p.tier, StatusOf(p), Stamps(p)).db;
            && d.nextId in e.useCases
            && var tier := e.useCases[d.nextId].euTier; Undecided(tier) || Covers(tier, rows)
  {
  }

  /** A down-selection is registered unratified and waits at INTAKE or before; signing it off ratifies the tier
      that was proposed. Any other proposal is ratified at once. */
  lemma DownSelectionWaits(d: Db, system: Id, categories: seq<bool>, linked: bool, rows: seq<Mapping>, declared: Option<Id>)
    requires Inv(d) && system in d.world.systems
    ensures var p, u := ResolveClassification(linked, rows, declared), d.nextId;
            var e := Registered(d, system, categories, p.tier, StatusOf(p), Stamps(p)).db;
            && u in e.useCases
            && (p.disposition.DownSelection? && p.tier != RequiresContext ==>
                  && e.useCases[u].euTier == Unclassified
                  && e.useCases[u].cursor.state in {VendorCheck, ProductCheck, Intake, HaltedProhibited}
                  && SignedOffBy(e, u).error.None? && SignedOffBy(e, u).db.useCases[u].euTier == p.tier)
            && (p.disposition.Authoritative? ==>
                  && e.useCases[u].euTier == p.tier
                  && (SignedOffBy(e, u).error.None? <==> p.tier == RequiresContext))
  {
    var p := ResolveClassification(linked, rows, declared);
    var e := Registered(d, system, categories, p.tier, StatusOf(p), Stamps(p)).db;
    RegistrationRests(d, system, categories, p.tier, StatusOf(p), Stamps(p));
    RegisterKeeps(d, system, categories, p.tier, StatusOf(p), Stamps(p));
    hide Inv, Registered, SignedOffBy, ResolveClassification;
    SignOffGoesThroughIff(e, d.nextId);
    if SignedOffBy(e, d.nextId).error.None? { SignOffRatifies(e, d.nextId); }
  }
}
