/** What the coverage view promises: exact accounting, clauses that summarise their links, evidence
    that only ever weakens a claim, and scopes that add up. */
module CoverageLaws {
  import opened Vocabulary
  import opened Store
  import opened Gates
  import opened Invariants
  import opened Coverage

  // --- Rows and links -------------------------------------------------------------------------------

  /** The four counts of a breakdown, as classes of links. */
  datatype Share = Claimed | Partially | Unclaimed | Unproven

  function ShareOf(d: Db, l: Id, required: bool): Share
    requires l in d.controlLinks
  {
    match d.controlLinks[l].coverage
    case Satisfied => if required && !HasEvidence(d, d.controlLinks[l].item) then Unproven else Claimed
    case Partial => Partially
    case Open => Unclaimed
  }

  /** The links of a control in one class. */
  function Slice(d: Db, links: set<Id>, c: Id, share: Share, required: bool): set<Id> {
    set l | l in links && l in d.controlLinks && d.controlLinks[l].control == c && ShareOf(d, l, required) == share
  }

  function CountOf(b: Breakdown, share: Share): nat {
    match share case Claimed => b.satisfied case Partially => b.partial case Unclaimed => b.open case Unproven => b.downgraded
  }

  function LinksOf(d: Db, links: set<Id>, c: Id): set<Id> {
    set l | l in links && l in d.controlLinks && d.controlLinks[l].control == c
  }

  /** Every row is what the database and the substantiation make of its link, once each. */
  ghost predicate Rowed(d: Db, rows: seq<LinkRow>, required: bool) {
    Distinct(Links(rows)) && forall r | r in rows :: r.link in d.controlLinks && r == Substantiated(d, Fetched(d, r.link), required)
  }

  function LinkSet(rows: seq<LinkRow>): set<Id> {
    set r | r in rows :: r.link
  }

  lemma LinkSetSnoc(d: Db, rows: seq<LinkRow>, required: bool)
    requires |rows| > 0 && Rowed(d, rows, required)
    ensures var front, last := rows[..|rows| - 1], rows[|rows| - 1];
            && rows == front + [last] && Rowed(d, front, required) && last in rows
            && LinkSet(rows) == LinkSet(front) + {last.link} && last.link !in LinkSet(front)
  {
  }

  lemma OfSnoc(front: seq<LinkRow>, last: LinkRow, c: Id, share: Share)
    ensures CountOf(Tally(Of(front + [last], c)), share) ==
            CountOf(Tally(Of(front, c)), share)
              + if last.control == c && CountOf(Tallied(Breakdown(0, 0, 0, 0), last), share) == 1 then 1 else 0
  {
    var rows := front + [last];
    assert rows[..|rows| - 1] == front;
    if last.control == c {
      assert Of(rows, c) == Of(front, c) + [last];
      assert Of(rows, c)[..|Of(rows, c)| - 1] == Of(front, c);
    } else {
      assert Of(rows, c) == Of(front, c);
    }
  }

  lemma SliceSnoc(d: Db, links: set<Id>, row: LinkRow, c: Id, share: Share, required: bool)
    requires row.link in d.controlLinks && row.link !in links && row == Substantiated(d, Fetched(d, row.link), required)
    ensures |Slice(d, links + {row.link}, c, share, required)| ==
            |Slice(d, links, c, share, required)|
              + if row.control == c && CountOf(Tallied(Breakdown(0, 0, 0, 0), row), share) == 1 then 1 else 0
  {
    var p, q := Slice(d, links, c, share, required), Slice(d, links + {row.link}, c, share, required);
    if row.control == c && ShareOf(d, row.link, required) == share {
      assert q == p + {row.link};
    } else {
      assert q == p;
    }
  }

  /** Each count of a control's breakdown is the number of its links in that class. */
  lemma {:induction false} TallyCountsLinks(d: Db, rows: seq<LinkRow>, c: Id, share: Share, required: bool)
    requires Rowed(d, rows, required)
    ensures CountOf(Tally(Of(rows, c)), share) == |Slice(d, LinkSet(rows), c, share, required)|
  {
    if |rows| == 0 {
      assert LinkSet(rows) == {};
    } else {
      var front, last := rows[..|rows| - 1], rows[|rows| - 1];
      LinkSetSnoc(d, rows, required);
      hide Rowed, Slice, Of, Tally, CountOf, Tallied, Substantiated;
      TallyCountsLinks(d, front, c, share, required);
      OfSnoc(front, last, c, share);
      SliceSnoc(d, LinkSet(front), last, c, share, required);
    }
  }

  /** The verdict over a set of links, stated without rows. */
  ghost predicate Reached(d: Db, links: set<Id>, c: Id, status: CoverageStatus, required: bool) {
    exists l | l in links && l in d.controlLinks ::
      d.controlLinks[l].control == c && Substantiated(d, Fetched(d, l), required).effective == status
  }

  ghost function VerdictOf(d: Db, links: set<Id>, c: Id, required: bool): CoverageStatus {
    if Reached(d, links, c, Satisfied, required) then Satisfied
    else if Reached(d, links, c, Partial, required) then Partial else Open
  }

  lemma RollupIsVerdict(d: Db, rows: seq<LinkRow>, c: Id, required: bool)
    requires Rowed(d, rows, required)
    ensures Rollup(Effectives(Of(rows, c))) == VerdictOf(d, LinkSet(rows), c, required)
  {
    EffectiveIsReached(d, rows, c, Satisfied, required);
    EffectiveIsReached(d, rows, c, Partial, required);
  }

  lemma EffectiveIsReached(d: Db, rows: seq<LinkRow>, c: Id, s: CoverageStatus, required: bool)
    requires Rowed(d, rows, required)
    ensures s in Effectives(Of(rows, c)) <==> Reached(d, LinkSet(rows), c, s, required)
  {
    OfMembers(rows, c);
    if s in Effectives(Of(rows, c)) {
      var k :| 0 <= k < |Of(rows, c)| && Of(rows, c)[k].effective == s;
      var r := Of(rows, c)[k];
      assert r in Of(rows, c) && r.link in LinkSet(rows);
    }
    if l :| l in LinkSet(rows) && l in d.controlLinks && d.controlLinks[l].control == c
            && Substantiated(d, Fetched(d, l), required).effective == s {
      var r :| r in rows && r.link == l;
      EffectiveIn(Of(rows, c), r);
    }
  }

  lemma EffectiveIn(rows: seq<LinkRow>, r: LinkRow)
    requires r in rows
    ensures r.effective in Effectives(rows)
  {
  }

  /** Exact accounting: in the matrix of a scope, a control's verdict is that of the qualifying links
      themselves, the four counts sum to their number, and each counts one class of them. */
  lemma BreakdownIsExact(d: Db, m: Matrix, rows: seq<LinkRow>, links: set<Id>, required: bool,
                         library: seq<Id>, maps: seq<FrameworkMap>, framework: Option<Framework>, r: ControlRead)
    requires Lists(d, rows, links, required) && MatrixOk(m, rows, library, maps, framework) && r in m.controls
    ensures r.verdict == VerdictOf(d, links, r.control, required)
    ensures forall share :: CountOf(r.breakdown, share) == |Slice(d, links, r.control, share, required)|
    ensures r.breakdown.satisfied + r.breakdown.partial + r.breakdown.open + r.breakdown.downgraded == |LinksOf(d, links, r.control)|
  {
    ListedLinks(d, rows, links, required);
    assert ReadOk(rows, maps, framework, r);
    RollupIsVerdict(d, rows, r.control, required);
    forall share ensures CountOf(r.breakdown, share) == |Slice(d, links, r.control, share, required)| {
      TallyCountsLinks(d, rows, r.control, share, required);
    }
    SharesPartition(d, links, r.control, required);
  }

  lemma ListedLinks(d: Db, rows: seq<LinkRow>, links: set<Id>, required: bool)
    requires Lists(d, rows, links, required)
    ensures LinkSet(rows) == links && Rowed(d, rows, required)
  {
  }

  lemma SharesPartition(d: Db, links: set<Id>, c: Id, required: bool)
    ensures |LinksOf(d, links, c)| == |Slice(d, links, c, Claimed, required)| + |Slice(d, links, c, Partially, required)|
                                      + |Slice(d, links, c, Unclaimed, required)| + |Slice(d, links, c, Unproven, required)|
  {
    var p, q := Slice(d, links, c, Claimed, required), Slice(d, links, c, Partially, required);
    var r, s := Slice(d, links, c, Unclaimed, required), Slice(d, links, c, Unproven, required);
    DisjointSizes(LinksOf(d, links, c), p, q, r, s);
  }

  lemma DisjointSizes(all: set<Id>, p: set<Id>, q: set<Id>, r: set<Id>, s: set<Id>)
    requires p !! q && (p + q) !! r && (p + q + r) !! s
    requires forall x :: x in all <==> x in p || x in q || x in r || x in s
    ensures |all| == |p| + |q| + |r| + |s|
  {
    assert all == p + q + r + s;
    assert |p + q| == |p| + |q|;
    assert |p + q + r| == |p + q| + |r|;
  }

  function Elements(s: seq<Id>): set<Id> {
    set x | x in s
  }

  /** Addressed and unaddressed controls partition the library, or the framework's part of it, and
      neither list repeats a control. */
  lemma ControlsArePartitioned(m: Matrix, rows: seq<LinkRow>, library: seq<Id>, maps: seq<FrameworkMap>,
                               framework: Option<Framework>)
    requires MatrixOk(m, rows, library, maps, framework)
    ensures var addressed, rest := Elements(ControlsOf(m.controls)), Elements(m.unaddressed);
            && addressed !! rest && addressed + rest == set c | c in library && InView(library, maps, framework, c)
            && |m.controls| == |addressed| && |m.unaddressed| == |rest|
  {
    ElementsCount(ControlsOf(m.controls));
    ElementsCount(m.unaddressed);
  }

  lemma {:induction false} ElementsCount(s: seq<Id>)
    requires Distinct(s)
    ensures |Elements(s)| == |s|
  {
    if |s| == 0 {
      assert Elements(s) == {};
    } else {
      var front, last := s[..|s| - 1], s[|s| - 1];
      ElementsCount(front);
      assert s == front + [last];
      assert Elements(s) == Elements(front) + {last} && last !in Elements(front);
    }
  }

  /** Which controls the matrix lists as addressed, and with which mappings: those of the library that some link
      in scope names and, under a framework filter, some mapping of that framework; with their mappings to that
      framework, or all of them without a filter. */
  lemma ControlIsListedIff(m: Matrix, rows: seq<LinkRow>, library: seq<Id>, maps: seq<FrameworkMap>,
                           framework: Option<Framework>, c: Id)
    requires MatrixOk(m, rows, library, maps, framework)
    ensures c in ControlsOf(m.controls) <==>
            && c in library && (exists r | r in rows :: r.control == c)
            && (framework.Some? ==> exists x | x in maps :: x.control == c && x.framework == framework.value)
    ensures forall q, x | q in m.controls ::
              x in q.mappings <==> x in maps && x.control == q.control && (framework.Some? ==> x.framework == framework.value)
  {
    OfMembers(rows, c);
    if Of(rows, c) != [] { assert Of(rows, c)[0] in Of(rows, c); }
    if framework.Some? {
      if x :| x in maps && x.control == c && x.framework == framework.value { assert Wanted(x, c, framework); }
    }
    forall q, x | q in m.controls
      ensures x in q.mappings <==> x in maps && x.control == q.control && (framework.Some? ==> x.framework == framework.value)
    {
      assert ReadOk(rows, maps, framework, q);
      assert x in q.mappings <==> x in maps && Wanted(x, q.control, framework);
    }
  }

  // --- Clauses ------------------------------------------------------------------------------------------

  /** A clause is on the axis exactly when some listed control maps to it. */
  lemma ClauseIsListedIff(m: Matrix, rows: seq<LinkRow>, library: seq<Id>, maps: seq<FrameworkMap>,
                          framework: Option<Framework>, f: Framework, clause: string)
    requires MatrixOk(m, rows, library, maps, framework)
    ensures (f, clause) in m.clauses <==>
            exists q, x | q in m.controls && x in q.mappings :: x.framework == f && x.clause == clause
  {
    ContributionsMembers(m.controls, (f, clause));
    var xs := Contributions(m.controls, (f, clause));
    if xs != [] {
      assert xs[0] in xs;
      var q :| q in m.controls && Reaches(q, (f, clause)) && xs[0] == (q.control, q.verdict);
      var x :| x in q.mappings && ClauseKey(x) == (f, clause);
    }
    if q, x :| q in m.controls && x in q.mappings && x.framework == f && x.clause == clause {
      assert ClauseKey(x) == (f, clause) && Reaches(q, (f, clause));
      assert (q.control, q.verdict) in xs;
    }
  }

  /** Some link reaches the clause through a mapping of its control, with this effective coverage. */
  ghost predicate ClauseReached(rows: seq<LinkRow>, controls: seq<ControlRead>, clause: Clause, status: CoverageStatus) {
    exists q, r | q in controls && r in rows :: Entry(q, clause, r) && r.effective == status
  }

  predicate Entry(q: ControlRead, clause: Clause, r: LinkRow) {
    Reaches(q, clause) && r.control == q.control
  }

  /** The statuses that roll up into a clause are the verdicts of the controls that reach it. */
  lemma ClauseStatuses(entries: seq<ControlRead>, clause: Clause, s: CoverageStatus)
    ensures s in Seconds(Contributions(entries, clause)) <==> exists q | q in entries :: Reaches(q, clause) && q.verdict == s
  {
    var xs := Contributions(entries, clause);
    ContributionsMembers(entries, clause);
    if s in Seconds(xs) {
      var k :| 0 <= k < |xs| && xs[k].1 == s;
      assert xs[k] in xs;
    }
    if q :| q in entries && Reaches(q, clause) && q.verdict == s {
      assert (q.control, q.verdict) in xs;
      var k :| 0 <= k < |xs| && xs[k] == (q.control, q.verdict);
      assert Seconds(xs)[k] == s;
    }
  }

  /** A control's verdict is reached by one of its rows, unless it is OPEN, and no row exceeds it. */
  lemma VerdictIsTight(rows: seq<LinkRow>, c: Id)
    ensures var verdict := Rollup(Effectives(Of(rows, c)));
            && (verdict.Open? || exists r | r in rows :: r.control == c && r.effective == verdict)
            && forall r | r in rows && r.control == c :: Strength(r.effective) <= Strength(verdict)
  {
    var es := Effectives(Of(rows, c));
    OfMembers(rows, c);
    if !Rollup(es).Open? {
      var k :| 0 <= k < |es| && es[k] == Rollup(es);
      assert Of(rows, c)[k] in Of(rows, c);
    }
    forall r | r in rows && r.control == c ensures Strength(r.effective) <= Strength(Rollup(es)) { EffectiveIn(Of(rows, c), r); }
  }

  /** A clause's verdict, computed from the verdicts of its controls, is the roll-up of all the links
      underneath them. */
  lemma ClauseIsRollupOfLinks(m: Matrix, rows: seq<LinkRow>, library: seq<Id>, maps: seq<FrameworkMap>,
                              framework: Option<Framework>, clause: Clause)
    requires MatrixOk(m, rows, library, maps, framework) && clause in m.clauses
    ensures m.clauses[clause].verdict ==
            if ClauseReached(rows, m.controls, clause, Satisfied) then Satisfied
            else if ClauseReached(rows, m.controls, clause, Partial) then Partial else Open
  {
    ClauseStatuses(m.controls, clause, Satisfied);
    ClauseStatuses(m.controls, clause, Partial);
    forall q | q in m.controls && Reaches(q, clause)
      ensures q.verdict.Open? || ClauseReached(rows, m.controls, clause, q.verdict)
      ensures forall r | r in rows && Entry(q, clause, r) :: Strength(r.effective) <= Strength(q.verdict)
    {
      assert ReadOk(rows, maps, framework, q);
      VerdictIsTight(rows, q.control);
      if r :| r in rows && r.control == q.control && r.effective == q.verdict { assert Entry(q, clause, r); }
    }
  }

  // --- Evidence -----------------------------------------------------------------------------------------

  /** A SATISFIED link of the control whose item carries evidence. */
  ghost predicate Proven(d: Db, links: set<Id>, c: Id) {
    exists l | l in links && l in d.controlLinks ::
      d.controlLinks[l].control == c && d.controlLinks[l].coverage.Satisfied? && HasEvidence(d, d.controlLinks[l].item)
  }

  /** Requiring evidence changes a verdict in exactly one way: SATISFIED without any proven link
      becomes PARTIAL. So it never raises one, and never drops one by more than that. */
  lemma RequiringEvidence(d: Db, links: set<Id>, c: Id)
    ensures var plain, strict := VerdictOf(d, links, c, false), VerdictOf(d, links, c, true);
            && strict == (if plain.Satisfied? && !Proven(d, links, c) then Partial else plain)
            && Strength(strict) <= Strength(plain) && (plain.Satisfied? ==> !strict.Open?)
  {
  }

  /** A control is covered by the strongest effective claim: SATISFIED by a satisfied link, with evidence if
      that is required; else PARTIAL by a partial link or one whose evidence is wanting; else not at all. */
  lemma VerdictByLinks(d: Db, links: set<Id>, c: Id, required: bool)
    ensures var mine := set l | l in links && l in d.controlLinks && d.controlLinks[l].control == c;
            var whole := exists l | l in mine ::
                           && d.controlLinks[l].coverage == Satisfied
                           && (required ==> exists x | x in d.evidenceLinks :: d.evidenceLinks[x].item == d.controlLinks[l].item);
            && (VerdictOf(d, links, c, required) == Satisfied <==> whole)
            && (VerdictOf(d, links, c, required) == Partial <==>
                !whole && exists l | l in mine :: d.controlLinks[l].coverage in {Satisfied, Partial})
  {
  }

  // --- Which links count ----------------------------------------------------------------------------------

  /** The links that count for an AIIA are those of the disposed items of the AIIA and of its feeders, all of
      them if the AIIA itself is approved, all of them if drafts are included and it is a draft or needs a
      refresh, and otherwise none. */
  lemma QualifiesIff(d: Db, a: Id, includeUnapproved: bool, l: Id)
    requires Inv(d) && a in d.assessments && d.assessments[a].kind == Aiia
    ensures l in Qualifying(d, OfAssessment(Some(a)), includeUnapproved) <==>
            && l in d.controlLinks && d.controlLinks[l].item in d.items
            && d.items[d.controlLinks[l].item].provenance != AiSuggested
            && d.items[d.controlLinks[l].item].assessment in d.assessments
            && (d.items[d.controlLinks[l].item].assessment == a
                || d.assessments[d.items[d.controlLinks[l].item].assessment].parent == Some(a))
            && (d.assessments[a].status == Approved
                || (includeUnapproved && d.assessments[a].status in {Draft, NeedsRefresh}))
  {
    assert RowOk(d.assessments, d.useCases.Keys, d.assessments[a]);
  }

  /** So a feeder's own status changes nothing in any scope. */
  lemma FeederStatusIsIgnored(d: Db, f: Id, status: AssessmentStatus, scope: Scope, includeUnapproved: bool)
    requires Inv(d) && f in d.assessments && d.assessments[f].parent.Some?
    ensures var e := d.(assessments := d.assessments[f := d.assessments[f].(status := status)]);
            Qualifying(e, scope, includeUnapproved) == Qualifying(d, scope, includeUnapproved)
  {
    var e := d.(assessments := d.assessments[f := d.assessments[f].(status := status)]);
    assert RowOk(d.assessments, d.useCases.Keys, d.assessments[f]);
    forall l | l in d.controlLinks ensures Qualifies(e, scope, includeUnapproved, l) <==> Qualifies(d, scope, includeUnapproved, l) {
      if Joins(d, l) {
        var x := AssessmentOf(d, l);
        assert RowOk(d.assessments, d.useCases.Keys, d.assessments[x]);
        if d.assessments[x].parent.Some? {
          assert RowOk(d.assessments, d.useCases.Keys, d.assessments[d.assessments[x].parent.value]);
        }
      }
    }
  }

  // --- Scopes -------------------------------------------------------------------------------------------

  /** The view is refused exactly for a scope without its identifier, an unknown system or assessment, or an
      assessment that is a feeder. */
  lemma ScopeIsRefusedIff(d: Db, scope: Scope)
    ensures var error := ScopeRefusal(d, scope);
            && (error == Some(BadRequest) <==> scope in {OfSystem(None), OfAssessment(None)})
            && (error == Some(NotFound) <==> || (scope.OfSystem? && scope.system.Some? && scope.system.value !in d.world.systems)
                                             || (scope.OfAssessment? && scope.aiia.Some? && scope.aiia.value !in d.assessments))
            && (error == Some(Unprocessable) <==> scope.OfAssessment? && scope.aiia.Some? && scope.aiia.value in d.assessments
                                                  && d.assessments[scope.aiia.value].kind != Aiia)
            && (error.Some? ==> error.value in {BadRequest, NotFound, Unprocessable})
  {
  }

  /** The AIIAs of a system. */
  predicate AiiaIn(d: Db, s: Id, a: Id) {
    && a in d.assessments && d.assessments[a].kind.Aiia? && d.assessments[a].useCase in d.useCases
    && d.useCases[d.assessments[a].useCase].system == s
  }

  /** Every qualifying link of a system qualifies under exactly one of its AIIAs, and conversely. */
  lemma SystemIsUnionOfAiias(d: Db, s: Id, includeUnapproved: bool, l: Id)
    requires Inv(d)
    ensures l in Qualifying(d, OfSystem(Some(s)), includeUnapproved) <==>
            exists a | a in d.assessments :: AiiaIn(d, s, a) && l in Qualifying(d, OfAssessment(Some(a)), includeUnapproved)
    ensures forall a, b | AiiaIn(d, s, a) && AiiaIn(d, s, b) && l in Qualifying(d, OfAssessment(Some(a)), includeUnapproved)
                          && l in Qualifying(d, OfAssessment(Some(b)), includeUnapproved) :: a == b
  {
    if Joins(d, l) {
      var x := AssessmentOf(d, l);
      var row := d.assessments[x];
      assert RowOk(d.assessments, d.useCases.Keys, row);
      if l in Qualifying(d, OfSystem(Some(s)), includeUnapproved) {
        var a := if row.parent.Some? then row.parent.value else x;
        assert RowOk(d.assessments, d.useCases.Keys, d.assessments[a]);
        assert AiiaIn(d, s, a) && l in Qualifying(d, OfAssessment(Some(a)), includeUnapproved);
      }
    }
  }

  /** Likewise the tenant is the disjoint union of its systems. */
  lemma TenantIsUnionOfSystems(d: Db, includeUnapproved: bool, l: Id)
    requires Inv(d)
    ensures l in Qualifying(d, Tenant, includeUnapproved) <==>
            exists s | s in d.world.systems :: l in Qualifying(d, OfSystem(Some(s)), includeUnapproved)
    ensures forall s, t | l in Qualifying(d, OfSystem(Some(s)), includeUnapproved)
                          && l in Qualifying(d, OfSystem(Some(t)), includeUnapproved) :: s == t
  {
    if l in Qualifying(d, Tenant, includeUnapproved) {
      var row := d.assessments[AssessmentOf(d, l)];
      assert RowOk(d.assessments, d.useCases.Keys, row);
      assert l in Qualifying(d, OfSystem(Some(d.useCases[row.useCase].system)), includeUnapproved);
    }
  }

  function Union(parts: seq<set<Id>>): set<Id> {
    if |parts| == 0 then {} else Union(parts[..|parts| - 1]) + parts[|parts| - 1]
  }

  function SumOf(d: Db, parts: seq<set<Id>>, c: Id, share: Share, required: bool): nat {
    if |parts| == 0 then 0
    else SumOf(d, parts[..|parts| - 1], c, share, required) + |Slice(d, parts[|parts| - 1], c, share, required)|
  }

  ghost function StrongestOf(d: Db, parts: seq<set<Id>>, c: Id, required: bool): CoverageStatus {
    if |parts| == 0 then Open
    else Stronger(StrongestOf(d, parts[..|parts| - 1], c, required), VerdictOf(d, parts[|parts| - 1], c, required))
  }

  predicate Apart(parts: seq<set<Id>>) {
    forall i, j | 0 <= i < j < |parts| :: parts[i] !! parts[j]
  }

  lemma {:induction false} InUnion(parts: seq<set<Id>>, l: Id)
    ensures l in Union(parts) <==> exists k | 0 <= k < |parts| :: l in parts[k]
  {
    if |parts| > 0 {
      var front := parts[..|parts| - 1];
      InUnion(front, l);
      if k :| 0 <= k < |front| && l in front[k] { assert l in parts[k]; }
      if k :| 0 <= k < |parts| && l in parts[k] { assert k < |front| ==> l in front[k]; }
    }
  }

  /** Over disjoint parts the counts of a control add up and its verdict is the strongest. */
  lemma {:induction false} PartsAddUp(d: Db, parts: seq<set<Id>>, c: Id, share: Share, required: bool)
    requires Apart(parts)
    ensures |Slice(d, Union(parts), c, share, required)| == SumOf(d, parts, c, share, required)
    ensures VerdictOf(d, Union(parts), c, required) == StrongestOf(d, parts, c, required)
  {
    if |parts| > 0 {
      var front, last := parts[..|parts| - 1], parts[|parts| - 1];
      PartsAddUp(d, front, c, share, required);
      forall l | l in Union(front) ensures l !in last { InUnion(front, l); }
      hide Slice, VerdictOf;
      UnionCounts(d, Union(front), last, c, share, required);
      UnionReaches(d, Union(front), last, c, required);
    }
  }

  lemma UnionCounts(d: Db, p: set<Id>, q: set<Id>, c: Id, share: Share, required: bool)
    requires p !! q
    ensures |Slice(d, p + q, c, share, required)| == |Slice(d, p, c, share, required)| + |Slice(d, q, c, share, required)|
  {
    var p', q' := Slice(d, p, c, share, required), Slice(d, q, c, share, required);
    assert Slice(d, p + q, c, share, required) == p' + q';
    assert p' !! q';
  }

  lemma UnionReaches(d: Db, p: set<Id>, q: set<Id>, c: Id, required: bool)
    ensures VerdictOf(d, p + q, c, required) == Stronger(VerdictOf(d, p, c, required), VerdictOf(d, q, c, required))
  {
  }

  function PerAiia(d: Db, aiias: seq<Id>, includeUnapproved: bool): (r: seq<set<Id>>)
    ensures |r| == |aiias| && forall k | 0 <= k < |aiias| :: r[k] == Qualifying(d, OfAssessment(Some(aiias[k])), includeUnapproved)
  {
    seq(|aiias|, k requires 0 <= k < |aiias| => Qualifying(d, OfAssessment(Some(aiias[k])), includeUnapproved))
  }

  function PerSystem(d: Db, systems: seq<Id>, includeUnapproved: bool): (r: seq<set<Id>>)
    ensures |r| == |systems| && forall k | 0 <= k < |systems| :: r[k] == Qualifying(d, OfSystem(Some(systems[k])), includeUnapproved)
  {
    seq(|systems|, k requires 0 <= k < |systems| => Qualifying(d, OfSystem(Some(systems[k])), includeUnapproved))
  }

  /** System scope adds up: for every control, each count is the sum over the system's AIIAs and the
      verdict the strongest of theirs. */
  lemma SystemCoverageAddsUp(d: Db, s: Id, aiias: seq<Id>, includeUnapproved: bool, c: Id, share: Share, required: bool)
    requires Inv(d) && Distinct(aiias) && forall a :: a in aiias <==> AiiaIn(d, s, a)
    ensures var whole, parts := Qualifying(d, OfSystem(Some(s)), includeUnapproved), PerAiia(d, aiias, includeUnapproved);
            && |Slice(d, whole, c, share, required)| == SumOf(d, parts, c, share, required)
            && VerdictOf(d, whole, c, required) == StrongestOf(d, parts, c, required)
  {
    var whole, parts := Qualifying(d, OfSystem(Some(s)), includeUnapproved), PerAiia(d, aiias, includeUnapproved);
    forall l ensures l in whole <==> l in Union(parts) {
      SystemIsUnionOfAiias(d, s, includeUnapproved, l);
      InUnion(parts, l);
      if a :| AiiaIn(d, s, a) && l in Qualifying(d, OfAssessment(Some(a)), includeUnapproved) {
        var k :| 0 <= k < |aiias| && aiias[k] == a;
        assert l in parts[k];
      }
      if k :| 0 <= k < |parts| && l in parts[k] { assert aiias[k] in aiias; }
    }
    forall i, j | 0 <= i < j < |parts| ensures parts[i] !! parts[j] {
      forall l | l in parts[i] ensures l !in parts[j] {
        SystemIsUnionOfAiias(d, s, includeUnapproved, l);
        assert aiias[i] in aiias && aiias[j] in aiias && aiias[i] != aiias[j];
      }
    }
    assert whole == Union(parts);
    PartsAddUp(d, parts, c, share, required);
  }

  /** Tenant scope adds up over the systems in the same way. */
  lemma TenantCoverageAddsUp(d: Db, systems: seq<Id>, includeUnapproved: bool, c: Id, share: Share, required: bool)
    requires Inv(d) && Distinct(systems) && forall s :: s in systems <==> s in d.world.systems
    ensures var whole, parts := Qualifying(d, Tenant, includeUnapproved), PerSystem(d, systems, includeUnapproved);
            && |Slice(d, whole, c, share, required)| == SumOf(d, parts, c, share, required)
            && VerdictOf(d, whole, c, required) == StrongestOf(d, parts, c, required)
  {
    var whole, parts := Qualifying(d, Tenant, includeUnapproved), PerSystem(d, systems, includeUnapproved);
    forall l ensures l in whole <==> l in Union(parts) {
      TenantIsUnionOfSystems(d, includeUnapproved, l);
      InUnion(parts, l);
      if s :| s in d.world.systems && l in Qualifying(d, OfSystem(Some(s)), includeUnapproved) {
        var k :| 0 <= k < |systems| && systems[k] == s;
        assert l in parts[k];
      }
      if k :| 0 <= k < |parts| && l in parts[k] { assert systems[k] in systems; }
    }
    forall i, j | 0 <= i < j < |parts| ensures parts[i] !! parts[j] {
      forall l | l in parts[i] ensures l !in parts[j] {
        TenantIsUnionOfSystems(d, includeUnapproved, l);
        assert systems[i] != systems[j];
      }
    }
    assert whole == Union(parts);
    PartsAddUp(d, parts, c, share, required);
  }
}
