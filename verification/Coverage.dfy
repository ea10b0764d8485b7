/** The control-coverage view (app/services/coverage_service.py): recomputed on every read from the
    control links in scope. */
module Coverage {
  import opened Vocabulary
  import opened Store
  import opened Gates

  // --- Scope and qualification -----------------------------------------------------------------

  datatype Scope = Tenant | OfSystem(system: Option<Id>) | OfAssessment(aiia: Option<Id>)

  /** Why a scope is refused; None when it resolves. */
  function ScopeRefusal(d: Db, scope: Scope): Option<Error> {
    match scope
    case Tenant => None
    case OfSystem(s) => if s.None? then Some(BadRequest) else if s.value !in d.world.systems then Some(NotFound) else None
    case OfAssessment(a) =>
      if a.None? then Some(BadRequest)
      else if a.value !in d.assessments then Some(NotFound)
      else if !d.assessments[a.value].kind.Aiia? then Some(Unprocessable) else None
  }

  predicate InScope(d: Db, scope: Scope, a: Id)
    requires a in d.assessments
  {
    match scope
    case Tenant => true
    case OfSystem(s) => d.assessments[a].useCase in d.useCases && s == Some(d.useCases[d.assessments[a].useCase].system)
    case OfAssessment(aiia) => aiia.Some? && (a == aiia.value || d.assessments[a].parent == aiia)
  }

  /** The status of the AIIA that an assessment surfaces into; a feeder's own status never counts. */
  function GoverningStatus(d: Db, a: Id): Option<AssessmentStatus>
    requires a in d.assessments
  {
    var parent := d.assessments[a].parent;
    if parent.None? then Some(d.assessments[a].status)
    else if parent.value in d.assessments then Some(d.assessments[parent.value].status) else None
  }

  predicate Allowed(status: Option<AssessmentStatus>, includeUnapproved: bool) {
    status.Some? && (status.value.Approved? || (includeUnapproved && (status.value.Draft? || status.value.NeedsRefresh?)))
  }

  /** The link's item and assessment exist, and the item is not a mere proposal. */
  predicate Joins(d: Db, l: Id) {
    l in d.controlLinks && ItemJoins(d, d.controlLinks[l].item)
  }

  predicate ItemJoins(d: Db, i: Id) {
    i in d.items && !d.items[i].provenance.AiSuggested? && d.items[i].assessment in d.assessments
  }

  function AssessmentOf(d: Db, l: Id): Id
    requires Joins(d, l)
  {
    d.items[d.controlLinks[l].item].assessment
  }

  predicate Qualifies(d: Db, scope: Scope, includeUnapproved: bool, l: Id) {
    Joins(d, l) && InScope(d, scope, AssessmentOf(d, l)) && Allowed(GoverningStatus(d, AssessmentOf(d, l)), includeUnapproved)
  }

  function Qualifying(d: Db, scope: Scope, includeUnapproved: bool): set<Id> {
    set l | l in d.controlLinks && Qualifies(d, scope, includeUnapproved, l)
  }

  // --- Link rows ---------------------------------------------------------------------------------

  /** One qualifying link, with the two fields that substantiation fills in. */
  datatype LinkRow = LinkRow(link: Id, item: Id, control: Id, coverage: CoverageStatus, effective: CoverageStatus, downgraded: bool)

  predicate HasEvidence(d: Db, i: Id) {
    exists l | l in d.evidenceLinks :: d.evidenceLinks[l].item == i
  }

  /** Claimed SATISFIED, but nothing substantiates it. */
  predicate Unsubstantiated(d: Db, row: LinkRow, required: bool) {
    required && row.coverage.Satisfied? && !HasEvidence(d, row.item)
  }

  function Substantiated(d: Db, row: LinkRow, required: bool): LinkRow {
    if Unsubstantiated(d, row, required) then row.(effective := Partial, downgraded := true)
    else row.(effective := row.coverage, downgraded := false)
  }

  function Fetched(d: Db, l: Id): LinkRow
    requires l in d.controlLinks
  {
    var link := d.controlLinks[l];
    LinkRow(l, link.item, link.control, link.coverage, link.coverage, false)
  }

  predicate Distinct<T(==)>(s: seq<T>) {
    forall i, j | 0 <= i < j < |s| :: s[i] != s[j]
  }

  function Links(rows: seq<LinkRow>): (r: seq<Id>)
    ensures |r| == |rows| && forall k | 0 <= k < |rows| :: r[k] == rows[k].link
  {
    seq(|rows|, k requires 0 <= k < |rows| => rows[k].link)
  }

  /** The rows list exactly these links, each once, as the database has them. */
  ghost predicate Lists(d: Db, rows: seq<LinkRow>, links: set<Id>, required: bool) {
    && Distinct(Links(rows)) && (forall l :: l in Links(rows) <==> l in links)
    && forall r | r in rows :: r.link in d.controlLinks && r == Substantiated(d, Fetched(d, r.link), required)
  }

  /** The joined rows, in whatever order they come, filtered by the governing status. */
  method FetchQualifyingLinks(d: Db, scope: Scope, includeUnapproved: bool, joined: seq<Id>) returns (rows: seq<LinkRow>)
    requires Distinct(joined)
    requires forall l :: l in joined <==> Joins(d, l) && InScope(d, scope, AssessmentOf(d, l))
    ensures Lists(d, rows, Qualifying(d, scope, includeUnapproved), false)
  {
    rows := [];
    for k := 0 to |joined|
      invariant Distinct(Links(rows))
      invariant forall l :: l in Links(rows) <==> l in joined[..k] && Qualifies(d, scope, includeUnapproved, l)
      invariant forall r | r in rows :: r.link in d.controlLinks && r == Fetched(d, r.link)
    {
      var l := joined[k];
      assert l in joined && l !in joined[..k];
      if Allowed(GoverningStatus(d, AssessmentOf(d, l)), includeUnapproved) {
        assert l !in Links(rows);
        assert Links(rows + [Fetched(d, l)]) == Links(rows) + [l];
        rows := rows + [Fetched(d, l)];
      }
      assert joined[..k + 1] == joined[..k] + [l];
    }
  }

  /** Writes the two fields of every row in place. */
  method ApplyEvidenceSubstantiation(d: Db, rows: array<LinkRow>, required: bool)
    modifies rows
    ensures forall k | 0 <= k < rows.Length :: rows[k] == Substantiated(d, old(rows[k]), required)
  {
    if !required {
      for k := 0 to rows.Length
        invariant forall j | 0 <= j < k :: rows[j] == Substantiated(d, old(rows[j]), required)
        invariant forall j | k <= j < rows.Length :: rows[j] == old(rows[j])
      {
        rows[k] := rows[k].(effective := rows[k].coverage, downgraded := false);
      }
      return;
    }
    var withEvidence := set l | l in d.evidenceLinks :: d.evidenceLinks[l].item;
    for k := 0 to rows.Length
      invariant forall j | 0 <= j < k :: rows[j] == Substantiated(d, old(rows[j]), required)
      invariant forall j | k <= j < rows.Length :: rows[j] == old(rows[j])
    {
      if rows[k].coverage.Satisfied? && rows[k].item !in withEvidence {
        rows[k] := rows[k].(effective := Partial, downgraded := true);
      } else {
        rows[k] := rows[k].(effective := rows[k].coverage, downgraded := false);
      }
    }
  }

  // --- Roll-up ---------------------------------------------------------------------------------------

  function Strength(c: CoverageStatus): nat {
    match c case Open => 0 case Partial => 1 case Satisfied => 2
  }

  function Stronger(a: CoverageStatus, b: CoverageStatus): CoverageStatus {
    if Strength(a) >= Strength(b) then a else b
  }

  function Rollup(cs: seq<CoverageStatus>): CoverageStatus {
    if Satisfied in cs then Satisfied else if Partial in cs then Partial else Open
  }

  function Effectives(rows: seq<LinkRow>): (r: seq<CoverageStatus>)
    ensures |r| == |rows| && forall k | 0 <= k < |rows| :: r[k] == rows[k].effective
  {
    seq(|rows|, k requires 0 <= k < |rows| => rows[k].effective)
  }

  /** The rows of one control, in order. */
  function Of(rows: seq<LinkRow>, c: Id): seq<LinkRow> {
    if |rows| == 0 then []
    else Of(rows[..|rows| - 1], c) + if rows[|rows| - 1].control == c then [rows[|rows| - 1]] else []
  }

  lemma {:induction false} OfMembers(rows: seq<LinkRow>, c: Id)
    ensures forall x :: x in Of(rows, c) <==> x in rows && x.control == c
  {
    if |rows| > 0 {
      OfMembers(rows[..|rows| - 1], c);
      assert rows == rows[..|rows| - 1] + [rows[|rows| - 1]];
    }
  }

  lemma OfNext(rows: seq<LinkRow>, k: nat, c: Id)
    requires k < |rows|
    ensures Of(rows[..k + 1], c) == Of(rows[..k], c) + if rows[k].control == c then [rows[k]] else []
  {
    assert rows[..k + 1][..k] == rows[..k];
  }

  datatype Breakdown = Breakdown(satisfied: nat, partial: nat, open: nat, downgraded: nat)

  /** Which of the four counts a row goes to. */
  function Tallied(b: Breakdown, row: LinkRow): Breakdown {
    Breakdown(b.satisfied + if row.coverage.Satisfied? && !row.downgraded then 1 else 0,
              b.partial + if row.coverage.Partial? then 1 else 0,
              b.open + if row.coverage.Open? then 1 else 0,
              b.downgraded + if row.downgraded then 1 else 0)
  }

  function Tally(rows: seq<LinkRow>): Breakdown {
    if |rows| == 0 then Breakdown(0, 0, 0, 0) else Tallied(Tally(rows[..|rows| - 1]), rows[|rows| - 1])
  }

  method BuildBreakdown(rows: seq<LinkRow>) returns (b: Breakdown)
    ensures b == Tally(rows)
  {
    var satisfied, partial, open, downgraded := 0, 0, 0, 0;
    for k := 0 to |rows|
      invariant Breakdown(satisfied, partial, open, downgraded) == Tally(rows[..k])
    {
      assert rows[..k + 1][..k] == rows[..k];
      if rows[k].coverage.Satisfied? && !rows[k].downgraded { satisfied := satisfied + 1; }
      if rows[k].coverage.Partial? { partial := partial + 1; }
      if rows[k].coverage.Open? { open := open + 1; }
      if rows[k].downgraded { downgraded := downgraded + 1; }
    }
    assert rows[..|rows|] == rows;
    b := Breakdown(satisfied, partial, open, downgraded);
  }

  /** Groups the rows by control, in the order in which the controls first occur. */
  method GroupByControl(rows: seq<LinkRow>) returns (order: seq<Id>, groups: map<Id, seq<LinkRow>>)
    ensures Distinct(order) && forall c :: c in order <==> c in groups
    ensures forall c :: c in groups <==> Of(rows, c) != []
    ensures forall c | c in groups :: groups[c] == Of(rows, c)
  {
    order, groups := [], map[];
    for k := 0 to |rows|
      invariant Distinct(order) && forall c :: c in order <==> c in groups
      invariant forall c :: c in groups <==> Of(rows[..k], c) != []
      invariant forall c | c in groups :: groups[c] == Of(rows[..k], c)
    {
      forall c { OfNext(rows, k, c); }
      var c := rows[k].control;
      if c !in groups {
        order := order + [c];
        groups := groups[c := []];
      }
      groups := groups[c := groups[c] + [rows[k]]];
    }
    assert rows[..|rows|] == rows;
  }

  // --- Controls, clauses and the rest of the library ---------------------------------------------------

  type Framework = nat

  datatype FrameworkMap = FrameworkMap(control: Id, framework: Framework, clause: string)

  datatype ControlRead = ControlRead(control: Id, verdict: CoverageStatus, breakdown: Breakdown, mappings: seq<FrameworkMap>)

  predicate Wanted(m: FrameworkMap, c: Id, framework: Option<Framework>) {
    m.control == c && (framework.Some? ==> m.framework == framework.value)
  }

  /** The mappings of a control that a framework filter leaves. */
  function MappingsOf(maps: seq<FrameworkMap>, c: Id, framework: Option<Framework>): (r: seq<FrameworkMap>)
    ensures forall m :: m in r <==> m in maps && Wanted(m, c, framework)
  {
    if |maps| == 0 then []
    else
      var last := maps[|maps| - 1];
      assert maps == maps[..|maps| - 1] + [last];
      MappingsOf(maps[..|maps| - 1], c, framework) + if Wanted(last, c, framework) then [last] else []
  }

  /** The control belongs to the view: it is in the library and, under a filter, in the framework. */
  predicate InView(library: seq<Id>, maps: seq<FrameworkMap>, framework: Option<Framework>, c: Id) {
    c in library && (framework.Some? ==> exists m | m in maps :: Wanted(m, c, framework))
  }

  ghost predicate ReadOk(rows: seq<LinkRow>, maps: seq<FrameworkMap>, framework: Option<Framework>, r: ControlRead) {
    && r.verdict == Rollup(Effectives(Of(rows, r.control))) && r.breakdown == Tally(Of(rows, r.control))
    && r.mappings == MappingsOf(maps, r.control, framework)
  }

  function ControlsOf(entries: seq<ControlRead>): (r: seq<Id>)
    ensures |r| == |entries| && forall k | 0 <= k < |entries| :: r[k] == entries[k].control
  {
    seq(|entries|, k requires 0 <= k < |entries| => entries[k].control)
  }

  method BuildControlReads(rows: seq<LinkRow>, library: seq<Id>, maps: seq<FrameworkMap>, framework: Option<Framework>)
    returns (entries: seq<ControlRead>, ghost addressed: set<Id>)
    ensures Distinct(ControlsOf(entries))
    ensures addressed == set c | c in ControlsOf(entries)
    ensures forall c :: c in addressed <==> Of(rows, c) != [] && InView(library, maps, framework, c)
    ensures forall r | r in entries :: ReadOk(rows, maps, framework, r)
  {
    var order, groups := GroupByControl(rows);
    entries := [];
    for k := 0 to |order|
      invariant Distinct(ControlsOf(entries))
      invariant forall c :: c in ControlsOf(entries) <==> c in order[..k] && InView(library, maps, framework, c)
      invariant forall r | r in entries :: ReadOk(rows, maps, framework, r)
    {
      var c := order[k];
      assert order[..k + 1] == order[..k] + [c] && c !in order[..k];
      if c in library {
        var mappings := MappingsOf(maps, c, framework);
        if framework.None? || mappings != [] {
          if framework.Some? { assert mappings[0] in mappings; }
          var b := BuildBreakdown(groups[c]);
          var read := ControlRead(c, Rollup(Effectives(groups[c])), b, mappings);
          assert ControlsOf(entries + [read]) == ControlsOf(entries) + [c];
          entries := entries + [read];
        }
      }
    }
    assert order[..|order|] == order;
    addressed := set c | c in ControlsOf(entries);
  }

  /** The library's controls that nothing in scope touches, under the same filter. */
  method BuildUnaddressed(rows: seq<LinkRow>, library: seq<Id>, maps: seq<FrameworkMap>, framework: Option<Framework>)
    returns (controls: seq<Id>)
    requires Distinct(library)
    ensures Distinct(controls)
    ensures forall c :: c in controls <==> Of(rows, c) == [] && InView(library, maps, framework, c)
  {
    controls := [];
    for k := 0 to |library|
      invariant Distinct(controls)
      invariant forall c :: c in controls <==> c in library[..k] && Of(rows, c) == [] && InView(library, maps, framework, c)
    {
      var c := library[k];
      assert library[..k + 1] == library[..k] + [c] && c !in library[..k];
      if Of(rows, c) == [] && InView(library, maps, framework, c) {
        controls := controls + [c];
      }
    }
    assert library[..|library|] == library;
  }

  type Clause = (Framework, string)

  datatype ClauseRead = ClauseRead(verdict: CoverageStatus, controls: seq<Id>)

  /** The verdicts that the entries contribute to a clause, once per mapping. */
  function Contributions(entries: seq<ControlRead>, clause: Clause): seq<(Id, CoverageStatus)> {
    if |entries| == 0 then []
    else Contributions(entries[..|entries| - 1], clause) + Hits(entries[|entries| - 1], entries[|entries| - 1].mappings, clause)
  }

  lemma {:induction false} ContributionsMembers(entries: seq<ControlRead>, clause: Clause)
    ensures forall x :: x in Contributions(entries, clause) <==>
                        exists q | q in entries :: Reaches(q, clause) && x == (q.control, q.verdict)
  {
    if |entries| > 0 {
      var last := entries[|entries| - 1];
      ContributionsMembers(entries[..|entries| - 1], clause);
      HitsMembers(last, last.mappings, clause);
      assert entries == entries[..|entries| - 1] + [last];
    }
  }

  predicate Reaches(read: ControlRead, clause: Clause) {
    exists m | m in read.mappings :: ClauseKey(m) == clause
  }

  function ClauseKey(m: FrameworkMap): Clause {
    (m.framework, m.clause)
  }

  function Hits(read: ControlRead, mappings: seq<FrameworkMap>, clause: Clause): seq<(Id, CoverageStatus)> {
    if |mappings| == 0 then []
    else
      Hits(read, mappings[..|mappings| - 1], clause)
      + if ClauseKey(mappings[|mappings| - 1]) == clause then [(read.control, read.verdict)] else []
  }

  lemma {:induction false} HitsMembers(read: ControlRead, mappings: seq<FrameworkMap>, clause: Clause)
    ensures forall x :: x in Hits(read, mappings, clause) <==>
                        (exists m | m in mappings :: ClauseKey(m) == clause) && x == (read.control, read.verdict)
  {
    if |mappings| > 0 {
      HitsMembers(read, mappings[..|mappings| - 1], clause);
      assert mappings == mappings[..|mappings| - 1] + [mappings[|mappings| - 1]];
    }
  }

  lemma HitsNext(read: ControlRead, ms: seq<FrameworkMap>, k: nat, clause: Clause)
    requires k < |ms|
    ensures Hits(read, ms[..k + 1], clause) ==
            Hits(read, ms[..k], clause) + if ClauseKey(ms[k]) == clause then [(read.control, read.verdict)] else []
  {
    assert ms[..k + 1][..k] == ms[..k];
  }

  /** The dictionary of clauses while it is built: an absent clause has no contributions yet. */
  type Clauses = map<Clause, seq<(Id, CoverageStatus)>>

  function At(m: Clauses, c: Clause): seq<(Id, CoverageStatus)> {
    if c in m then m[c] else []
  }

  predicate NoEmptyEntry(m: Clauses) {
    forall c | c in m :: m[c] != []
  }

  method AddContribution(m: Clauses, clause: Clause, x: (Id, CoverageStatus)) returns (next: Clauses)
    requires NoEmptyEntry(m)
    ensures NoEmptyEntry(next) && forall c :: At(next, c) == At(m, c) + if c == clause then [x] else []
  {
    next := m;
    if clause !in next {
      next := next[clause := []];
    }
    next := next[clause := next[clause] + [x]];
  }

  /** One control's mappings entered into the dictionary. */
  method AddToClauses(read: ControlRead, before: Clauses) returns (clauses: Clauses)
    requires NoEmptyEntry(before)
    ensures NoEmptyEntry(clauses) && forall c :: At(clauses, c) == At(before, c) + Hits(read, read.mappings, c)
  {
    clauses := before;
    var ms := read.mappings;
    for k := 0 to |ms|
      invariant NoEmptyEntry(clauses) && forall c :: At(clauses, c) == At(before, c) + Hits(read, ms[..k], c)
    {
      clauses := AddContribution(clauses, ClauseKey(ms[k]), (read.control, read.verdict));
      forall c ensures At(clauses, c) == At(before, c) + Hits(read, ms[..k + 1], c) { HitsNext(read, ms, k, c); }
    }
    assert ms[..|ms|] == ms;
  }

  function Firsts(xs: seq<(Id, CoverageStatus)>): (r: seq<Id>)
    ensures |r| == |xs| && forall k | 0 <= k < |xs| :: r[k] == xs[k].0
  {
    seq(|xs|, k requires 0 <= k < |xs| => xs[k].0)
  }

  function Seconds(xs: seq<(Id, CoverageStatus)>): (r: seq<CoverageStatus>)
    ensures |r| == |xs| && forall k | 0 <= k < |xs| :: r[k] == xs[k].1
  {
    seq(|xs|, k requires 0 <= k < |xs| => xs[k].1)
  }

  function ClauseOf(xs: seq<(Id, CoverageStatus)>): ClauseRead {
    ClauseRead(Rollup(Seconds(xs)), Firsts(xs))
  }

  /** The clause axis, keyed by clause. */
  method BuildClauseAxis(entries: seq<ControlRead>) returns (axis: map<Clause, ClauseRead>)
    ensures forall c :: c in axis <==> Contributions(entries, c) != []
    ensures forall c | c in axis :: axis[c] == ClauseOf(Contributions(entries, c))
  {
    var clauses: Clauses := map[];
    for k := 0 to |entries|
      invariant NoEmptyEntry(clauses) && forall c :: At(clauses, c) == Contributions(entries[..k], c)
    {
      assert entries[..k + 1][..k] == entries[..k];
      clauses := AddToClauses(entries[k], clauses);
    }
    assert entries[..|entries|] == entries;
    axis := map c | c in clauses :: ClauseOf(clauses[c]);
  }

  // --- The whole view --------------------------------------------------------------------------------

  datatype Matrix = Matrix(controls: seq<ControlRead>, clauses: map<Clause, ClauseRead>, unaddressed: seq<Id>)

  /** The matrix is the one that these link rows give. */
  ghost predicate MatrixOk(m: Matrix, rows: seq<LinkRow>, library: seq<Id>, maps: seq<FrameworkMap>, framework: Option<Framework>) {
    && Distinct(ControlsOf(m.controls)) && Distinct(m.unaddressed)
    && (forall c :: c in ControlsOf(m.controls) <==> Of(rows, c) != [] && InView(library, maps, framework, c))
    && (forall c :: c in m.unaddressed <==> Of(rows, c) == [] && InView(library, maps, framework, c))
    && (forall r | r in m.controls :: ReadOk(rows, maps, framework, r))
    && (forall c :: c in m.clauses <==> Contributions(m.controls, c) != [])
    && (forall c | c in m.clauses :: m.clauses[c] == ClauseOf(Contributions(m.controls, c)))
  }

  /** `joined` and `library` are the query results, in whatever order the database returns them. */
  method ComputeCoverage(d: Db, scope: Scope, framework: Option<Framework>, includeUnapproved: bool, required: bool,
                         joined: seq<Id>, library: seq<Id>, maps: seq<FrameworkMap>)
    returns (matrix: Option<Matrix>, error: Option<Error>, ghost rows: seq<LinkRow>)
    requires Distinct(joined) && Distinct(library)
    requires forall l :: l in joined <==> Joins(d, l) && InScope(d, scope, AssessmentOf(d, l))
    ensures error == ScopeRefusal(d, scope) && (matrix.Some? <==> error.None?)
    ensures matrix.Some? ==> Lists(d, rows, Qualifying(d, scope, includeUnapproved), required)
    ensures matrix.Some? ==> MatrixOk(matrix.value, rows, library, maps, framework)
  {
    error := ScopeRefusal(d, scope);
    if error.Some? {
      return None, error, [];
    }
    var fetched := FetchQualifyingLinks(d, scope, includeUnapproved, joined);
    var dicts := new LinkRow[|fetched|](k requires 0 <= k < |fetched| => fetched[k]);
    ApplyEvidenceSubstantiation(d, dicts, required);
    var substantiated := dicts[..];
    rows := substantiated;
    SubstantiatedLists(d, fetched, rows, Qualifying(d, scope, includeUnapproved), required);
    var controls, addressed := BuildControlReads(substantiated, library, maps, framework);
    var clauses := BuildClauseAxis(controls);
    var unaddressed := BuildUnaddressed(substantiated, library, maps, framework);
    matrix := Some(Matrix(controls, clauses, unaddressed));
  }

  lemma SubstantiatedLists(d: Db, p: seq<LinkRow>, q: seq<LinkRow>, links: set<Id>, required: bool)
    requires Lists(d, p, links, false) && |q| == |p| && forall k | 0 <= k < |p| :: q[k] == Substantiated(d, p[k], required)
    ensures Lists(d, q, links, required)
  {
  }
}
