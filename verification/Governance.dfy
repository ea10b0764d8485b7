/** Separation of duties at assignment time (app/services/governance.py,
    app/routers/v1/governance_roles.py). */
module Governance {
  import opened Vocabulary

  /** A governance role held by a membership, and who granted it. */
  datatype Grant = Grant(membership: Id, role: Id, grantedBy: Id)

  /** The conflict matrix stores each pair once, the smaller identifier first. */
  type Matrix = set<(Id, Id)>

  function Ordered(a: Id, b: Id): (Id, Id) {
    if a <= b then (a, b) else (b, a)
  }

  predicate Conflicts(m: Matrix, a: Id, b: Id) {
    Ordered(a, b) in m
  }

  predicate Holds(grants: seq<Grant>, membership: Id, role: Id) {
    exists g | g in grants :: g.membership == membership && g.role == role
  }

  predicate HoldsConflicting(m: Matrix, grants: seq<Grant>, membership: Id, role: Id) {
    exists g | g in grants :: g.membership == membership && Conflicts(m, g.role, role)
  }

  /** Nobody grants to themselves; nobody gets a role that conflicts with one they hold. */
  method AssertAssignable(m: Matrix, grants: seq<Grant>, acting: Id, subject: Id, role: Id) returns (error: Option<Error>)
    ensures error == if acting == subject then Some(Forbidden)
                     else if HoldsConflicting(m, grants, subject, role) then Some(Conflict) else None
  {
    if acting == subject {
      return Some(Forbidden);
    }
    for k := 0 to |grants|
      invariant forall j | 0 <= j < k && grants[j].membership == subject :: !Conflicts(m, grants[j].role, role)
    {
      var held := grants[k];
      if held.membership == subject {
        var lo, hi := if held.role <= role then held.role else role, if held.role <= role then role else held.role;
        if (lo, hi) in m {
          return Some(Conflict);
        }
      }
    }
    return None;
  }

  datatype Act = Assign(acting: Id, subject: Id, role: Id) | Revoke(grant: Grant)

  function Without(grants: seq<Grant>, g: Grant): (r: seq<Grant>)
    ensures forall x :: x in r <==> x in grants && x != g
  {
    if |grants| == 0 then []
    else
      assert grants == [grants[0]] + grants[1..];
      (if grants[0] == g then [] else [grants[0]]) + Without(grants[1..], g)
  }

  /** The assignments after an act; a refused act changes nothing. */
  function Applied(m: Matrix, roles: set<Id>, grants: seq<Grant>, act: Act): seq<Grant> {
    match act
    case Assign(acting, subject, role) =>
      if role !in roles || acting == subject || HoldsConflicting(m, grants, subject, role) || Holds(grants, subject, role) then grants
      else grants + [Grant(subject, role, acting)]
    case Revoke(g) => Without(grants, g)
  }

  /** The assignment table of the tenant. */
  class Roster {
    var grants: seq<Grant>

    /** A role already held is stopped by the table's unique constraint only, which nobody catches. */
    method AssignRole(m: Matrix, roles: set<Id>, acting: Id, subject: Id, role: Id) returns (error: Option<Error>)
      modifies this
      ensures grants == Applied(m, roles, old(grants), Assign(acting, subject, role))
      ensures error.None? <==>
              && role in roles && acting != subject
              && !HoldsConflicting(m, old(grants), subject, role) && !Holds(old(grants), subject, role)
      ensures role in roles && acting != subject && Holds(old(grants), subject, role) ==> error in {Some(Conflict), Some(Internal)}
    {
      if role !in roles {
        return Some(NotFound);
      }
      error := AssertAssignable(m, grants, acting, subject, role);
      if error.Some? {
        return;
      }
      if exists g | g in grants :: g.membership == subject && g.role == role {
        return Some(Internal);
      }
      grants := grants + [Grant(subject, role, acting)];
    }

    method RevokeRole(m: Matrix, roles: set<Id>, g: Grant) returns (error: Option<Error>)
      modifies this
      ensures grants == Applied(m, roles, old(grants), Revoke(g))
      ensures error.None? <==> g in old(grants)
    {
      if g !in grants {
        RemovingNothing(grants, g);
        return Some(NotFound);
      }
      grants := Without(grants, g);
      error := None;
    }
  }

  lemma {:induction false} RemovingNothing(grants: seq<Grant>, g: Grant)
    requires g !in grants
    ensures Without(grants, g) == grants
  {
    if |grants| > 0 {
      assert grants == [grants[0]] + grants[1..];
      RemovingNothing(grants[1..], g);
    }
  }

  function After(m: Matrix, roles: set<Id>, acts: seq<Act>): seq<Grant> {
    if |acts| == 0 then [] else Applied(m, roles, After(m, roles, acts[..|acts| - 1]), acts[|acts| - 1])
  }

  /** The matrix holds the pair, whichever of the two was stored first. */
  predicate Apart(m: Matrix, a: Id, b: Id) {
    if a < b then (a, b) in m else (b, a) in m
  }

  /** A grant is added exactly when the role exists, somebody else grants it, and the member holds neither the
      role nor one apart from it; what others hold does not matter. */
  lemma GrantIsAddedIff(m: Matrix, roles: set<Id>, grants: seq<Grant>, acting: Id, subject: Id, role: Id)
    ensures var after := Applied(m, roles, grants, Assign(acting, subject, role));
            if role in roles && acting != subject
               && forall g | g in grants && g.membership == subject :: g.role != role && !Apart(m, g.role, role)
            then after == grants + [Grant(subject, role, acting)]
            else after == grants
  {
  }

  /** Nobody holds the same role twice. */
  predicate NoneTwice(grants: seq<Grant>) {
    forall i, j | 0 <= i < j < |grants| :: grants[i].membership == grants[j].membership ==> grants[i].role != grants[j].role
  }

  lemma {:induction false} RemovalKeepsNoneTwice(grants: seq<Grant>, g: Grant)
    requires NoneTwice(grants)
    ensures NoneTwice(Without(grants, g))
  {
    if |grants| > 0 {
      assert NoneTwice(grants[1..]);
      RemovalKeepsNoneTwice(grants[1..], g);
      var rest := Without(grants[1..], g);
      forall j | 0 <= j < |rest| ensures rest[j].membership == grants[0].membership ==> rest[j].role != grants[0].role {
        assert rest[j] in grants[1..];
        var k :| 0 <= k < |grants[1..]| && grants[1..][k] == rest[j];
        assert grants[k + 1] == rest[j];
      }
    }
  }

  /** Over any sequence of grants and revocations, in any order, nobody holds two conflicting roles
      at once, nobody holds a role they granted themselves, and nobody holds a role twice. */
  lemma {:induction false} DutiesStaySeparate(m: Matrix, roles: set<Id>, acts: seq<Act>)
    ensures forall g, h | g in After(m, roles, acts) && h in After(m, roles, acts) && g.membership == h.membership ::
              g.role != h.role ==> !Conflicts(m, g.role, h.role)
    ensures forall g | g in After(m, roles, acts) :: g.grantedBy != g.membership
    ensures NoneTwice(After(m, roles, acts))
  {
    if |acts| > 0 {
      var before, act := After(m, roles, acts[..|acts| - 1]), acts[|acts| - 1];
      DutiesStaySeparate(m, roles, acts[..|acts| - 1]);
      if act.Revoke? { RemovalKeepsNoneTwice(before, act.grant); }
    }
  }

  // --- The seeded matrix --------------------------------------------------------------------------

  datatype Role = SystemOwner | Contributor | Reviewer | Authoriser | Auditor

  const SEED_PAIRS := {
    (SystemOwner, Reviewer), (SystemOwner, Authoriser), (Contributor, Reviewer), (Contributor, Authoriser),
    (SystemOwner, Auditor), (Contributor, Auditor), (Reviewer, Authoriser), (Reviewer, Auditor), (Authoriser, Auditor)}

  predicate FirstLine(r: Role) {
    r.SystemOwner? || r.Contributor?
  }

  /** The matrix as the migration writes it for these role identifiers. */
  ghost predicate Seeded(m: Matrix, id: Role -> Id) {
    && (forall a, b | a != b :: id(a) != id(b))
    && forall p :: p in m <==> exists q | q in SEED_PAIRS :: p == Ordered(id(q.0), id(q.1))
  }

  /** The nine seeded pairs are all pairs of different roles but system owner with contributor,
      whichever way round they are looked up. */
  lemma SeedSeparates(m: Matrix, id: Role -> Id, a: Role, b: Role)
    requires Seeded(m, id)
    ensures Conflicts(m, id(a), id(b)) <==> a != b && !(FirstLine(a) && FirstLine(b))
  {
  }

  /** So at any time a member holds first-line roles only, or exactly one of reviewer, authoriser and
      auditor and nothing else. */
  lemma OneLineOfDefence(m: Matrix, id: Role -> Id, roles: set<Id>, acts: seq<Act>, membership: Id, a: Role, b: Role)
    requires Seeded(m, id) && a != b
    requires Holds(After(m, roles, acts), membership, id(a)) && Holds(After(m, roles, acts), membership, id(b))
    ensures FirstLine(a) && FirstLine(b)
  {
    DutiesStaySeparate(m, roles, acts);
    SeedSeparates(m, id, a, b);
  }
}
