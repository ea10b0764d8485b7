/** Counting rows: how often an act is on record. */
module Counting {
  import opened Vocabulary
  import opened Lifecycle
  import opened Store

  /** How often the audit trail records this action on this entity. */
  function Acts(audit: seq<Audit>, action: Action, entity: Id): nat {
    if |audit| == 0 then 0
    else Acts(audit[..|audit| - 1], action, entity) + if audit[|audit| - 1] == Audit(action, entity) then 1 else 0
  }

  function ReviewsOf(reviews: seq<Review>, a: Id): nat {
    if |reviews| == 0 then 0
    else ReviewsOf(reviews[..|reviews| - 1], a) + if reviews[|reviews| - 1].assessment == a then 1 else 0
  }

  function AtosOf(atos: seq<Ato>, u: Id): nat {
    if |atos| == 0 then 0
    else AtosOf(atos[..|atos| - 1], u) + if atos[|atos| - 1].useCase == u then 1 else 0
  }

  /** Transitions into AUTHORISED. */
  function Entries(log: seq<Edge>): nat {
    if |log| == 0 then 0
    else Entries(log[..|log| - 1]) + if log[|log| - 1].target.Authorised? then 1 else 0
  }

  lemma ActsSnoc(audit: seq<Audit>, x: Audit)
    ensures forall action, entity ::
              Acts(audit + [x], action, entity) == Acts(audit, action, entity) + if x == Audit(action, entity) then 1 else 0
  {
  }

  lemma ReviewsSnoc(reviews: seq<Review>, x: Review)
    ensures forall a :: ReviewsOf(reviews + [x], a) == ReviewsOf(reviews, a) + if x.assessment == a then 1 else 0
  {
  }

  lemma AtosSnoc(atos: seq<Ato>, x: Ato)
    ensures forall u :: AtosOf(atos + [x], u) == AtosOf(atos, u) + if x.useCase == u then 1 else 0
  {
  }

  lemma {:induction false} NoActs(audit: seq<Audit>, action: Action, entity: Id)
    requires forall x | x in audit :: x.entity != entity
    ensures Acts(audit, action, entity) == 0
  {
    if |audit| > 0 { NoActs(audit[..|audit| - 1], action, entity); }
  }

  lemma {:induction false} ReviewsExist(reviews: seq<Review>, a: Id)
    ensures ReviewsOf(reviews, a) == 0 <==> forall r | r in reviews :: r.assessment != a
  {
    if |reviews| > 0 {
      ReviewsExist(reviews[..|reviews| - 1], a);
      assert reviews == reviews[..|reviews| - 1] + [reviews[|reviews| - 1]];
    }
  }

  lemma {:induction false} AtosExist(atos: seq<Ato>, u: Id)
    ensures AtosOf(atos, u) == 0 <==> forall t | t in atos :: t.useCase != u
  {
    if |atos| > 0 {
      AtosExist(atos[..|atos| - 1], u);
      assert atos == atos[..|atos| - 1] + [atos[|atos| - 1]];
    }
  }
}
