/** What the order of the answers decides. The resolver takes a list in which a question may be answered
    again; its documentation calls the result order-independent. */
module AnswerOrder {
  import opened Vocabulary
  import opened ContextResolver

  // --- Rearranged answers ---------------------------------------------------------------------

  predicate Reorders(p: seq<Answer>, q: seq<Answer>) {
    multiset(p) == multiset(q)
  }

  lemma SameMembers(p: seq<Answer>, q: seq<Answer>)
    requires Reorders(p, q)
    ensures (forall a :: a in p <==> a in q) && Codes(p) == Codes(q)
  {
    assert forall a :: a in p <==> a in multiset(p);
    assert forall a :: a in q <==> a in multiset(q);
  }

  function Filter(answers: seq<Answer>, keep: Answer -> bool): (r: seq<Answer>)
    ensures forall a :: a in r <==> a in answers && keep(a)
  {
    if |answers| == 0 then []
    else
      assert answers == [answers[0]] + answers[1..];
      (if keep(answers[0]) then [answers[0]] else []) + Filter(answers[1..], keep)
  }

  lemma {:induction false} FilterCounts(answers: seq<Answer>, keep: Answer -> bool, a: Answer)
    ensures multiset(Filter(answers, keep))[a] == if keep(a) then multiset(answers)[a] else 0
  {
    if |answers| > 0 {
      FilterCounts(answers[1..], keep, a);
      assert answers == [answers[0]] + answers[1..];
    }
  }

  function Leading(answers: seq<Answer>, first: Answer): seq<Answer> {
    Filter(answers, (a: Answer) => a.question == first.question && a != first) + Filter(answers, a => a == first)
  }

  function Following(answers: seq<Answer>, first: Answer, low: Answer -> bool): seq<Answer> {
    Filter(answers, (a: Answer) => a.question != first.question && low(a))
    + Filter(answers, (a: Answer) => a.question != first.question && !low(a))
  }

  /** The answers to one question, ending in `first`, and then the others, the low ones before the rest. */
  function Arranged(answers: seq<Answer>, first: Answer, low: Answer -> bool): seq<Answer> {
    Leading(answers, first) + Following(answers, first, low)
  }

  lemma ArrangedReorders(answers: seq<Answer>, first: Answer, low: Answer -> bool)
    ensures Reorders(answers, Arranged(answers, first, low))
  {
    forall a ensures multiset(answers)[a] == multiset(Arranged(answers, first, low))[a] {
      FilterCounts(answers, (a: Answer) => a.question == first.question && a != first, a);
      FilterCounts(answers, a => a == first, a);
      FilterCounts(answers, (a: Answer) => a.question != first.question && low(a), a);
      FilterCounts(answers, (a: Answer) => a.question != first.question && !low(a), a);
    }
  }

  lemma {:induction false} OneQuestion(answers: seq<Answer>)
    requires |answers| > 0 && forall a | a in answers :: a.question == answers[0].question
    ensures Indexed(answers) == [answers[|answers| - 1]]
  {
    var front := answers[..|answers| - 1];
    if |front| > 0 {
      assert forall a | a in front :: a in answers;
      OneQuestion(front);
    }
  }

  lemma {:induction false} HeadStays(answers: seq<Answer>, more: seq<Answer>)
    requires |Indexed(answers)| > 0 && Indexed(answers)[0].question !in Codes(more)
    ensures |Indexed(answers + more)| > 0 && Indexed(answers + more)[0] == Indexed(answers)[0]
  {
    if |more| == 0 {
      assert answers + more == answers;
    } else {
      var front, last := more[..|more| - 1], more[|more| - 1];
      assert more == front + [last] && last.question in Codes(more);
      assert (answers + more)[..|answers + more| - 1] == answers + front;
      HeadStays(answers, front);
    }
  }

  /** Arranged so, `first` heads the index, and every other question that has an answer which is not low
      ends with such an answer. */
  lemma ArrangedIndex(answers: seq<Answer>, first: Answer, low: Answer -> bool)
    requires first in answers
    ensures var q := Arranged(answers, first, low);
            && Reorders(answers, q) && |Indexed(q)| > 0 && Indexed(q)[0] == first
            && forall e | e in Indexed(q) && e != first ::
                 && e in answers && e.question != first.question
                 && (low(e) ==> forall a | a in answers && a.question == e.question :: low(a))
  {
    var q := Arranged(answers, first, low);
    ArrangedReorders(answers, first, low);
    LeadIsFirst(answers, first, low);
    SameMembers(answers, q);
    IndexedIsLastAnswers(q);
    forall e | e in Indexed(q) && e != first
      ensures e in answers && e.question != first.question
      ensures low(e) ==> forall a | a in answers && a.question == e.question :: low(a)
    {
      HeadIsApart(Indexed(q), e);
      hide Arranged, Indexed;
      LastAnswerIsAnswer(q, e);
      if low(e) { LowForSure(answers, first, low, e); }
    }
  }

  lemma LastAnswerIsAnswer(answers: seq<Answer>, e: Answer)
    requires IsLastAnswer(answers, e)
    ensures e in answers
  {
  }

  lemma HeadIsApart(entries: seq<Answer>, e: Answer)
    requires IsDict(entries) && e in entries && e != entries[0]
    ensures e.question != entries[0].question
  {
    var k :| 0 <= k < |entries| && entries[k] == e;
    assert 0 < k && entries[0].question != entries[k].question;
  }

  lemma LowForSure(answers: seq<Answer>, first: Answer, low: Answer -> bool, e: Answer)
    requires IsLastAnswer(Arranged(answers, first, low), e) && e.question != first.question && low(e)
    ensures forall a | a in answers && a.question == e.question :: low(a)
  {
    var p := Filter(answers, (a: Answer) => a.question != first.question && low(a));
    var n := Filter(answers, (a: Answer) => a.question != first.question && !low(a));
    LastAnswerOfBoth(Leading(answers, first), Following(answers, first, low), e);
    LastAnswerOfBoth(p, n, e);
    if IsLastAnswer(Leading(answers, first), e) { LastAnswerIsAnswer(Leading(answers, first), e); }
    if IsLastAnswer(n, e) { LastAnswerIsAnswer(n, e); }
    forall a | a in answers && a.question == e.question ensures low(a) { assert a in n ==> a.question in Codes(n); }
  }

  lemma LeadIsFirst(answers: seq<Answer>, first: Answer, low: Answer -> bool)
    requires first in answers
    ensures var q := Arranged(answers, first, low); |Indexed(q)| > 0 && Indexed(q)[0] == first
  {
    var group, rest := Leading(answers, first), Following(answers, first, low);
    var ends := Filter(answers, a => a == first);
    assert first in ends && ends[|ends| - 1] in ends;
    assert group[|group| - 1] == ends[|ends| - 1] && group[0] in group;
    OneQuestion(group);
    HeadStays(group, rest);
  }

  // --- What one answer contributes -------------------------------------------------------------

  predicate Unknown(tree: seq<Question>, a: Answer) {
    Chosen(tree, a).None?
  }

  predicate Prohibits(tree: seq<Question>, a: Answer) {
    Asserts(Chosen(tree, a), Prohibited)
  }

  /** How severe an answer is: no rung counts as MINIMAL. */
  function Level(tree: seq<Question>, a: Answer): nat {
    var o := Chosen(tree, a);
    if o.Some? && o.value.rung.Some? then TierRank(o.value.rung.value) else 3
  }

  lemma ChoicesAreChosen(tree: seq<Question>, entries: seq<Answer>)
    ensures forall e | e in entries :: Chosen(tree, e) in Choices(tree, entries)
    ensures forall o | o in Choices(tree, entries) :: exists e | e in entries :: Chosen(tree, e) == o
  {
    var os := Choices(tree, entries);
    forall e | e in entries ensures Chosen(tree, e) in os {
      var k :| 0 <= k < |entries| && entries[k] == e;
      assert os[k] == Chosen(tree, e);
    }
    forall o | o in os ensures exists e | e in entries :: Chosen(tree, e) == o {
      var k :| 0 <= k < |os| && os[k] == o;
      assert entries[k] in entries;
    }
  }

  /** The tier is decided by how severe the most severe last answer is. */
  lemma LevelDecides(tree: seq<Question>, entries: seq<Answer>)
    requires TreeOk(tree) && |tree| > 0 && AnswersTree(tree, entries)
    ensures var r := Resolve(tree, entries);
            && r.Outcome? && (!r.kind.Unresolved? ==> r.tier.Some? && Storable(r.tier.value))
            && (r.tier.Some? ==> (exists e | e in entries :: Level(tree, e) == TierRank(r.tier.value))
                                 && forall e | e in entries :: TierRank(r.tier.value) <= Level(tree, e))
  {
    var os, missing := Choices(tree, entries), TreeCodes(tree) - Codes(entries);
    ResolutionOfEntries(tree, entries);
    ChoicesAreValid(tree, entries);
    ChoicesAreChosen(tree, entries);
    ResolverIsTheRule(os, missing, |tree|);
    var r := Resolve(tree, entries);
    if r.tier.Some? {
      if IsTop(os, r.tier.value) {
        var o :| o in os && Asserts(o, r.tier.value);
      } else if !r.kind.ProhibitedHalt? {
        assert tree[0].code in TreeCodes(tree) && (tree[0].code in missing || tree[0].code in Codes(entries));
      }
    }
  }

  // --- The verdict ---------------------------------------------------------------------------------

  /** Everything but the subcategory. */
  predicate SameVerdict(r: Resolution, s: Resolution) {
    match (r, s)
    case (Outcome(k, t, _, m), Outcome(k', t', _, m')) => k == k' && t == t' && m == m'
    case (Failed(e), Failed(e')) => e == e'
    case _ => false
  }

  function Verdict(tree: seq<Question>, answers: seq<Answer>): Resolution {
    Resolve(tree, Indexed(answers))
  }

  ghost predicate VerdictIgnoresOrder(tree: seq<Question>, answers: seq<Answer>) {
    forall q | Reorders(answers, q) :: SameVerdict(Verdict(tree, answers), Verdict(tree, q))
  }

  /** Whichever answers come last, one question contributes the most severe level of all. */
  predicate MostSevereForSure(tree: seq<Question>, answers: seq<Answer>, question: string) {
    forall a, b | a in answers && b in answers && a.question == question :: Level(tree, a) <= Level(tree, b)
  }

  predicate UnknownForSure(tree: seq<Question>, answers: seq<Answer>, question: string) {
    forall a | a in answers && a.question == question :: Unknown(tree, a)
  }

  predicate NoneProhibits(tree: seq<Question>, answers: seq<Answer>) {
    forall a | a in answers :: !Prohibits(tree, a)
  }

  /** Every question of the tree is answered. */
  predicate Complete(tree: seq<Question>, answers: seq<Answer>) {
    TreeCodes(tree) - Codes(answers) == {}
  }

  /** Where an unknown option is given, nothing prohibits and some question has only unknown options.
      Where all are known, either nothing prohibits and a question is left open, or some question is
      answered only with the most severe level that any answer has. */
  predicate OneVerdict(tree: seq<Question>, answers: seq<Answer>) {
    if exists a | a in answers :: Unknown(tree, a)
    then NoneProhibits(tree, answers) && exists a | a in answers :: UnknownForSure(tree, answers, a.question)
    else
      || (NoneProhibits(tree, answers) && !Complete(tree, answers))
      || exists a | a in answers :: MostSevereForSure(tree, answers, a.question)
  }

  /** The verdict on a list of answers is the same for every order of the list exactly when the list
      names a question that the tree does not have, or satisfies `OneVerdict`. */
  lemma VerdictIgnoresOrderIff(tree: seq<Question>, answers: seq<Answer>)
    requires TreeOk(tree) && |tree| > 0
    ensures VerdictIgnoresOrder(tree, answers) <==> !(Codes(answers) <= TreeCodes(tree)) || OneVerdict(tree, answers)
  {
    if Codes(answers) <= TreeCodes(tree) && !OneVerdict(tree, answers) {
      VerdictDependsOnOrder(tree, answers);
    } else {
      forall q | Reorders(answers, q) ensures SameVerdict(Verdict(tree, answers), Verdict(tree, q)) {
        SameMembers(answers, q);
        IndexedIsLastAnswers(answers);
        IndexedIsLastAnswers(q);
        if Codes(answers) <= TreeCodes(tree) { OneVerdictForAll(tree, answers, q); }
      }
    }
  }

  lemma LastAnswersAreAnswers(answers: seq<Answer>)
    ensures Codes(Indexed(answers)) == Codes(answers) && forall e | e in Indexed(answers) :: e in answers
  {
    IndexedIsLastAnswers(answers);
    forall e | e in Indexed(answers) ensures e in answers { LastAnswerIsAnswer(answers, e); }
  }

  lemma KnownAtLast(tree: seq<Question>, answers: seq<Answer>)
    requires Codes(answers) <= TreeCodes(tree) && forall a | a in answers :: !Unknown(tree, a)
    ensures AnswersTree(tree, Indexed(answers))
  {
    LastAnswersAreAnswers(answers);
  }

  /** One entry of the index for each question, taken from the answers. */
  lemma EntryFor(answers: seq<Answer>, question: string) returns (e: Answer)
    requires question in Codes(answers)
    ensures e in Indexed(answers) && e.question == question && e in answers
  {
    IndexedIsLastAnswers(answers);
    e :| e in Indexed(answers) && e.question == question;
    assert IsLastAnswer(answers, e);
  }

  lemma UnknownFails(tree: seq<Question>, answers: seq<Answer>, a: Answer)
    requires Codes(answers) <= TreeCodes(tree) && NoneProhibits(tree, answers)
    requires a in answers && UnknownForSure(tree, answers, a.question)
    ensures Verdict(tree, answers) == Failed(Unprocessable)
  {
    var entries := Indexed(answers);
    var os := Choices(tree, entries);
    IndexedIsLastAnswers(answers);
    ChoicesAreChosen(tree, entries);
    var e := EntryFor(answers, a.question);
    assert os[FirstStop(os, 0)].None? by {
      assert None in os;
      assert forall x | IsLastAnswer(answers, x) :: x in answers;
    }
  }

  lemma ForSureEitherWay(tree: seq<Question>, answers: seq<Answer>, q: seq<Answer>, question: string)
    requires forall a :: a in answers <==> a in q
    ensures UnknownForSure(tree, answers, question) == UnknownForSure(tree, q, question)
    ensures MostSevereForSure(tree, answers, question) == MostSevereForSure(tree, q, question)
  {
  }

  lemma OneVerdictForAll(tree: seq<Question>, answers: seq<Answer>, q: seq<Answer>)
    requires TreeOk(tree) && |tree| > 0 && Codes(answers) <= TreeCodes(tree)
    requires OneVerdict(tree, answers) && (forall a :: a in answers <==> a in q) && Codes(answers) == Codes(q)
    ensures SameVerdict(Verdict(tree, answers), Verdict(tree, q))
  {
    hide MostSevereForSure, UnknownForSure, Verdict;
    if exists a | a in answers :: Unknown(tree, a) {
      var a :| a in answers && UnknownForSure(tree, answers, a.question);
      ForSureEitherWay(tree, answers, q, a.question);
      UnknownFails(tree, answers, a);
      UnknownFails(tree, q, a);
    } else {
      KnownAtLast(tree, answers);
      KnownAtLast(tree, q);
      hide AnswersTree, Verdict;
      if NoneProhibits(tree, answers) && !Complete(tree, answers) {
        OpenQuestion(tree, answers);
        OpenQuestion(tree, q);
      } else {
        var a :| a in answers && MostSevereForSure(tree, answers, a.question);
        ForSureEitherWay(tree, answers, q, a.question);
        LevelForSure(tree, answers, a);
        LevelForSure(tree, q, a);
      }
    }
  }

  lemma OpenQuestion(tree: seq<Question>, answers: seq<Answer>)
    requires TreeOk(tree) && |tree| > 0 && AnswersTree(tree, Indexed(answers))
    requires NoneProhibits(tree, answers) && !Complete(tree, answers)
    ensures var r := Verdict(tree, answers);
            r.Outcome? && r.kind.Unresolved? && r.tier.None? && r.missing == TreeCodes(tree) - Codes(answers)
  {
    LastAnswersAreAnswers(answers);
    ResolutionOfEntries(tree, Indexed(answers));
  }

  /** A question that always contributes the most severe level decides the verdict. */
  lemma LevelForSure(tree: seq<Question>, answers: seq<Answer>, a: Answer)
    requires TreeOk(tree) && |tree| > 0 && AnswersTree(tree, Indexed(answers))
    requires a in answers && MostSevereForSure(tree, answers, a.question)
    requires NoneProhibits(tree, answers) ==> Complete(tree, answers)
    ensures var r := Verdict(tree, answers);
            && r.Outcome? && r.missing == {} && r.tier.Some? && Storable(r.tier.value) && TierRank(r.tier.value) == Level(tree, a)
            && (r.kind.ProhibitedHalt? <==> Level(tree, a) == 0) && !r.kind.Unresolved?
  {
    var entries := Indexed(answers);
    LastAnswersAreAnswers(answers);
    var e := EntryFor(answers, a.question);
    assert Level(tree, a) == Level(tree, e);
    ResolutionOfEntries(tree, entries);
    LevelDecides(tree, entries);
    ProhibitsIffLevelZero(tree, e);
    if p :| p in answers && Prohibits(tree, p) { ProhibitsIffLevelZero(tree, p); }
  }

  lemma ProhibitsIffLevelZero(tree: seq<Question>, a: Answer)
    ensures Prohibits(tree, a) <==> Level(tree, a) == 0
  {
  }

  /** The first entry of the index stops the loop if its option is unknown or prohibits. */
  lemma FirstEntryStops(tree: seq<Question>, answers: seq<Answer>)
    requires Codes(answers) <= TreeCodes(tree) && |Indexed(answers)| > 0
    ensures Unknown(tree, Indexed(answers)[0]) ==> Verdict(tree, answers) == Failed(Unprocessable)
    ensures Prohibits(tree, Indexed(answers)[0]) ==> Verdict(tree, answers).Outcome? && Verdict(tree, answers).kind.ProhibitedHalt?
  {
    IndexedIsLastAnswers(answers);
  }

  lemma Differ(tree: seq<Question>, answers: seq<Answer>, p: seq<Answer>, q: seq<Answer>)
    requires Reorders(answers, p) && Reorders(answers, q) && !SameVerdict(Verdict(tree, p), Verdict(tree, q))
    ensures !VerdictIgnoresOrder(tree, answers)
  {
    assert !SameVerdict(Verdict(tree, answers), Verdict(tree, p)) || !SameVerdict(Verdict(tree, answers), Verdict(tree, q));
  }

  lemma VerdictDependsOnOrder(tree: seq<Question>, answers: seq<Answer>)
    requires TreeOk(tree) && |tree| > 0 && Codes(answers) <= TreeCodes(tree) && !OneVerdict(tree, answers)
    ensures !VerdictIgnoresOrder(tree, answers)
  {
    hide MostSevereForSure, UnknownForSure, VerdictIgnoresOrder;
    if x :| x in answers && Unknown(tree, x) {
      UnknownDependsOnOrder(tree, answers, x);
    } else {
      SomeAnswer(tree, answers);
      KnownDependsOnOrder(tree, answers);
    }
  }

  lemma UnknownDependsOnOrder(tree: seq<Question>, answers: seq<Answer>, x: Answer)
    requires TreeOk(tree) && |tree| > 0 && Codes(answers) <= TreeCodes(tree) && !OneVerdict(tree, answers)
    requires x in answers && Unknown(tree, x)
    ensures !VerdictIgnoresOrder(tree, answers)
  {
    var p := Arranged(answers, x, _ => true);
    LedBy(tree, answers, x);
    var y :| y in answers && if NoneProhibits(tree, answers) then y.question == x.question && !Unknown(tree, y) else Prohibits(tree, y);
    var q := Arranged(answers, y, a => Unknown(tree, a));
    ArrangedReorders(answers, y, a => Unknown(tree, a));
    if NoneProhibits(tree, answers) {
      assert forall a | a in answers :: !UnknownForSure(tree, answers, a.question);
      UnknownAvoided(tree, answers, y);
    } else {
      q := Arranged(answers, y, _ => true);
      LedBy(tree, answers, y);
    }
    hide Verdict, Arranged, OneVerdict;
    Differ(tree, answers, p, q);
  }

  /** With this answer in front it decides alone, if its option is unknown or prohibits. */
  lemma LedBy(tree: seq<Question>, answers: seq<Answer>, x: Answer)
    requires Codes(answers) <= TreeCodes(tree) && x in answers
    ensures var p := Arranged(answers, x, _ => true);
            && Reorders(answers, p)
            && (Unknown(tree, x) ==> Verdict(tree, p) == Failed(Unprocessable))
            && (Prohibits(tree, x) ==> Verdict(tree, p).Outcome? && Verdict(tree, p).kind.ProhibitedHalt?)
  {
    var p := Arranged(answers, x, _ => true);
    ArrangedIndex(answers, x, _ => true);
    SameMembers(answers, p);
    FirstEntryStops(tree, p);
  }

  /** If every question has a known option among its answers, some order leaves no unknown one standing. */
  lemma UnknownAvoided(tree: seq<Question>, answers: seq<Answer>, y: Answer)
    requires TreeOk(tree) && |tree| > 0 && Codes(answers) <= TreeCodes(tree) && y in answers && !Unknown(tree, y)
    requires forall a | a in answers :: !UnknownForSure(tree, answers, a.question)
    ensures Verdict(tree, Arranged(answers, y, a => Unknown(tree, a))).Outcome?
  {
    var unknown := a => Unknown(tree, a);
    var q := Arranged(answers, y, unknown);
    ArrangedIndex(answers, y, unknown);
    SameMembers(answers, q);
    IndexedIsLastAnswers(q);
    forall e | e in Indexed(q) ensures !Unknown(tree, e) {
      assert e != y ==> e in answers && !UnknownForSure(tree, answers, e.question);
    }
    hide Arranged;
    ResolutionOfEntries(tree, Indexed(q));
  }

  lemma KnownDependsOnOrder(tree: seq<Question>, answers: seq<Answer>)
    requires TreeOk(tree) && |tree| > 0 && Codes(answers) <= TreeCodes(tree) && |answers| > 0
    requires (NoneProhibits(tree, answers) ==> Complete(tree, answers)) && forall a | a in answers :: !Unknown(tree, a)
    requires forall a | a in answers :: !MostSevereForSure(tree, answers, a.question)
    ensures !VerdictIgnoresOrder(tree, answers)
  {
    hide MostSevereForSure, Verdict, Arranged, MilderOrder, VerdictIgnoresOrder;
    var x := MostSevere(tree, answers);
    var y := MilderAnswer(tree, answers, x);
    SevereFirst(tree, answers, x);
    MilderInstead(tree, answers, x, y);
    ProhibitsIffLevelZero(tree, x);
    if p :| p in answers && Prohibits(tree, p) { ProhibitsIffLevelZero(tree, p); }
    Differ(tree, answers, Arranged(answers, x, _ => true), MilderOrder(tree, answers, x, y));
  }

  lemma MilderAnswer(tree: seq<Question>, answers: seq<Answer>, x: Answer) returns (y: Answer)
    requires x in answers && !MostSevereForSure(tree, answers, x.question)
    requires forall a | a in answers :: Level(tree, x) <= Level(tree, a)
    ensures y in answers && y.question == x.question && Level(tree, y) != Level(tree, x)
  {
    y :| y in answers && y.question == x.question && Level(tree, y) != Level(tree, x);
  }

  /** The most severe answer of all in front: its level is the tier's, if there is one. */
  lemma SevereFirst(tree: seq<Question>, answers: seq<Answer>, x: Answer)
    requires TreeOk(tree) && |tree| > 0 && Codes(answers) <= TreeCodes(tree) && forall a | a in answers :: !Unknown(tree, a)
    requires x in answers && forall a | a in answers :: Level(tree, x) <= Level(tree, a)
    ensures var p := Arranged(answers, x, _ => true);
            && Reorders(answers, p) && Verdict(tree, p).Outcome?
            && (Verdict(tree, p).tier.Some? ==> TierRank(Verdict(tree, p).tier.value) == Level(tree, x))
            && (Complete(tree, answers) || Prohibits(tree, x) ==> Verdict(tree, p).tier.Some?)
  {
    var p := Arranged(answers, x, _ => true);
    ArrangedIndex(answers, x, _ => true);
    SameMembers(answers, p);
    hide Arranged;
    KnownAtLast(tree, p);
    LevelDecides(tree, Indexed(p));
    LastAnswersAreAnswers(p);
    assert x in Indexed(p);
    ResolutionOfEntries(tree, Indexed(p));
  }

  function MilderOrder(tree: seq<Question>, answers: seq<Answer>, x: Answer, y: Answer): seq<Answer> {
    Arranged(answers, y, a => Level(tree, a) == Level(tree, x))
  }

  lemma AlwaysLevel(tree: seq<Question>, answers: seq<Answer>, x: Answer, question: string)
    requires forall a | a in answers :: Level(tree, x) <= Level(tree, a)
    requires forall a | a in answers && a.question == question :: Level(tree, a) == Level(tree, x)
    ensures MostSevereForSure(tree, answers, question)
  {
  }

  lemma MilderAtLast(tree: seq<Question>, answers: seq<Answer>, x: Answer, y: Answer)
    requires x in answers && (forall a | a in answers :: Level(tree, x) <= Level(tree, a))
    requires forall a | a in answers :: !MostSevereForSure(tree, answers, a.question)
    requires y in answers && Level(tree, y) != Level(tree, x)
    ensures var q := MilderOrder(tree, answers, x, y);
            Reorders(answers, q) && forall e | e in Indexed(q) :: e in answers && Level(tree, e) != Level(tree, x)
  {
    hide MostSevereForSure, Arranged, Indexed, Level;
    ArrangedIndex(answers, y, a => Level(tree, a) == Level(tree, x));
    forall e | e in Indexed(MilderOrder(tree, answers, x, y)) && e != y ensures Level(tree, e) != Level(tree, x) {
      if Level(tree, e) == Level(tree, x) { AlwaysLevel(tree, answers, x, e.question); }
    }
  }

  /** Every question answered otherwise than at the most severe level: the tier, if there is one, is
      another. */
  lemma MilderInstead(tree: seq<Question>, answers: seq<Answer>, x: Answer, y: Answer)
    requires TreeOk(tree) && |tree| > 0 && Codes(answers) <= TreeCodes(tree) && forall a | a in answers :: !Unknown(tree, a)
    requires x in answers && (forall a | a in answers :: Level(tree, x) <= Level(tree, a))
    requires forall a | a in answers :: !MostSevereForSure(tree, answers, a.question)
    requires y in answers && Level(tree, y) != Level(tree, x)
    ensures var q := MilderOrder(tree, answers, x, y);
            && Reorders(answers, q) && Verdict(tree, q).Outcome?
            && (Verdict(tree, q).tier.Some? ==> TierRank(Verdict(tree, q).tier.value) != Level(tree, x))
            && (Complete(tree, answers) ==> Verdict(tree, q).tier.Some?)
  {
    hide MilderOrder, MostSevereForSure, Level;
    var q := MilderOrder(tree, answers, x, y);
    MilderAtLast(tree, answers, x, y);
    SameMembers(answers, q);
    KnownAtLast(tree, q);
    LastAnswersAreAnswers(q);
    LevelDecides(tree, Indexed(q));
    ResolutionOfEntries(tree, Indexed(q));
  }

  lemma SomeAnswer(tree: seq<Question>, answers: seq<Answer>)
    requires |tree| > 0 && !OneVerdict(tree, answers)
    ensures |answers| > 0
  {
    SomeCodes(tree);
  }

  lemma {:induction false} MostSevere(tree: seq<Question>, answers: seq<Answer>) returns (x: Answer)
    requires |answers| > 0
    ensures x in answers && forall a | a in answers :: Level(tree, x) <= Level(tree, a)
  {
    x := answers[0];
    if |answers| > 1 {
      assert answers == [answers[0]] + answers[1..];
      var y := MostSevere(tree, answers[1..]);
      if Level(tree, y) < Level(tree, x) { x := y; }
    }
  }

  // --- Answers given once ------------------------------------------------------------------------------

  /** No question is answered in two ways. */
  predicate Consistent(answers: seq<Answer>) {
    forall a, b | a in answers && b in answers && a.question == b.question :: a == b
  }

  /** For such a list only an unknown option beside a prohibiting one makes the order matter. */
  lemma ConsistentAnswersIff(tree: seq<Question>, answers: seq<Answer>)
    requires TreeOk(tree) && |tree| > 0 && Codes(answers) <= TreeCodes(tree) && Consistent(answers)
    ensures VerdictIgnoresOrder(tree, answers) <==> NoneProhibits(tree, answers) || forall a | a in answers :: !Unknown(tree, a)
  {
    VerdictIgnoresOrderIff(tree, answers);
    hide MostSevereForSure, VerdictIgnoresOrder;
    if |answers| == 0 {
      SomeCodes(tree);
      assert NoneProhibits(tree, answers) && !Complete(tree, answers);
    } else {
      var x := MostSevere(tree, answers);
      AlwaysLevel(tree, answers, x, x.question);
      forall a | a in answers && Unknown(tree, a) ensures UnknownForSure(tree, answers, a.question) { }
    }
  }

  // --- Where it goes wrong -------------------------------------------------------------------------------

  const YES := Answer("q", "yes")
  const NO := Answer("q", "no")

  /** One question, on a prohibited practice. */
  const ONE_QUESTION := [Question("q", map["yes" := TreeOption(Some(Prohibited), None), "no" := TreeOption(None, None)])]

  lemma OneQuestionTree()
    ensures TreeOk(ONE_QUESTION) && TreeCodes(ONE_QUESTION) == {"q"} && |ONE_QUESTION| == 1
    ensures Chosen(ONE_QUESTION, YES) == Some(TreeOption(Some(Prohibited), None))
    ensures Chosen(ONE_QUESTION, NO) == Some(TreeOption(None, None))
  {
  }

  /** The same answers in two orders, all options known: one halts and the other resolves to MINIMAL. So
      one more answer can lift a halt. */
  lemma AnsweredTwice()
    ensures TreeOk(ONE_QUESTION) && Reorders([NO, YES], [YES] + [NO])
    ensures Verdict(ONE_QUESTION, [NO, YES]).Outcome? && Verdict(ONE_QUESTION, [NO, YES]).kind.ProhibitedHalt?
    ensures Verdict(ONE_QUESTION, [YES]).Outcome? && Verdict(ONE_QUESTION, [YES]).kind.ProhibitedHalt?
    ensures var r := Verdict(ONE_QUESTION, [YES] + [NO]); r.Outcome? && r.kind.Resolved? && r.tier == Some(Minimal)
  {
    OneQuestionTree();
    hide Resolve, TreeOk, Chosen, Indexed;
    OneQuestion([YES]);
    OneQuestion([NO, YES]);
    OneQuestion([YES] + [NO]);
    FirstEntryStops(ONE_QUESTION, [YES]);
    FirstEntryStops(ONE_QUESTION, [NO, YES]);
    assert "q" in Codes([NO]) by { assert NO in [NO]; }
    ResolutionOfEntries(ONE_QUESTION, [NO]);
    LevelDecides(ONE_QUESTION, [NO]);
  }
}
