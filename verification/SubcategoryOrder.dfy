/** When the subcategory that the resolver reports depends on the order of the answers. */
module SubcategoryOrder {
  import opened Vocabulary
  import opened ContextResolver
  import opened AnswerOrder

  // --- The loop's subcategory --------------------------------------------------------------------

  predicate Names(o: Option<TreeOption>) {
    o.Some? && o.value.rung.Some? && o.value.subcategory.Some?
  }

  lemma {:induction false} NothingNamedAscends(os: seq<Option<TreeOption>>)
    requires forall o | o in os :: !Names(o)
    ensures Ascend(os).subcategory.None?
  {
    if |os| > 0 {
      assert os[|os| - 1] in os && !Names(os[|os| - 1]);
      NothingNamedAscends(os[..|os| - 1]);
    }
  }

  lemma {:induction false} TopDecides(os: seq<Option<TreeOption>>, t: Tier, c: string)
    requires Valid(os) && forall o | o in os && Asserts(o, t) :: o.value.subcategory == Some(c)
    requires forall o | o in os && o.value.rung.Some? :: TierRank(t) <= TierRank(o.value.rung.value)
    requires Storable(t)
    ensures Ascend(os).highest == Some(t) ==> Ascend(os).subcategory == Some(c)
    ensures Ascend(os).highest.Some? ==> TierRank(t) <= TierRank(Ascend(os).highest.value)
  {
    if |os| > 0 {
      assert os == os[..|os| - 1] + [os[|os| - 1]];
      TopDecides(os[..|os| - 1], t, c);
    }
  }

  /** A named subcategory is only ever replaced by another. */
  lemma {:induction false} NamedStays(os: seq<Option<TreeOption>>)
    requires |os| > 0 && Names(os[0])
    ensures Ascend(os).subcategory.Some?
  {
    if |os| == 1 {
      assert Ascend(os[..0]) == Ascent(None, None);
    } else {
      NamedStays(os[..|os| - 1]);
    }
  }

  /** When the first choice already asserts the most severe rung, it decides the subcategory. */
  lemma {:induction false} TopFirst(os: seq<Option<TreeOption>>, t: Tier)
    requires Valid(os) && |os| > 0 && Asserts(os[0], t) && IsTop(os, t)
    ensures Ascend(os) == Ascent(Some(t), os[0].value.subcategory)
  {
    if |os| == 1 {
      assert Ascend(os[..0]) == Ascent(None, None);
    } else {
      assert os[|os| - 1] in os;
      assert os[..|os| - 1][0] == os[0];
      TopFirst(os[..|os| - 1], t);
    }
  }

  /** Nothing rises above PROHIBITED: what comes after the first prohibiting choice could not change the
      ascent any more. */
  lemma {:induction false} AscentEnds(os: seq<Option<TreeOption>>, k: nat)
    requires Valid(os) && k < |os| && Asserts(os[k], Prohibited)
    ensures Ascend(os[..k + 1]).highest == Some(Prohibited) && Ascend(os) == Ascend(os[..k + 1])
  {
    if k == |os| - 1 {
      assert os[..k + 1] == os && os[k] in os;
      var h := Ascend(os[..k]).highest;
      if h.Some? { AscendReachesTop(os[..k], h.value); }
    } else {
      AscentEnds(os[..|os| - 1], k);
      assert os[..|os| - 1][..k + 1] == os[..k + 1] && os[|os| - 1] in os;
    }
  }

  /** The subcategory reported is the loop's, unless a question is left open. */
  lemma SubcategoryIsAscent(tree: seq<Question>, entries: seq<Answer>)
    requires TreeOk(tree) && |tree| > 0 && AnswersTree(tree, entries)
    ensures var r, os := Resolve(tree, entries), Choices(tree, entries);
            r.Outcome? && r.subcategory == if r.kind.Unresolved? then None else Ascend(os).subcategory
  {
    var os := Choices(tree, entries);
    ChoicesAreValid(tree, entries);
    ResolutionOfEntries(tree, entries);
    var k := FirstStop(os, 0);
    if k < |os| {
      AscentEnds(os, k);
    } else if Ascend(os).highest.None? {
      AscendReachesTop(os, Minimal);
      NothingNamedAscends(os);
    }
  }

  // --- What one answer contributes -----------------------------------------------------------------

  /** How severe the rung is that an answer asserts; 4 when it asserts none. */
  function Rung(tree: seq<Question>, a: Answer): nat {
    var o := Chosen(tree, a);
    if o.Some? && o.value.rung.Some? then TierRank(o.value.rung.value) else 4
  }

  predicate Naming(tree: seq<Question>, a: Answer) {
    Names(Chosen(tree, a))
  }

  function NamedBy(tree: seq<Question>, a: Answer): Option<string> {
    if Chosen(tree, a).Some? then Chosen(tree, a).value.subcategory else None
  }

  function Subcategory(tree: seq<Question>, answers: seq<Answer>): Option<string> {
    if Verdict(tree, answers).Outcome? then Verdict(tree, answers).subcategory else None
  }

  ghost predicate SubcategoryIgnoresOrder(tree: seq<Question>, answers: seq<Answer>) {
    forall q | Reorders(answers, q) :: Subcategory(tree, q) == Subcategory(tree, answers)
  }

  predicate NothingNamed(tree: seq<Question>, answers: seq<Answer>) {
    forall a | a in answers :: !Naming(tree, a)
  }

  /** The answer names a subcategory, no other answer to its question is milder, and every answer at
      least as severe names the same. */
  predicate NamesForSure(tree: seq<Question>, answers: seq<Answer>, a: Answer) {
    && Naming(tree, a)
    && (forall b | b in answers && b.question == a.question :: Rung(tree, b) <= Rung(tree, a))
    && (forall b | b in answers && Rung(tree, b) <= Rung(tree, a) :: NamedBy(tree, b) == NamedBy(tree, a))
  }

  /** No naming answer can stand beside a prohibiting one. */
  predicate NeverTogether(tree: seq<Question>, answers: seq<Answer>) {
    forall n, p | n in answers && p in answers && Naming(tree, n) && Prohibits(tree, p) :: n != p && n.question == p.question
  }

  /** No asserting answer names a subcategory; or the same one is named for sure, and the answers are sure
      to be resolved; or a question stays open and nothing named can come with a halt. */
  predicate OneSubcategory(tree: seq<Question>, answers: seq<Answer>) {
    || NothingNamed(tree, answers)
    || (exists a | a in answers :: NamesForSure(tree, answers, a) && (Complete(tree, answers) || Prohibits(tree, a)))
    || (!Complete(tree, answers) && NeverTogether(tree, answers))
  }

  // --- Where it is the same for every order ----------------------------------------------------------

  lemma NothingToName(tree: seq<Question>, answers: seq<Answer>)
    requires TreeOk(tree) && |tree| > 0 && AnswersTree(tree, answers) && NothingNamed(tree, answers)
    ensures Subcategory(tree, answers).None?
  {
    KnownAtLast(tree, answers);
    LastAnswersAreAnswers(answers);
    SubcategoryIsAscent(tree, Indexed(answers));
    ChoicesAreChosen(tree, Indexed(answers));
    NothingNamedAscends(Choices(tree, Indexed(answers)));
  }

  lemma NothingWithAHalt(tree: seq<Question>, answers: seq<Answer>)
    requires TreeOk(tree) && |tree| > 0 && AnswersTree(tree, answers) && !Complete(tree, answers) && NeverTogether(tree, answers)
    ensures Subcategory(tree, answers).None?
  {
    var entries := Indexed(answers);
    KnownAtLast(tree, answers);
    LastAnswersAreAnswers(answers);
    IndexedIsLastAnswers(answers);
    SubcategoryIsAscent(tree, entries);
    ResolutionOfEntries(tree, entries);
    if p :| p in entries && Prohibits(tree, p) {
      forall n | n in entries ensures !Naming(tree, n) {
        if Naming(tree, n) { OneEntryEach(entries, n, p); }
      }
      ChoicesAreChosen(tree, entries);
      NothingNamedAscends(Choices(tree, entries));
    }
  }

  lemma OneEntryEach(entries: seq<Answer>, e: Answer, x: Answer)
    requires IsDict(entries) && e in entries && x in entries && e.question == x.question
    ensures e == x
  {
  }

  lemma NamedForSure(tree: seq<Question>, answers: seq<Answer>, a: Answer)
    requires TreeOk(tree) && |tree| > 0 && AnswersTree(tree, answers) && a in answers
    requires NamesForSure(tree, answers, a) && (Complete(tree, answers) || Prohibits(tree, a))
    ensures Subcategory(tree, answers) == NamedBy(tree, a)
  {
    var entries := Indexed(answers);
    KnownAtLast(tree, answers);
    LastAnswersAreAnswers(answers);
    var e := EntryFor(answers, a.question);
    ResolutionOfEntries(tree, entries);
    assert !Verdict(tree, answers).kind.Unresolved? by { assert Prohibits(tree, a) ==> Prohibits(tree, e); }
    assert AnswersTree(tree, [a]);
    TopIsNamed(tree, answers, a, e);
    SubcategoryIsAscent(tree, entries);
  }

  lemma TopIsNamed(tree: seq<Question>, answers: seq<Answer>, a: Answer, e: Answer)
    requires TreeOk(tree) && AnswersTree(tree, Indexed(answers)) && NamesForSure(tree, answers, a)
    requires e in Indexed(answers) && e in answers && e.question == a.question && forall x | x in Indexed(answers) :: x in answers
    requires AnswersTree(tree, [a])
    ensures Ascend(Choices(tree, Indexed(answers))).subcategory == NamedBy(tree, a)
  {
    hide Indexed, Ascend, NamesForSure;
    var entries := Indexed(answers);
    var os := Choices(tree, entries);
    ChoicesAreValid(tree, entries);
    ChoicesAreChosen(tree, entries);
    var t := TopRung(tree, entries, e) by { RungIsReal(tree, answers, a, e); }
    forall o | o in os && Asserts(o, t) ensures o.value.subcategory == NamedBy(tree, a) {
      var x :| x in entries && Chosen(tree, x) == o;
      assert Rung(tree, x) <= Rung(tree, a) ==> NamedBy(tree, x) == NamedBy(tree, a) by { RungIsReal(tree, answers, a, x); }
      RungIsReal(tree, answers, a, e);
    }
    TopDecides(os, t, NamedBy(tree, a).value) by { RungIsReal(tree, answers, a, e); }
    RungIsReal(tree, answers, a, e);
  }

  lemma RungIsReal(tree: seq<Question>, answers: seq<Answer>, a: Answer, e: Answer)
    requires TreeOk(tree) && AnswersTree(tree, [a]) && NamesForSure(tree, answers, a) && e in answers
    ensures Rung(tree, a) < 4 && NamedBy(tree, a).Some?
    ensures e.question == a.question ==> Rung(tree, e) <= Rung(tree, a)
    ensures Rung(tree, e) <= Rung(tree, a) ==> NamedBy(tree, e) == NamedBy(tree, a)
  {
    ChosenIsInTree(tree, a);
  }

  /** The most severe rung among some entries, given one that asserts a rung. */
  lemma TopRung(tree: seq<Question>, entries: seq<Answer>, e: Answer) returns (t: Tier)
    requires TreeOk(tree) && AnswersTree(tree, entries) && e in entries && Rung(tree, e) < 4
    ensures var os := Choices(tree, entries);
            Ascend(os).highest == Some(t) && IsTop(os, t) && Storable(t) && TierRank(t) <= Rung(tree, e)
  {
    var os := Choices(tree, entries);
    ChoicesAreValid(tree, entries);
    ChoicesAreChosen(tree, entries);
    AscendReachesTop(os, Minimal);
    assert Chosen(tree, e) in os && Chosen(tree, e).value.rung.Some?;
    t := Ascend(os).highest.value;
    AscendReachesTop(os, t);
  }

  // --- Where it is not --------------------------------------------------------------------------------

  /** With an answer in front that nothing else outranks, its subcategory is reported. */
  lemma LeadIsReported(tree: seq<Question>, q: seq<Answer>)
    requires TreeOk(tree) && |tree| > 0 && AnswersTree(tree, q) && |Indexed(q)| > 0 && Rung(tree, Indexed(q)[0]) < 4
    requires forall e | e in Indexed(q) :: Rung(tree, Indexed(q)[0]) <= Rung(tree, e)
    requires Complete(tree, q) || Prohibits(tree, Indexed(q)[0])
    ensures Subcategory(tree, q) == NamedBy(tree, Indexed(q)[0])
  {
    var entries := Indexed(q);
    var os := Choices(tree, entries);
    KnownAtLast(tree, q);
    LastAnswersAreAnswers(q);
    ChoicesAreValid(tree, entries);
    ChoicesAreChosen(tree, entries);
    var t := os[0].value.rung.value;
    assert os[0] in os && IsTop(os, t);
    TopFirst(os, t);
    SubcategoryIsAscent(tree, entries);
    ResolutionOfEntries(tree, entries);
  }

  /** With a naming answer in front, some subcategory is reported, unless a question is left open. */
  lemma LeadNames(tree: seq<Question>, q: seq<Answer>)
    requires TreeOk(tree) && |tree| > 0 && AnswersTree(tree, q) && |Indexed(q)| > 0 && Naming(tree, Indexed(q)[0])
    requires Complete(tree, q) || exists e | e in Indexed(q) :: Prohibits(tree, e)
    ensures Subcategory(tree, q).Some?
  {
    KnownAtLast(tree, q);
    LastAnswersAreAnswers(q);
    NamedStays(Choices(tree, Indexed(q)));
    SubcategoryIsAscent(tree, Indexed(q));
    ResolutionOfEntries(tree, Indexed(q));
  }

  /** With no rung asserted nothing is reported. */
  lemma NoRungNoName(tree: seq<Question>, q: seq<Answer>)
    requires TreeOk(tree) && |tree| > 0 && AnswersTree(tree, q) && forall e | e in Indexed(q) :: Rung(tree, e) == 4
    ensures Subcategory(tree, q).None?
  {
    KnownAtLast(tree, q);
    ChoicesAreValid(tree, Indexed(q));
    ChoicesAreChosen(tree, Indexed(q));
    NothingNamedAscends(Choices(tree, Indexed(q)));
    SubcategoryIsAscent(tree, Indexed(q));
  }

  lemma Reordered(tree: seq<Question>, answers: seq<Answer>, q: seq<Answer>)
    requires Reorders(answers, q) && AnswersTree(tree, answers)
    ensures AnswersTree(tree, q) && Complete(tree, q) == Complete(tree, answers)
  {
    SameMembers(answers, q);
  }

  /** The answer names another subcategory, or asserts nothing. */
  predicate Misnames(tree: seq<Question>, a: Answer, c: string) {
    Rung(tree, a) >= 4 || NamedBy(tree, a) != Some(c)
  }

  lemma {:induction false} MostSevereMisnaming(tree: seq<Question>, answers: seq<Answer>, c: string) returns (x: Answer)
    requires exists a | a in answers :: Misnames(tree, a, c)
    ensures x in answers && Misnames(tree, x, c)
    ensures forall a | a in answers && Misnames(tree, a, c) :: Rung(tree, x) <= Rung(tree, a)
  {
    hide Rung, Misnames;
    assert answers == [answers[0]] + answers[1..];
    if exists a | a in answers[1..] :: Misnames(tree, a, c) {
      x := MostSevereMisnaming(tree, answers[1..], c);
      if Misnames(tree, answers[0], c) && Rung(tree, answers[0]) < Rung(tree, x) { x := answers[0]; }
    } else {
      x := answers[0];
    }
  }

  lemma {:induction false} Mildest(tree: seq<Question>, answers: seq<Answer>, question: string) returns (x: Answer)
    requires question in Codes(answers)
    ensures x in answers && x.question == question
    ensures forall a | a in answers && a.question == question :: Rung(tree, a) <= Rung(tree, x)
  {
    hide Rung;
    assert answers == [answers[0]] + answers[1..];
    if question in Codes(answers[1..]) {
      x := Mildest(tree, answers[1..], question);
      if answers[0].question == question && Rung(tree, x) < Rung(tree, answers[0]) { x := answers[0]; }
    } else {
      x := answers[0];
      assert forall a | a in answers[1..] :: a.question in Codes(answers[1..]);
    }
  }

  /** If the answers are complete and the order does not matter, then a question outranks every answer
      that misnames the subcategory reported. */
  lemma SomeQuestionOutranks(tree: seq<Question>, answers: seq<Answer>, c: string, x: Answer) returns (g: Answer)
    requires TreeOk(tree) && |tree| > 0 && AnswersTree(tree, answers) && Complete(tree, answers)
    requires SubcategoryIgnoresOrder(tree, answers) && Subcategory(tree, answers) == Some(c)
    requires x in answers && Misnames(tree, x, c)
    ensures g in answers && forall a | a in answers && a.question == g.question :: Rung(tree, a) < Rung(tree, x)
  {
    hide Subcategory, Rung, Misnames, Complete, AnswersTree;
    var low := a => Rung(tree, a) < Rung(tree, x);
    var q := Arranged(answers, x, low);
    ArrangedIndex(answers, x, low);
    Reordered(tree, answers, q);
    assert Subcategory(tree, q) == Some(c);
    if forall e | e in Indexed(q) :: !low(e) { MisnamingLeads(tree, q, c); }
    g :| g in Indexed(q) && low(g);
  }

  lemma MisnamingLeads(tree: seq<Question>, q: seq<Answer>, c: string)
    requires TreeOk(tree) && |tree| > 0 && AnswersTree(tree, q) && Complete(tree, q) && |Indexed(q)| > 0
    requires Misnames(tree, Indexed(q)[0], c) && forall e | e in Indexed(q) :: Rung(tree, Indexed(q)[0]) <= Rung(tree, e)
    ensures Subcategory(tree, q) != Some(c)
  {
    hide Subcategory, Indexed;
    if Rung(tree, Indexed(q)[0]) < 4 { LeadIsReported(tree, q); } else { NoRungNoName(tree, q); }
  }

  lemma NamedWhenComplete(tree: seq<Question>, answers: seq<Answer>, n: Answer)
    requires TreeOk(tree) && |tree| > 0 && AnswersTree(tree, answers) && Complete(tree, answers)
    requires SubcategoryIgnoresOrder(tree, answers) && n in answers && Naming(tree, n)
    ensures exists a | a in answers :: NamesForSure(tree, answers, a)
  {
    hide Subcategory, Rung, NamedBy, Complete;
    var q := Arranged(answers, n, _ => true);
    ArrangedIndex(answers, n, _ => true);
    Reordered(tree, answers, q);
    LeadNames(tree, q);
    var c := Subcategory(tree, answers).value;
    if exists a | a in answers :: Misnames(tree, a, c) {
      var x := MostSevereMisnaming(tree, answers, c);
      var g := SomeQuestionOutranks(tree, answers, c, x);
      var a := Mildest(tree, answers, g.question);
      assert NamesForSure(tree, answers, a) by { RightlyNamed(tree, answers, a, c); }
    } else {
      var a := Mildest(tree, answers, n.question);
      assert NamesForSure(tree, answers, a) by { RightlyNamed(tree, answers, a, c); }
    }
  }

  lemma RightlyNamed(tree: seq<Question>, answers: seq<Answer>, a: Answer, c: string)
    requires AnswersTree(tree, answers) && a in answers
    requires forall b | b in answers && b.question == a.question :: Rung(tree, b) <= Rung(tree, a)
    requires forall b | b in answers && Rung(tree, b) <= Rung(tree, a) :: !Misnames(tree, b, c)
    ensures NamesForSure(tree, answers, a)
  {
  }

  lemma NamedWhenOpen(tree: seq<Question>, answers: seq<Answer>)
    requires TreeOk(tree) && |tree| > 0 && AnswersTree(tree, answers) && !Complete(tree, answers)
    requires SubcategoryIgnoresOrder(tree, answers) && !NeverTogether(tree, answers)
    ensures exists a | a in answers :: NamesForSure(tree, answers, a) && Prohibits(tree, a)
  {
    hide Subcategory;
    SomethingWithAHalt(tree, answers);
    var c := Subcategory(tree, answers).value;
    var g := AlwaysProhibits(tree, answers, c);
    forall p | p in answers && Prohibits(tree, p) ensures NamedBy(tree, p) == Some(c) {
      var q := Arranged(answers, p, _ => true);
      ArrangedIndex(answers, p, _ => true);
      Reordered(tree, answers, q);
      LeadIsReported(tree, q);
    }
    assert NamesForSure(tree, answers, g);
  }

  lemma SomethingWithAHalt(tree: seq<Question>, answers: seq<Answer>)
    requires TreeOk(tree) && |tree| > 0 && AnswersTree(tree, answers)
    requires SubcategoryIgnoresOrder(tree, answers) && !NeverTogether(tree, answers)
    ensures Subcategory(tree, answers).Some?
  {
    hide Subcategory;
    var n, p :| n in answers && p in answers && Naming(tree, n) && Prohibits(tree, p) && (n == p || n.question != p.question);
    var low := (b: Answer) => b.question == p.question && b != p;
    var q := Arranged(answers, n, low);
    ArrangedIndex(answers, n, low);
    Reordered(tree, answers, q);
    SameMembers(answers, q);
    var e := EntryFor(q, p.question);
    assert e == p;
    LeadNames(tree, q);
  }

  /** If a subcategory is always reported although a question is open, some question is answered only
      with what prohibits. */
  lemma AlwaysProhibits(tree: seq<Question>, answers: seq<Answer>, c: string) returns (g: Answer)
    requires TreeOk(tree) && |tree| > 0 && AnswersTree(tree, answers) && !Complete(tree, answers) && |answers| > 0
    requires SubcategoryIgnoresOrder(tree, answers) && Subcategory(tree, answers) == Some(c)
    ensures g in answers && forall a | a in answers && a.question == g.question :: Prohibits(tree, a)
  {
    hide Subcategory, Prohibits, AnswersTree, Complete, TreeOk;
    if y :| y in answers && !Prohibits(tree, y) {
      var low := a => Prohibits(tree, a);
      var q := Arranged(answers, y, low);
      ArrangedIndex(answers, y, low);
      Reordered(tree, answers, q);
      hide Arranged, Indexed;
      assert Subcategory(tree, q) == Some(c);
      if forall e | e in Indexed(q) :: !Prohibits(tree, e) { OpenReportsNothing(tree, q); }
      g :| g in Indexed(q) && Prohibits(tree, g);
    } else {
      g := answers[0];
    }
  }

  lemma OpenReportsNothing(tree: seq<Question>, q: seq<Answer>)
    requires TreeOk(tree) && |tree| > 0 && AnswersTree(tree, q) && !Complete(tree, q)
    requires forall e | e in Indexed(q) :: !Prohibits(tree, e)
    ensures Subcategory(tree, q).None?
  {
    KnownAtLast(tree, q);
    LastAnswersAreAnswers(q);
    ResolutionOfEntries(tree, Indexed(q));
    SubcategoryIsAscent(tree, Indexed(q));
  }

  /** Over answers that the tree knows, the subcategory reported is the same for every order of the list
      exactly when `OneSubcategory` holds of it. */
  lemma SubcategoryIgnoresOrderIff(tree: seq<Question>, answers: seq<Answer>)
    requires TreeOk(tree) && |tree| > 0 && AnswersTree(tree, answers)
    ensures SubcategoryIgnoresOrder(tree, answers) <==> OneSubcategory(tree, answers)
  {
    hide Subcategory, NothingNamed, NamesForSure, NeverTogether, Complete;
    if OneSubcategory(tree, answers) {
      forall q | Reorders(answers, q) ensures Subcategory(tree, q) == Subcategory(tree, answers) {
        SubcategoryEitherWay(tree, answers, q);
      }
    } else if SubcategoryIgnoresOrder(tree, answers) {
      if Complete(tree, answers) {
        var n := SomeNaming(tree, answers);
        NamedWhenComplete(tree, answers, n);
      } else {
        NamedWhenOpen(tree, answers);
      }
    }
  }

  lemma SomeNaming(tree: seq<Question>, answers: seq<Answer>) returns (n: Answer)
    requires !NothingNamed(tree, answers)
    ensures n in answers && Naming(tree, n)
  {
    n :| n in answers && Naming(tree, n);
  }

  lemma SubcategoryEitherWay(tree: seq<Question>, answers: seq<Answer>, q: seq<Answer>)
    requires TreeOk(tree) && |tree| > 0 && AnswersTree(tree, answers) && Reorders(answers, q) && OneSubcategory(tree, answers)
    ensures Subcategory(tree, q) == Subcategory(tree, answers)
  {
    Reordered(tree, answers, q);
    SameMembers(answers, q);
    hide Subcategory, Complete;
    if NothingNamed(tree, answers) {
      NothingToName(tree, answers);
      NothingToName(tree, q);
    } else if a :| a in answers && NamesForSure(tree, answers, a) && (Complete(tree, answers) || Prohibits(tree, a)) {
      assert NamesForSure(tree, q, a);
      NamedForSure(tree, answers, a);
      NamedForSure(tree, q, a);
    } else {
      assert NeverTogether(tree, q);
      NothingWithAHalt(tree, answers);
      NothingWithAHalt(tree, q);
    }
  }

  // --- Where it goes wrong -------------------------------------------------------------------------------

  const P := Answer("p", "yes")
  const Q := Answer("q", "yes")

  /** Two questions of the same severity, with different subcategories. */
  const TWO_QUESTIONS := [
    Question("p", map["yes" := TreeOption(Some(High), Some("biometrics"))]),
    Question("q", map["yes" := TreeOption(Some(High), Some("employment"))])]

  /** Each question answered once, in two orders: the first answer gives the subcategory. */
  lemma FirstAnswerNames()
    ensures TreeOk(TWO_QUESTIONS) && Reorders([P, Q], [Q, P])
    ensures Subcategory(TWO_QUESTIONS, [P, Q]) == Some("biometrics") && Subcategory(TWO_QUESTIONS, [Q, P]) == Some("employment")
  {
    TwoQuestionTree();
    EqualRungs(TWO_QUESTIONS, P, Q);
    EqualRungs(TWO_QUESTIONS, Q, P);
  }

  /** Of two answers that assert the same rung, and leave no question open, the first gives the name. */
  lemma EqualRungs(tree: seq<Question>, a: Answer, b: Answer)
    requires TreeOk(tree) && TreeCodes(tree) == {a.question, b.question} && a.question != b.question && |tree| > 0
    requires Chosen(tree, a).Some? && Chosen(tree, b).Some? && Rung(tree, a) == Rung(tree, b) < 4
    ensures Subcategory(tree, [a, b]) == NamedBy(tree, a) && Reorders([a, b], [b, a])
  {
    hide TreeOk, Chosen, Subcategory;
    TwoAnswers(a, b);
    LeadIsReported(tree, [a, b]);
  }

  lemma TwoQuestionTree()
    ensures TreeOk(TWO_QUESTIONS) && TreeCodes(TWO_QUESTIONS) == {"p", "q"} && |TWO_QUESTIONS| == 2
    ensures Chosen(TWO_QUESTIONS, P) == Some(TreeOption(Some(High), Some("biometrics")))
    ensures Chosen(TWO_QUESTIONS, Q) == Some(TreeOption(Some(High), Some("employment")))
  {
  }

  lemma TwoAnswers(a: Answer, b: Answer)
    requires a.question != b.question
    ensures Indexed([a, b]) == [a, b] && Codes([a, b]) == {a.question, b.question}
  {
    assert [a, b][..1] == [a];
    OneQuestion([a]);
    assert a in [a, b] && b in [a, b];
  }
}
