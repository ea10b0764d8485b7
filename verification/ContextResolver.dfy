/** The context-question resolver (app/services/context_classification.py): a short-circuiting
    loop over the supplied answers, and the declarative rule it implements. */
module ContextResolver {
  import opened Vocabulary

  datatype Answer = Answer(question: string, option: string)

  /** What an answer option asserts: at most one rung, and a subcategory to go with it. */
  datatype TreeOption = TreeOption(rung: Option<Tier>, subcategory: Option<string>)

  datatype Question = Question(code: string, options: map<string, TreeOption>)

  /** A seeded tree: distinct question codes, and only real tiers as rungs. */
  predicate TreeOk(tree: seq<Question>) {
    && (forall i, j | 0 <= i < j < |tree| :: tree[i].code != tree[j].code)
    && (forall q, o | q in tree && o in q.options :: RungOk(q.options[o]))
  }

  predicate RungOk(o: TreeOption) {
    o.rung.Some? ==> Storable(o.rung.value)
  }

  datatype Kind = Unresolved | Resolved | ProhibitedHalt

  datatype Resolution =
    | Outcome(kind: Kind, tier: Option<Tier>, subcategory: Option<string>, missing: set<string>)
    | Failed(error: Error)

  // --- Precedence ladder ------------------------------------------------------------------

  /** Position on the ladder, most severe first; anything that is not a real tier comes last. */
  function TierRank(t: Tier): nat {
    match t
    case Prohibited => 0
    case High => 1
    case Limited => 2
    case Minimal => 3
    case _ => 4
  }

  function HigherTier(a: Option<Tier>, b: Option<Tier>): Option<Tier> {
    if a.None? then b else if b.None? then a
    else if TierRank(a.value) <= TierRank(b.value) then a else b
  }

  // --- Answers as an insertion-ordered dictionary ------------------------------------------

  /** Distinct question codes: the entries of a dictionary in insertion order. */
  predicate IsDict(entries: seq<Answer>) {
    forall i, j | 0 <= i < j < |entries| :: entries[i].question != entries[j].question
  }

  function Codes(entries: seq<Answer>): set<string> {
    set a | a in entries :: a.question
  }

  function TreeCodes(tree: seq<Question>): set<string> {
    set q | q in tree :: q.code
  }

  /** The option that an answer chooses, if the tree has it. */
  function Chosen(tree: seq<Question>, a: Answer): Option<TreeOption> {
    if |tree| == 0 then None
    else if tree[0].code == a.question && a.option in tree[0].options then Some(tree[0].options[a.option])
    else Chosen(tree[1..], a)
  }

  /** The options chosen, in the order of the dictionary; None where the tree has no such option. */
  function Choices(tree: seq<Question>, entries: seq<Answer>): seq<Option<TreeOption>> {
    seq(|entries|, k requires 0 <= k < |entries| => Chosen(tree, entries[k]))
  }

  // --- The rule -----------------------------------------------------------------------------

  predicate Asserts(o: Option<TreeOption>, t: Tier) {
    o.Some? && o.value.rung == Some(t)
  }

  /** The choice ends the loop: its option is unknown or asserts PROHIBITED. */
  predicate Stops(o: Option<TreeOption>) {
    o.None? || Asserts(o, Prohibited)
  }

  function FirstStop(os: seq<Option<TreeOption>>, k: nat): (n: nat)
    requires k <= |os|
    ensures k <= n <= |os| && (n < |os| ==> Stops(os[n]))
    ensures forall j | k <= j < n :: !Stops(os[j])
    decreases |os| - k
  {
    if k < |os| && !Stops(os[k]) then FirstStop(os, k + 1) else k
  }

  /** The highest rung so far, and the subcategory of the last strict rise that named one. */
  datatype Ascent = Ascent(highest: Option<Tier>, subcategory: Option<string>)

  function Rise(s: Ascent, o: Option<TreeOption>): Ascent {
    if o.None? || o.value.rung.None? then s
    else
      var up := HigherTier(s.highest, o.value.rung);
      Ascent(up, if up != s.highest && o.value.subcategory.Some? then o.value.subcategory else s.subcategory)
  }

  function Ascend(os: seq<Option<TreeOption>>): Ascent {
    if |os| == 0 then Ascent(None, None) else Rise(Ascend(os[..|os| - 1]), os[|os| - 1])
  }

  /** The first stopping choice decides; without one, unanswered questions leave it unresolved;
      otherwise the highest asserted rung, or MINIMAL when none is. */
  function Decide(os: seq<Option<TreeOption>>, missing: set<string>, questions: nat): Resolution {
    var k := FirstStop(os, 0);
    if k < |os| then
      if os[k].None? then Failed(Unprocessable)
      else Outcome(ProhibitedHalt, Some(Prohibited), Ascend(os[..k + 1]).subcategory, {})
    else if missing != {} then Outcome(Unresolved, None, None, missing)
    else if Ascend(os).highest.Some? then Outcome(Resolved, Ascend(os).highest, Ascend(os).subcategory, {})
    else if questions == 0 then Failed(Internal)
    else Outcome(Resolved, Some(Minimal), None, {})
  }

  function Resolve(tree: seq<Question>, entries: seq<Answer>): Resolution {
    if !(Codes(entries) <= TreeCodes(tree)) then Failed(Unprocessable)
    else Decide(Choices(tree, entries), TreeCodes(tree) - Codes(entries), |tree|)
  }

  // --- The calls ----------------------------------------------------------------------------

  /** Where the dictionary holds this question, or its length. */
  function Position(entries: seq<Answer>, question: string): (k: nat)
    ensures k <= |entries| && (k < |entries| ==> entries[k].question == question)
    ensures forall j | 0 <= j < k :: entries[j].question != question
  {
    if |entries| == 0 || entries[0].question == question then 0 else 1 + Position(entries[1..], question)
  }

  /** One assignment to the dictionary: a repeated question keeps its place and takes the new option. */
  function Put(entries: seq<Answer>, a: Answer): seq<Answer> {
    var k := Position(entries, a.question);
    if k < |entries| then entries[k := a] else entries + [a]
  }

  /** The answers indexed by question, in insertion order. */
  function Indexed(answers: seq<Answer>): seq<Answer> {
    if |answers| == 0 then [] else Put(Indexed(answers[..|answers| - 1]), answers[|answers| - 1])
  }

  method IndexAnswers(answers: seq<Answer>) returns (entries: seq<Answer>)
    ensures entries == Indexed(answers)
  {
    entries := [];
    for k := 0 to |answers|
      invariant entries == Indexed(answers[..k])
    {
      assert answers[..k + 1][..k] == answers[..k];
      entries := Put(entries, answers[k]);
    }
    assert answers[..|answers|] == answers;
  }

  /** `e` is the last answer given to its question. */
  predicate IsLastAnswer(answers: seq<Answer>, e: Answer) {
    exists k | 0 <= k < |answers| :: answers[k] == e && forall j | k < j < |answers| :: answers[j].question != e.question
  }

  lemma LastAnswerSnoc(answers: seq<Answer>, a: Answer)
    ensures IsLastAnswer(answers + [a], a)
    ensures forall e | IsLastAnswer(answers, e) && e.question != a.question :: IsLastAnswer(answers + [a], e)
  {
    assert (answers + [a])[|answers|] == a;
    forall e | IsLastAnswer(answers, e) && e.question != a.question ensures IsLastAnswer(answers + [a], e) {
      var k :| 0 <= k < |answers| && answers[k] == e && forall j | k < j < |answers| :: answers[j].question != e.question;
      assert (answers + [a])[k] == e;
    }
  }

  lemma PutIsUpdate(entries: seq<Answer>, a: Answer)
    requires IsDict(entries)
    ensures var r := Put(entries, a);
            && IsDict(r) && Codes(r) == Codes(entries) + {a.question}
            && forall e | e in r :: e == a || (e in entries && e.question != a.question)
  {
    var r, k := Put(entries, a), Position(entries, a.question);
    forall c ensures c in Codes(r) <==> c in Codes(entries) + {a.question} {
      if c in Codes(entries) {
        var j :| 0 <= j < |entries| && entries[j].question == c;
        assert r[j] in r && r[j].question == c;
      }
      if c in Codes(r) {
        var j :| 0 <= j < |r| && r[j].question == c;
        assert j < |entries| ==> entries[j] in entries;
      }
      assert a in r by { assert r[k] == a; }
    }
  }

  lemma {:induction false} IndexedHoldsLastAnswers(answers: seq<Answer>)
    ensures IsDict(Indexed(answers)) && Codes(Indexed(answers)) == Codes(answers)
    ensures forall e | e in Indexed(answers) :: IsLastAnswer(answers, e)
  {
    if |answers| > 0 {
      var front, last := answers[..|answers| - 1], answers[|answers| - 1];
      assert answers == front + [last];
      IndexedHoldsLastAnswers(front);
      PutIsUpdate(Indexed(front), last);
      LastAnswerSnoc(front, last);
      assert Codes(answers) == Codes(front) + {last.question};
    }
  }

  lemma LastAnswerIsUnique(answers: seq<Answer>, e: Answer, x: Answer)
    requires IsLastAnswer(answers, e) && IsLastAnswer(answers, x) && e.question == x.question
    ensures e == x
  {
  }

  /** The index is a dictionary over the same questions, and holds exactly the last answer to each. */
  lemma IndexedIsLastAnswers(answers: seq<Answer>)
    ensures IsDict(Indexed(answers)) && Codes(Indexed(answers)) == Codes(answers)
    ensures forall e :: e in Indexed(answers) <==> IsLastAnswer(answers, e)
  {
    IndexedHoldsLastAnswers(answers);
    forall e | IsLastAnswer(answers, e) ensures e in Indexed(answers) {
      assert e.question in Codes(Indexed(answers));
      var x :| x in Indexed(answers) && x.question == e.question;
      LastAnswerIsUnique(answers, e, x);
    }
  }

  method ResolveContextClassification(answers: seq<Answer>, tree: seq<Question>) returns (r: Resolution)
    ensures r == Resolve(tree, Indexed(answers))
  {
    var dict := IndexAnswers(answers);
    if !(Codes(dict) <= TreeCodes(tree)) {
      return Failed(Unprocessable);
    }
    r := WalkAnswers(tree, dict);
  }

  /** The loop over the dictionary, with its early exits. */
  method WalkAnswers(tree: seq<Question>, dict: seq<Answer>) returns (r: Resolution)
    ensures r == Decide(Choices(tree, dict), TreeCodes(tree) - Codes(dict), |tree|)
  {
    ghost var os := Choices(tree, dict);
    var highest: Option<Tier>, subcategory: Option<string> := None, None;
    for k := 0 to |dict|
      invariant Ascent(highest, subcategory) == Ascend(os[..k])
      invariant highest != Some(Prohibited)
      invariant FirstStop(os, 0) == FirstStop(os, k)
    {
      assert os[..k + 1][..k] == os[..k];
      var chosen := Chosen(tree, dict[k]);
      if chosen.None? {
        return Failed(Unprocessable);
      }
      if chosen.value.rung.Some? {
        var previous := highest;
        highest := HigherTier(highest, chosen.value.rung);
        if highest != previous && chosen.value.subcategory.Some? {
          subcategory := chosen.value.subcategory;
        }
        if highest == Some(Prohibited) {
          return Outcome(ProhibitedHalt, Some(Prohibited), subcategory, {});
        }
      }
    }
    assert os[..|dict|] == os;
    var missing := TreeCodes(tree) - Codes(dict);
    if missing != {} {
      return Outcome(Unresolved, None, None, missing);
    }
    if highest.Some? {
      return Outcome(Resolved, highest, subcategory, {});
    }
    if |tree| == 0 {
      return Failed(Internal);
    }
    return Outcome(Resolved, Some(Minimal), None, {});
  }

  // --- The rule, declaratively --------------------------------------------------------------

  /** Every choice is an option of the tree, and its rung a real tier. */
  predicate Valid(os: seq<Option<TreeOption>>) {
    forall o | o in os :: o.Some? && RungOk(o.value)
  }

  /** `t` is the most severe rung that any choice asserts. */
  predicate IsTop(os: seq<Option<TreeOption>>, t: Tier) {
    && (exists o | o in os :: Asserts(o, t))
    && forall o | o in os && o.Some? && o.value.rung.Some? :: TierRank(t) <= TierRank(o.value.rung.value)
  }

  predicate AssertsNothing(os: seq<Option<TreeOption>>) {
    forall o | o in os && o.Some? :: o.value.rung.None?
  }

  lemma {:induction false} AscendReachesTop(os: seq<Option<TreeOption>>, t: Tier)
    requires Valid(os)
    ensures Ascend(os).highest == Some(t) <==> IsTop(os, t)
    ensures Ascend(os).highest == None <==> AssertsNothing(os)
  {
    if |os| > 0 {
      var front, last := os[..|os| - 1], os[|os| - 1];
      assert os == front + [last];
      var h := Ascend(front).highest;
      AscendReachesTop(front, t);
      if h.Some? { AscendReachesTop(front, h.value); }
      if last.value.rung.Some? { assert Asserts(last, last.value.rung.value); }
    }
  }

  /** For valid answers the loop is the precedence rule: a prohibited practice halts whatever else
      was answered; else any unanswered question leaves it unresolved, with exactly those missing;
      else the most severe asserted rung; else MINIMAL. */
  lemma ResolverIsTheRule(os: seq<Option<TreeOption>>, missing: set<string>, questions: nat)
    requires Valid(os) && questions > 0
    ensures var r := Decide(os, missing, questions);
            && r.Outcome?
            && (r.kind.ProhibitedHalt? <==> exists o | o in os :: Asserts(o, Prohibited))
            && (r.kind.Unresolved? <==> missing != {} && forall o | o in os :: !Asserts(o, Prohibited))
            && (r.tier.None? <==> r.kind.Unresolved?)
            && (r.kind.Unresolved? ==> r.missing == missing) && (!r.kind.Unresolved? ==> r.missing == {})
            && (r.tier.Some? ==> IsTop(os, r.tier.value) || (r.tier.value.Minimal? && AssertsNothing(os)))
            && (r.tier.Some? ==> Storable(r.tier.value))
  {
    var k := FirstStop(os, 0);
    if k < |os| {
      assert Asserts(os[k], Prohibited);
    } else {
      forall o | o in os ensures !Asserts(o, Prohibited) { var j :| 0 <= j < |os| && os[j] == o; }
      var h := Ascend(os).highest;
      AscendReachesTop(os, if h.Some? then h.value else Minimal);
    }
  }

  /** The questions still missing are exactly those the residual question set would ask. */
  function Residual(tree: seq<Question>, supplied: seq<Answer>): seq<Question> {
    if |tree| == 0 then []
    else (if tree[0].code in Codes(supplied) then [] else [tree[0]]) + Residual(tree[1..], supplied)
  }

  lemma {:induction false} ResidualIsMissing(tree: seq<Question>, supplied: seq<Answer>)
    ensures TreeCodes(Residual(tree, supplied)) == TreeCodes(tree) - Codes(supplied)
  {
    if |tree| > 0 {
      ResidualIsMissing(tree[1..], supplied);
      var head := if tree[0].code in Codes(supplied) then [] else [tree[0]];
      assert tree == [tree[0]] + tree[1..];
      TreeCodesConcat([tree[0]], tree[1..]);
      TreeCodesConcat(head, Residual(tree[1..], supplied));
    }
  }

  lemma TreeCodesConcat(p: seq<Question>, q: seq<Question>)
    ensures TreeCodes(p + q) == TreeCodes(p) + TreeCodes(q)
  {
  }

  lemma SomeCodes(tree: seq<Question>)
    ensures TreeCodes(tree) == {} <==> tree == []
  {
    if tree != [] { assert tree[0].code in TreeCodes(tree); }
  }

  /** Every answer is to a question of the tree and picks one of its options. */
  predicate AnswersTree(tree: seq<Question>, entries: seq<Answer>) {
    Codes(entries) <= TreeCodes(tree) && forall a | a in entries :: Chosen(tree, a).Some?
  }

  lemma {:induction false} ChosenIsInTree(tree: seq<Question>, a: Answer)
    requires forall q, o | q in tree && o in q.options :: RungOk(q.options[o])
    ensures Chosen(tree, a).Some? ==> RungOk(Chosen(tree, a).value)
  {
    if |tree| > 0 {
      assert tree[0] in tree && forall q | q in tree[1..] :: q in tree;
      ChosenIsInTree(tree[1..], a);
    }
  }

  /** An answer chooses what the question with its code, and no other, offers under its option. */
  lemma {:induction false} ChosenIff(tree: seq<Question>, a: Answer, o: TreeOption)
    requires forall i, j | 0 <= i < j < |tree| :: tree[i].code != tree[j].code
    ensures Chosen(tree, a) == Some(o) <==>
            exists q | q in tree :: q.code == a.question && a.option in q.options && q.options[a.option] == o
  {
    if |tree| > 0 {
      assert tree == [tree[0]] + tree[1..];
      ChosenIff(tree[1..], a, o);
      forall q | q in tree[1..] ensures q.code != tree[0].code {
        var k :| 0 <= k < |tree[1..]| && tree[1..][k] == q;
        assert tree[k + 1] == q;
      }
    }
  }

  lemma ChoicesAreValid(tree: seq<Question>, entries: seq<Answer>)
    requires TreeOk(tree) && AnswersTree(tree, entries)
    ensures Valid(Choices(tree, entries))
  {
    forall o | o in Choices(tree, entries) ensures o.Some? && RungOk(o.value) {
      var k :| 0 <= k < |entries| && Choices(tree, entries)[k] == o;
      assert entries[k] in entries;
      ChosenIsInTree(tree, entries[k]);
    }
  }

  /** The resolver on a dictionary over a seeded tree. */
  lemma ResolutionOfEntries(tree: seq<Question>, entries: seq<Answer>)
    requires TreeOk(tree) && |tree| > 0 && AnswersTree(tree, entries)
    ensures var r, halts := Resolve(tree, entries), exists a | a in entries :: Asserts(Chosen(tree, a), Prohibited);
            && r.Outcome?
            && (r.kind.ProhibitedHalt? <==> halts) && (r.kind.ProhibitedHalt? <==> r.tier == Some(Prohibited))
            && (r.kind.Unresolved? <==> !halts && TreeCodes(tree) - Codes(entries) != {})
            && (r.kind.Unresolved? ==> r.missing == TreeCodes(tree) - Codes(entries) && r.tier.None?)
            && (!r.kind.Unresolved? ==> r.tier.Some? && Storable(r.tier.value) && r.missing == {})
  {
    var os, missing := Choices(tree, entries), TreeCodes(tree) - Codes(entries);
    ChoicesAreValid(tree, entries);
    ResolverIsTheRule(os, missing, |tree|);
    if a :| a in entries && Asserts(Chosen(tree, a), Prohibited) {
      var k :| 0 <= k < |entries| && entries[k] == a;
      assert os[k] in os;
    }
    if o :| o in os && Asserts(o, Prohibited) {
      var k :| 0 <= k < |os| && os[k] == o;
      assert entries[k] in entries;
    }
  }

  /** Some question was last answered with an option of this rung. */
  predicate AssertedAtLast(tree: seq<Question>, answers: seq<Answer>, t: Tier) {
    exists e | e in answers :: IsLastAnswer(answers, e) && Asserts(Chosen(tree, e), t)
  }

  /** With every question answered the ladder decides by name: PROHIBITED before HIGH before LIMITED, and
      MINIMAL when none of them is asserted. */
  lemma LadderByName(tree: seq<Question>, answers: seq<Answer>)
    requires TreeOk(tree) && |tree| > 0 && AnswersTree(tree, Indexed(answers)) && TreeCodes(tree) <= Codes(answers)
    ensures Resolve(tree, Indexed(answers)).Outcome?
    ensures Resolve(tree, Indexed(answers)).tier ==
            Some(if AssertedAtLast(tree, answers, Prohibited) then Prohibited
                 else if AssertedAtLast(tree, answers, High) then High
                 else if AssertedAtLast(tree, answers, Limited) then Limited else Minimal)
  {
    var entries := Indexed(answers);
    var os := Choices(tree, entries);
    IndexedIsLastAnswers(answers);
    ResolutionOfEntries(tree, entries);
    ChoicesAreValid(tree, entries);
    ResolverIsTheRule(os, TreeCodes(tree) - Codes(entries), |tree|);
    forall t ensures AssertedAtLast(tree, answers, t) <==> exists o | o in os :: Asserts(o, t) {
      ChosenAtLast(tree, answers, t);
    }
    hide Resolve, Indexed, Choices, AssertedAtLast;
  }

  lemma ChosenAtLast(tree: seq<Question>, answers: seq<Answer>, t: Tier)
    ensures AssertedAtLast(tree, answers, t) <==> exists o | o in Choices(tree, Indexed(answers)) :: Asserts(o, t)
  {
    var entries := Indexed(answers);
    var os := Choices(tree, entries);
    IndexedIsLastAnswers(answers);
    if e :| e in answers && IsLastAnswer(answers, e) && Asserts(Chosen(tree, e), t) {
      var k :| 0 <= k < |entries| && entries[k] == e;
      assert os[k] in os;
    }
    if o :| o in os && Asserts(o, t) {
      var k :| 0 <= k < |os| && os[k] == o;
      assert entries[k] in entries && IsLastAnswer(answers, entries[k]);
    }
  }

  /** Some question was last answered with a prohibited practice. */
  predicate ProhibitedAtLast(tree: seq<Question>, answers: seq<Answer>) {
    exists e | e in answers :: IsLastAnswer(answers, e) && Asserts(Chosen(tree, e), Prohibited)
  }

  /** The resolver over a seeded tree, on any list of answers: it halts exactly when the last answer to
      some question is a prohibited practice; otherwise it is unresolved exactly while the residual
      question set is non-empty, and then reports exactly its codes; otherwise it resolves to a real
      tier. Only the last answer to a question has to be one of its options. */
  lemma ResolutionOfAnswers(tree: seq<Question>, answers: seq<Answer>)
    requires TreeOk(tree) && |tree| > 0 && AnswersTree(tree, Indexed(answers))
    ensures var r := Resolve(tree, Indexed(answers));
            && r.Outcome?
            && (r.kind.ProhibitedHalt? <==> ProhibitedAtLast(tree, answers))
            && (r.kind.ProhibitedHalt? <==> r.tier == Some(Prohibited))
            && (r.kind.Unresolved? <==> !ProhibitedAtLast(tree, answers) && Residual(tree, answers) != [])
            && (r.kind.Unresolved? ==> r.missing == TreeCodes(Residual(tree, answers)) && r.tier.None?)
            && (!r.kind.Unresolved? ==> r.tier.Some? && Storable(r.tier.value))
  {
    ResolutionOfEntries(tree, Indexed(answers));
    IndexedIsLastAnswers(answers);
    ResidualIsMissing(tree, answers);
    SomeCodes(Residual(tree, answers));
    assert forall e | IsLastAnswer(answers, e) :: e in answers;
  }

  lemma LastAnswerAt(answers: seq<Answer>, k: nat)
    requires k < |answers| && forall j | k < j < |answers| :: answers[j].question != answers[k].question
    ensures IsLastAnswer(answers, answers[k])
  {
  }

  /** Of two lists one after the other, the last answers are those of the second and those of the first
      to questions that the second leaves out. */
  lemma LastAnswerOfBoth(answers: seq<Answer>, more: seq<Answer>, e: Answer)
    ensures IsLastAnswer(answers + more, e) <==>
            IsLastAnswer(more, e) || (IsLastAnswer(answers, e) && e.question !in Codes(more))
  {
    var all := answers + more;
    if IsLastAnswer(more, e) {
      var k :| 0 <= k < |more| && more[k] == e && forall j | k < j < |more| :: more[j].question != e.question;
      LastAnswerAt(all, |answers| + k);
    }
    if IsLastAnswer(answers, e) && e.question !in Codes(more) {
      var k :| 0 <= k < |answers| && answers[k] == e && forall j | k < j < |answers| :: answers[j].question != e.question;
      assert forall j | 0 <= j < |more| :: more[j] in more;
      LastAnswerAt(all, k);
    }
    if IsLastAnswer(all, e) {
      var k :| 0 <= k < |all| && all[k] == e && forall j | k < j < |all| :: all[j].question != e.question;
      forall j | 0 <= j < |more| && k < |answers| + j ensures more[j].question != e.question { assert all[|answers| + j] == more[j]; }
      if k < |answers| {
        forall j | k < j < |answers| ensures answers[j].question != e.question { assert all[j] == answers[j]; }
        LastAnswerAt(answers, k);
      } else {
        LastAnswerAt(more, k - |answers|);
      }
    }
  }

  /** Some prohibited practice among the last answers is not asked about again in `more`. */
  predicate ProhibitedStill(tree: seq<Question>, answers: seq<Answer>, more: seq<Answer>) {
    exists e | e in answers ::
      IsLastAnswer(answers, e) && Asserts(Chosen(tree, e), Prohibited) && e.question !in Codes(more)
  }

  /** More answers, given after the first ones: answering every residual question always settles it; and
      it halts exactly when the new answers bring a prohibited practice or leave an old one standing. */
  lemma ExtendingAnswers(tree: seq<Question>, answers: seq<Answer>, more: seq<Answer>)
    requires TreeOk(tree) && |tree| > 0 && AnswersTree(tree, Indexed(answers + more))
    ensures var r := Resolve(tree, Indexed(answers + more));
            && r.Outcome?
            && (TreeCodes(Residual(tree, answers)) <= Codes(more) ==> !r.kind.Unresolved?)
            && (r.kind.ProhibitedHalt? <==> ProhibitedAtLast(tree, more) || ProhibitedStill(tree, answers, more))
  {
    ResolutionOfAnswers(tree, answers + more);
    ResidualIsMissing(tree, answers);
    ResidualIsMissing(tree, answers + more);
    assert Codes(answers + more) == Codes(answers) + Codes(more);
    SomeCodes(Residual(tree, answers + more));
    forall e ensures IsLastAnswer(answers + more, e) <==>
                     IsLastAnswer(more, e) || (IsLastAnswer(answers, e) && e.question !in Codes(more))
    {
      LastAnswerOfBoth(answers, more, e);
    }
    assert forall e | IsLastAnswer(more, e) :: e in more;
  }
}
