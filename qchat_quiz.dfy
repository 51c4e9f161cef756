/**
 * The age-group questionnaire: the form that walks through one group's
 * questions (welcome, quiz and results screens) and the scorer it runs at the
 * end.  An answer is the value of the chosen option, stored under
 * `String(id)` of its question, the key a JavaScript object really holds.
 */
module QChatQuiz {
  import opened Wrappers
  import opened AnswerMaps
  import opened QChatData
  import opened Text

  /** The risk labels this questionnaire produces. */
  datatype Risk = Bajo | Moderado | Alto

  function Rank(r: Risk): nat
  {
    match r
    case Bajo => 0
    case Moderado => 1
    case Alto => 2
  }

  datatype Screen = Welcome | Quiz | Results

  /** `{ score, risk, categories }` */
  datatype QuizResult = QuizResult(score: int, risk: Risk, categories: map<string, int>)

  /** `Object.values(answers).reduce((sum, val) => sum + val, 0)`, over the keys in whatever order they come. */
  method SumValues(answers: map<string, int>) returns (total: int)
    ensures total == MapSum(answers)
  {
    total := 0;
    var rest := answers;
    while rest.Keys != {}
      invariant total + MapSum(rest) == MapSum(answers)
      decreases |rest|
    {
      var k :| k in rest.Keys;
      SumRemove(rest, k);
      total := total + rest[k];
      rest := rest - {k};
    }
    assert rest == map[];
  }

  /** Only the two `max` bounds are read: at most `lowRisk.max` is low, then at most `moderateRisk.max` is moderate. */
  function ClassifyRisk(total: int, t: Thresholds): (r: Risk)
    ensures r == Bajo <==> total <= t.lowRisk.max
    ensures r == Moderado <==> t.lowRisk.max < total <= t.moderateRisk.max
    ensures r == Alto <==> t.lowRisk.max < total && t.moderateRisk.max < total
  {
    if total <= t.lowRisk.max then Bajo
    else if total <= t.moderateRisk.max then Moderado
    else Alto
  }

  /** A higher total never gives a lower risk, whatever the thresholds. */
  lemma RiskMonotone(t: Thresholds, a: int, b: int)
    requires a <= b
    ensures Rank(ClassifyRisk(a, t)) <= Rank(ClassifyRisk(b, t))
  {
  }

  /** The `min` bounds play no part in the classification. */
  lemma ClassifyIgnoresMins(t: Thresholds, total: int, lowMin: int, moderateMin: int, highMin: int)
    ensures ClassifyRisk(total, t) == ClassifyRisk(total, Thresholds(
      Range(lowMin, t.lowRisk.max), Range(moderateMin, t.moderateRisk.max), Range(highMin, t.highRisk.max)))
  {
  }

  /** In every group both ends of each threshold range classify into that range. */
  lemma ClassifyBoundaries(g: GroupKey)
    ensures var t := Group(g).scoringThreshold;
      && ClassifyRisk(t.lowRisk.min, t) == Bajo && ClassifyRisk(t.lowRisk.max, t) == Bajo
      && ClassifyRisk(t.moderateRisk.min, t) == Moderado && ClassifyRisk(t.moderateRisk.max, t) == Moderado
      && ClassifyRisk(t.highRisk.min, t) == Alto && ClassifyRisk(t.highRisk.max, t) == Alto
  {
  }

  /** `answers[String(id)] || 0`: an unanswered question counts 0. */
  function AnswerOr0(answers: map<string, int>, id: int): int
  {
    var key := NumberKey(id);
    if key in answers then answers[key] else 0
  }

  /** The answer keys of `qs`, `String(q.id)` in list order. */
  function Ids(qs: seq<Question>): seq<string>
  {
    KeysOf(seq(|qs|, i requires 0 <= i < |qs| => qs[i].id))
  }

  /** Ids 1..n give n distinct keys. */
  lemma SequentialIdsDistinct(qs: seq<Question>)
    requires SequentialIds(qs)
    ensures Distinct(Ids(qs))
  {
    var ids := seq(|qs|, i requires 0 <= i < |qs| => qs[i].id);
    assert Distinct(ids);
  }

  /** The categories that occur among `qs`. */
  ghost function CategoriesOf(qs: seq<Question>): set<string>
  {
    set i | 0 <= i < |qs| :: qs[i].category
  }

  /** The answers to the questions of `qs` tagged `c`, unanswered ones counting 0. */
  ghost function CategorySum(qs: seq<Question>, answers: map<string, int>, c: string): int
  {
    if qs == [] then 0
    else
      var q := qs[|qs| - 1];
      CategorySum(qs[..|qs| - 1], answers, c) + (if q.category == c then AnswerOr0(answers, q.id) else 0)
  }

  /** The breakdown: one entry for each category that occurs among `qs`, holding its sum. */
  ghost function Breakdown(qs: seq<Question>, answers: map<string, int>): map<string, int>
  {
    map c | c in CategoriesOf(qs) :: CategorySum(qs, answers, c)
  }

  /** A category no question carries sums to 0. */
  lemma {:induction false} CategorySumAbsent(qs: seq<Question>, answers: map<string, int>, c: string)
    requires c !in CategoriesOf(qs)
    ensures CategorySum(qs, answers, c) == 0
    decreases |qs|
  {
    if qs != [] {
      var front := qs[..|qs| - 1];
      assert CategoriesOf(front) <= CategoriesOf(qs) by {
        forall x | x in CategoriesOf(front) ensures x in CategoriesOf(qs) {
          var i :| 0 <= i < |front| && front[i].category == x;
          assert qs[i].category == x;
        }
      }
      assert qs[|qs| - 1].category in CategoriesOf(qs);
      CategorySumAbsent(front, answers, c);
    }
  }

  /** The categories of one more question: those before, and its own. */
  lemma CategoriesSnoc(qs: seq<Question>, i: nat)
    requires i < |qs|
    ensures CategoriesOf(qs[..i + 1]) == CategoriesOf(qs[..i]) + {qs[i].category}
  {
    var before, after := qs[..i], qs[..i + 1];
    forall x | x in CategoriesOf(after) ensures x in CategoriesOf(before) + {qs[i].category} {
      var j :| 0 <= j < |after| && after[j].category == x;
      if j < i { assert before[j].category == x; }
    }
    forall x | x in CategoriesOf(before) ensures x in CategoriesOf(after) {
      var j :| 0 <= j < |before| && before[j].category == x;
      assert after[j].category == x;
    }
    assert after[i] == qs[i];
  }

  /** One more question adds its answer to its own category sum and changes no other. */
  lemma CategorySumSnoc(qs: seq<Question>, answers: map<string, int>, i: nat, c: string)
    requires i < |qs|
    ensures CategorySum(qs[..i + 1], answers, c)
      == CategorySum(qs[..i], answers, c) + (if qs[i].category == c then AnswerOr0(answers, qs[i].id) else 0)
  {
    assert qs[..i + 1][..i] == qs[..i];
  }

  /** `categories` holds, for each category among `qs`, its sum, and nothing else. */
  ghost predicate IsBreakdown(qs: seq<Question>, answers: map<string, int>, categories: map<string, int>)
  {
    && categories.Keys == CategoriesOf(qs)
    && forall c :: c in categories ==> categories[c] == CategorySum(qs, answers, c)
  }

  /** The breakdown is the only map that is one. */
  lemma IsBreakdownUnique(qs: seq<Question>, answers: map<string, int>, categories: map<string, int>)
    requires IsBreakdown(qs, answers, categories)
    ensures categories == Breakdown(qs, answers)
  {
  }

  /** One more question adds its answer to its own category and changes no other. */
  lemma BreakdownStep(qs: seq<Question>, answers: map<string, int>, i: nat, categories: map<string, int>)
    requires i < |qs| && IsBreakdown(qs[..i], answers, categories)
    ensures var q := qs[i];
      IsBreakdown(qs[..i + 1], answers,
        categories[q.category := (if q.category in categories then categories[q.category] else 0) + AnswerOr0(answers, q.id)])
  {
    var q := qs[i];
    var prior := if q.category in categories then categories[q.category] else 0;
    var after := categories[q.category := prior + AnswerOr0(answers, q.id)];
    assert after.Keys == CategoriesOf(qs[..i + 1]) by {
      CategoriesSnoc(qs, i);
    }
    assert prior == CategorySum(qs[..i], answers, q.category) by {
      if q.category !in categories {
        CategorySumAbsent(qs[..i], answers, q.category);
      }
    }
    forall c | c in after ensures after[c] == CategorySum(qs[..i + 1], answers, c) {
      CategorySumSnoc(qs, answers, i, c);
    }
  }

  /**
   * The loop body `if (!categories[c]) categories[c] = 0; categories[c] += a`
   * turns the breakdown of the questions before `qs[i]` into the breakdown of
   * the questions up to it.
   */
  lemma TallyStep(qs: seq<Question>, answers: map<string, int>, i: nat, before: map<string, int>, after: map<string, int>)
    requires i < |qs| && IsBreakdown(qs[..i], answers, before)
    requires var c := qs[i].category;
      var created := if c !in before || before[c] == 0 then before[c := 0] else before;
      after == created[c := created[c] + AnswerOr0(answers, qs[i].id)]
    ensures IsBreakdown(qs[..i + 1], answers, after)
  {
    BreakdownStep(qs, answers, i, before);
    var c := qs[i].category;
    assert after == before[c := (if c in before then before[c] else 0) + AnswerOr0(answers, qs[i].id)];
  }

  /** The breakdown loop of the scorer: `questions.forEach(q => categories[q.category] += ...)`. */
  method CategoryBreakdown(qs: seq<Question>, answers: map<string, int>) returns (categories: map<string, int>)
    ensures categories.Keys == CategoriesOf(qs)
    ensures forall c :: c in categories ==> categories[c] == CategorySum(qs, answers, c)
    ensures categories == Breakdown(qs, answers)
  {
    categories := map[];
    var i := 0;
    assert qs[..0] == [];
    while i < |qs|
      invariant 0 <= i <= |qs|
      invariant IsBreakdown(qs[..i], answers, categories)
    {
      var q := qs[i];
      ghost var before := categories;
      if q.category !in categories || categories[q.category] == 0 {
        categories := categories[q.category := 0];
      }
      categories := categories[q.category := categories[q.category] + AnswerOr0(answers, q.id)];
      TallyStep(qs, answers, i, before, categories);
      i := i + 1;
    }
    assert qs[..|qs|] == qs;
    IsBreakdownUnique(qs, answers, categories);
  }

  /** With no answers every category in the breakdown is 0. */
  lemma {:induction false} CategorySumNoAnswers(qs: seq<Question>, c: string)
    ensures CategorySum(qs, map[], c) == 0
    decreases |qs|
  {
    if qs != [] {
      CategorySumNoAnswers(qs[..|qs| - 1], c);
    }
  }

  lemma BreakdownNoAnswers(qs: seq<Question>)
    ensures Breakdown(qs, map[]).Keys == CategoriesOf(qs)
    ensures forall c :: c in Breakdown(qs, map[]) ==> Breakdown(qs, map[])[c] == 0
  {
    forall c | c in CategoriesOf(qs) ensures CategorySum(qs, map[], c) == 0 {
      CategorySumNoAnswers(qs, c);
    }
  }

  /** The category sums of `qs` over the category keys `cs`, added up. */
  ghost function SumCategories(qs: seq<Question>, answers: map<string, int>, cs: seq<string>): int
  {
    if cs == [] then 0
    else SumCategories(qs, answers, cs[..|cs| - 1]) + CategorySum(qs, answers, cs[|cs| - 1])
  }

  lemma {:induction false} SumCategoriesOfNone(answers: map<string, int>, cs: seq<string>)
    ensures SumCategories([], answers, cs) == 0
    decreases |cs|
  {
    if cs != [] {
      SumCategoriesOfNone(answers, cs[..|cs| - 1]);
    }
  }

  /** Adding a question adds its answer once to the category sums, as long as its category is among `cs`. */
  lemma {:induction false} SumCategoriesSnoc(qs: seq<Question>, answers: map<string, int>, cs: seq<string>)
    requires qs != [] && Distinct(cs)
    ensures var q := qs[|qs| - 1];
      SumCategories(qs, answers, cs)
        == SumCategories(qs[..|qs| - 1], answers, cs) + (if q.category in cs then AnswerOr0(answers, q.id) else 0)
    decreases |cs|
  {
    if cs != [] {
      var front := cs[..|cs| - 1];
      assert Distinct(front);
      assert qs[|qs| - 1].category in cs && qs[|qs| - 1].category != cs[|cs| - 1]
        ==> qs[|qs| - 1].category in front;
      assert qs[|qs| - 1].category == cs[|cs| - 1] ==> qs[|qs| - 1].category !in front;
      SumCategoriesSnoc(qs, answers, front);
    }
  }

  /** Regrouping: the category sums add up to the sum of the answers, question by question. */
  lemma {:induction false} SumCategoriesRegroup(qs: seq<Question>, answers: map<string, int>, cs: seq<string>)
    requires Distinct(cs)
    requires forall i :: 0 <= i < |qs| ==> qs[i].category in cs
    ensures SumCategories(qs, answers, cs) == SumAt(answers, Ids(qs))
    decreases |qs|
  {
    if qs == [] {
      SumCategoriesOfNone(answers, cs);
    } else {
      var front, q := qs[..|qs| - 1], qs[|qs| - 1];
      assert forall i :: 0 <= i < |front| ==> front[i].category in cs by {
        forall i | 0 <= i < |front| ensures front[i].category in cs { assert front[i] == qs[i]; }
      }
      SumCategoriesRegroup(front, answers, cs);
      assert SumAt(answers, Ids(qs)) == SumAt(answers, Ids(front)) + AnswerOr0(answers, q.id) by {
        assert Ids(qs)[..|qs| - 1] == Ids(front);
        assert Ids(qs)[|qs| - 1] == NumberKey(q.id);
      }
      assert q.category in cs;
      SumCategoriesSnoc(qs, answers, cs);
    }
  }

  /** The breakdown, read along `cs`, gives the category sums along `cs`. */
  lemma {:induction false} BreakdownAlong(qs: seq<Question>, answers: map<string, int>, cs: seq<string>)
    ensures SumAt(Breakdown(qs, answers), cs) == SumCategories(qs, answers, cs)
    decreases |cs|
  {
    if cs != [] {
      var c := cs[|cs| - 1];
      if c !in CategoriesOf(qs) {
        CategorySumAbsent(qs, answers, c);
      }
      BreakdownAlong(qs, answers, cs[..|cs| - 1]);
    }
  }

  /**
   * When every answer key is a question id of `qs`, the breakdown adds up to
   * the total: nothing is counted twice and nothing is left out.
   */
  lemma BreakdownMatchesTotal(qs: seq<Question>, answers: map<string, int>)
    requires Distinct(Ids(qs))
    requires forall key :: key in answers ==> key in Ids(qs)
    requires forall i :: 0 <= i < |qs| ==> qs[i].category in CategoryKeys
    ensures MapSum(Breakdown(qs, answers)) == MapSum(answers)
  {
    var b := Breakdown(qs, answers);
    var cs := CategoryKeys;
    assert MapSum(answers) == SumAt(answers, Ids(qs)) by {
      SumOverCover(answers, Ids(qs));
    }
    assert Distinct(cs);
    assert MapSum(b) == SumAt(b, cs) by {
      forall c | c in b ensures c in cs {
        var i :| 0 <= i < |qs| && qs[i].category == c;
      }
      SumOverCover(b, cs);
    }
    BreakdownAlong(qs, answers, cs);
    SumCategoriesRegroup(qs, answers, cs);
  }

  /** Every answer is one of its question's option values. */
  ghost predicate ReachableAnswers(qs: seq<Question>, answers: map<string, int>)
  {
    forall key :: key in answers ==> exists i :: 0 <= i < |qs| && NumberKey(qs[i].id) == key && answers[key] in qs[i].values
  }

  lemma {:induction false} SumAtBounded(qs: seq<Question>, answers: map<string, int>)
    requires forall i :: 0 <= i < |qs| ==> 0 <= AnswerOr0(answers, qs[i].id) <= MaxValue(qs[i].values)
    ensures 0 <= SumAt(answers, Ids(qs)) <= MaxScore(qs)
    decreases |qs|
  {
    if qs != [] {
      var front := qs[..|qs| - 1];
      assert Ids(qs)[..|qs| - 1] == Ids(front);
      SumAtBounded(front, answers);
    }
  }

  /** Each question contributes between 0 and its largest option value. */
  lemma ContributionBounded(qs: seq<Question>, answers: map<string, int>, i: nat)
    requires Distinct(Ids(qs)) && WellFormedQuestions(qs)
    requires ReachableAnswers(qs, answers)
    requires i < |qs|
    ensures 0 <= AnswerOr0(answers, qs[i].id) <= MaxValue(qs[i].values)
  {
    var q := qs[i];
    assert WellFormedOptions(q);
    assert q.values[0] in q.values;
    var key := NumberKey(q.id);
    if key in answers {
      var j :| 0 <= j < |qs| && NumberKey(qs[j].id) == key && answers[key] in qs[j].values;
      KeyIndex(qs, i, j);
      var k :| 0 <= k < |q.values| && q.values[k] == answers[key];
    }
  }

  /** With distinct keys, a key identifies the position of its question. */
  lemma KeyIndex(qs: seq<Question>, i: nat, j: nat)
    requires Distinct(Ids(qs)) && i < |qs| && j < |qs|
    requires NumberKey(qs[i].id) == NumberKey(qs[j].id)
    ensures i == j
  {
    var ids := seq(|qs|, k requires 0 <= k < |qs| => qs[k].id);
    assert Distinct(ids);
    NumberKeyInjective(qs[j].id, qs[i].id);
    assert ids[j] == ids[i];
  }

  /** Reachable answers are keyed by question ids. */
  lemma ReachableKeys(qs: seq<Question>, answers: map<string, int>)
    requires ReachableAnswers(qs, answers)
    ensures forall key :: key in answers ==> key in Ids(qs)
  {
    forall key | key in answers ensures key in Ids(qs) {
      var j :| 0 <= j < |qs| && NumberKey(qs[j].id) == key && answers[key] in qs[j].values;
      assert Ids(qs)[j] == key;
    }
  }

  /** A total made of option values lies between 0 and the highest total. */
  lemma ScoreBounded(qs: seq<Question>, answers: map<string, int>)
    requires Distinct(Ids(qs)) && WellFormedQuestions(qs)
    requires ReachableAnswers(qs, answers)
    ensures 0 <= MapSum(answers) <= MaxScore(qs)
  {
    forall i | 0 <= i < |qs| ensures 0 <= AnswerOr0(answers, qs[i].id) <= MaxValue(qs[i].values) {
      ContributionBounded(qs, answers, i);
    }
    ReachableKeys(qs, answers);
    SumOverCover(answers, Ids(qs));
    SumAtBounded(qs, answers);
  }

  /** In every group a total of answers from the form lies within the group's threshold ranges. */
  lemma GroupScoreBounded(g: GroupKey, answers: map<string, int>)
    requires ReachableAnswers(Questions(g), answers)
    ensures Group(g).scoringThreshold.lowRisk.min <= MapSum(answers) <= Group(g).scoringThreshold.highRisk.max
  {
    TablesWellFormed(g);
    SequentialIdsDistinct(Questions(g));
    ScoreBounded(Questions(g), answers);
    MaxScores();
  }

  /** The answers that pick, for every question, an option of the largest value. */
  function TopAnswers(qs: seq<Question>): map<string, int>
  {
    if qs == [] then map[]
    else
      var q := qs[|qs| - 1];
      TopAnswers(qs[..|qs| - 1])[NumberKey(q.id) := MaxValue(q.values)]
  }

  /**
   * Choosing a top option on every question is something the radio buttons can
   * do, and it reaches the highest total: the bound of `ScoreBounded` is attained.
   */
  lemma {:induction false} TopAnswersReachMax(qs: seq<Question>)
    requires Distinct(Ids(qs)) && WellFormedQuestions(qs)
    ensures forall key :: key in TopAnswers(qs) ==> key in Ids(qs)
    ensures ReachableAnswers(qs, TopAnswers(qs))
    ensures MapSum(TopAnswers(qs)) == MaxScore(qs)
    decreases |qs|
  {
    if qs != [] {
      var front, q := qs[..|qs| - 1], qs[|qs| - 1];
      var key, top := NumberKey(q.id), MaxValue(q.values);
      var m := TopAnswers(front);
      assert Ids(qs)[..|qs| - 1] == Ids(front);
      assert Ids(qs)[|qs| - 1] == key;
      assert Distinct(Ids(front));
      assert WellFormedQuestions(front) by {
        forall i | 0 <= i < |front| ensures WellFormedOptions(front[i]) && front[i].category in CategoryKeys {
          assert front[i] == qs[i];
        }
      }
      TopAnswersReachMax(front);
      assert key !in m;
      PutSum(m, key, top);
      assert WellFormedOptions(q);
      ReachableSnoc(qs, m, top);
    }
  }

  /** Answering the last question with one of its values keeps the answers to the others reachable. */
  lemma ReachableSnoc(qs: seq<Question>, m: map<string, int>, v: int)
    requires qs != [] && ReachableAnswers(qs[..|qs| - 1], m)
    requires v in qs[|qs| - 1].values
    ensures ReachableAnswers(qs, m[NumberKey(qs[|qs| - 1].id) := v])
  {
    var front, key := qs[..|qs| - 1], NumberKey(qs[|qs| - 1].id);
    var r := m[key := v];
    forall k | k in r
      ensures exists i :: 0 <= i < |qs| && NumberKey(qs[i].id) == k && r[k] in qs[i].values
    {
      if k == key {
        assert NumberKey(qs[|qs| - 1].id) == k;
      } else {
        var i :| 0 <= i < |front| && NumberKey(front[i].id) == k && m[k] in front[i].values;
        assert qs[i] == front[i];
      }
    }
  }

  /** In every group the highest total, 24, 30 or 35, is reached by answers the form can produce. */
  lemma GroupMaxReached(g: GroupKey)
    ensures ReachableAnswers(Questions(g), TopAnswers(Questions(g)))
    ensures g == Toddlers ==> MapSum(TopAnswers(Questions(g))) == 24
    ensures g == Children ==> MapSum(TopAnswers(Questions(g))) == 30
    ensures g == Schoolage ==> MapSum(TopAnswers(Questions(g))) == 35
  {
    TablesWellFormed(g);
    SequentialIdsDistinct(Questions(g));
    TopAnswersReachMax(Questions(g));
    MaxScores();
  }

  /** What the scorer produces for the answers of group `g`: total, risk and breakdown. */
  ghost function Evaluate(g: GroupKey, answers: map<string, int>): (r: QuizResult)
    ensures r.risk == ClassifyRisk(r.score, Group(g).scoringThreshold)
    ensures r.categories.Keys == CategoriesOf(Questions(g))
    ensures ReachableAnswers(Questions(g), answers) ==>
      && MapSum(r.categories) == r.score
      && Group(g).scoringThreshold.lowRisk.min <= r.score <= Group(g).scoringThreshold.highRisk.max
  {
    var total := MapSum(answers);
    var r := QuizResult(total, ClassifyRisk(total, Group(g).scoringThreshold), Breakdown(Questions(g), answers));
    if ReachableAnswers(Questions(g), answers) then
      GroupScoreBounded(g, answers);
      ReachableKeys(Questions(g), answers);
      TablesWellFormed(g);
      SequentialIdsDistinct(Questions(g));
      BreakdownMatchesTotal(Questions(g), answers);
      r
    else r
  }

  /** `calculateScore`: the total, its risk under the group's thresholds and the breakdown by category. */
  method Score(g: GroupKey, answers: map<string, int>) returns (r: QuizResult)
    ensures r == Evaluate(g, answers)
  {
    var total := SumValues(answers);
    var categories := CategoryBreakdown(Questions(g), answers);
    r := QuizResult(total, ClassifyRisk(total, Group(g).scoringThreshold), categories);
  }

  /** The form `QChatForm`: which screen shows, the chosen group, the answers so far, the question on screen and the result. */
  class QuizForm {
    var screen: Screen
    var ageGroup: Option<GroupKey>
    var answers: map<string, int>
    var currentQuestionIndex: nat
    var result: Option<QuizResult>

    /**
     * Past the welcome screen a group is chosen, the question on screen is one
     * of its questions, every answer is an option of one of them, and the result
     * exists exactly on the results screen, where it is the evaluation of the answers.
     */
    ghost predicate Valid()
      reads this
    {
      && (screen != Welcome ==> ageGroup.Some?)
      && (ageGroup.Some? ==> currentQuestionIndex < |Questions(ageGroup.value)|)
      && (ageGroup.Some? ==> ReachableAnswers(Questions(ageGroup.value), answers))
      && (screen == Welcome ==> answers == map[] && currentQuestionIndex == 0)
      && (result.Some? <==> screen == Results)
      && (screen == Results ==> result == Some(Evaluate(ageGroup.value, answers)))
    }

    /**
     * The questions of the chosen group, none before one is chosen: as many
     * as the group announces, numbered 1, 2, ... in display order.
     */
    function CurrentQuestions(): (qs: seq<Question>)
      reads this
      ensures ageGroup.None? ==> qs == []
      ensures ageGroup.Some? ==> qs == Questions(ageGroup.value)
      ensures ageGroup.Some? ==> |qs| == Group(ageGroup.value).totalQuestions
      ensures SequentialIds(qs)
    {
      if ageGroup.Some? then TablesWellFormed(ageGroup.value); Questions(ageGroup.value) else []
    }

    constructor ()
      ensures Valid()
      ensures screen == Welcome && ageGroup == None && answers == map[]
      ensures currentQuestionIndex == 0 && result == None
    {
      screen, ageGroup, answers, currentQuestionIndex, result := Welcome, None, map[], 0, None;
    }

    /** `handleSelectAgeGroup`: the group buttons show on the welcome screen only. */
    method SelectAgeGroup(g: GroupKey)
      requires Valid() && screen == Welcome
      modifies this
      ensures Valid()
      ensures ageGroup == Some(g)
      ensures screen == old(screen) && answers == old(answers)
      ensures currentQuestionIndex == old(currentQuestionIndex) && result == old(result)
    {
      assert ReachableAnswers(Questions(g), answers);
      ageGroup := Some(g);
    }

    /** `startQuiz`: moves to the quiz only once a group is chosen. */
    method StartQuiz()
      requires Valid() && screen == Welcome
      modifies this
      ensures Valid()
      ensures screen == (if old(ageGroup).Some? then Quiz else Welcome)
      ensures ageGroup == old(ageGroup) && answers == old(answers)
      ensures currentQuestionIndex == old(currentQuestionIndex) && result == old(result)
    {
      if ageGroup.Some? {
        screen := Quiz;
      }
    }

    /**
     * `handleAnswer(questionId, value)`, as the radio buttons of the question on
     * screen call it: with that question's id and one of its option values.
     */
    method HandleAnswer(questionId: int, value: int)
      requires Valid() && screen == Quiz
      requires questionId == CurrentQuestions()[currentQuestionIndex].id
      requires value in CurrentQuestions()[currentQuestionIndex].values
      modifies this
      ensures Valid()
      ensures answers == Put(old(answers), NumberKey(questionId), value)
      ensures screen == old(screen) && ageGroup == old(ageGroup)
      ensures currentQuestionIndex == old(currentQuestionIndex) && result == old(result)
    {
      AnswerKeepsReachable(Questions(ageGroup.value), answers, currentQuestionIndex, value);
      answers := Put(answers, NumberKey(questionId), value);
    }

    /** `nextQuestion`: the next question, or after the last one the score and the results screen. */
    method NextQuestion()
      requires Valid() && screen == Quiz
      modifies this
      ensures Valid()
      ensures ageGroup == old(ageGroup) && answers == old(answers)
      ensures old(currentQuestionIndex) < |CurrentQuestions()| - 1 ==>
        currentQuestionIndex == old(currentQuestionIndex) + 1 && screen == Quiz && result == None
      ensures old(currentQuestionIndex) == |CurrentQuestions()| - 1 ==>
        currentQuestionIndex == old(currentQuestionIndex) && screen == Results
        && result == Some(Evaluate(ageGroup.value, answers))
    {
      if currentQuestionIndex < |CurrentQuestions()| - 1 {
        currentQuestionIndex := currentQuestionIndex + 1;
      } else {
        CalculateScore();
      }
    }

    /** `prevQuestion`: one question back, never before the first. */
    method PrevQuestion()
      requires Valid() && screen == Quiz
      modifies this
      ensures Valid()
      ensures currentQuestionIndex == if old(currentQuestionIndex) > 0 then old(currentQuestionIndex) - 1 else 0
      ensures screen == old(screen) && ageGroup == old(ageGroup)
      ensures answers == old(answers) && result == old(result)
    {
      if currentQuestionIndex > 0 {
        currentQuestionIndex := currentQuestionIndex - 1;
      }
    }

    /** `calculateScore`: stores the result of the scorer and shows it. */
    method CalculateScore()
      requires Valid() && screen == Quiz
      modifies this
      ensures Valid()
      ensures screen == Results && result == Some(Evaluate(ageGroup.value, answers))
      ensures ageGroup == old(ageGroup) && answers == old(answers)
      ensures currentQuestionIndex == old(currentQuestionIndex)
    {
      var r := Score(ageGroup.value, answers);
      result := Some(r);
      screen := Results;
    }
  }

  /** Answering the question at `i` with one of its option values keeps every answer reachable. */
  lemma AnswerKeepsReachable(qs: seq<Question>, answers: map<string, int>, i: nat, value: int)
    requires ReachableAnswers(qs, answers)
    requires i < |qs| && value in qs[i].values
    ensures ReachableAnswers(qs, Put(answers, NumberKey(qs[i].id), value))
  {
    var after := Put(answers, NumberKey(qs[i].id), value);
    forall key | key in after
      ensures exists j :: 0 <= j < |qs| && NumberKey(qs[j].id) == key && after[key] in qs[j].values
    {
      if key == NumberKey(qs[i].id) {
        assert after[key] in qs[i].values;
      } else {
        var j :| 0 <= j < |qs| && NumberKey(qs[j].id) == key && answers[key] in qs[j].values;
        assert after[key] in qs[j].values;
      }
    }
  }
}
