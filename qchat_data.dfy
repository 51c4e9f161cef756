/**
 * The reference data of the age-group questionnaire: three age groups, each
 * with its score thresholds and its own question list, and the six category
 * keys.  Wording (names, question texts, option texts, descriptions, icons) is
 * left out; what remains is every number and key the scorer reads.
 */
module QChatData {

  datatype GroupKey = Toddlers | Children | Schoolage

  /** An inclusive score range `{ min, max }`. */
  datatype Range = Range(min: int, max: int)

  datatype Thresholds = Thresholds(lowRisk: Range, moderateRisk: Range, highRisk: Range)

  datatype AgeGroup = AgeGroup(
    id: string,
    minAge: int,
    maxAge: int,
    totalQuestions: int,
    scoringThreshold: Thresholds)

  /** A question, reduced to its id, its category key and the values of its options. */
  datatype Question = Question(id: int, category: string, values: seq<int>)

  /** The entries of `ageGroups`. */
  function Group(g: GroupKey): AgeGroup
  {
    match g
    case Toddlers => AgeGroup("toddlers", 18, 24, 25, Thresholds(Range(0, 2), Range(3, 7), Range(8, 25)))
    case Children => AgeGroup("children", 24, 72, 30, Thresholds(Range(0, 3), Range(4, 8), Range(9, 30)))
    case Schoolage => AgeGroup("schoolage", 84, 144, 35, Thresholds(Range(0, 4), Range(5, 11), Range(12, 35)))
  }

  /** The entries of `questions`. */
  function Questions(g: GroupKey): seq<Question>
  {
    match g
    case Toddlers => ToddlerQuestions
    case Children => ChildrenQuestions
    case Schoolage => SchoolageQuestions
  }

  /** The keys of `categories`, in the order they are declared. */
  const CategoryKeys: seq<string> := ["social", "communication", "play", "behavioral", "sensory", "motor"]

  /** The three threshold ranges follow one another with no gap and no overlap, from 0. */
  predicate Contiguous(t: Thresholds)
  {
    && t.lowRisk.min == 0
    && t.moderateRisk.min == t.lowRisk.max + 1
    && t.highRisk.min == t.moderateRisk.max + 1
  }

  /** The ids of `qs` are 1, 2, ..., |qs| in list order. */
  predicate SequentialIds(qs: seq<Question>)
  {
    forall i :: 0 <= i < |qs| ==> qs[i].id == i + 1
  }

  /** Two to five options, each worth 0 or 1, never decreasing in display order. */
  predicate WellFormedOptions(q: Question)
  {
    && 2 <= |q.values| <= 5
    && (forall j :: 0 <= j < |q.values| ==> q.values[j] == 0 || q.values[j] == 1)
    && (forall j :: 0 < j < |q.values| ==> q.values[j - 1] <= q.values[j])
  }

  /** Every question satisfies `WellFormedOptions` and carries one of the six category keys. */
  predicate WellFormedQuestions(qs: seq<Question>)
  {
    forall i :: 0 <= i < |qs| ==> WellFormedOptions(qs[i]) && qs[i].category in CategoryKeys
  }

  /** The largest value among the options of one question (0 for a question without options). */
  function MaxValue(values: seq<int>): (r: int)
    ensures forall j :: 0 <= j < |values| ==> values[j] <= r
    ensures values != [] ==> r in values
    ensures values == [] ==> r == 0
  {
    if |values| <= 1 then (if values == [] then 0 else values[0])
    else
      var m := MaxValue(values[..|values| - 1]);
      var last := values[|values| - 1];
      assert values == values[..|values| - 1] + [last];
      if last < m then m else last
  }

  /** The highest total of the questions `qs`: the sum of their largest option values (attained, see `QChatQuiz.TopAnswersReachMax`). */
  function MaxScore(qs: seq<Question>): int
  {
    if qs == [] then 0 else MaxScore(qs[..|qs| - 1]) + MaxValue(qs[|qs| - 1].values)
  }

  /** The four option-value lists that occur in the tables. */
  ghost predicate IsPattern(v: seq<int>)
  {
    v == [0, 0, 1, 1, 1] || v == [0, 0, 0, 1, 1] || v == [0, 0, 1, 1] || v == [0, 0]
  }

  lemma PatternFacts(q: Question)
    requires IsPattern(q.values)
    ensures WellFormedOptions(q)
    ensures MaxValue(q.values) == (if q.values == [0, 0] then 0 else 1)
  {
    var v := q.values;
    if v == [0, 0, 1, 1, 1] {
      assert MaxValue(v) == 1;
    } else if v == [0, 0, 0, 1, 1] {
      assert MaxValue(v) == 1;
    } else if v == [0, 0, 1, 1] {
      assert MaxValue(v) == 1;
    } else {
      assert MaxValue(v) == 0;
    }
  }

  lemma ToddlerPatterns()
    ensures forall i :: 0 <= i < |ToddlerQuestions| ==> IsPattern(ToddlerQuestions[i].values)
    ensures forall i :: 0 <= i < |ToddlerQuestions| ==> (ToddlerQuestions[i].values == [0, 0] <==> i == 11)
  {
  }

  lemma ChildrenPatterns()
    ensures forall i :: 0 <= i < |ChildrenQuestions| ==> ChildrenQuestions[i].values == [0, 0, 1, 1, 1]
  {
  }

  lemma SchoolagePatterns()
    ensures forall i :: 0 <= i < |SchoolageQuestions| ==> SchoolageQuestions[i].values == [0, 0, 1, 1, 1]
  {
  }

  lemma ToddlerIds()
    ensures |ToddlerQuestions| == 25 && SequentialIds(ToddlerQuestions)
  {
  }

  lemma ToddlerOptions()
    ensures forall i :: 0 <= i < |ToddlerQuestions| ==> WellFormedOptions(ToddlerQuestions[i])
  {
    ToddlerPatterns();
    forall i | 0 <= i < |ToddlerQuestions| ensures WellFormedOptions(ToddlerQuestions[i]) {
      PatternFacts(ToddlerQuestions[i]);
    }
  }

  lemma ToddlerCategories()
    ensures forall i :: 0 <= i < |ToddlerQuestions| ==> ToddlerQuestions[i].category in CategoryKeys
  {
  }

  lemma ChildrenIds()
    ensures |ChildrenQuestions| == 30 && SequentialIds(ChildrenQuestions)
  {
  }

  lemma ChildrenOptions()
    ensures forall i :: 0 <= i < |ChildrenQuestions| ==> WellFormedOptions(ChildrenQuestions[i])
  {
    ChildrenPatterns();
    forall i | 0 <= i < |ChildrenQuestions| ensures WellFormedOptions(ChildrenQuestions[i]) {
      PatternFacts(ChildrenQuestions[i]);
    }
  }

  lemma ChildrenCategories()
    ensures forall i :: 0 <= i < |ChildrenQuestions| ==> ChildrenQuestions[i].category in CategoryKeys
  {
  }

  lemma SchoolageIds()
    ensures |SchoolageQuestions| == 35 && SequentialIds(SchoolageQuestions)
  {
  }

  lemma SchoolageOptions()
    ensures forall i :: 0 <= i < |SchoolageQuestions| ==> WellFormedOptions(SchoolageQuestions[i])
  {
    SchoolagePatterns();
    forall i | 0 <= i < |SchoolageQuestions| ensures WellFormedOptions(SchoolageQuestions[i]) {
      PatternFacts(SchoolageQuestions[i]);
    }
  }

  lemma SchoolageCategories()
    ensures forall i :: 0 <= i < |SchoolageQuestions| ==> SchoolageQuestions[i].category in CategoryKeys
  {
  }

  /** What the tables promise, group by group. */
  lemma TablesWellFormed(g: GroupKey)
    ensures |Questions(g)| == Group(g).totalQuestions
    ensures SequentialIds(Questions(g))
    ensures WellFormedQuestions(Questions(g))
    ensures Contiguous(Group(g).scoringThreshold)
  {
    match g
    case Toddlers => ToddlerIds(); ToddlerOptions(); ToddlerCategories();
    case Children => ChildrenIds(); ChildrenOptions(); ChildrenCategories();
    case Schoolage => SchoolageIds(); SchoolageOptions(); SchoolageCategories();
  }

  /** Splitting the questions splits the highest total. */
  lemma {:induction false} MaxScoreAppend(a: seq<Question>, b: seq<Question>)
    ensures MaxScore(a + b) == MaxScore(a) + MaxScore(b)
    decreases |b|
  {
    if b == [] {
      assert a + b == a;
    } else {
      var front := b[..|b| - 1];
      assert (a + b)[..|a + b| - 1] == a + front;
      MaxScoreAppend(a, front);
    }
  }

  /** When every question's largest value is 1, the highest total is the number of questions. */
  lemma {:induction false} MaxScoreAllOnes(qs: seq<Question>)
    requires forall i :: 0 <= i < |qs| ==> MaxValue(qs[i].values) == 1
    ensures MaxScore(qs) == |qs|
    decreases |qs|
  {
    if qs != [] {
      MaxScoreAllOnes(qs[..|qs| - 1]);
    }
  }

  lemma ToddlerMaxValues()
    ensures forall i :: 0 <= i < |ToddlerQuestions| && i != 11 ==> MaxValue(ToddlerQuestions[i].values) == 1
    ensures ToddlerQuestions[11].id == 12 && MaxValue(ToddlerQuestions[11].values) == 0
  {
    ToddlerPatterns();
    forall i | 0 <= i < |ToddlerQuestions|
      ensures MaxValue(ToddlerQuestions[i].values) == (if i == 11 then 0 else 1)
    {
      PatternFacts(ToddlerQuestions[i]);
    }
    ToddlerIds();
  }

  lemma ChildrenMaxValues()
    ensures forall i :: 0 <= i < |ChildrenQuestions| ==> MaxValue(ChildrenQuestions[i].values) == 1
  {
    ChildrenPatterns();
    forall i | 0 <= i < |ChildrenQuestions| ensures MaxValue(ChildrenQuestions[i].values) == 1 {
      PatternFacts(ChildrenQuestions[i]);
    }
  }

  lemma SchoolageMaxValues()
    ensures forall i :: 0 <= i < |SchoolageQuestions| ==> MaxValue(SchoolageQuestions[i].values) == 1
  {
    SchoolagePatterns();
    forall i | 0 <= i < |SchoolageQuestions| ensures MaxValue(SchoolageQuestions[i].values) == 1 {
      PatternFacts(SchoolageQuestions[i]);
    }
  }

  /**
   * The highest totals are 24, 30 and 35 (question 12 of the toddler
   * list is worth 0 whatever the answer), none above the top of its group's
   * high-risk range.
   */
  lemma MaxScores()
    ensures MaxScore(Questions(Toddlers)) == 24 < Group(Toddlers).scoringThreshold.highRisk.max
    ensures MaxScore(Questions(Children)) == 30 == Group(Children).scoringThreshold.highRisk.max
    ensures MaxScore(Questions(Schoolage)) == 35 == Group(Schoolage).scoringThreshold.highRisk.max
  {
    ToddlerIds();
    ChildrenIds();
    SchoolageIds();
    ToddlerMaxValues();
    var t := ToddlerQuestions;
    var before, at, after := t[..11], t[11..12], t[12..];
    assert t == before + at + after;
    MaxScoreAppend(before + at, after);
    MaxScoreAppend(before, at);
    MaxScoreAllOnes(before);
    MaxScoreAllOnes(after) by {
      forall i | 0 <= i < |after| ensures MaxValue(after[i].values) == 1 {
        assert after[i] == t[i + 12];
      }
    }
    assert at[..0] == [];
    ChildrenMaxValues();
    MaxScoreAllOnes(ChildrenQuestions);
    SchoolageMaxValues();
    MaxScoreAllOnes(SchoolageQuestions);
  }

  /** The toddlers questions (src/qchat-quiz.js:61-377): id, category and option values in display order. */
  const ToddlerQuestions: seq<Question> := [
    Question(1, "social", [0, 0, 1, 1, 1]),
    Question(2, "social", [0, 0, 1, 1, 1]),
    Question(3, "communication", [0, 0, 0, 1, 1]),
    Question(4, "communication", [0, 0, 0, 1, 1]),
    Question(5, "play", [0, 0, 0, 1, 1]),
    Question(6, "social", [0, 0, 1, 1]),
    Question(7, "communication", [0, 0, 1, 1, 1]),
    Question(8, "social", [0, 0, 1, 1, 1]),
    Question(9, "communication", [0, 0, 1, 1, 1]),
    Question(10, "communication", [0, 0, 0, 1, 1]),
    Question(11, "communication", [0, 0, 1, 1, 1]),
    Question(12, "motor", [0, 0]),
    Question(13, "communication", [0, 0, 1, 1, 1]),
    Question(14, "social", [0, 0, 0, 1, 1]),
    Question(15, "communication", [0, 0, 1, 1, 1]),
    Question(16, "motor", [0, 0, 1, 1]),
    Question(17, "behavioral", [0, 0, 1, 1, 1]),
    Question(18, "sensory", [0, 0, 1, 1]),
    Question(19, "social", [0, 0, 1, 1]),
    Question(20, "social", [0, 0, 0, 1, 1]),
    Question(21, "social", [0, 0, 1, 1, 1]),
    Question(22, "social", [0, 0, 1, 1, 1]),
    Question(23, "behavioral", [0, 0, 1, 1]),
    Question(24, "social", [0, 0, 1, 1]),
    Question(25, "social", [0, 0, 1, 1])
  ]

  /** The children questions (src/qchat-quiz.js:379-770): id, category and option values in display order. */
  const ChildrenQuestions: seq<Question> := [
    Question(1, "social", [0, 0, 1, 1, 1]),
    Question(2, "communication", [0, 0, 1, 1, 1]),
    Question(3, "play", [0, 0, 1, 1, 1]),
    Question(4, "social", [0, 0, 1, 1, 1]),
    Question(5, "social", [0, 0, 1, 1, 1]),
    Question(6, "communication", [0, 0, 1, 1, 1]),
    Question(7, "social", [0, 0, 1, 1, 1]),
    Question(8, "social", [0, 0, 1, 1, 1]),
    Question(9, "communication", [0, 0, 1, 1, 1]),
    Question(10, "communication", [0, 0, 1, 1, 1]),
    Question(11, "communication", [0, 0, 1, 1, 1]),
    Question(12, "social", [0, 0, 1, 1, 1]),
    Question(13, "social", [0, 0, 1, 1, 1]),
    Question(14, "play", [0, 0, 1, 1, 1]),
    Question(15, "behavioral", [0, 0, 1, 1, 1]),
    Question(16, "social", [0, 0, 1, 1, 1]),
    Question(17, "sensory", [0, 0, 1, 1, 1]),
    Question(18, "motor", [0, 0, 1, 1, 1]),
    Question(19, "communication", [0, 0, 1, 1, 1]),
    Question(20, "social", [0, 0, 1, 1, 1]),
    Question(21, "social", [0, 0, 1, 1, 1]),
    Question(22, "social", [0, 0, 1, 1, 1]),
    Question(23, "behavioral", [0, 0, 1, 1, 1]),
    Question(24, "sensory", [0, 0, 1, 1, 1]),
    Question(25, "social", [0, 0, 1, 1, 1]),
    Question(26, "communication", [0, 0, 1, 1, 1]),
    Question(27, "social", [0, 0, 1, 1, 1]),
    Question(28, "behavioral", [0, 0, 1, 1, 1]),
    Question(29, "behavioral", [0, 0, 1, 1, 1]),
    Question(30, "behavioral", [0, 0, 1, 1, 1])
  ]

  /** The schoolage questions (src/qchat-quiz.js:772-1228): id, category and option values in display order. */
  const SchoolageQuestions: seq<Question> := [
    Question(1, "social", [0, 0, 1, 1, 1]),
    Question(2, "communication", [0, 0, 1, 1, 1]),
    Question(3, "social", [0, 0, 1, 1, 1]),
    Question(4, "social", [0, 0, 1, 1, 1]),
    Question(5, "communication", [0, 0, 1, 1, 1]),
    Question(6, "social", [0, 0, 1, 1, 1]),
    Question(7, "communication", [0, 0, 1, 1, 1]),
    Question(8, "social", [0, 0, 1, 1, 1]),
    Question(9, "communication", [0, 0, 1, 1, 1]),
    Question(10, "social", [0, 0, 1, 1, 1]),
    Question(11, "social", [0, 0, 1, 1, 1]),
    Question(12, "behavioral", [0, 0, 1, 1, 1]),
    Question(13, "social", [0, 0, 1, 1, 1]),
    Question(14, "behavioral", [0, 0, 1, 1, 1]),
    Question(15, "behavioral", [0, 0, 1, 1, 1]),
    Question(16, "social", [0, 0, 1, 1, 1]),
    Question(17, "communication", [0, 0, 1, 1, 1]),
    Question(18, "social", [0, 0, 1, 1, 1]),
    Question(19, "play", [0, 0, 1, 1, 1]),
    Question(20, "motor", [0, 0, 1, 1, 1]),
    Question(21, "communication", [0, 0, 1, 1, 1]),
    Question(22, "play", [0, 0, 1, 1, 1]),
    Question(23, "social", [0, 0, 1, 1, 1]),
    Question(24, "motor", [0, 0, 1, 1, 1]),
    Question(25, "behavioral", [0, 0, 1, 1, 1]),
    Question(26, "sensory", [0, 0, 1, 1, 1]),
    Question(27, "communication", [0, 0, 1, 1, 1]),
    Question(28, "play", [0, 0, 1, 1, 1]),
    Question(29, "social", [0, 0, 1, 1, 1]),
    Question(30, "social", [0, 0, 1, 1, 1]),
    Question(31, "communication", [0, 0, 1, 1, 1]),
    Question(32, "behavioral", [0, 0, 1, 1, 1]),
    Question(33, "sensory", [0, 0, 1, 1, 1]),
    Question(34, "behavioral", [0, 0, 1, 1, 1]),
    Question(35, "social", [0, 0, 1, 1, 1])
  ]
}
