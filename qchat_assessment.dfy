/**
 * The fixed 25-question Q-CHAT assessment: each option of a question carries a
 * number of risk points, the total places the child in one of three risk
 * levels, and each level comes with its list of recommendations.  Answers are
 * option indices stored under `String(id)` of their question.
 */
module QChatAssessment {
  import opened Wrappers
  import opened AnswerMaps
  import opened Text

  /** The option labels the questions use. */
  datatype Label = Siempre | Usualmente | AVeces | Raramente | Nunca | Si | No

  function LabelText(l: Label): string
  {
    match l
    case Siempre => "Siempre"
    case Usualmente => "Usualmente"
    case AVeces => "A veces"
    case Raramente => "Raramente"
    case Nunca => "Nunca"
    case Si => "Sí"
    case No => "No"
  }

  /** A question: its id, its option labels and the risk points of each option. */
  datatype Item = Item(id: int, options: seq<Label>, riskPoints: seq<int>)

  datatype RiskLevel = Bajo | Medio | Alto

  function Rank(r: RiskLevel): nat
  {
    match r
    case Bajo => 0
    case Medio => 1
    case Alto => 2
  }

  /** The stored result, less the user id, the date, the parsed age and the document id. */
  datatype Outcome = Outcome(
    childName: string,
    answers: map<string, int>,
    totalScore: int,
    riskLevel: RiskLevel,
    recommendations: seq<Advice>)

  const Frequency: seq<Label> := [Siempre, Usualmente, AVeces, Raramente, Nunca]
  const RisingFrequency: seq<Label> := [Nunca, Raramente, AVeces, Usualmente, Siempre]
  const YesNo: seq<Label> := [Si, No]

  /** The four risk point lists the table uses. */
  const FrequencyPoints: seq<int> := [0, 0, 1, 2, 4]
  const MilderPoints: seq<int> := [0, 0, 1, 2, 3]
  const RisingPoints: seq<int> := [0, 1, 2, 3, 4]
  const YesNoPoints: seq<int> := [0, 2]

  /** The 25 questions, with the option labels and risk points of each. */
  const Questions: seq<Item> := [
    Item(1, Frequency, FrequencyPoints),
    Item(2, RisingFrequency, RisingPoints),
    Item(3, Frequency, FrequencyPoints),
    Item(4, Frequency, MilderPoints),
    Item(5, RisingFrequency, RisingPoints),
    Item(6, Frequency, FrequencyPoints),
    Item(7, Frequency, FrequencyPoints),
    Item(8, Frequency, FrequencyPoints),
    Item(9, Frequency, FrequencyPoints),
    Item(10, Frequency, FrequencyPoints),
    Item(11, RisingFrequency, RisingPoints),
    Item(12, Frequency, FrequencyPoints),
    Item(13, Frequency, FrequencyPoints),
    Item(14, Frequency, FrequencyPoints),
    Item(15, Frequency, FrequencyPoints),
    Item(16, YesNo, YesNoPoints),
    Item(17, Frequency, FrequencyPoints),
    Item(18, RisingFrequency, RisingPoints),
    Item(19, Frequency, FrequencyPoints),
    Item(20, RisingFrequency, RisingPoints),
    Item(21, Frequency, FrequencyPoints),
    Item(22, RisingFrequency, RisingPoints),
    Item(23, Frequency, FrequencyPoints),
    Item(24, Frequency, MilderPoints),
    Item(25, Frequency, FrequencyPoints)
  ]

  /** One risk point value per option, each between 0 and 4, never falling from one option to the next. */
  predicate WellFormedItem(q: Item)
  {
    && |q.options| >= 2
    && |q.riskPoints| == |q.options|
    && q.riskPoints[0] == 0
    && (forall j :: 0 <= j < |q.riskPoints| ==> 0 <= q.riskPoints[j] <= 4)
    && (forall j :: 0 < j < |q.riskPoints| ==> q.riskPoints[j - 1] <= q.riskPoints[j])
  }

  predicate DistinctIds(qs: seq<Item>)
  {
    forall i, j :: 0 <= i < j < |qs| ==> qs[i].id != qs[j].id
  }

  /** The points of the last option, 0 for a question without options. */
  function LastPoints(q: Item): int
  {
    if q.riskPoints == [] then 0 else q.riskPoints[|q.riskPoints| - 1]
  }

  /** The highest total: every question answered with its last option. */
  function MaxPoints(qs: seq<Item>): int
  {
    if qs == [] then 0 else MaxPoints(qs[..|qs| - 1]) + LastPoints(qs[|qs| - 1])
  }

  /** The four kinds of question in the table. */
  predicate IsShape(q: Item)
  {
    || (q.options == Frequency && q.riskPoints == FrequencyPoints)
    || (q.options == Frequency && q.riskPoints == MilderPoints)
    || (q.options == RisingFrequency && q.riskPoints == RisingPoints)
    || (q.options == YesNo && q.riskPoints == YesNoPoints)
  }

  lemma ShapeFacts(q: Item)
    requires IsShape(q)
    ensures WellFormedItem(q)
    ensures LastPoints(q) == (if q.riskPoints == MilderPoints then 3 else if q.riskPoints == YesNoPoints then 2 else 4)
  {
    assert FrequencyPoints != MilderPoints && RisingPoints != MilderPoints && YesNoPoints != MilderPoints by {
      assert FrequencyPoints[4] != MilderPoints[4] && RisingPoints[4] != MilderPoints[4];
    }
  }

  /** Every question of the table has one of the four shapes, and the questions are numbered 1 to 25. */
  lemma QuestionShapes()
    ensures |Questions| == 25
    ensures forall i :: 0 <= i < |Questions| ==> IsShape(Questions[i])
    ensures NumberedFromOne(Questions)
  {
    // One case per question, so that each is checked against its own entry of the table.
    forall i | 0 <= i < |Questions| ensures IsShape(Questions[i]) && Questions[i].id == i + 1 {
      if i == 0 {
      } else if i == 1 {
      } else if i == 2 {
      } else if i == 3 {
      } else if i == 4 {
      } else if i == 5 {
      } else if i == 6 {
      } else if i == 7 {
      } else if i == 8 {
      } else if i == 9 {
      } else if i == 10 {
      } else if i == 11 {
      } else if i == 12 {
      } else if i == 13 {
      } else if i == 14 {
      } else if i == 15 {
      } else if i == 16 {
      } else if i == 17 {
      } else if i == 18 {
      } else if i == 19 {
      } else if i == 20 {
      } else if i == 21 {
      } else if i == 22 {
      } else if i == 23 {
      } else {
        assert i == 24;
      }
    }
  }

  /** Questions 4 and 24 top out at 3 points, and question 16, the yes/no one, at 2. */
  lemma ShorterQuestions()
    ensures |Questions| == 25
    ensures forall i :: 0 <= i < |Questions| ==> (Questions[i].riskPoints == MilderPoints <==> i == 3 || i == 23)
    ensures forall i :: 0 <= i < |Questions| ==> (Questions[i].riskPoints == YesNoPoints <==> i == 15)
  {
    assert FrequencyPoints != MilderPoints && RisingPoints != MilderPoints && YesNoPoints != MilderPoints by {
      assert FrequencyPoints[4] != MilderPoints[4] && RisingPoints[4] != MilderPoints[4];
    }
    assert |FrequencyPoints| != |YesNoPoints| && |RisingPoints| != |YesNoPoints| && |MilderPoints| != |YesNoPoints|;
  }

  /** The table is well formed: 25 questions numbered 1 to 25, each with as many risk point values as options. */
  lemma QuestionsWellFormed()
    ensures |Questions| == 25 && DistinctIds(Questions)
    ensures forall i :: 0 <= i < |Questions| ==> Questions[i].id == i + 1 && WellFormedItem(Questions[i])
  {
    QuestionShapes();
    forall i | 0 <= i < |Questions| ensures WellFormedItem(Questions[i]) {
      ShapeFacts(Questions[i]);
    }
  }

  lemma PrefixStep(qs: seq<Item>, n: nat)
    requires n < |qs|
    ensures MaxPoints(qs[..n + 1]) == MaxPoints(qs[..n]) + LastPoints(qs[n])
  {
    assert qs[..n + 1][..n] == qs[..n];
  }

  /** A run of questions whose last option is worth 4 adds 4 points per question. */
  lemma {:induction false} FoursRun(qs: seq<Item>, m: nat, n: nat)
    requires m <= n <= |qs|
    requires forall i :: m <= i < n ==> LastPoints(qs[i]) == 4
    ensures MaxPoints(qs[..n]) == MaxPoints(qs[..m]) + 4 * (n - m)
    decreases n - m
  {
    if m < n {
      FoursRun(qs, m, n - 1);
      PrefixStep(qs, n - 1);
    }
  }

  lemma LastPointsTable()
    ensures |Questions| == 25
    ensures forall i :: 0 <= i < |Questions| ==>
      LastPoints(Questions[i]) == (if i == 3 || i == 23 then 3 else if i == 15 then 2 else 4)
  {
    QuestionShapes();
    ShorterQuestions();
    forall i | 0 <= i < |Questions|
      ensures LastPoints(Questions[i]) == (if i == 3 || i == 23 then 3 else if i == 15 then 2 else 4)
    {
      ShapeFacts(Questions[i]);
    }
  }

  /** Every question answered with its last option gives 96 points. */
  lemma MaxPointsIs96()
    ensures MaxPoints(Questions) == 96
  {
    var q := Questions;
    LastPointsTable();
    assert q[..0] == [];
    FoursRun(q, 0, 3);
    PrefixStep(q, 3);
    FoursRun(q, 4, 15);
    PrefixStep(q, 15);
    FoursRun(q, 16, 23);
    PrefixStep(q, 23);
    FoursRun(q, 24, 25);
    assert q[..25] == q;
  }

  /** `questions.find(q => q.id === id)`: the first question with that id. */
  function FindQuestion(qs: seq<Item>, id: int): (r: Option<nat>)
    ensures r.Some? ==> r.value < |qs| && qs[r.value].id == id
    ensures r.Some? ==> forall j :: 0 <= j < r.value ==> qs[j].id != id
    ensures r.None? ==> forall j :: 0 <= j < |qs| ==> qs[j].id != id
  {
    if qs == [] then None
    else if qs[0].id == id then Some(0)
    else match FindQuestion(qs[1..], id)
      case None => None
      case Some(i) => Some(i + 1)
  }

  /** The question a key names: `parseInt` of the key, then `find`. */
  function Lookup(qs: seq<Item>, key: string): Option<nat>
  {
    match ParseInt(key)
    case None => None
    case Some(id) => FindQuestion(qs, id)
  }

  /** A key `String(n)` of some integer `n`: what the object keys of the answers always are. */
  predicate IsNumberKey(key: string)
  {
    ParseInt(key).Some? && NumberKey(ParseInt(key).value) == key
  }

  /** The stored option index of a key that names a question indexes its risk points. */
  predicate InRange(qs: seq<Item>, key: string, index: int)
  {
    Lookup(qs, key).Some? ==> 0 <= index < |qs[Lookup(qs, key).value].riskPoints|
  }

  predicate WellKeyed(qs: seq<Item>, answers: map<string, int>)
  {
    forall key :: key in answers ==> IsNumberKey(key) && InRange(qs, key, answers[key])
  }

  /** What one answer adds: the risk points of the chosen option, nothing when no question has the id. */
  function Contribution(qs: seq<Item>, key: string, index: int): int
    requires InRange(qs, key, index)
  {
    match Lookup(qs, key)
    case None => 0
    case Some(i) => qs[i].riskPoints[index]
  }

  /** The points of every answer, under its key. */
  ghost function Points(qs: seq<Item>, answers: map<string, int>): (p: map<string, int>)
    requires WellKeyed(qs, answers)
    ensures p.Keys == answers.Keys
  {
    map key | key in answers :: Contribution(qs, key, answers[key])
  }

  /** The total risk score: the points of all answers, added in any order. */
  ghost function Score(qs: seq<Item>, answers: map<string, int>): int
    requires WellKeyed(qs, answers)
  {
    MapSum(Points(qs, answers))
  }

  /** Taking one answer out removes exactly its points from the score. */
  lemma ScoreRemove(qs: seq<Item>, answers: map<string, int>, key: string)
    requires WellKeyed(qs, answers) && key in answers
    ensures WellKeyed(qs, answers - {key})
    ensures Score(qs, answers) == Contribution(qs, key, answers[key]) + Score(qs, answers - {key})
  {
    SumRemove(Points(qs, answers), key);
    assert Points(qs, answers) - {key} == Points(qs, answers - {key});
  }

  /** `calculateScore`: walks the keys of the answers in whatever order they come. */
  method CalculateScore(qs: seq<Item>, answers: map<string, int>) returns (totalScore: int)
    requires WellKeyed(qs, answers)
    ensures totalScore == Score(qs, answers)
  {
    totalScore := 0;
    var rest := answers;
    while rest != map[]
      invariant rest.Keys <= answers.Keys && WellKeyed(qs, rest)
      invariant forall key :: key in rest ==> rest[key] == answers[key]
      invariant totalScore + Score(qs, rest) == Score(qs, answers)
      decreases |rest|
    {
      var questionId :| questionId in rest;
      ScoreRemove(qs, rest, questionId);
      var qId := ParseInt(questionId);
      if qId.Some? {
        var answerIndex := answers[NumberKey(qId.value)];
        assert answerIndex == rest[questionId];
        var question := FindQuestion(qs, qId.value);
        if question.Some? {
          totalScore := totalScore + qs[question.value].riskPoints[answerIndex];
        }
      }
      rest := rest - {questionId};
    }
    assert rest == map[];
  }

  /** No answers score 0. */
  lemma ScoreEmpty(qs: seq<Item>)
    ensures WellKeyed(qs, map[]) && Score(qs, map[]) == 0
  {
    assert Points(qs, map[]) == map[];
  }

  /** Writing one answer changes the score by the difference between its new and its old points. */
  lemma ScorePut(qs: seq<Item>, answers: map<string, int>, key: string, index: int)
    requires WellKeyed(qs, answers) && IsNumberKey(key) && InRange(qs, key, index)
    ensures WellKeyed(qs, Put(answers, key, index))
    ensures Score(qs, Put(answers, key, index))
      == Score(qs, answers) - (if key in answers then Contribution(qs, key, answers[key]) else 0)
        + Contribution(qs, key, index)
  {
    var after := Put(answers, key, index);
    assert Points(qs, after) == Put(Points(qs, answers), key, Contribution(qs, key, index));
    PutSum(Points(qs, answers), key, Contribution(qs, key, index));
  }

  /** An answer under an id that no question has leaves the score as it was. */
  lemma ScoreIgnoresUnknown(qs: seq<Item>, answers: map<string, int>, key: string, index: int)
    requires WellKeyed(qs, answers) && IsNumberKey(key) && key !in answers
    requires Lookup(qs, key).None?
    ensures WellKeyed(qs, Put(answers, key, index))
    ensures Score(qs, Put(answers, key, index)) == Score(qs, answers)
  {
    ScorePut(qs, answers, key, index);
  }

  /** The key `String(q.id)` of each question, in table order. */
  function Keys(qs: seq<Item>): seq<string>
  {
    KeysOf(seq(|qs|, i requires 0 <= i < |qs| => qs[i].id))
  }

  /** Every answer is an option index of one of the questions of `qs`. */
  ghost predicate ValidAnswers(qs: seq<Item>, answers: map<string, int>)
  {
    forall key :: key in answers ==>
      exists i :: 0 <= i < |qs| && NumberKey(qs[i].id) == key && 0 <= answers[key] < |qs[i].riskPoints|
  }

  /** Every question of `qs` has an answer. */
  predicate Complete(qs: seq<Item>, answers: map<string, int>)
  {
    forall i :: 0 <= i < |qs| ==> NumberKey(qs[i].id) in answers
  }

  /** The points the answer to `q` picks, 0 while unanswered. */
  function Picked(q: Item, answers: map<string, int>): int
  {
    var key := NumberKey(q.id);
    if key in answers && 0 <= answers[key] < |q.riskPoints| then q.riskPoints[answers[key]] else 0
  }

  /** The points picked, question by question in table order. */
  function Chosen(qs: seq<Item>, answers: map<string, int>): int
  {
    if qs == [] then 0 else Chosen(qs[..|qs| - 1], answers) + Picked(qs[|qs| - 1], answers)
  }

  /** With distinct ids, the key of question `i` leads back to question `i`. */
  lemma LookupKey(qs: seq<Item>, i: nat)
    requires DistinctIds(qs) && i < |qs|
    ensures IsNumberKey(NumberKey(qs[i].id)) && Lookup(qs, NumberKey(qs[i].id)) == Some(i)
  {
    ParseNumberKey(qs[i].id);
  }

  lemma ValidWellKeyed(qs: seq<Item>, answers: map<string, int>)
    requires DistinctIds(qs) && ValidAnswers(qs, answers)
    ensures WellKeyed(qs, answers)
  {
    forall key | key in answers ensures IsNumberKey(key) && InRange(qs, key, answers[key]) {
      var i :| 0 <= i < |qs| && NumberKey(qs[i].id) == key && 0 <= answers[key] < |qs[i].riskPoints|;
      LookupKey(qs, i);
    }
  }

  lemma {:induction false} SumAtPoints(qs: seq<Item>, answers: map<string, int>, n: nat)
    requires DistinctIds(qs) && WellKeyed(qs, answers) && n <= |qs|
    ensures SumAt(Points(qs, answers), Keys(qs)[..n]) == Chosen(qs[..n], answers)
    decreases n
  {
    if n > 0 {
      var ks := Keys(qs)[..n];
      assert ks[..n - 1] == Keys(qs)[..n - 1];
      assert qs[..n][..n - 1] == qs[..n - 1];
      LookupKey(qs, n - 1);
      SumAtPoints(qs, answers, n - 1);
    }
  }

  /** Scoring over the keys in any order gives the points picked question by question. */
  lemma ScoreByQuestion(qs: seq<Item>, answers: map<string, int>)
    requires DistinctIds(qs) && ValidAnswers(qs, answers)
    ensures WellKeyed(qs, answers) && Score(qs, answers) == Chosen(qs, answers)
  {
    ValidWellKeyed(qs, answers);
    var ks := Keys(qs);
    assert Distinct(ks) by {
      var ids := seq(|qs|, i requires 0 <= i < |qs| => qs[i].id);
      assert Distinct(ids);
    }
    assert forall key :: key in Points(qs, answers) ==> key in ks by {
      forall key | key in Points(qs, answers) ensures key in ks {
        var i :| 0 <= i < |qs| && NumberKey(qs[i].id) == key && 0 <= answers[key] < |qs[i].riskPoints|;
        assert ks[i] == key;
      }
    }
    SumOverCover(Points(qs, answers), ks);
    SumAtPoints(qs, answers, |qs|);
    assert ks[..|qs|] == ks && qs[..|qs|] == qs;
  }

  /** Risk points never fall from one option to the next, so none exceeds the last. */
  lemma {:induction false} PointsBelowLast(q: Item, j: nat)
    requires WellFormedItem(q) && j < |q.riskPoints|
    ensures 0 <= q.riskPoints[j] <= LastPoints(q)
    decreases |q.riskPoints| - j
  {
    if j < |q.riskPoints| - 1 {
      PointsBelowLast(q, j + 1);
    }
  }

  lemma {:induction false} ChosenBounded(qs: seq<Item>, answers: map<string, int>)
    requires forall i :: 0 <= i < |qs| ==> WellFormedItem(qs[i])
    ensures 0 <= Chosen(qs, answers) <= MaxPoints(qs)
    decreases |qs|
  {
    if qs != [] {
      var q := qs[|qs| - 1];
      var key := NumberKey(q.id);
      if key in answers && 0 <= answers[key] < |q.riskPoints| {
        PointsBelowLast(q, answers[key]);
      } else {
        PointsBelowLast(q, 0);
      }
      ChosenBounded(qs[..|qs| - 1], answers);
    }
  }

  /** The questions are numbered 1, 2, 3, ... in table order. */
  predicate NumberedFromOne(qs: seq<Item>)
  {
    forall i :: 0 <= i < |qs| ==> qs[i].id == i + 1
  }

  lemma NumberedDistinct(qs: seq<Item>)
    requires NumberedFromOne(qs)
    ensures DistinctIds(qs)
  {
  }

  /** Numbered questions with well-formed risk points: what the scorer relies on. */
  predicate WellFormedTable(qs: seq<Item>)
  {
    NumberedFromOne(qs) && forall i :: 0 <= i < |qs| ==> WellFormedItem(qs[i])
  }

  lemma QuestionsTable()
    ensures WellFormedTable(Questions) && |Questions| == 25 && MaxPoints(Questions) == 96
  {
    QuestionsWellFormed();
    MaxPointsIs96();
  }

  /** Answers picked from the options score between 0 and the highest total. */
  lemma ScoreBounds(qs: seq<Item>, answers: map<string, int>)
    requires WellFormedTable(qs) && ValidAnswers(qs, answers)
    ensures WellKeyed(qs, answers)
    ensures 0 <= Score(qs, answers) <= MaxPoints(qs)
  {
    NumberedDistinct(qs);
    ScoreByQuestion(qs, answers);
    ChosenBounded(qs, answers);
  }

  /** For the 25 questions that is between 0 and 96 points. */
  lemma QuestionsScoreBounds(answers: map<string, int>)
    requires ValidAnswers(Questions, answers)
    ensures WellKeyed(Questions, answers)
    ensures 0 <= Score(Questions, answers) <= 96
  {
    QuestionsTable();
    ScoreBounds(Questions, answers);
  }

  /** `getRiskLevel`: up to 39 points is low, up to 50 medium, anything above high. */
  function RiskLevelOf(score: int): (r: RiskLevel)
    ensures r == Bajo <==> score <= 39
    ensures r == Medio <==> 39 < score <= 50
    ensures r == Alto <==> 50 < score
  {
    if score <= 39 then Bajo
    else if score <= 50 then Medio
    else Alto
  }

  /** A higher score never gives a lower risk level. */
  lemma RiskLevelMonotone(a: int, b: int)
    requires a <= b
    ensures Rank(RiskLevelOf(a)) <= Rank(RiskLevelOf(b))
  {
  }

  /** The pieces of advice `getRecommendations` hands out. */
  datatype Advice =
    | KeepStimulating | TalkToPediatrician
    | DetailedEvaluation | NeurodevelopmentConsult | DocumentBehaviours
    | ImmediateEvaluation | AsdSpecialist | EarlyIntervention | DevelopmentRecord | ParentSupport

  function AdviceText(a: Advice): string
  {
    match a
    case KeepStimulating => "Continúe estimulando el desarrollo de su hijo/a con actividades apropiadas para su edad"
    case TalkToPediatrician => "Mantenga comunicación regular con el pediatra sobre el desarrollo"
    case DetailedEvaluation => "Se recomienda una evaluación más detallada con un especialista en desarrollo infantil"
    case NeurodevelopmentConsult => "Considere una consulta con un pediatra especializado en neurodesarrollo"
    case DocumentBehaviours => "Documente comportamientos específicos para compartir con profesionales"
    case ImmediateEvaluation => "Se recomienda encarecidamente una evaluación profesional inmediata"
    case AsdSpecialist => "Consulte con un especialista en TEA (Trastorno del Espectro Autista)"
    case EarlyIntervention => "Contacte servicios de intervención temprana en su área"
    case DevelopmentRecord => "Mantenga un registro detallado de comportamientos y desarrollo"
    case ParentSupport => "Busque apoyo de grupos de padres y recursos especializados"
  }

  const BaseAdvice: seq<Advice> := [KeepStimulating, TalkToPediatrician]
  const MediumAdvice: seq<Advice> := [DetailedEvaluation, NeurodevelopmentConsult, DocumentBehaviours]
  const HighAdvice: seq<Advice> :=
    [ImmediateEvaluation, AsdSpecialist, EarlyIntervention, DevelopmentRecord, ParentSupport]

  predicate NoRepeats(s: seq<Advice>)
  {
    forall i, j :: 0 <= i < j < |s| ==> s[i] != s[j]
  }

  /** `getRecommendations`: a fixed list per risk level; the score argument is not read. */
  function Recommendations(score: int, level: RiskLevel): seq<Advice>
  {
    match level
    case Medio => BaseAdvice + MediumAdvice
    case Alto => HighAdvice
    case Bajo => BaseAdvice
  }

  /**
   * The two general pieces of advice, followed by three more at medium risk;
   * at high risk five others that replace them.  No list repeats itself.
   */
  lemma RecommendationsByLevel(score: int, level: RiskLevel)
    ensures var r := Recommendations(score, level);
      && (level == Bajo ==> r == BaseAdvice)
      && (level == Medio ==> |r| == 5 && r[..2] == BaseAdvice && r[2..] == MediumAdvice)
      && (level == Alto ==> |r| == 5 && forall i :: 0 <= i < |r| ==> r[i] !in BaseAdvice)
      && NoRepeats(r)
  {
  }

  /** Only the level decides the recommendations. */
  lemma RecommendationsIgnoreScore(a: int, b: int, level: RiskLevel)
    ensures Recommendations(a, level) == Recommendations(b, level)
  {
  }

  /** Every question answered with its first option, or every one with its last. */
  ghost function AnswerAll(qs: seq<Item>, last: bool): map<string, int>
  {
    if qs == [] then map[]
    else
      var q := qs[|qs| - 1];
      AnswerAll(qs[..|qs| - 1], last)[NumberKey(q.id) := if last then |q.riskPoints| - 1 else 0]
  }

  /** Maps that agree on the keys of `qs` pick the same points. */
  lemma {:induction false} ChosenAgree(qs: seq<Item>, a: map<string, int>, b: map<string, int>)
    requires forall i :: 0 <= i < |qs| ==> Picked(qs[i], a) == Picked(qs[i], b)
    ensures Chosen(qs, a) == Chosen(qs, b)
    decreases |qs|
  {
    if qs != [] {
      ChosenAgree(qs[..|qs| - 1], a, b);
    }
  }

  /** Answers valid for some of the questions stay valid for all of them. */
  lemma ValidGrow(qs: seq<Item>, n: nat, answers: map<string, int>)
    requires n <= |qs| && ValidAnswers(qs[..n], answers)
    ensures ValidAnswers(qs, answers)
  {
    forall key | key in answers
      ensures exists i :: 0 <= i < |qs| && NumberKey(qs[i].id) == key && 0 <= answers[key] < |qs[i].riskPoints|
    {
      var i :| 0 <= i < n && NumberKey(qs[..n][i].id) == key && 0 <= answers[key] < |qs[..n][i].riskPoints|;
      assert qs[..n][i] == qs[i];
    }
  }

  /** Writing an option index of question `i` keeps the answers valid. */
  lemma ValidPut(qs: seq<Item>, answers: map<string, int>, i: nat, index: int)
    requires ValidAnswers(qs, answers) && i < |qs| && 0 <= index < |qs[i].riskPoints|
    ensures ValidAnswers(qs, Put(answers, NumberKey(qs[i].id), index))
  {
    var after := Put(answers, NumberKey(qs[i].id), index);
    forall key | key in after
      ensures exists j :: 0 <= j < |qs| && NumberKey(qs[j].id) == key && 0 <= after[key] < |qs[j].riskPoints|
    {
      if key != NumberKey(qs[i].id) {
        var j :| 0 <= j < |qs| && NumberKey(qs[j].id) == key && 0 <= answers[key] < |qs[j].riskPoints|;
      }
    }
  }

  /** Answering every question gives valid answers to all of them. */
  lemma {:induction false} AnswerAllValid(qs: seq<Item>, last: bool)
    requires forall i :: 0 <= i < |qs| ==> |qs[i].riskPoints| > 0
    ensures ValidAnswers(qs, AnswerAll(qs, last))
    decreases |qs|
  {
    if qs != [] {
      var n := |qs| - 1;
      var front, q := qs[..n], qs[n];
      var v := if last then |q.riskPoints| - 1 else 0;
      var m := AnswerAll(front, last);
      assert forall i :: 0 <= i < n ==> front[i] == qs[i];
      AnswerAllValid(front, last);
      ValidGrow(qs, n, m);
      ValidPut(qs, m, n, v);
    }
  }

  lemma {:induction false} AnswerAllComplete(qs: seq<Item>, last: bool)
    ensures Complete(qs, AnswerAll(qs, last))
    decreases |qs|
  {
    if qs != [] {
      var n := |qs| - 1;
      var front := qs[..n];
      var m, all := AnswerAll(front, last), AnswerAll(qs, last);
      AnswerAllComplete(front, last);
      assert m.Keys <= all.Keys && NumberKey(qs[n].id) in all;
      forall i | 0 <= i < n ensures NumberKey(qs[i].id) in all {
        assert qs[i] == front[i];
        assert NumberKey(front[i].id) in m;
      }
    }
  }

  /** Answering every question with its first option picks 0 points, with its last one the maximum. */
  lemma {:induction false} AnswerAllChosen(qs: seq<Item>, last: bool)
    requires DistinctIds(qs)
    requires forall i :: 0 <= i < |qs| ==> WellFormedItem(qs[i])
    ensures Chosen(qs, AnswerAll(qs, last)) == if last then MaxPoints(qs) else 0
    decreases |qs|
  {
    if qs != [] {
      var front, q := qs[..|qs| - 1], qs[|qs| - 1];
      var m, all := AnswerAll(front, last), AnswerAll(qs, last);
      AnswerAllChosen(front, last);
      forall i | 0 <= i < |front| ensures Picked(front[i], all) == Picked(front[i], m) {
        assert front[i] == qs[i];
        if NumberKey(front[i].id) == NumberKey(q.id) {
          NumberKeyInjective(front[i].id, q.id);
          assert false;
        }
      }
      ChosenAgree(front, all, m);
    }
  }

  /** The lowest score is 0, from the first options, and the highest 96, from the last ones. */
  lemma ScoreExtremes()
    ensures ValidAnswers(Questions, AnswerAll(Questions, false)) && Complete(Questions, AnswerAll(Questions, false))
    ensures ValidAnswers(Questions, AnswerAll(Questions, true)) && Complete(Questions, AnswerAll(Questions, true))
    ensures WellKeyed(Questions, AnswerAll(Questions, false)) && WellKeyed(Questions, AnswerAll(Questions, true))
    ensures Score(Questions, AnswerAll(Questions, false)) == 0
    ensures Score(Questions, AnswerAll(Questions, true)) == 96
    ensures RiskLevelOf(0) == Bajo && RiskLevelOf(96) == Alto
  {
    QuestionsTable();
    AnswerAllValid(Questions, false);
    AnswerAllValid(Questions, true);
    AnswerAllComplete(Questions, false);
    AnswerAllComplete(Questions, true);
    AnswerAllChosen(Questions, false);
    AnswerAllChosen(Questions, true);
    ScoreByQuestion(Questions, AnswerAll(Questions, false));
    ScoreByQuestion(Questions, AnswerAll(Questions, true));
    MaxPointsIs96();
  }

  /** The result `completeAssessment` builds for a child and a finished set of answers. */
  ghost function Evaluate(qs: seq<Item>, childName: string, answers: map<string, int>): (r: Outcome)
    requires WellFormedTable(qs) && ValidAnswers(qs, answers)
    ensures r.childName == Trim(childName) && r.answers == answers
    ensures 0 <= r.totalScore <= MaxPoints(qs)
    ensures r.riskLevel == RiskLevelOf(r.totalScore)
    ensures r.recommendations == Recommendations(r.totalScore, r.riskLevel)
  {
    ScoreBounds(qs, answers);
    var totalScore := Score(qs, answers);
    var riskLevel := RiskLevelOf(totalScore);
    Outcome(Trim(childName), answers, totalScore, riskLevel, Recommendations(totalScore, riskLevel))
  }

  /**
   * The result object `completeAssessment` builds: the trimmed name, the
   * answers, their score, its risk level and the recommendations for it.
   */
  method BuildOutcome(qs: seq<Item>, childName: string, answers: map<string, int>) returns (outcome: Outcome)
    requires WellFormedTable(qs) && ValidAnswers(qs, answers)
    ensures outcome == Evaluate(qs, childName, answers)
  {
    ScoreBounds(qs, answers);
    var totalScore := CalculateScore(qs, answers);
    var riskLevel := RiskLevelOf(totalScore);
    var recommendations := Recommendations(totalScore, riskLevel);
    outcome := Outcome(Trim(childName), answers, totalScore, riskLevel, recommendations);
  }

  /**
   * The state of the assessment screen, as values: the question on screen is
   * one of the table, every answer is an option of its question and every
   * earlier question is answered.  Nothing is answered before the start, and a
   * completed assessment has every answer and their result.
   */
  ghost predicate Consistent(qs: seq<Item>, currentQuestion: nat, answers: map<string, int>, childName: string,
                             isStarted: bool, isCompleted: bool, result: Option<Outcome>)
  {
    && WellFormedTable(qs)
    && currentQuestion < |qs|
    && ValidAnswers(qs, answers)
    && (forall i :: 0 <= i < currentQuestion ==> NumberKey(qs[i].id) in answers)
    && (!isStarted ==> answers == map[] && currentQuestion == 0 && !isCompleted)
    && (isCompleted <==> result.Some?)
    && (isCompleted ==> Complete(qs, answers) && result == Some(Evaluate(qs, childName, answers)))
  }

  /** Answering the question on screen keeps the state consistent, and answers every question up to it. */
  lemma AnswerConsistent(qs: seq<Item>, currentQuestion: nat, answers: map<string, int>, childName: string, index: nat)
    requires Consistent(qs, currentQuestion, answers, childName, true, false, None)
    requires index < |qs[currentQuestion].riskPoints|
    ensures var after := Put(answers, NumberKey(qs[currentQuestion].id), index);
      && Consistent(qs, currentQuestion, after, childName, true, false, None)
      && forall i :: 0 <= i <= currentQuestion ==> NumberKey(qs[i].id) in after
  {
    ValidPut(qs, answers, currentQuestion, index);
  }

  /** After answering, the next question may go on screen; after the last one every question is answered. */
  lemma AdvanceConsistent(qs: seq<Item>, currentQuestion: nat, answers: map<string, int>, childName: string)
    requires Consistent(qs, currentQuestion, answers, childName, true, false, None)
    requires forall i :: 0 <= i <= currentQuestion ==> NumberKey(qs[i].id) in answers
    ensures currentQuestion < |qs| - 1 ==> Consistent(qs, currentQuestion + 1, answers, childName, true, false, None)
    ensures currentQuestion == |qs| - 1 ==> Complete(qs, answers)
  {
  }

  /** Storing the result of a complete set of answers completes the assessment consistently. */
  lemma CompleteConsistent(qs: seq<Item>, currentQuestion: nat, answers: map<string, int>, childName: string)
    requires Consistent(qs, currentQuestion, answers, childName, true, false, None) && Complete(qs, answers)
    ensures Consistent(qs, currentQuestion, answers, childName, true, true, Some(Evaluate(qs, childName, answers)))
  {
  }

  /** The assessment screen: the child's data, the question on screen, the answers so far and the result. */
  class Assessment {
    /** The question table, always `Questions`. */
    const questions: seq<Item>
    var currentQuestion: nat
    var answers: map<string, int>
    var childName: string
    var childAge: string
    var isStarted: bool
    var isCompleted: bool
    var result: Option<Outcome>

    ghost predicate Valid()
      reads this
    {
      Consistent(questions, currentQuestion, answers, childName, isStarted, isCompleted, result)
    }

    constructor ()
      ensures Valid() && questions == Questions
      ensures currentQuestion == 0 && answers == map[] && childName == "" && childAge == ""
      ensures !isStarted && !isCompleted && result == None
    {
      questions := Questions;
      currentQuestion, answers, childName, childAge := 0, map[], "", "";
      isStarted, isCompleted, result := false, false, None;
      QuestionsTable();
    }

    /** Typing into the name field, shown before the start only. */
    method SetChildName(name: string)
      requires Valid() && !isStarted && !isCompleted
      modifies this
      ensures Valid() && childName == name
      ensures currentQuestion == old(currentQuestion) && answers == old(answers) && childAge == old(childAge)
      ensures isStarted == old(isStarted) && isCompleted == old(isCompleted) && result == old(result)
    {
      childName := name;
    }

    /** Typing into the age field, shown before the start only. */
    method SetChildAge(age: string)
      requires Valid() && !isStarted && !isCompleted
      modifies this
      ensures Valid() && childAge == age
      ensures currentQuestion == old(currentQuestion) && answers == old(answers) && childName == old(childName)
      ensures isStarted == old(isStarted) && isCompleted == old(isCompleted) && result == old(result)
    {
      childAge := age;
    }

    /** `handleStart`: starts at the first question once name and age hold more than white space. */
    method HandleStart()
      requires Valid() && !isStarted && !isCompleted
      modifies this
      ensures Valid()
      ensures isStarted <==> HasContent(childName) && HasContent(childAge)
      ensures currentQuestion == 0 && answers == old(answers)
      ensures childName == old(childName) && childAge == old(childAge)
      ensures isCompleted == old(isCompleted) && result == old(result)
    {
      TrimContent(childName);
      TrimContent(childAge);
      if Trim(childName) != [] && Trim(childAge) != [] {
        isStarted := true;
        currentQuestion := 0;
      }
    }

    /**
     * `handleAnswer(answerIndex)`, from the option buttons of the question on
     * screen: records the option and moves on, or after the last question
     * completes the assessment.  `saveSucceeded` stands for the outcome of
     * storing the result; only a stored result completes it.
     */
    method HandleAnswer(answerIndex: nat, saveSucceeded: bool)
      requires Valid() && isStarted && !isCompleted
      requires answerIndex < |questions[currentQuestion].options|
      modifies this
      ensures Valid()
      ensures answers == Put(old(answers), NumberKey(questions[old(currentQuestion)].id), answerIndex)
      ensures old(currentQuestion) < |questions| - 1 ==> currentQuestion == old(currentQuestion) + 1 && !isCompleted
      ensures old(currentQuestion) == |questions| - 1 ==> currentQuestion == old(currentQuestion)
      ensures old(currentQuestion) == |questions| - 1 ==> isCompleted == saveSucceeded
      ensures isCompleted ==> Complete(questions, answers) && result == Some(Evaluate(questions, childName, answers))
      ensures isStarted && childName == old(childName) && childAge == old(childAge)
    {
      AnswerConsistent(questions, currentQuestion, answers, childName, answerIndex);
      var newAnswers := Put(answers, NumberKey(questions[currentQuestion].id), answerIndex);
      AdvanceConsistent(questions, currentQuestion, newAnswers, childName);
      answers := newAnswers;
      if currentQuestion < |questions| - 1 {
        currentQuestion := currentQuestion + 1;
      } else {
        CompleteAssessment(newAnswers, saveSucceeded);
      }
    }

    /** `completeAssessment`: scores the answers and, once the result is stored, shows it. */
    method CompleteAssessment(finalAnswers: map<string, int>, saveSucceeded: bool)
      requires Valid() && isStarted && !isCompleted && Complete(questions, answers) && finalAnswers == answers
      modifies this
      ensures currentQuestion == old(currentQuestion) && answers == old(answers) && isStarted
      ensures childName == old(childName) && childAge == old(childAge)
      ensures isCompleted == saveSucceeded
      ensures saveSucceeded ==> result == Some(Evaluate(questions, childName, answers))
      ensures !saveSucceeded ==> result == None
      ensures Valid()
    {
      var outcome := BuildOutcome(questions, childName, finalAnswers);
      CompleteConsistent(questions, currentQuestion, answers, childName);
      if saveSucceeded {
        result, isCompleted := Some(outcome), true;
      }
    }

    /** `resetAssessment`: back to the empty form. */
    method ResetAssessment()
      requires Valid()
      modifies this
      ensures Valid()
      ensures currentQuestion == 0 && answers == map[] && childName == "" && childAge == ""
      ensures !isStarted && !isCompleted && result == None
    {
      currentQuestion := 0;
      answers := map[];
      childName, childAge := "", "";
      isStarted := false;
      isCompleted := false;
      result := None;
    }

    /** `goToPreviousQuestion`: one question back, never before the first. */
    method GoToPreviousQuestion()
      requires Valid() && isStarted && !isCompleted
      modifies this
      ensures Valid()
      ensures currentQuestion == if old(currentQuestion) > 0 then old(currentQuestion) - 1 else 0
      ensures answers == old(answers) && childName == old(childName) && childAge == old(childAge)
      ensures isStarted == old(isStarted) && isCompleted == old(isCompleted) && result == old(result)
    {
      if currentQuestion > 0 {
        currentQuestion := currentQuestion - 1;
      }
    }
  }
}
