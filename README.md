# Q-CHAT screening scorer and sidebar navigation

This project models the decision logic of a web application for families of
children on the autism spectrum:

- **The fixed 25-question Q-CHAT assessment** (`QChatAssessment.tsx`):
  - Each question offers options, and each option carries a number of risk points.
  - An answer is the index of the chosen option, stored under the question's id.
  - `calculateScore` adds up the points of the answers.
  - `getRiskLevel` places the total in `Bajo` (39 or less), `Medio` (up to 50) or `Alto`.
  - `getRecommendations` hands out a fixed list of advice per level.
  - The screen is a state machine driven by `handleStart`, `handleAnswer`, `completeAssessment`, `goToPreviousQuestion` and `resetAssessment`.
- **The age-group questionnaire** (`QChatQuiz.tsx` over the tables of `qchat-quiz.js`):
  - Three age groups each have their own question list, option values (0 or 1) and three score ranges.
  - An answer is the option value itself.
  - `calculateScore` returns three things:
    - the sum of all stored values;
    - a risk label read off the two `max` thresholds;
    - a breakdown by category.
  - A welcome → quiz → results screen machine drives it.
- **The navigation sidebar** (`Sidebar.tsx`):
  - `toggleSection` opens and closes sections;
  - an effect maps the URL path to the highlighted section;
  - `handleMenuClick` either toggles a section or activates a leaf.

The two questionnaires are kept apart:

- **Modules:**
  - `QChatAssessment` (`qchat_assessment.dfy`) for the fixed variant;
  - `QChatData` (`qchat_data.dfy`) for the age-group tables, with `QChatQuiz` (`qchat_quiz.dfy`) for its form;
  - `Sidebar` (`sidebar.dfy`) for the sidebar;
  - `AnswerMaps` (`answer_maps.dfy`), `Text` (`text.dfy`) and `Wrappers` (`wrappers.dfy`), which hold what the others share.
- **Answer maps** are JavaScript objects. Their keys are strings, so they are modelled as `map<string, int>` keyed by `NumberKey(id)`, the string `String(id)`.
- **`Object.keys` / `Object.values`** enumerate in an order the model leaves open:
  - the loops pick an arbitrary remaining key;
  - they are proved equal to the order-free sum `MapSum`.
- **The stateful parts** are classes whose methods change the fields the components keep in React state:
  - `QChatAssessment.Assessment`, `QChatQuiz.QuizForm` and `Sidebar.SidebarState`.
- **Each class is proved against value-level definitions:**
  - `Valid` / `Consistent`;
  - `Evaluate`;
  - `Toggled`;
  - `SectionFor`.

In both tables the option weights never decrease along the display order (`QChatData.TablesWellFormed`, `QChatAssessment.QuestionsWellFormed`).

## Model

| member | source | states |
|---|---|---|
| AnswerMaps.SumRemove | src/components/qchat/QChatQuiz.tsx:46 | the sum of an answer map is the same whichever key is taken first, so the enumeration order of `Object.values` cannot change a total |
| AnswerMaps.SumNonNegative | src/components/qchat/QChatAssessment.tsx:218-229 | a map of non-negative values has a non-negative sum |
| AnswerMaps.Put | src/components/qchat/QChatQuiz.tsx:28 | the object spread `{ ...prev, [k]: v }` has exactly the old keys plus `k`, holds `v` at `k` and every other entry unchanged |
| AnswerMaps.PutIdempotent | src/components/qchat/QChatQuiz.tsx:27-29 | storing the same answer twice is the same as storing it once |
| AnswerMaps.PutSum | src/components/qchat/QChatQuiz.tsx:27-29 | overwriting one entry changes the sum by the new value minus the old one (0 when the key was absent) |
| AnswerMaps.KeysOf | src/components/qchat/QChatQuiz.tsx:57 | the object key `String(id)` of each id, in order: each parses back to its id, and the keys are distinct exactly when the ids are |
| AnswerMaps.SumOverCover | src/components/qchat/QChatQuiz.tsx:55-58 | when every key of a map is among a list of distinct keys, its order-free sum equals the sum along that list |
| Text.TrimStart | src/components/qchat/QChatAssessment.tsx:266 | specified by `Text.TrimStartSpec` |
| Text.TrimEnd | src/components/qchat/QChatAssessment.tsx:266 | specified by `Text.TrimEndSpec` |
| Text.Trim | src/components/qchat/QChatAssessment.tsx:266 | specified by `Text.TrimSpec` |
| Text.NumberKey | src/components/qchat/QChatAssessment.tsx:273 | specified by `Text.DecimalValue`, `Text.ParseNumberKey` and `Text.NumberKeyInjective` |
| Text.ParseInt | src/components/qchat/QChatAssessment.tsx:221 | specified by `Text.ParseNumberKey` |
| Text.Includes | src/components/common/Sidebar.tsx:26-37 | specified by `Text.IncludesParts` and `Text.MissingChar` |
| Text.TrimStartSpec | src/components/qchat/QChatAssessment.tsx:266 | the leading part `trim` removes is whitespace, and what remains is a suffix that does not start with whitespace |
| Text.TrimEndSpec | src/components/qchat/QChatAssessment.tsx:266 | the trailing part `trim` removes is whitespace, and what remains is a prefix that does not end with whitespace |
| Text.TrimSpec | src/components/qchat/QChatAssessment.tsx:266 | `s.trim()` is a contiguous piece of `s` with only whitespace around it, neither starting nor ending with whitespace, and empty exactly when `s` holds nothing but whitespace |
| Text.DecimalValue | src/components/qchat/QChatAssessment.tsx:221 | the decimal string of a natural number is all digits and denotes that number |
| Text.ParseNumberKey | src/components/qchat/QChatAssessment.tsx:221 | `parseInt(String(n))` gives `n` back for every integer `n` written in plain decimal, negative ones included |
| Text.NumberKeyInjective | src/components/qchat/QChatAssessment.tsx:273 | different question ids give different object keys |
| Text.IncludesParts | src/components/common/Sidebar.tsx:26 | a path made of two pieces `includes` each of them |
| Text.MissingChar | src/components/common/Sidebar.tsx:26-40 | a path lacking a character of a piece does not `include` that piece |
| QChatData.Group | src/qchat-quiz.js:12-58 | specified by `QChatData.TablesWellFormed`, `QChatData.MaxScores` and `QChatQuiz.ClassifyBoundaries` |
| QChatData.Questions | src/qchat-quiz.js:60-1229 | specified by `QChatData.TablesWellFormed`, the `...Ids`, `...Patterns` and `...Categories` lemmas and `QChatData.MaxScores` |
| QChatData.MaxValue | src/qchat-quiz.js:209-212 | the largest option value of a question: no option is worth more, and it is one of the values |
| QChatData.PatternFacts | src/qchat-quiz.js:67-73 | each of the four option-value lists that occur has two to five values of 0 or 1, non-decreasing, and the stated largest value |
| QChatData.ToddlerIds | src/qchat-quiz.js:61-377 | the toddlers list has 25 questions whose ids are 1 to 25 in list order |
| QChatData.ChildrenIds | src/qchat-quiz.js:379-770 | the children list has 30 questions whose ids are 1 to 30 in list order |
| QChatData.SchoolageIds | src/qchat-quiz.js:772-1228 | the schoolage list has 35 questions whose ids are 1 to 35 in list order |
| QChatData.ToddlerPatterns | src/qchat-quiz.js:61-377 | every toddlers question uses one of the four value lists, and only question 12 has the all-zero one |
| QChatData.ToddlerCategories | src/qchat-quiz.js:1231-1238 | every toddlers question's category is one of the six keys of `categories` |
| QChatData.ChildrenCategories | src/qchat-quiz.js:1231-1238 | every children question's category is one of the six keys of `categories` |
| QChatData.SchoolageCategories | src/qchat-quiz.js:1231-1238 | every schoolage question's category is one of the six keys of `categories` |
| QChatData.TablesWellFormed | src/qchat-quiz.js:20-56 | for every age group: `totalQuestions` is the length of its list; its ids run 1..n; every question has 2 to 5 options worth 0 or 1, never decreasing in display order, and a category among the six keys; `lowRisk.min` is 0 and each next range starts one above the previous `max` |
| QChatData.MaxScoreAppend | src/qchat-quiz.js:61-377 | the highest total (the sum of each question's largest option value) of two lists of questions is the sum of theirs |
| QChatData.MaxScoreAllOnes | src/qchat-quiz.js:379-770 | questions whose largest value is 1 have their number as highest total |
| QChatData.MaxScores | src/qchat-quiz.js:205-213 | the highest totals (sums of each question's largest option value) are 24 for toddlers (question 12 scores 0 on both options), below its `highRisk.max` of 25; 30 for children and 35 for schoolage, equal to theirs |
| QChatQuiz.SumValues | src/components/qchat/QChatQuiz.tsx:46 | the `reduce` over `Object.values(answers)` returns the sum of all stored values, whatever the key order and whether or not a key is a question id |
| QChatQuiz.ClassifyRisk | src/components/qchat/QChatQuiz.tsx:47-52 | `Bajo` exactly when the total is at most `lowRisk.max`, `Moderado` exactly when it is above that and at most `moderateRisk.max`, `Alto` exactly when it is above both |
| QChatQuiz.RiskMonotone | src/components/qchat/QChatQuiz.tsx:50-52 | a higher total never gives a lower risk, for any thresholds |
| QChatQuiz.ClassifyIgnoresMins | src/components/qchat/QChatQuiz.tsx:47-52 | changing the `min` bounds never changes the risk |
| QChatQuiz.ClassifyBoundaries | src/qchat-quiz.js:22-26 | in every age group both ends of each declared range classify into that range |
| QChatQuiz.AnswerOr0 | src/components/qchat/QChatQuiz.tsx:57 | specified by `QChatQuiz.CategorySumSnoc`, `QChatQuiz.ContributionBounded` and `QChatQuiz.BreakdownMatchesTotal` |
| QChatQuiz.Ids | src/components/qchat/QChatQuiz.tsx:57 | specified by `AnswerMaps.KeysOf` |
| QChatQuiz.CategorySum | src/components/qchat/QChatQuiz.tsx:55-58 | specified by `QChatQuiz.CategorySumAbsent`, `QChatQuiz.CategorySumSnoc`, `QChatQuiz.CategorySumNoAnswers` and `QChatQuiz.SumCategoriesRegroup` |
| QChatQuiz.Breakdown | src/components/qchat/QChatQuiz.tsx:54-58 | specified by `QChatQuiz.IsBreakdownUnique`, `QChatQuiz.CategoryBreakdown`, `QChatQuiz.BreakdownNoAnswers` and `QChatQuiz.BreakdownMatchesTotal` |
| QChatQuiz.SequentialIdsDistinct | src/qchat-quiz.js:63 | ids 1..n give n distinct answer keys |
| QChatQuiz.CategorySumAbsent | src/components/qchat/QChatQuiz.tsx:55-58 | a category no question carries sums to 0 |
| QChatQuiz.CategoriesSnoc | src/components/qchat/QChatQuiz.tsx:56 | one more question adds exactly its own category to the set of categories seen |
| QChatQuiz.CategorySumSnoc | src/components/qchat/QChatQuiz.tsx:57 | one more question adds its answer (0 when unanswered) to its own category sum and to no other |
| QChatQuiz.IsBreakdownUnique | src/components/qchat/QChatQuiz.tsx:54-58 | a map with one entry per category among the questions, holding that category's sum, is the breakdown |
| QChatQuiz.BreakdownStep | src/components/qchat/QChatQuiz.tsx:55-58 | the loop body (create the entry at 0 if missing, then add `answers[String(q.id)] \|\| 0`) turns the breakdown of the first i questions into that of the first i+1 |
| QChatQuiz.TallyStep | src/components/qchat/QChatQuiz.tsx:56-57 | the two assignments as written, including the reset of an entry that is still 0, extend the breakdown by one question |
| QChatQuiz.CategoryBreakdown | src/components/qchat/QChatQuiz.tsx:54-58 | the `forEach` builds a map with a key for exactly the categories occurring among the questions, each holding the sum of its questions' answers, unanswered ones counting 0 |
| QChatQuiz.CategorySumNoAnswers | src/components/qchat/QChatQuiz.tsx:57 | with no answers every category sums to 0 |
| QChatQuiz.BreakdownNoAnswers | src/components/qchat/QChatQuiz.tsx:54-58 | with no answers the breakdown still lists every category of the group, each at 0 |
| QChatQuiz.SumCategoriesRegroup | src/components/qchat/QChatQuiz.tsx:55-58 | regrouping the answers by category along the category keys gives the sum of the answers question by question |
| QChatQuiz.BreakdownAlong | src/components/qchat/QChatQuiz.tsx:54-58 | reading the breakdown along a list of categories (0 where absent) gives those categories' sums |
| QChatQuiz.BreakdownMatchesTotal | src/components/qchat/QChatQuiz.tsx:46-58 | when every answer key is a question id of the group, the category sums add up exactly to the total |
| QChatQuiz.ContributionBounded | src/components/qchat/QChatQuiz.tsx:57 | an answer taken from its question's options contributes between 0 and that question's largest value |
| QChatQuiz.ReachableKeys | src/components/qchat/QChatQuiz.tsx:106 | answers given through the radio buttons are keyed by question ids of the group |
| QChatQuiz.ScoreBounded | src/components/qchat/QChatQuiz.tsx:46 | a total made of option values lies between 0 and the highest total, so no answers from the form exceed it |
| QChatQuiz.TopAnswersReachMax | src/components/qchat/QChatQuiz.tsx:99-106 | choosing an option of the largest value on every question gives answers the radio buttons can produce (keyed by the question ids), and their sum is the highest total, so the bound is attained |
| QChatQuiz.ReachableSnoc | src/components/qchat/QChatQuiz.tsx:106 | answering the last question with one of its option values, on top of reachable answers to the others, gives reachable answers |
| QChatQuiz.GroupMaxReached | src/components/qchat/QChatQuiz.tsx:46 | in every group answers from the form reach the highest total: 24 for toddlers, 30 for children, 35 for schoolage |
| QChatQuiz.GroupScoreBounded | src/components/qchat/QChatQuiz.tsx:46-47 | in every group a total of answers from the form lies between `lowRisk.min` and `highRisk.max` |
| QChatQuiz.Evaluate | src/components/qchat/QChatQuiz.tsx:45-62 | the result's risk is the classification of its score under the group's thresholds; its breakdown has a key for every category of the group; for answers given through the form the breakdown adds up to the score, and the score lies within the group's ranges |
| QChatQuiz.Score | src/components/qchat/QChatQuiz.tsx:45-60 | `calculateScore` returns total, risk and breakdown equal to `Evaluate` |
| QChatQuiz.QuizForm.CurrentQuestions | src/components/qchat/QChatQuiz.tsx:64 | `questions` is empty while no group is chosen; otherwise it is the chosen group's list, as long as the group's `totalQuestions` and numbered 1, 2, ... in display order |
| QChatQuiz.QuizForm.constructor | src/components/qchat/QChatQuiz.tsx:11-15 | the form starts on the welcome screen, with no group, no answers, the first question and no result |
| QChatQuiz.QuizForm.SelectAgeGroup | src/components/qchat/QChatQuiz.tsx:17-19 | choosing a group sets it and changes nothing else |
| QChatQuiz.QuizForm.StartQuiz | src/components/qchat/QChatQuiz.tsx:21-25 | the quiz screen shows only when a group has been chosen; otherwise nothing changes |
| QChatQuiz.QuizForm.HandleAnswer | src/components/qchat/QChatQuiz.tsx:27-29 | the answer map gains or overwrites exactly the entry `String(questionId)`, every other entry stays; screen, group, index and result are unchanged |
| QChatQuiz.QuizForm.NextQuestion | src/components/qchat/QChatQuiz.tsx:31-37 | below the last question the index goes up by one; on the last one the result of the answers so far, possibly partial, is computed and the results screen shows |
| QChatQuiz.QuizForm.PrevQuestion | src/components/qchat/QChatQuiz.tsx:39-43 | the index goes down by one only when above 0, so it stays within the question list; answers are untouched |
| QChatQuiz.QuizForm.CalculateScore | src/components/qchat/QChatQuiz.tsx:45-62 | the stored result is `Evaluate` of the group and answers, and the results screen shows |
| QChatQuiz.AnswerKeepsReachable | src/components/qchat/QChatQuiz.tsx:106 | storing one of the current question's option values keeps every answer an option value of its question |
| QChatAssessment.ShapeFacts | src/components/qchat/QChatAssessment.tsx:43-44 | each of the four option/risk-point shapes has one point value per option, starting at 0, within 0..4, never decreasing, with last value 4, 3 or 2 |
| QChatAssessment.QuestionShapes | src/components/qchat/QChatAssessment.tsx:39-190 | the table has 25 questions numbered 1 to 25 in order, each with one of the four shapes |
| QChatAssessment.ShorterQuestions | src/components/qchat/QChatAssessment.tsx:39-190 | exactly questions 4 and 24 use the points topping out at 3, and exactly question 16 (yes/no) the two-option points |
| QChatAssessment.QuestionsWellFormed | src/components/qchat/QChatAssessment.tsx:11 | every question's `riskPoints` has as many entries as `options`, each within 0..4, never decreasing by index; ids are distinct |
| QChatAssessment.PrefixStep | src/components/qchat/QChatAssessment.tsx:39-190 | the highest total of one more question adds its last option's points |
| QChatAssessment.FoursRun | src/components/qchat/QChatAssessment.tsx:39-190 | a run of questions topping out at 4 adds 4 points each to the highest total |
| QChatAssessment.LastPointsTable | src/components/qchat/QChatAssessment.tsx:133-134 | the last option is worth 3 for questions 4 and 24, 2 for question 16 and 4 for all others |
| QChatAssessment.MaxPointsIs96 | src/components/qchat/QChatAssessment.tsx:39-190 | answering every question with its last option gives 96 points |
| QChatAssessment.Lookup | src/components/qchat/QChatAssessment.tsx:221-223 | specified by `QChatAssessment.LookupKey` |
| QChatAssessment.Contribution | src/components/qchat/QChatAssessment.tsx:223-226 | specified by `QChatAssessment.ScoreRemove`, `QChatAssessment.ScorePut` and `QChatAssessment.PointsBelowLast` |
| QChatAssessment.Score | src/components/qchat/QChatAssessment.tsx:218-229 | specified by `QChatAssessment.CalculateScore`, `QChatAssessment.ScoreByQuestion` and `QChatAssessment.ScoreBounds` |
| QChatAssessment.FindQuestion | src/components/qchat/QChatAssessment.tsx:223 | `find` returns the first question with the id, or nothing when no question has it |
| QChatAssessment.Points | src/components/qchat/QChatAssessment.tsx:223-226 | one entry per answer, holding the points of the chosen option, 0 when no question has the id |
| QChatAssessment.ScoreRemove | src/components/qchat/QChatAssessment.tsx:220-227 | taking one answer out removes exactly its points from the score |
| QChatAssessment.CalculateScore | src/components/qchat/QChatAssessment.tsx:218-229 | the `forEach` over `Object.keys(answers)` returns the sum of `riskPoints[answers[id]]` over the answered ids that match a question, whatever the key order |
| QChatAssessment.ScoreEmpty | src/components/qchat/QChatAssessment.tsx:219 | an empty set of answers scores 0 |
| QChatAssessment.ScorePut | src/components/qchat/QChatAssessment.tsx:273 | overwriting one answer changes the score by the new option's points minus the old one's |
| QChatAssessment.ScoreIgnoresUnknown | src/components/qchat/QChatAssessment.tsx:224 | an answer under an id no question has leaves the score unchanged |
| QChatAssessment.Keys | src/components/qchat/QChatAssessment.tsx:273 | specified by `AnswerMaps.KeysOf` |
| QChatAssessment.LookupKey | src/components/qchat/QChatAssessment.tsx:221-223 | with distinct ids, parsing the key of question i and finding it leads back to question i |
| QChatAssessment.ValidWellKeyed | src/components/qchat/QChatAssessment.tsx:566 | answers given through the option buttons are keyed by number strings and index their question's risk points |
| QChatAssessment.SumAtPoints | src/components/qchat/QChatAssessment.tsx:218-229 | summing the points along the question keys picks each question's chosen points in table order |
| QChatAssessment.ScoreByQuestion | src/components/qchat/QChatAssessment.tsx:218-229 | the score over the keys in any order equals the chosen points added question by question |
| QChatAssessment.PointsBelowLast | src/components/qchat/QChatAssessment.tsx:11 | every option is worth between 0 and the last option's points |
| QChatAssessment.ChosenBounded | src/components/qchat/QChatAssessment.tsx:218-229 | the points picked lie between 0 and the highest total |
| QChatAssessment.NumberedDistinct | src/components/qchat/QChatAssessment.tsx:41 | questions numbered 1, 2, 3, … have distinct ids |
| QChatAssessment.QuestionsTable | src/components/qchat/QChatAssessment.tsx:39-190 | the table is numbered from one with well-formed risk points, has 25 questions and tops out at 96 |
| QChatAssessment.ScoreBounds | src/components/qchat/QChatAssessment.tsx:218-229 | answers picked from the options score between 0 and the highest total |
| QChatAssessment.QuestionsScoreBounds | src/components/qchat/QChatAssessment.tsx:218-229 | for the 25 questions that is between 0 and 96 |
| QChatAssessment.RiskLevelOf | src/components/qchat/QChatAssessment.tsx:231-235 | `Bajo` exactly for at most 39, `Medio` exactly for 40..50, `Alto` exactly above 50: total over all integers |
| QChatAssessment.RiskLevelMonotone | src/components/qchat/QChatAssessment.tsx:231-235 | a higher score never gives a lower risk level |
| QChatAssessment.Recommendations | src/components/qchat/QChatAssessment.tsx:237-263 | specified by `QChatAssessment.RecommendationsByLevel` and `QChatAssessment.RecommendationsIgnoreScore` |
| QChatAssessment.RecommendationsByLevel | src/components/qchat/QChatAssessment.tsx:237-263 | `Bajo` gets the 2 base pieces of advice; `Medio` the base ones followed by 3 more; `Alto` 5 others, none of them a base one; no list repeats an entry |
| QChatAssessment.RecommendationsIgnoreScore | src/components/qchat/QChatAssessment.tsx:237 | the score argument never changes the recommendations |
| QChatAssessment.ChosenAgree | src/components/qchat/QChatAssessment.tsx:218-229 | answer maps agreeing on every question pick the same points |
| QChatAssessment.ValidGrow | src/components/qchat/QChatAssessment.tsx:273 | answers valid for the first questions are valid for the whole table |
| QChatAssessment.ValidPut | src/components/qchat/QChatAssessment.tsx:273 | storing an option index of a question keeps all answers valid |
| QChatAssessment.AnswerAllValid | src/components/qchat/QChatAssessment.tsx:566 | answering every question with its first, or with its last, option gives valid answers |
| QChatAssessment.AnswerAllComplete | src/components/qchat/QChatAssessment.tsx:272-281 | such a set of answers answers every question |
| QChatAssessment.AnswerAllChosen | src/components/qchat/QChatAssessment.tsx:218-229 | first options everywhere pick 0 points, last options everywhere the highest total |
| QChatAssessment.ScoreExtremes | src/components/qchat/QChatAssessment.tsx:231-235 | the lowest score, 0, is `Bajo`, and the highest, 96 from the last options, is `Alto` |
| QChatAssessment.Evaluate | src/components/qchat/QChatAssessment.tsx:286-299 | the result holds the trimmed name, the answers, a score between 0 and the highest total, its risk level and that level's recommendations |
| QChatAssessment.BuildOutcome | src/components/qchat/QChatAssessment.tsx:286-299 | the result object built from `calculateScore`, `getRiskLevel` and `getRecommendations` equals `Evaluate` |
| QChatAssessment.AnswerConsistent | src/components/qchat/QChatAssessment.tsx:273 | storing an option of the question on screen keeps the assessment consistent and leaves every question up to it answered |
| QChatAssessment.AdvanceConsistent | src/components/qchat/QChatAssessment.tsx:276-280 | after an answer the next question may go on screen, and after the last one every question is answered |
| QChatAssessment.CompleteConsistent | src/components/qchat/QChatAssessment.tsx:307-309 | storing the evaluation of a complete set of answers completes the assessment consistently |
| QChatAssessment.Assessment.constructor | src/components/qchat/QChatAssessment.tsx:28-33 | the assessment starts at question 0 with no answers, empty name and age, not started, not completed and without a result |
| QChatAssessment.Assessment.SetChildName | src/components/qchat/QChatAssessment.tsx:457 | typing the name changes only the name |
| QChatAssessment.Assessment.SetChildAge | src/components/qchat/QChatAssessment.tsx:472 | typing the age changes only the age |
| QChatAssessment.Assessment.HandleStart | src/components/qchat/QChatAssessment.tsx:265-270 | the assessment starts, at question 0, exactly when the trimmed name and the trimmed age are both non-empty; nothing else changes |
| QChatAssessment.Assessment.HandleAnswer | src/components/qchat/QChatAssessment.tsx:272-281 | the answers gain exactly the entry of the question on screen; below the last question the index goes up by one, on the last it stays, so it never leaves 0..24; on the last the assessment completes exactly when the result is stored, with the result of the complete answers |
| QChatAssessment.Assessment.CompleteAssessment | src/components/qchat/QChatAssessment.tsx:283-315 | scores the final answers; a stored result completes the assessment with `Evaluate`, a failed save leaves it uncompleted without result; answers, index, name and age are unchanged |
| QChatAssessment.Assessment.ResetAssessment | src/components/qchat/QChatAssessment.tsx:317-325 | every field goes back to its initial value |
| QChatAssessment.Assessment.GoToPreviousQuestion | src/components/qchat/QChatAssessment.tsx:327-331 | the index goes down by one only when above 0; the answers and everything else stay |
| Sidebar.RemoveAll | src/components/common/Sidebar.tsx:46 | `filter(s => s !== section)` keeps exactly the other ids |
| Sidebar.RemoveAllCount | src/components/common/Sidebar.tsx:46 | the filter drops every copy of the id and keeps every copy of each other id |
| Sidebar.RemoveAllAbsent | src/components/common/Sidebar.tsx:46 | filtering out an absent id changes nothing |
| Sidebar.RemoveAllAppend | src/components/common/Sidebar.tsx:46 | the filter keeps the order: filtering a concatenation filters each part |
| Sidebar.Toggled | src/components/common/Sidebar.tsx:43-49 | after the toggle the id is in the list exactly when it was not before, and membership of every other id is unchanged |
| Sidebar.ToggleAbsent | src/components/common/Sidebar.tsx:47 | toggling an absent id appends it at the end |
| Sidebar.TogglePresent | src/components/common/Sidebar.tsx:46 | toggling a present id removes every copy of it and keeps the others in order |
| Sidebar.ToggleTwiceAbsent | src/components/common/Sidebar.tsx:43-49 | toggling an absent id twice gives the original list |
| Sidebar.ToggleTwicePresent | src/components/common/Sidebar.tsx:43-49 | toggling a present id twice moves one copy of it to the end |
| Sidebar.SectionFor | src/components/common/Sidebar.tsx:24-40 | specified by `Sidebar.SectionPriority` and `Sidebar.SectionIsMenuId` |
| Sidebar.SectionPriority | src/components/common/Sidebar.tsx:24-41 | '/juegos' wins over the other tests and inside it '/social' over '/comunicacion' over 'juegos'; then '/progreso'; then '/recursos' with '/guias' over 'recursos'; 'configuracion' exactly when only '/configuracion' matches; 'dashboard' exactly when none matches |
| Sidebar.SectionIsMenuId | src/components/common/Sidebar.tsx:51-101 | whatever the path, the active section is the id of a menu entry |
| Sidebar.SidebarState.constructor | src/components/common/Sidebar.tsx:20-21 | the `useState` values: the active section starts as 'dashboard' and the expanded list as ['juegos']; the effect's run on mount follows as `OnPathChange` |
| Sidebar.SidebarState.OnPathChange | src/components/common/Sidebar.tsx:24-41 | the successive `setActiveSection` calls leave the section `SectionFor(path)` active; the expanded list is untouched |
| Sidebar.SidebarState.ToggleSection | src/components/common/Sidebar.tsx:43-49 | the expanded list becomes `Toggled` of the old one; the active section stays |
| Sidebar.SidebarState.HandleMenuClick | src/components/common/Sidebar.tsx:268-277 | an item with children only toggles its expansion, leaving the active section and not navigating; a leaf becomes active, navigates to its path exactly when it has a non-empty one and leaves the expanded list |
| Sidebar.CognitivoHighlightsJuegos | src/components/common/Sidebar.tsx:26-30 | after clicking 'cognitivo', the path change to '/juegos/cognitivo' reruns the effect, which hands the highlight back to 'juegos' |
| Sidebar.SocialKeepsHighlight | src/components/common/Sidebar.tsx:29 | '/juegos/social' highlights 'social' |
| Sidebar.ComunicacionKeepsHighlight | src/components/common/Sidebar.tsx:28 | '/juegos/comunicacion' highlights 'comunicacion' |
| Sidebar.GuiasKeepsHighlight | src/components/common/Sidebar.tsx:33-35 | '/recursos/guias' highlights 'guias' |
| Sidebar.EstadisticasHighlightsProgreso | src/components/common/Sidebar.tsx:31-32 | '/progreso/estadisticas' highlights 'progreso', not the child |
| Sidebar.DashboardPath | src/components/common/Sidebar.tsx:38-39 | '/dashboard' matches no test and highlights 'dashboard' |

## Left out

- **Firestore persistence** (`addDoc`, `onSnapshot`) and the history list it fills (`previousResults`, `showHistory`): network I/O. The outcome of the save is the `saveSucceeded` parameter of `QChatAssessment.Assessment.HandleAnswer` and `CompleteAssessment`.
- **Fields of the stored result that do not affect scoring:**
  - `user.uid`, `completedDate` (the clock), `parseInt(childInfo.age)` and the document id (`result.id`);
  - `QChatAssessment.Outcome` keeps name, answers, score, level and recommendations.
- **The `loading` flag:** while the result is saved, a full-screen "Guardando resultado..." overlay shows. It is display only and does not change what is stored or scored.
- **Progress-bar percentages:** floating-point division and `Math.round`.
- **Rendering, styles, titles, icons and wording:**
  - question texts, option and category names are not modelled;
  - options of the fixed assessment are labels (`Label`) and advice is a datatype (`Advice`), with their texts in `LabelText` and `AdviceText`.
- **Enumeration order of `Object.keys`, `Object.values` and `Object.entries`:** left open. Every result is proved independent of it; the order in which the breakdown shows on the results screen is not modelled.
- **Option indices outside an option list:** these would give `NaN` in JavaScript. In-range indices are a precondition of `QChatAssessment.Assessment.HandleAnswer` and `QChatAssessment.CalculateScore`, which is what the option buttons guarantee.
- **Text.NumberKey** writes every integer in plain decimal. JavaScript's `String(n)` switches to exponent form from 10^21 on, and numbers beyond 2^53 are not exact. `Text.ParseNumberKey` is therefore stated only for what the model writes. Question ids are 1 to 35, far inside both limits.
- **`Text.ParseInt`** covers `parseInt` only on the strings `String` produces for integers. Other strings give `None`, standing for `NaN`; prefixes such as `"12abc"` are not modelled, since object keys of the answers are always such number strings.
- **`QChatQuiz.QuizForm.HandleAnswer`** is modelled as the radio buttons call it: with the id and one option value of the question on screen. Arbitrary calls are not.
- **`QChatQuiz.QuizForm.NextQuestion` and `CalculateScore`** are modelled with a group chosen, as on the quiz screen. Reading the thresholds of no group would throw in JavaScript.
- **The group buttons:** `QChatQuiz.QuizForm.SelectAgeGroup` requires the welcome screen, the only screen where they show.
- **`window.print()` and `window.location.reload()`** on the results screen: browser actions.
- **The window-width hook of the sidebar, logout and the router:** `navigate` becomes the path `HandleMenuClick` returns. The effect runs once on mount and again whenever the path changes; each run is `OnPathChange`. The starting state of the component is therefore the constructor followed by `OnPathChange` of the initial path, so the `'dashboard'` of `useState` lasts only until that first run. A click that leaves the path as it was does not rerun the effect.
- **The two variants' risk labels differ** ('Medio' against 'Moderado'). Each variant has its own `RiskLevel`/`Risk` datatype rather than one shared label.
- **The text of `getRecommendations`** is reduced to ten `Advice` values, each standing for one fixed string (`AdviceText`). The model compares advice values, not their strings.
