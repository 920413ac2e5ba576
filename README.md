# QuizMaster quiz controller in Dafny

This project models the quiz controller of QuizMaster, a browser quiz. It runs one attempt at a fixed bank of questions. Questions are multiple choice or integer-answer, and each has a 30-second countdown. The attempt moves from not started, through in progress, to completed.

While the attempt is in progress, each question is in one of these states:

- open;
- answered (the countdown keeps running);
- timed out;
- skipped.

The user can answer, skip, go to the next or previous question and submit, and the countdown ticks once a second. Submitting computes the score: the number of recorded answers equal to their question's correct value. It also produces one result record for the result store.

Modules:

- `QuizTypes` (`types.dfy`): the question union and the result record of `src/utils/Types.tsx`; the bank's id set.
- `IntegerDraft` (`draft.dfy`): the integer field's input filter (an optional `-` and one or more ASCII digits, or empty), `parseInt` on an accepted draft, and the decimal text of a number.
- `Scoring` (`scoring.dfy`): `questions.find`, the `calculateScore` loop over the recorded answers, its specification `Score`, and a per-question reference count `CountCorrect`.
- `Guards` (`guards.dfy`): the `every`/`some` tests and the enable conditions of the Skip, Next and Submit buttons; the answered/skipped/timed-out counts; the last-question skip test as written and as intended.
- `QuizController` (`quiz.dfy`): class `Quiz`, with the controller's state fields under their source names. It has one method per handler, plus `Tick` for one second of the interval and `EnterQuestion` for the effect that runs when the question changes. `Valid()` is the invariant every method keeps. `State()` is a snapshot of all fields, so each method states its whole new state as `old(State())` with named fields replaced.
- `Scenarios` (`scenarios.dfy`): whole attempts on a three-question bank.

The invariant `Valid()` states:

- the displayed countdown is between 1 and 30;
- every saved countdown is between 0 and 30;
- a saved countdown is 0 exactly when its question has timed out;
- while the countdown runs, the displayed value is the current question's saved value;
- skipped questions have no answer and have not timed out;
- every question before the current one has been answered, has timed out or was skipped;
- once completed, the score is `Score` of the answers and every question has been dealt with.

Skipping cannot happen twice for one question. Skip requires the current question to be open, and after a skip that question's id is in `skippedQuestions`, so a second Skip on it is never enabled.

Two facts about the code shape the model:

- An answered question keeps counting down (`src/Quiz.tsx:38` stops the countdown only for a timed-out or skipped question), so `answers` and `timedOutQuestions` may overlap. An answer to a question that later timed out still counts.
- Both kinds of question are scored by numeric equality with their correct value (`src/Quiz.tsx:163-171`).

## Model

| member | source | states |
|---|---|---|
| QuizTypes.IdsCount | src/utils/Types.tsx:36-40 | a bank whose ids are distinct has exactly as many ids as questions |
| IntegerDraft.IntText | src/Quiz.tsx:239 | the text a locked integer field shows for a committed number matches the input pattern and starts with `-` exactly when the number is negative |
| IntegerDraft.DraftAcceptedChars | src/Quiz.tsx:97 | a draft is kept exactly when it is empty, or is not a lone `-` and every character is a digit except that the first may be `-` |
| IntegerDraft.ParseInt | src/Quiz.tsx:107 | a draft without a leading `-` parses to a number of at least 0, and a negative number only comes from a draft with one |
| IntegerDraft.ParseIntText | src/Quiz.tsx:107 | a draft with no superfluous leading zero, other than `-0`, is exactly the text of the number it parses to |
| IntegerDraft.IntTextRoundTrip | src/Quiz.tsx:94-109 | every number's text is a draft the filter accepts, and `parseInt` of it gives back the number |
| Scoring.FindQuestion | src/Quiz.tsx:160 | returns nothing exactly when no question has the id; otherwise returns the first question with that id |
| Scoring.CalculateScore | src/Quiz.tsx:157-175 | the loop over the recorded answers returns `Score`: how many answers belong to a bank question and equal its correct value |
| Scoring.CountCorrect | src/Quiz.tsx:157-175 | the per-question count of correct answers never exceeds the number of questions |
| Scoring.ScoreCountsQuestions | src/Quiz.tsx:157-175 | with distinct ids, the score equals the number of questions whose recorded answer equals their correct value, so unanswered questions add nothing |
| Scoring.ScoreAtMostAnswered | src/Quiz.tsx:157-175 | the score is at most the number of answered ids |
| Scoring.ScoreAtMostQuestions | src/Quiz.tsx:157-175 | the score is at most the number of questions |
| Scoring.ScoreAfterAnswer | src/Quiz.tsx:157-175 | recording v under an id gives the score without that id, plus one exactly when v is correct for that id |
| Scoring.UnknownIdScoresNothing | src/Quiz.tsx:160-162 | an answer under an id no question has never earns a point |
| Scoring.ScoreIgnoresBounds | src/Quiz.tsx:163-171 | two banks that agree position by position on ids and correct values score every answer set alike, even where the kinds of their questions differ: question kind, texts, options and min/max bounds play no part |
| Guards.AllHandled | src/Quiz.tsx:145-149 | `every`: true exactly when every question is answered, timed out or skipped |
| Guards.AnyUnhandled | src/Quiz.tsx:506-510 | `some`: true exactly when some question has no answer, has not timed out and was not skipped |
| Guards.SubmitEnabled | src/Quiz.tsx:506-510 | Submit is enabled exactly when every question is dealt with |
| Guards.SkipOrNext | src/Quiz.tsx:487-529 | the Skip condition (lines 487-491) and the Next condition (lines 525-529) are complementary for every id: on every question but the last, where Submit Quiz replaces Next, exactly one of the two buttons is enabled |
| Guards.HandledCountsCoverBank | src/Quiz.tsx:218-222 | once every question is dealt with, the answered, timed-out and skipped counts (`AnsweredCount`, `TimedOutCount`, `SkippedCount`) add up to at least the number of questions |
| Guards.SkippedAndTimedOutFit | src/Quiz.tsx:218-222 | disjoint skipped and timed-out sets of bank ids together never outnumber the bank |
| Guards.StaleLastSkipCheck | src/Quiz.tsx:145-149 | the test as written passes only if the last question already counted as dealt with before the skip |
| Guards.StaleLastSkipNeverSubmits | src/Quiz.tsx:127-154 | whenever Skip is enabled on the last question, the test as written fails, so that skip never submits |
| Guards.LastSkipCheck | src/Quiz.tsx:144-149 | the test over the sets after the skip passes exactly when every earlier question is dealt with |
| Guards.LastSkipSubmits | src/Quiz.tsx:141-154 | if every earlier question is dealt with, the test after the skip passes |
| QuizController.Quiz.constructor | src/Quiz.tsx:9-18 | a new controller is not started: index 0, no answers, no timed-out or skipped ids, no saved countdowns, countdown 30, empty draft |
| QuizController.Quiz.Start | src/Quiz.tsx:21-29 | starting gives every question of the bank a saved countdown of 30 and changes nothing else |
| QuizController.Quiz.EnterQuestion | src/Quiz.tsx:31-42 | entering a question clears the draft; where the countdown runs (`Running`: started, not completed, and the question neither timed out nor skipped), it resumes from that question's saved value, otherwise it stays as it was |
| QuizController.Quiz.Tick | src/Quiz.tsx:44-60 | above 1, the countdown drops by exactly one and is saved under the current id only; at 1, the current id times out with saved countdown 0, and the quiz moves on one question with the draft cleared, or on the last question submits with the countdown back at 30; the whole new state is given in both cases |
| QuizController.Quiz.TimeOut | src/Quiz.tsx:69-81 | the current id is marked timed out with saved countdown 0; the index advances by one, or on the last question the quiz submits; answers and skipped ids are unchanged |
| QuizController.Quiz.AnswerMcq | src/Quiz.tsx:84-91 | a choice for a timed-out or skipped id leaves the answers unchanged; otherwise it sets that id's answer, overwriting any earlier one, and no other key changes |
| QuizController.Quiz.EditIntegerDraft | src/Quiz.tsx:94-100 | the draft becomes the new text exactly when that text is empty or an integer; otherwise it stays |
| QuizController.Quiz.CommitInteger | src/Quiz.tsx:103-110 | with an empty draft, or a timed-out or skipped id, nothing changes; otherwise that id's answer becomes the draft's decimal value, and no other key changes |
| QuizController.Quiz.Next | src/Quiz.tsx:113-117 | moves the index up by one unless it is on the last question; answers, skipped and timed-out ids and saved countdowns are unchanged |
| QuizController.Quiz.Previous | src/Quiz.tsx:120-124 | moves the index down by one unless it is at 0; answers, skipped and timed-out ids and saved countdowns are unchanged |
| QuizController.Quiz.Skip | src/Quiz.tsx:127-155 | marks the id skipped and saves the countdown; answers never change; moves on one question, or on the last question submits |
| QuizController.Quiz.Submit | src/Quiz.tsx:178-197 | callable only on the last question, where the Submit Quiz button is shown (line 503), and once every question is dealt with: the score becomes `Score` of the answers, the quiz completes, and the record carries that score, the number of questions and the answers |
| Scenarios.AnswerTimeOutAnswer | src/Quiz.tsx:69-175 | answer question 1 with 0, let question 2 time out, answer question 3 with 1: score 2 of 3, timed out {2}, answers {1: 0, 3: 1} |
| Scenarios.SkipLastSubmits | src/Quiz.tsx:127-155 | with questions 1 and 2 answered, skipping question 3 submits at once, with question 3 absent from the answers |
| Scenarios.ResumeCountdown | src/Quiz.tsx:38-42 | after two ticks on question 2, going back shows question 1's own saved 30; coming forward resumes question 2 at 28 |

## Left out

- Rendering: the JSX, styling and result screen (`src/Quiz.tsx:224-542`) are presentation only. The button guards are modelled as functions and used as method preconditions. The Submit Quiz button is shown only on the last question, so `Submit` also requires that. The Previous button's disabled state is not a precondition, because the handler makes the same test itself.
- Persistence: `openDB`, the transaction and `store.add` are asynchronous browser storage. Submission returns the result record instead of writing it, so the store round trip is not modelled. The result viewer, its chart and `src/App.tsx` (tab and menu state) are not part of this model.
- Clock: the record's `new Date()` is omitted. The viewer's date sort is not part of this model.
- Scheduling: `setInterval`, `clearInterval` and React's effect scheduling are replaced by explicit `Tick` and `EnterQuestion` calls. `Tick` requires the countdown to be running.
- Stale closures: in the source, the interval callback calls the `handleTimeout` and `handleSubmit` of the render that started the countdown. A timeout on the last question therefore scores the answers as they were when that question was entered. The model scores the current answers.
- Countdown after a skip: the countdown effect does not depend on `skippedQuestions`. So in the source, after the last question is skipped without submitting, that question's countdown keeps running. In the model such a skip always submits (see Findings), so this state does not arise.
- Question bank: `SampleQuestions` is not part of this model. The bank is a constructor parameter, required to be non-empty with distinct ids.
- String answers: the answers type allows string values, but no handler stores one. Answers are `map<int, int>`, and the source's `typeof answer === 'number'` test is always true here.
- `parseInt`: JavaScript numbers are doubles, so digit strings beyond 2^53 lose precision. The model parses exactly.
- `Object.entries` order: the loop in `CalculateScore` takes the answers in an unspecified order. The count does not depend on it.
- Option indices: MCQ answer indices are not checked against the options; the source does not check them either.
- `EditIntegerDraft`: the model does not require what the UI ensures on its side: that the field is shown only for integer questions and is disabled once the question is dealt with (`src/Quiz.tsx:241`). The handler itself does not depend on either.
- `window.location.reload` (new attempt) is not modelled.

## Findings

| source | as written | input that shows it | evidently intended | confidence | as-written member | corrected member |
|---|---|---|---|---|---|---|
| src/Quiz.tsx:145-149 | on the last question, the skip handler's "all handled" test reads `answers`, `timedOutQuestions` and `skippedQuestions` from before the skip is recorded | any bank with the earlier questions dealt with and the last one open, then Skip: the test sees the last question open and does not submit | the test runs over the sets after the skip, as the comment at line 144 says, so the skip submits | high, not executed | Guards.StaleLastSkipNeverSubmits | QuizController.Quiz.Skip |

Skip is enabled only while the last question is open, so the check as written can never pass. `Guards.StaleLastSkipCheck` models that check and `Guards.StaleLastSkipNeverSubmits` proves it always fails. `Quiz.Skip` tests the sets after the skip, and `Guards.LastSkipSubmits` proves that this test passes. The invariant that every earlier question is dealt with makes a last-question skip always submit.
