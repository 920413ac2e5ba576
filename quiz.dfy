/** The quiz controller: one attempt at a fixed bank of timed questions, moving from not
    started through in progress to completed. */
module QuizController {
  import opened QuizTypes
  import opened IntegerDraft
  import opened Scoring
  import opened Guards

  datatype Phase = NotStarted | InProgress | Completed

  /** A snapshot of every field of the controller. */
  datatype Attempt = Attempt(
    isStarted: bool,
    currentQuestion: nat,
    answers: map<int, int>,
    showResults: bool,
    score: nat,
    timer: int,
    timedOutQuestions: set<int>,
    skippedQuestions: set<int>,
    questionTimers: map<int, int>,
    integerValue: string)

  class Quiz {
    const questions: seq<Question>
    var isStarted: bool
    var currentQuestion: nat
    var answers: map<int, int>
    var showResults: bool
    var score: nat
    var timer: int
    var timedOutQuestions: set<int>
    var skippedQuestions: set<int>
    var questionTimers: map<int, int>
    var integerValue: string

    function State(): Attempt
      reads this
    {
      Attempt(isStarted, currentQuestion, answers, showResults, score, timer,
              timedOutQuestions, skippedQuestions, questionTimers, integerValue)
    }

    function CurrentPhase(): Phase
      reads this
    {
      if !isStarted then NotStarted else if showResults then Completed else InProgress
    }

    function CurrentId(): int
      reads this
      requires currentQuestion < |questions|
    {
      questions[currentQuestion].id
    }

    /** Whether the countdown runs: the quiz is in progress and the current question has
        neither timed out nor been skipped. An answered question keeps counting down. */
    predicate Running()
      reads this
      requires currentQuestion < |questions|
    {
      isStarted && !showResults &&
      CurrentId() !in timedOutQuestions && CurrentId() !in skippedQuestions
    }

    /** Everything the controller keeps true, except the tie between the displayed
        countdown and the saved one, which is restored on entering a question. */
    ghost predicate Consistent()
      reads this
    {
      ValidBank(questions) &&
      currentQuestion < |questions| &&
      1 <= timer <= SecondsPerQuestion &&
      DraftAccepted(integerValue) &&
      (!isStarted ==>
         currentQuestion == 0 && answers == map[] && !showResults && score == 0 &&
         timer == SecondsPerQuestion && timedOutQuestions == {} && skippedQuestions == {} &&
         questionTimers == map[] && integerValue == "") &&
      (isStarted ==> Ids(questions) <= questionTimers.Keys) &&
      (forall id :: id in questionTimers ==> 0 <= questionTimers[id] <= SecondsPerQuestion) &&
      (forall id :: id in questionTimers && id !in timedOutQuestions ==> 1 <= questionTimers[id]) &&
      (forall id :: id in timedOutQuestions ==> id in questionTimers && questionTimers[id] == 0) &&
      timedOutQuestions <= Ids(questions) && skippedQuestions <= Ids(questions) &&
      skippedQuestions !! timedOutQuestions && skippedQuestions !! answers.Keys &&
      (forall i :: 0 <= i < currentQuestion ==>
         Handled(questions[i].id, answers, timedOutQuestions, skippedQuestions)) &&
      (showResults ==>
         isStarted && score == Score(questions, answers) &&
         AllHandled(questions, answers, timedOutQuestions, skippedQuestions))
    }

    /** The controller's invariant: while the countdown runs, the displayed value is the
        current question's saved one. */
    ghost predicate Valid()
      reads this
    {
      Consistent() &&
      (Running() ==> CurrentId() in questionTimers && timer == questionTimers[CurrentId()])
    }

    constructor (bank: seq<Question>)
      requires ValidBank(bank)
      ensures Valid() && CurrentPhase() == NotStarted && questions == bank
      ensures State() == Attempt(false, 0, map[], false, 0, SecondsPerQuestion, {}, {}, map[], "")
    {
      questions := bank;
      isStarted := false;
      currentQuestion := 0;
      answers := map[];
      showResults := false;
      score := 0;
      timer := SecondsPerQuestion;
      timedOutQuestions := {};
      skippedQuestions := {};
      questionTimers := map[];
      integerValue := "";
    }

    /** The Start button: every question's saved countdown becomes 30. */
    method Start()
      requires Valid() && CurrentPhase() == NotStarted
      modifies this
      ensures Valid() && CurrentPhase() == InProgress
      ensures questionTimers.Keys == Ids(questions)
      ensures forall id :: id in questionTimers ==> questionTimers[id] == SecondsPerQuestion
      ensures timer == SecondsPerQuestion && integerValue == ""
      ensures State() == old(State()).(isStarted := true, questionTimers := questionTimers)
    {
      isStarted := true;
      var initialTimers: map<int, int> := map[];
      var i := 0;
      while i < |questions|
        invariant 0 <= i <= |questions|
        invariant initialTimers.Keys == Ids(questions[..i])
        invariant forall id :: id in initialTimers ==> initialTimers[id] == SecondsPerQuestion
      {
        assert questions[..i + 1] == questions[..i] + [questions[i]];
        initialTimers := initialTimers[questions[i].id := SecondsPerQuestion];
        i := i + 1;
      }
      assert questions[..i] == questions;
      questionTimers := initialTimers;
      integerValue := "";
    }

    /** What happens on entering a question: the integer draft is cleared and, if the
        countdown runs there, the displayed countdown resumes from the saved one. */
    method EnterQuestion()
      requires Consistent()
      modifies this
      ensures Valid()
      ensures !Running() ==> timer == old(timer)
      ensures State() == old(State()).(integerValue := "", timer := timer)
    {
      integerValue := "";
      if isStarted && !showResults && CurrentId() !in timedOutQuestions && CurrentId() !in skippedQuestions {
        var id := CurrentId();
        if id in questionTimers {
          timer := questionTimers[id];
        }
      }
    }

    /** One second of countdown on the current question. */
    method Tick() returns (record: Option<QuizResult>)
      requires Valid() && Running()
      modifies this
      ensures Valid()
      ensures old(timer) > 1 ==>
        record == None &&
        State() == old(State()).(timer := old(timer) - 1,
                                 questionTimers := old(questionTimers)[old(CurrentId()) := old(timer) - 1])
      ensures old(timer) <= 1 && old(currentQuestion) < |questions| - 1 ==>
        record == None && CurrentPhase() == InProgress &&
        (!Running() ==> timer == SecondsPerQuestion) &&
        State() == old(State()).(currentQuestion := old(currentQuestion) + 1, integerValue := "",
                                 timer := timer,
                                 timedOutQuestions := old(timedOutQuestions) + {old(CurrentId())},
                                 questionTimers := old(questionTimers)[old(CurrentId()) := 0])
      ensures old(timer) <= 1 && old(currentQuestion) == |questions| - 1 ==>
        CurrentPhase() == Completed && score == Score(questions, answers) &&
        record == Some(QuizResult(score, |questions|, answers)) &&
        State() == old(State()).(showResults := true, score := score, integerValue := "",
                                 timer := SecondsPerQuestion,
                                 timedOutQuestions := old(timedOutQuestions) + {old(CurrentId())},
                                 questionTimers := old(questionTimers)[old(CurrentId()) := 0])
    {
      var id := CurrentId();
      var newValue := if timer <= 1 then 0 else timer - 1;
      if newValue <= 0 {
        record := TimeOut();
      } else {
        questionTimers := questionTimers[id := newValue];
        timer := newValue;
        record := None;
      }
    }

    /** The countdown of the current question has reached zero: its saved countdown is 0, it
        is marked timed out, and the quiz moves to the next question or, on the last one,
        submits. */
    method TimeOut() returns (record: Option<QuizResult>)
      requires Valid() && Running() && timer <= 1
      modifies this
      ensures Valid()
      ensures timedOutQuestions == old(timedOutQuestions) + {old(CurrentId())}
      ensures questionTimers == old(questionTimers)[old(CurrentId()) := 0]
      ensures old(currentQuestion) < |questions| - 1 ==>
        record == None && CurrentPhase() == InProgress &&
        (!Running() ==> timer == SecondsPerQuestion) &&
        State() == old(State()).(currentQuestion := old(currentQuestion) + 1, integerValue := "",
                                 timer := timer, timedOutQuestions := timedOutQuestions,
                                 questionTimers := questionTimers)
      ensures old(currentQuestion) == |questions| - 1 ==>
        CurrentPhase() == Completed && score == Score(questions, answers) &&
        record == Some(QuizResult(score, |questions|, answers)) &&
        State() == old(State()).(showResults := true, score := score, integerValue := "",
                                 timer := SecondsPerQuestion, timedOutQuestions := timedOutQuestions,
                                 questionTimers := questionTimers)
    {
      var id := CurrentId();
      questionTimers := questionTimers[id := 0];
      timer := SecondsPerQuestion;
      timedOutQuestions := timedOutQuestions + {id};
      assert Handled(id, answers, timedOutQuestions, skippedQuestions);
      if currentQuestion < |questions| - 1 {
        currentQuestion := currentQuestion + 1;
        assert Consistent();
        EnterQuestion();
        record := None;
      } else {
        assert forall i :: 0 <= i < |questions| ==>
          Handled(questions[i].id, answers, timedOutQuestions, skippedQuestions);
        assert Valid();
        var result := Submit();
        record := Some(result);
      }
    }

    /** Choosing an option of a multiple-choice question: recorded, replacing any earlier
        choice, unless the question has timed out or was skipped. */
    method AnswerMcq(questionId: int, answerIndex: int)
      requires Valid() && CurrentPhase() == InProgress
      modifies this
      ensures Valid() && CurrentPhase() == InProgress
      ensures State() == old(State()).(answers :=
        if questionId in old(timedOutQuestions) || questionId in old(skippedQuestions) then old(answers)
        else old(answers)[questionId := answerIndex])
    {
      if questionId !in timedOutQuestions && questionId !in skippedQuestions {
        answers := answers[questionId := answerIndex];
      }
    }

    /** Typing in the integer field: the draft takes the new text only if it is empty or an
        integer. */
    method EditIntegerDraft(value: string)
      requires Valid() && CurrentPhase() == InProgress
      modifies this
      ensures Valid() && CurrentPhase() == InProgress
      ensures State() == old(State()).(integerValue := if DraftAccepted(value) then value else old(integerValue))
    {
      if value == "" || IsIntegerText(value) {
        integerValue := value;
      }
    }

    /** The integer Submit Answer button (disabled once the question has an answer): records
        the draft's value unless the draft is empty or the question timed out or was
        skipped. */
    method CommitInteger(questionId: int)
      requires Valid() && CurrentPhase() == InProgress
      requires questionId !in answers
      modifies this
      ensures Valid() && CurrentPhase() == InProgress
      ensures State() == old(State()).(answers :=
        if integerValue == "" || questionId in old(timedOutQuestions) || questionId in old(skippedQuestions)
        then old(answers)
        else old(answers)[questionId := ParseInt(integerValue)])
    {
      if integerValue != "" && questionId !in timedOutQuestions && questionId !in skippedQuestions {
        answers := answers[questionId := ParseInt(integerValue)];
      }
    }

    /** The Next button, enabled once the current question is dealt with. */
    method Next()
      requires Valid() && CurrentPhase() == InProgress
      requires NextEnabled(CurrentId(), answers, timedOutQuestions, skippedQuestions)
      modifies this
      ensures Valid() && CurrentPhase() == InProgress
      ensures old(currentQuestion) < |questions| - 1 ==>
        (!Running() ==> timer == old(timer)) &&
        State() == old(State()).(currentQuestion := old(currentQuestion) + 1, integerValue := "", timer := timer)
      ensures old(currentQuestion) == |questions| - 1 ==> State() == old(State())
    {
      if currentQuestion < |questions| - 1 {
        currentQuestion := currentQuestion + 1;
        EnterQuestion();
      }
    }

    /** The Previous button. Going back neither reopens a question nor resets its countdown. */
    method Previous()
      requires Valid() && CurrentPhase() == InProgress
      modifies this
      ensures Valid() && CurrentPhase() == InProgress
      ensures old(currentQuestion) > 0 ==>
        (!Running() ==> timer == old(timer)) &&
        State() == old(State()).(currentQuestion := old(currentQuestion) - 1, integerValue := "", timer := timer)
      ensures old(currentQuestion) == 0 ==> State() == old(State())
    {
      if currentQuestion > 0 {
        currentQuestion := currentQuestion - 1;
        EnterQuestion();
      }
    }

    /** The Skip button, enabled while the current question is open: marks it skipped, saves
        its countdown, and moves on or, on the last question, submits once every question is
        dealt with (tested after the skip is recorded). */
    method Skip() returns (record: Option<QuizResult>)
      requires Valid() && CurrentPhase() == InProgress
      requires SkipEnabled(CurrentId(), answers, timedOutQuestions, skippedQuestions)
      modifies this
      ensures Valid()
      ensures skippedQuestions == old(skippedQuestions) + {old(CurrentId())}
      ensures questionTimers == old(questionTimers)[old(CurrentId()) := old(timer)]
      ensures questionTimers == old(questionTimers)
      ensures old(currentQuestion) < |questions| - 1 ==>
        record == None && CurrentPhase() == InProgress &&
        (!Running() ==> timer == old(timer)) &&
        State() == old(State()).(currentQuestion := old(currentQuestion) + 1, integerValue := "",
                                 timer := timer, skippedQuestions := skippedQuestions)
      ensures old(currentQuestion) == |questions| - 1 ==>
        CurrentPhase() == Completed && score == Score(questions, answers) &&
        record == Some(QuizResult(score, |questions|, answers)) &&
        State() == old(State()).(showResults := true, score := score, integerValue := "",
                                 skippedQuestions := skippedQuestions)
    {
      var id := CurrentId();
      skippedQuestions := skippedQuestions + {id};
      questionTimers := questionTimers[id := timer];
      assert questionTimers == old(questionTimers);
      assert Handled(id, answers, timedOutQuestions, skippedQuestions);
      assert Valid();
      if currentQuestion < |questions| - 1 {
        currentQuestion := currentQuestion + 1;
        assert Consistent();
        EnterQuestion();
        record := None;
      } else {
        LastSkipSubmits(questions, answers, timedOutQuestions, old(skippedQuestions));
        if AllHandled(questions, answers, timedOutQuestions, skippedQuestions) {
          var result := Submit();
          record := Some(result);
        } else {
          record := None;
        }
      }
    }

    /** The Submit Quiz button, shown on the last question only and enabled once every
        question is dealt with: the score is computed, the results are shown, and one result
        record with the score and the number of questions is produced for the store. */
    method Submit() returns (record: QuizResult)
      requires Valid() && CurrentPhase() == InProgress
      requires currentQuestion == |questions| - 1
      requires SubmitEnabled(questions, answers, timedOutQuestions, skippedQuestions)
      modifies this
      ensures Valid() && CurrentPhase() == Completed
      ensures score == Score(questions, answers)
      ensures record == QuizResult(score, |questions|, answers)
      ensures State() == old(State()).(showResults := true, score := score, integerValue := "")
    {
      var finalScore := CalculateScore(questions, answers);
      score := finalScore;
      showResults := true;
      integerValue := "";
      record := QuizResult(finalScore, |questions|, answers);
    }
  }
}
