/** Clients of the controller: whole attempts on a three-question bank, showing what the
    controller's contracts let a caller conclude. */
module Scenarios {
  import opened QuizTypes
  import opened Scoring
  import opened Guards
  import opened QuizController

  /** Question 1 (choose A or B, A is right), question 2 (the integer 5), question 3 (choose
      X or Y, Y is right). */
  function SampleBank(): (qs: seq<Question>)
    ensures ValidBank(qs) && |qs| == 3
  {
    [Mcq(1, "First", ["A", "B"], 0), Integer(2, "Second", 5, None, None), Mcq(3, "Third", ["X", "Y"], 1)]
  }

  /** A started attempt on the sample bank with question 1 answered with option 0 and
      question 2 on screen. */
  method FirstAnswered() returns (quiz: Quiz)
    ensures fresh(quiz) && quiz.Valid() && quiz.questions == SampleBank()
    ensures quiz.CurrentPhase() == InProgress && quiz.currentQuestion == 1
    ensures quiz.answers == map[1 := 0] && quiz.timedOutQuestions == {} && quiz.skippedQuestions == {}
    ensures quiz.timer == SecondsPerQuestion
    ensures forall id :: id in quiz.questionTimers ==> quiz.questionTimers[id] == SecondsPerQuestion
  {
    quiz := new Quiz(SampleBank());
    quiz.Start();
    quiz.AnswerMcq(1, 0);
    quiz.Next();
  }

  /** Ticking on question 2 until its countdown runs out moves the attempt to question 3. */
  method RunOutClock(quiz: Quiz)
    requires quiz.Valid() && quiz.questions == SampleBank()
    requires quiz.CurrentPhase() == InProgress && quiz.currentQuestion == 1
    requires quiz.answers == map[1 := 0] && quiz.timedOutQuestions == {} && quiz.skippedQuestions == {}
    modifies quiz
    ensures quiz.Valid() && quiz.CurrentPhase() == InProgress && quiz.currentQuestion == 2
    ensures quiz.answers == map[1 := 0] && quiz.timedOutQuestions == {2} && quiz.skippedQuestions == {}
  {
    while quiz.currentQuestion == 1
      invariant quiz.Valid() && quiz.CurrentPhase() == InProgress
      invariant 1 <= quiz.currentQuestion <= 2
      invariant quiz.answers == map[1 := 0] && quiz.skippedQuestions == {}
      invariant quiz.timedOutQuestions == if quiz.currentQuestion == 1 then {} else {2}
      decreases 2 - quiz.currentQuestion, quiz.timer
    {
      var expired := quiz.Tick();
    }
  }

  /** Answer question 1 with option 0, let question 2 run out of time, answer question 3 with
      option 1 and submit: two points, question 2 timed out. */
  method AnswerTimeOutAnswer() returns (record: QuizResult, timedOut: set<int>)
    ensures record == QuizResult(2, 3, map[1 := 0, 3 := 1])
    ensures timedOut == {2}
  {
    var quiz := FirstAnswered();
    RunOutClock(quiz);
    quiz.AnswerMcq(3, 1);
    assert Handled(SampleBank()[0].id, quiz.answers, quiz.timedOutQuestions, quiz.skippedQuestions);
    assert Handled(SampleBank()[1].id, quiz.answers, quiz.timedOutQuestions, quiz.skippedQuestions);
    assert Handled(SampleBank()[2].id, quiz.answers, quiz.timedOutQuestions, quiz.skippedQuestions);
    record := quiz.Submit();
    ScoreCountsQuestions(SampleBank(), quiz.answers);
    timedOut := quiz.timedOutQuestions;
  }

  /** Continuing from FirstAnswered: the draft takes "5", refuses "5x", is committed as the
      answer to question 2, and the attempt moves on to question 3. */
  method SecondAnswered() returns (quiz: Quiz)
    ensures fresh(quiz) && quiz.Valid() && quiz.questions == SampleBank()
    ensures quiz.CurrentPhase() == InProgress && quiz.currentQuestion == 2
    ensures quiz.answers == map[1 := 0, 2 := 5] && quiz.timedOutQuestions == {} && quiz.skippedQuestions == {}
  {
    quiz := FirstAnswered();
    quiz.EditIntegerDraft("5");
    assert !IntegerDraft.DraftAccepted("5x") by {
      assert !IntegerDraft.IsDigit("5x"[1]);
    }
    quiz.EditIntegerDraft("5x");
    quiz.CommitInteger(2);
    assert quiz.answers == map[1 := 0, 2 := 5];
    quiz.Next();
  }

  /** Answer questions 1 and 2, then skip the last question: the skip itself submits, and
      the skipped question has no answer. */
  method SkipLastSubmits() returns (record: Option<QuizResult>)
    ensures record == Some(QuizResult(2, 3, map[1 := 0, 2 := 5]))
  {
    var quiz := SecondAnswered();
    record := quiz.Skip();
    ScoreCountsQuestions(SampleBank(), quiz.answers);
  }

  /** After two seconds on question 2, going back shows question 1's own saved countdown, and
      coming forward again resumes question 2 where it stopped rather than at 30. */
  method ResumeCountdown() returns (first: int, second: int)
    ensures first == SecondsPerQuestion
    ensures second == SecondsPerQuestion - 2
  {
    var quiz := FirstAnswered();
    var expired := quiz.Tick();
    expired := quiz.Tick();
    quiz.Previous();
    first := quiz.timer;
    quiz.Next();
    second := quiz.timer;
  }
}
