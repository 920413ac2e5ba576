/** The side-effect-free tests the quiz screen makes: whether a question is dealt with, which
    buttons are enabled, and the counts it shows. SkipEnabled and NextEnabled are the
    screen's own spellings of !Handled and Handled. */
module Guards {
  import opened QuizTypes

  /** A question is dealt with once it has an answer, has timed out or was skipped. */
  predicate Handled(id: int, answers: map<int, int>, timedOut: set<int>, skipped: set<int>) {
    id in answers || id in timedOut || id in skipped
  }

  /** questions.every(...): every question of the bank is dealt with. */
  function AllHandled(qs: seq<Question>, answers: map<int, int>, timedOut: set<int>, skipped: set<int>): (r: bool)
    ensures r <==> forall i :: 0 <= i < |qs| ==> Handled(qs[i].id, answers, timedOut, skipped)
  {
    if qs == [] then true
    else
      var rest := AllHandled(qs[1..], answers, timedOut, skipped);
      assert forall i :: 0 < i < |qs| ==> qs[1..][i - 1] == qs[i];
      Handled(qs[0].id, answers, timedOut, skipped) && rest
  }

  /** questions.some(...): some question of the bank is still open. */
  function AnyUnhandled(qs: seq<Question>, answers: map<int, int>, timedOut: set<int>, skipped: set<int>): (r: bool)
    ensures r <==> exists i :: 0 <= i < |qs| && !Handled(qs[i].id, answers, timedOut, skipped)
  {
    if qs == [] then false
    else
      var rest := AnyUnhandled(qs[1..], answers, timedOut, skipped);
      assert forall i :: 0 < i < |qs| ==> qs[1..][i - 1] == qs[i];
      (qs[0].id !in answers && qs[0].id !in timedOut && qs[0].id !in skipped) || rest
  }

  /** The Skip button: enabled while the question has no answer and is neither timed out
      nor skipped. */
  predicate SkipEnabled(id: int, answers: map<int, int>, timedOut: set<int>, skipped: set<int>) {
    !(id in timedOut || id in skipped || id in answers)
  }

  /** The Next button: enabled once the question is answered, timed out or skipped. */
  predicate NextEnabled(id: int, answers: map<int, int>, timedOut: set<int>, skipped: set<int>) {
    !(id !in answers && id !in timedOut && id !in skipped)
  }

  /** The Submit button: enabled when no question is open. */
  function SubmitEnabled(qs: seq<Question>, answers: map<int, int>, timedOut: set<int>, skipped: set<int>): (r: bool)
    ensures r <==> AllHandled(qs, answers, timedOut, skipped)
  {
    !AnyUnhandled(qs, answers, timedOut, skipped)
  }

  /** The Skip and Next conditions are complementary: on every question but the last, where
      Submit Quiz replaces Next, exactly one of the two buttons is enabled. */
  lemma SkipOrNext(id: int, answers: map<int, int>, timedOut: set<int>, skipped: set<int>)
    ensures SkipEnabled(id, answers, timedOut, skipped) != NextEnabled(id, answers, timedOut, skipped)
  {
  }

  function AnsweredCount(answers: map<int, int>): nat {
    |answers.Keys|
  }

  function SkippedCount(skipped: set<int>): nat {
    |skipped|
  }

  function TimedOutCount(timedOut: set<int>): nat {
    |timedOut|
  }

  lemma SubsetCount(a: set<int>, b: set<int>)
    requires a <= b
    ensures |a| <= |b|
  {
    assert b == a + (b - a);
  }

  /** Once every question is dealt with, the three counts together cover the bank (they may
      overlap: an answered question can still time out). */
  lemma HandledCountsCoverBank(qs: seq<Question>, answers: map<int, int>, timedOut: set<int>, skipped: set<int>)
    requires UniqueIds(qs)
    requires AllHandled(qs, answers, timedOut, skipped)
    ensures AnsweredCount(answers) + TimedOutCount(timedOut) + SkippedCount(skipped) >= |qs|
  {
    IdsCount(qs);
    var union := answers.Keys + timedOut + skipped;
    assert Ids(qs) <= union by {
      forall id | id in Ids(qs) ensures id in union {
        var i :| 0 <= i < |qs| && qs[i].id == id;
        assert Handled(qs[i].id, answers, timedOut, skipped);
      }
    }
    SubsetCount(Ids(qs), union);
  }

  /** Skipped and timed-out questions are disjoint questions of the bank, so together they
      never outnumber it. */
  lemma SkippedAndTimedOutFit(qs: seq<Question>, timedOut: set<int>, skipped: set<int>)
    requires UniqueIds(qs)
    requires timedOut <= Ids(qs) && skipped <= Ids(qs) && timedOut !! skipped
    ensures TimedOutCount(timedOut) + SkippedCount(skipped) <= |qs|
  {
    IdsCount(qs);
    SubsetCount(timedOut + skipped, Ids(qs));
  }

  /** The last-question test of the skip handler as the source writes it: it reads the three
      collections as they were before the skip is recorded. */
  function StaleLastSkipCheck(qs: seq<Question>, answers: map<int, int>, timedOut: set<int>, skipped: set<int>): (r: bool)
    requires |qs| > 0
    ensures r ==> Handled(qs[|qs| - 1].id, answers, timedOut, skipped)
  {
    AllHandled(qs, answers, timedOut, skipped)
  }

  /** As written, skipping the last question never submits: Skip is only enabled while the
      last question is open, and then the stale test sees it open. */
  lemma StaleLastSkipNeverSubmits(qs: seq<Question>, answers: map<int, int>, timedOut: set<int>, skipped: set<int>)
    requires |qs| > 0
    requires SkipEnabled(qs[|qs| - 1].id, answers, timedOut, skipped)
    ensures !StaleLastSkipCheck(qs, answers, timedOut, skipped)
  {
  }

  /** The same test over the collections after the skip is recorded, as the handler's comment
      describes it. */
  function LastSkipCheck(qs: seq<Question>, answers: map<int, int>, timedOut: set<int>, skipped: set<int>): (r: bool)
    requires |qs| > 0
    ensures r <==> forall i :: 0 <= i < |qs| - 1 ==> Handled(qs[i].id, answers, timedOut, skipped + {qs[|qs| - 1].id})
  {
    AllHandled(qs, answers, timedOut, skipped + {qs[|qs| - 1].id})
  }

  /** Read after the skip, the test passes whenever every earlier question is dealt with, so
      skipping the last question submits. */
  lemma LastSkipSubmits(qs: seq<Question>, answers: map<int, int>, timedOut: set<int>, skipped: set<int>)
    requires |qs| > 0
    requires forall i :: 0 <= i < |qs| - 1 ==> Handled(qs[i].id, answers, timedOut, skipped)
    ensures LastSkipCheck(qs, answers, timedOut, skipped)
  {
  }
}
