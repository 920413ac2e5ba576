/** Scoring an attempt: the answers recorded so far, checked against the question bank. */
module Scoring {
  import opened QuizTypes

  /** The first question of the bank with the given id, as questions.find does. */
  function FindQuestion(qs: seq<Question>, id: int): (r: Option<Question>)
    ensures r.None? <==> id !in Ids(qs)
    ensures r.Some? ==> exists i :: 0 <= i < |qs| && qs[i] == r.value && qs[i].id == id &&
                                    forall j :: 0 <= j < i ==> qs[j].id != id
  {
    if qs == [] then None
    else if qs[0].id == id then Some(qs[0])
    else
      var r := FindQuestion(qs[1..], id);
      assert id in Ids(qs[1..]) <==> id in Ids(qs) by {
        assert forall i :: 0 < i < |qs| ==> qs[1..][i - 1] == qs[i];
      }
      assert r.Some? ==> exists i :: 0 <= i < |qs| && qs[i] == r.value && qs[i].id == id &&
                                     forall j :: 0 <= j < i ==> qs[j].id != id by {
        if r.Some? {
          var k :| 0 <= k < |qs[1..]| && qs[1..][k] == r.value && qs[1..][k].id == id &&
                   forall j :: 0 <= j < k ==> qs[1..][j].id != id;
          assert qs[k + 1] == r.value;
          assert forall j :: 0 < j < k + 1 ==> qs[j] == qs[1..][j - 1];
        }
      }
      r
  }

  /** Whether value v is the right answer to question q. Both kinds compare the value with
      the question's correct value; the bounds of an integer question play no part. */
  predicate Matches(q: Question, v: int) {
    match q
    case Mcq(_, _, _, correct) => v == correct
    case Integer(_, _, correct, _, _) => v == correct
  }

  /** Whether the answer v recorded under id earns a point: id must belong to a question of
      the bank, and v must match it. */
  predicate AnswerCorrect(qs: seq<Question>, id: int, v: int) {
    match FindQuestion(qs, id)
    case None => false
    case Some(q) => Matches(q, v)
  }

  /** The recorded answers that earn a point. */
  function CorrectIds(qs: seq<Question>, answers: map<int, int>): set<int> {
    set id | id in answers && AnswerCorrect(qs, id, answers[id])
  }

  /** The score of an attempt: how many recorded answers earn a point. */
  function Score(qs: seq<Question>, answers: map<int, int>): nat {
    |CorrectIds(qs, answers)|
  }

  /** calculateScore: one pass over the recorded answers, counting the correct ones. */
  method CalculateScore(qs: seq<Question>, answers: map<int, int>) returns (newScore: nat)
    ensures newScore == Score(qs, answers)
  {
    newScore := 0;
    var pending := answers.Keys;
    while pending != {}
      invariant pending <= answers.Keys
      invariant newScore == |CorrectIds(qs, answers) - pending|
      decreases pending
    {
      var questionId :| questionId in pending;
      var question := FindQuestion(qs, questionId);
      ghost var before := CorrectIds(qs, answers) - pending;
      if question.Some? && Matches(question.value, answers[questionId]) {
        assert CorrectIds(qs, answers) - (pending - {questionId}) == before + {questionId};
        newScore := newScore + 1;
      } else {
        assert CorrectIds(qs, answers) - (pending - {questionId}) == before;
      }
      pending := pending - {questionId};
    }
  }

  /** The count question by question: how many questions of the bank have a recorded answer
      equal to their correct value. */
  function CountCorrect(qs: seq<Question>, answers: map<int, int>): (n: nat)
    ensures n <= |qs|
  {
    if qs == [] then 0
    else
      (if qs[0].id in answers && Matches(qs[0], answers[qs[0].id]) then 1 else 0)
      + CountCorrect(qs[1..], answers)
  }

  /** Splitting off the first question of a bank whose later questions do not reuse its id. */
  lemma CorrectIdsFirst(qs: seq<Question>, answers: map<int, int>)
    requires qs != [] && qs[0].id !in Ids(qs[1..])
    ensures CorrectIds(qs, answers) ==
            (if qs[0].id in answers && Matches(qs[0], answers[qs[0].id]) then {qs[0].id} else {})
            + CorrectIds(qs[1..], answers)
    ensures qs[0].id !in CorrectIds(qs[1..], answers)
  {
  }

  /** With distinct ids, counting answers and counting questions agree: the score is the
      number of questions answered correctly, and an unanswered question adds nothing. */
  lemma {:induction false} ScoreCountsQuestions(qs: seq<Question>, answers: map<int, int>)
    requires UniqueIds(qs)
    ensures Score(qs, answers) == CountCorrect(qs, answers)
  {
    if qs == [] {
      assert CorrectIds(qs, answers) == {};
    } else {
      var q, rest := qs[0], qs[1..];
      assert UniqueIds(rest) by {
        assert forall i :: 0 <= i < |rest| ==> rest[i] == qs[i + 1];
      }
      ScoreCountsQuestions(rest, answers);
      assert q.id !in Ids(rest) by {
        forall i | 0 <= i < |rest| ensures rest[i].id != q.id {
          assert rest[i] == qs[i + 1];
        }
      }
      CorrectIdsFirst(qs, answers);
    }
  }

  /** A score never exceeds the number of recorded answers. */
  lemma ScoreAtMostAnswered(qs: seq<Question>, answers: map<int, int>)
    ensures Score(qs, answers) <= |answers|
  {
    var correct := CorrectIds(qs, answers);
    assert answers.Keys == correct + (answers.Keys - correct);
  }

  /** A score never exceeds the number of questions. */
  lemma ScoreAtMostQuestions(qs: seq<Question>, answers: map<int, int>)
    requires UniqueIds(qs)
    ensures Score(qs, answers) <= |qs|
  {
    ScoreCountsQuestions(qs, answers);
  }

  /** Recording v under id changes the score only through id: it is the score without id,
      plus one exactly when v is correct for id. */
  lemma ScoreAfterAnswer(qs: seq<Question>, answers: map<int, int>, id: int, v: int)
    ensures Score(qs, answers[id := v]) ==
            Score(qs, answers - {id}) + (if AnswerCorrect(qs, id, v) then 1 else 0)
  {
    var without := CorrectIds(qs, answers - {id});
    var head := if AnswerCorrect(qs, id, v) then {id} else {};
    assert CorrectIds(qs, answers[id := v]) == head + without;
    assert id !in without;
  }

  /** An answer recorded under an id no question has never earns a point. */
  lemma UnknownIdScoresNothing(qs: seq<Question>, answers: map<int, int>, id: int, v: int)
    requires id !in Ids(qs)
    ensures Score(qs, answers[id := v]) == Score(qs, answers - {id})
  {
    ScoreAfterAnswer(qs, answers, id, v);
  }

  /** Two banks whose questions agree position by position on id and correct value find
      the same verdict for every answer. */
  lemma CorrectAgrees(qs: seq<Question>, qs': seq<Question>, id: int, v: int)
    requires |qs| == |qs'|
    requires forall i :: 0 <= i < |qs| ==> qs[i].id == qs'[i].id && qs[i].correct == qs'[i].correct
    ensures AnswerCorrect(qs, id, v) == AnswerCorrect(qs', id, v)
  {
  }

  /** Only ids and correct values decide the score: question texts, options and the min/max
      bounds of integer questions play no part. */
  lemma ScoreIgnoresBounds(qs: seq<Question>, qs': seq<Question>, answers: map<int, int>)
    requires |qs| == |qs'|
    requires forall i :: 0 <= i < |qs| ==> qs[i].id == qs'[i].id && qs[i].correct == qs'[i].correct
    ensures Score(qs, answers) == Score(qs', answers)
  {
    forall id | id in answers
      ensures AnswerCorrect(qs, id, answers[id]) == AnswerCorrect(qs', id, answers[id])
    {
      CorrectAgrees(qs, qs', id, answers[id]);
    }
    assert CorrectIds(qs, answers) == CorrectIds(qs', answers);
  }
}
