/** The records the quiz works on: its questions and the result of one attempt. */
module QuizTypes {

  datatype Option<T> = None | Some(value: T)

  /** A question of the bank: multiple choice (the answer is an option index) or an integer
      answer whose bounds are advisory only. */
  datatype Question =
    | Mcq(id: int, question: string, options: seq<string>, correct: int)
    | Integer(id: int, question: string, correct: int, min: Option<int>, max: Option<int>)

  /** The record a submission hands to the result store; its date comes from the clock and is
      left to the caller. */
  datatype QuizResult = QuizResult(score: nat, totalQuestions: nat, answers: map<int, int>)

  /** The seconds every question starts with. */
  const SecondsPerQuestion := 30

  predicate UniqueIds(qs: seq<Question>) {
    forall i, j :: 0 <= i < j < |qs| ==> qs[i].id != qs[j].id
  }

  /** A bank the quiz can run on: at least one question, no id twice. */
  predicate ValidBank(qs: seq<Question>) {
    |qs| > 0 && UniqueIds(qs)
  }

  function Ids(qs: seq<Question>): set<int> {
    set i | 0 <= i < |qs| :: qs[i].id
  }

  /** Distinct ids: the bank has exactly as many ids as questions. */
  lemma {:induction false} IdsCount(qs: seq<Question>)
    requires UniqueIds(qs)
    ensures |Ids(qs)| == |qs|
  {
    if qs != [] {
      var rest := qs[1..];
      IdsCount(rest);
      assert Ids(qs) == {qs[0].id} + Ids(rest) by {
        forall id | id in Ids(qs) ensures id in {qs[0].id} + Ids(rest) {
          var i :| 0 <= i < |qs| && qs[i].id == id;
          if i > 0 { assert rest[i - 1].id == id; }
        }
        forall id | id in Ids(rest) ensures id in Ids(qs) {
          var i :| 0 <= i < |rest| && rest[i].id == id;
          assert qs[i + 1].id == id;
        }
      }
      assert qs[0].id !in Ids(rest) by {
        forall i | 0 <= i < |rest| ensures rest[i].id != qs[0].id {
          assert rest[i] == qs[i + 1];
        }
      }
    }
  }
}
