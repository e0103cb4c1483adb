/**
 * The page on which a student takes a test: one question at a time, an
 * answer letter recorded per question index, and a submission that counts
 * the correct answers, scores them and records one attempt.
 */
module StudentTestPage {
  import opened Wrappers
  import opened TestTypes
  import TestStore

  /** The student the page submits for; the source fixes it. */
  function StudentId(): string {
    "student-1"
  }

  /** Whether the answer recorded for question `k` is its correct letter; an unanswered question is not. */
  predicate AnsweredCorrectly(questions: seq<Question>, answers: map<nat, string>, k: nat)
    requires k < |questions|
  {
    k in answers && answers[k] == questions[k].correctAnswer
  }

  /** The number of questions among the first `i` answered correctly. */
  function CorrectCount(questions: seq<Question>, answers: map<nat, string>, i: nat): (c: nat)
    requires i <= |questions|
    ensures c <= i
  {
    if i == 0 then 0
    else CorrectCount(questions, answers, i - 1) + (if AnsweredCorrectly(questions, answers, i - 1) then 1 else 0)
  }

  /** The question indices answered correctly, as a set. */
  function CorrectIndices(questions: seq<Question>, answers: map<nat, string>, i: nat): set<nat>
    requires i <= |questions|
  {
    set k | k in answers && k < i && answers[k] == questions[k].correctAnswer
  }

  /** Counting question by question gives the size of the set of correctly answered indices. */
  lemma {:induction false} CountIsSetSize(questions: seq<Question>, answers: map<nat, string>, i: nat)
    requires i <= |questions|
    ensures CorrectCount(questions, answers, i) == |CorrectIndices(questions, answers, i)|
  {
    if i > 0 {
      CountIsSetSize(questions, answers, i - 1);
      var before := CorrectIndices(questions, answers, i - 1);
      if AnsweredCorrectly(questions, answers, i - 1) {
        assert CorrectIndices(questions, answers, i) == before + {i - 1};
      } else {
        assert CorrectIndices(questions, answers, i) == before;
      }
    }
  }

  /** Division of a natural number by a positive one, in the form the score needs. */
  lemma DivisionBounds(a: nat, d: nat)
    requires 0 < d
    ensures d * (a / d) <= a < d * (a / d) + d
  {
  }

  /** A product with a positive factor grows with the other factor. */
  lemma MultiplyMonotone(d: nat, x: int, y: int)
    requires 0 < d && x < y
    ensures d * x + d <= d * y
  {
    var k: nat := y - x - 1;
    ProductAtLeastFactor(d, k);
    assert d * y == d * x + d * (k + 1);
    assert d * (k + 1) == d * k + d;
  }

  lemma {:induction false} ProductAtLeastFactor(d: nat, k: nat)
    ensures d * k >= 0
  {
    if k > 0 {
      ProductAtLeastFactor(d, k - 1);
      assert d * k == d * (k - 1) + d;
    }
  }

  /**
   * `Math.round(correct / n * 100)`: the whole percentage nearest to the
   * share of correct answers, halves rounded up.
   */
  function Score(correct: nat, n: nat): (r: int)
    requires 0 < n && correct <= n
    ensures 0 <= r <= 100
    ensures 2 * n * r - n <= 200 * correct < 2 * n * r + n
  {
    var r := (200 * correct + n) / (2 * n);
    DivisionBounds(200 * correct + n, 2 * n);
    if r > 100 then (MultiplyMonotone(2 * n, 100, r); r) else r
  }

  /** A better count never scores lower; all correct scores 100 and none correct scores 0. */
  lemma ScoreMonotone(c1: nat, c2: nat, n: nat)
    requires 0 < n && c1 <= c2 <= n
    ensures Score(c1, n) <= Score(c2, n)
    ensures Score(n, n) == 100 && Score(0, n) == 0
  {
    var s1, s2 := Score(c1, n), Score(c2, n);
    if s1 > s2 {
      MultiplyMonotone(2 * n, s2, s1);
    }
    var top := Score(n, n);
    if top < 100 {
      MultiplyMonotone(2 * n, top, 100);
    }
    var bottom := Score(0, n);
    if bottom > 0 {
      MultiplyMonotone(2 * n, 0, bottom);
    }
  }

  /**
   * The recount on the results view: the answer entries whose letter is
   * the correct one. It looks up the question for every entry, so every
   * entry must name a question.
   */
  function Recount(questions: seq<Question>, answers: map<nat, string>): nat
    requires forall k :: k in answers ==> k < |questions|
  {
    |set k | k in answers && answers[k] == questions[k].correctAnswer|
  }

  /** The recount equals the submission's count when every answer names a question. */
  lemma RecountMatchesCount(questions: seq<Question>, answers: map<nat, string>)
    requires forall k :: k in answers ==> k < |questions|
    ensures Recount(questions, answers) == CorrectCount(questions, answers, |questions|)
    ensures CorrectCount(questions, answers, |questions|) <= |answers|
  {
    CountIsSetSize(questions, answers, |questions|);
    var s := CorrectIndices(questions, answers, |questions|);
    assert s == set k | k in answers && answers[k] == questions[k].correctAnswer;
    assert s <= answers.Keys;
    SubsetSize(s, answers.Keys);
  }

  lemma {:induction false} SubsetSize(a: set<nat>, b: set<nat>)
    requires a <= b
    ensures |a| <= |b|
  {
    if a != {} {
      var x :| x in a;
      SubsetSize(a - {x}, b - {x});
    }
  }

  class Page {
    const test: Test
    const store: TestStore.Store
    const startTime: nat
    var currentQuestion: nat
    var answers: map<nat, string>
    var isSubmitted: bool

    /** The current index names a question, and so does every recorded answer. */
    predicate Valid()
      reads this
    {
      && 0 < |test.questions|
      && currentQuestion < |test.questions|
      && forall k :: k in answers ==> k < |test.questions|
    }

    /** The page opens on the first question with nothing answered; it shows a question, so there is one. */
    constructor(test: Test, store: TestStore.Store, startTime: nat)
      requires 0 < |test.questions|
      ensures this.test == test && this.store == store && this.startTime == startTime
      ensures currentQuestion == 0 && answers == map[] && !isSubmitted
      ensures Valid()
    {
      this.test := test;
      this.store := store;
      this.startTime := startTime;
      currentQuestion := 0;
      answers := map[];
      isSubmitted := false;
    }

    /** `handleAnswer`: records the letter for the current question only. */
    method HandleAnswer(answer: string)
      requires Valid()
      modifies this
      ensures answers == old(answers)[old(currentQuestion) := answer]
      ensures currentQuestion == old(currentQuestion) && isSubmitted == old(isSubmitted)
      ensures Valid()
    {
      answers := answers[currentQuestion := answer];
    }

    /** `handleNext`: moves on unless at the last question. */
    method HandleNext()
      requires Valid()
      modifies this
      ensures currentQuestion == if old(currentQuestion) < |test.questions| - 1 then old(currentQuestion) + 1
                                 else old(currentQuestion)
      ensures answers == old(answers) && isSubmitted == old(isSubmitted)
      ensures Valid()
    {
      if currentQuestion < |test.questions| - 1 {
        currentQuestion := currentQuestion + 1;
      }
    }

    /** `handlePrevious`: moves back unless at the first question. */
    method HandlePrevious()
      requires Valid()
      modifies this
      ensures currentQuestion == if old(currentQuestion) > 0 then old(currentQuestion) - 1 else old(currentQuestion)
      ensures answers == old(answers) && isSubmitted == old(isSubmitted)
      ensures Valid()
    {
      if currentQuestion > 0 {
        currentQuestion := currentQuestion - 1;
      }
    }

    /** The navigator: one button per question, each jumping to its own index. */
    method GoToQuestion(idx: nat)
      requires Valid() && idx < |test.questions|
      modifies this
      ensures currentQuestion == idx && answers == old(answers) && isSubmitted == old(isSubmitted)
      ensures Valid()
    {
      currentQuestion := idx;
    }

    /**
     * `handleSubmit`: unanswered questions only raise a notice; the correct
     * answers are counted, scored, and one attempt with the answers and the
     * score is recorded. `freshId` and `now` stand for the clock.
     */
    method HandleSubmit(freshId: string, now: nat) returns (unanswered: int, correct: nat, score: int)
      requires Valid()
      modifies this, store
      ensures unanswered == |test.questions| - |answers|
      ensures correct == CorrectCount(test.questions, answers, |test.questions|)
      ensures score == Score(correct, |test.questions|)
      ensures store.testAttempts ==
                old(store.testAttempts) + [TestAttempt(freshId, test.id, StudentId(), answers, score, startTime, now)]
      ensures store.tests == old(store.tests)
      ensures isSubmitted && answers == old(answers) && currentQuestion == old(currentQuestion)
      ensures Valid()
    {
      unanswered := |test.questions| - |answers|;
      correct := 0;
      var idx := 0;
      while idx < |test.questions|
        invariant idx <= |test.questions|
        invariant correct == CorrectCount(test.questions, answers, idx)
      {
        if idx in answers && answers[idx] == test.questions[idx].correctAnswer {
          correct := correct + 1;
        }
        idx := idx + 1;
      }
      score := Score(correct, |test.questions|);
      store.AddTestAttempt(TestAttempt(freshId, test.id, StudentId(), answers, score, startTime, now));
      isSubmitted := true;
    }
  }
}
