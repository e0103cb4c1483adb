/**
 * The shapes of tests, their questions and a student's attempt, and the
 * letters that name a question's options.
 */
module TestTypes {
  import opened Wrappers

  datatype Difficulty = Easy | Medium | Hard

  /** A multiple-choice question; `correctAnswer` is the letter of the right option. */
  datatype Question = Question(question: string, options: seq<string>, correctAnswer: string, explanation: string)

  /** A test. Times are clock readings in milliseconds. */
  datatype Test = Test(
    id: string,
    title: string,
    subject: string,
    topics: seq<string>,
    subtopics: seq<string>,
    difficulty: Difficulty,
    questions: seq<Question>,
    createdBy: string,
    classId: Option<string>,
    createdFor: Option<string>,
    createdAt: nat,
    dueDate: Option<nat>)

  /** One submitted attempt: the answer letter given per question index, and the score in percent. */
  datatype TestAttempt = TestAttempt(
    id: string,
    testId: string,
    studentId: string,
    answers: map<nat, string>,
    score: int,
    startedAt: nat,
    completedAt: nat)

  /** `String.fromCharCode(65 + i)`: the letter naming option `i`, from 'A' on. */
  function OptionLetter(i: nat): (c: char)
    requires i < 26
    ensures 'A' <= c <= 'Z' && c as int == 65 + i
  {
    (65 + i) as char
  }

  /** Distinct options get distinct letters. */
  lemma OptionLettersDistinct(i: nat, j: nat)
    requires i < 26 && j < 26 && i != j
    ensures OptionLetter(i) != OptionLetter(j)
  {
  }

  /** Four options, and a correct answer that is one of the letters A to D. */
  predicate QuestionShaped(q: Question) {
    |q.options| == 4 && |q.correctAnswer| == 1 && 'A' <= q.correctAnswer[0] <= 'D'
  }

  predicate TestShaped(t: Test) {
    forall i :: 0 <= i < |t.questions| ==> QuestionShaped(t.questions[i])
  }

  /** The correct answer of a well-shaped question is the letter of exactly one of its options. */
  lemma CorrectAnswerNamesAnOption(q: Question)
    requires QuestionShaped(q)
    ensures exists k :: 0 <= k < |q.options| && q.correctAnswer == [OptionLetter(k)]
    ensures forall k :: 0 <= k < |q.options| && q.correctAnswer == [OptionLetter(k)] ==>
              k == q.correctAnswer[0] as int - 65
  {
    var k := q.correctAnswer[0] as int - 65;
    assert q.correctAnswer == [OptionLetter(k)];
  }
}
