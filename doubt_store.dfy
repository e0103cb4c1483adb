/**
 * The doubt store: the doubts learners and teachers have raised, held in
 * memory, with append, answer-by-id and two queries.
 */
module DoubtStore {
  import opened Wrappers
  import Seqs

  datatype UserType = Student | Teacher

  /** A doubt as submitted: everything but its id and creation time. Times are clock readings. */
  datatype DoubtDraft = DoubtDraft(
    userId: string,
    userType: UserType,
    subject: string,
    topic: string,
    subtopic: string,
    question: string,
    answer: Option<string>,
    answeredAt: Option<nat>)

  datatype Doubt = Doubt(
    id: string,
    userId: string,
    userType: UserType,
    subject: string,
    topic: string,
    subtopic: string,
    question: string,
    answer: Option<string>,
    createdAt: nat,
    answeredAt: Option<nat>)

  /** The stored doubt for a draft: its fields plus the given id and creation time. */
  function Created(d: DoubtDraft, id: string, now: nat): (r: Doubt)
    ensures r.id == id && r.createdAt == now
    ensures r.userId == d.userId && r.userType == d.userType && r.subject == d.subject
    ensures r.topic == d.topic && r.subtopic == d.subtopic && r.question == d.question
    ensures r.answer == d.answer && r.answeredAt == d.answeredAt
  {
    Doubt(id, d.userId, d.userType, d.subject, d.topic, d.subtopic, d.question, d.answer, now, d.answeredAt)
  }

  /** Every doubt with this id carries the answer and the answer time; the others are kept. */
  function Answered(doubts: seq<Doubt>, doubtId: string, answer: string, now: nat): (r: seq<Doubt>)
    ensures |r| == |doubts|
    ensures forall i :: 0 <= i < |doubts| && doubts[i].id == doubtId ==>
              r[i] == doubts[i].(answer := Some(answer), answeredAt := Some(now))
    ensures forall i :: 0 <= i < |doubts| && doubts[i].id != doubtId ==> r[i] == doubts[i]
  {
    seq(|doubts|, i requires 0 <= i < |doubts| =>
      if doubts[i].id == doubtId then doubts[i].(answer := Some(answer), answeredAt := Some(now)) else doubts[i])
  }

  /** Answering the same id twice leaves only the second answer. */
  lemma AnswerAgainOverwrites(doubts: seq<Doubt>, doubtId: string, a1: string, t1: nat, a2: string, t2: nat)
    ensures Answered(Answered(doubts, doubtId, a1, t1), doubtId, a2, t2) == Answered(doubts, doubtId, a2, t2)
  {
  }

  /** Answering an id no doubt has changes nothing. */
  lemma AnswerUnknownIsNoop(doubts: seq<Doubt>, doubtId: string, answer: string, now: nat)
    requires forall i :: 0 <= i < |doubts| ==> doubts[i].id != doubtId
    ensures Answered(doubts, doubtId, answer, now) == doubts
  {
  }

  /** Answering never changes which subjects appear or where. */
  lemma AnswerKeepsSubjects(doubts: seq<Doubt>, doubtId: string, answer: string, now: nat)
    ensures SubjectsOf(Answered(doubts, doubtId, answer, now)) == SubjectsOf(doubts)
  {
  }

  /** `doubts.filter(d => d.subject === subject)`. */
  function BySubject(doubts: seq<Doubt>, subject: string): (r: seq<Doubt>)
    ensures forall d :: d in r <==> d in doubts && d.subject == subject
  {
    Seqs.Filter(doubts, (d: Doubt) => d.subject == subject)
  }

  /** The subject filter keeps store order: it works piecewise on a split list. */
  lemma BySubjectConcat(a: seq<Doubt>, b: seq<Doubt>, subject: string)
    ensures BySubject(a + b, subject) == BySubject(a, subject) + BySubject(b, subject)
  {
    Seqs.FilterConcat(a, b, (d: Doubt) => d.subject == subject);
  }

  /** The subject of each doubt, in store order. */
  function SubjectsOf(doubts: seq<Doubt>): (r: seq<string>)
    ensures |r| == |doubts| && forall i :: 0 <= i < |doubts| ==> r[i] == doubts[i].subject
  {
    seq(|doubts|, i requires 0 <= i < |doubts| => doubts[i].subject)
  }

  /** The position of the first occurrence of `x` in `s`. */
  function FirstIndex(s: seq<string>, x: string): (k: nat)
    requires x in s
    ensures k < |s| && s[k] == x && forall j :: 0 <= j < k ==> s[j] != x
  {
    if s[0] == x then 0 else 1 + FirstIndex(s[1..], x)
  }

  /** The elements of `s` without repeats, in order of first occurrence, as a `Set` keeps them. */
  function Distinct(s: seq<string>): (r: seq<string>)
    ensures forall x :: x in r <==> x in s
    ensures forall i, j :: 0 <= i < j < |r| ==> r[i] != r[j]
  {
    if |s| == 0 then []
    else
      var d := Distinct(s[..|s| - 1]);
      assert forall x :: x in s <==> x in s[..|s| - 1] || x == s[|s| - 1];
      if s[|s| - 1] in d then d else d + [s[|s| - 1]]
  }

  lemma FirstIndexInPrefix(s: seq<string>, x: string)
    requires |s| > 0 && x in s[..|s| - 1]
    ensures FirstIndex(s, x) == FirstIndex(s[..|s| - 1], x)
  {
    var k := FirstIndex(s[..|s| - 1], x);
    assert s[k] == x;
  }

  /** `Distinct` lists its elements in increasing order of their first occurrence. */
  lemma {:induction false} DistinctFirstOccurrenceOrder(s: seq<string>)
    ensures forall i, j :: 0 <= i < j < |Distinct(s)| ==>
              FirstIndex(s, Distinct(s)[i]) < FirstIndex(s, Distinct(s)[j])
  {
    if |s| > 0 {
      var p := s[..|s| - 1];
      var d := Distinct(p);
      DistinctFirstOccurrenceOrder(p);
      forall x | x in d
        ensures FirstIndex(s, x) == FirstIndex(p, x) < |s| - 1
      {
        FirstIndexInPrefix(s, x);
      }
      if s[|s| - 1] !in d {
        assert FirstIndex(s, s[|s| - 1]) == |s| - 1;
        var r := d + [s[|s| - 1]];
        assert r == Distinct(s);
        forall i, j | 0 <= i < j < |r|
          ensures FirstIndex(s, r[i]) < FirstIndex(s, r[j])
        {
          assert r[i] in d;
        }
      }
    }
  }

  /** A doubt with a new subject adds that subject at the end; otherwise the subject list is unchanged. */
  lemma {:induction false} SubjectsAfterAdd(doubts: seq<Doubt>, d: Doubt)
    ensures Distinct(SubjectsOf(doubts + [d])) ==
            if d.subject in Distinct(SubjectsOf(doubts)) then Distinct(SubjectsOf(doubts))
            else Distinct(SubjectsOf(doubts)) + [d.subject]
  {
    assert SubjectsOf(doubts + [d])[..|doubts|] == SubjectsOf(doubts);
  }

  class Store {
    var doubts: seq<Doubt>

    /** The store starts empty. */
    constructor()
      ensures doubts == []
    {
      doubts := [];
    }

    /** `addDoubt`: appends the draft under a fresh id and the current time. */
    method AddDoubt(draft: DoubtDraft, freshId: string, now: nat)
      modifies this
      ensures doubts == old(doubts) + [Created(draft, freshId, now)]
    {
      doubts := doubts + [Created(draft, freshId, now)];
    }

    /** `answerDoubt`. */
    method AnswerDoubt(doubtId: string, answer: string, now: nat)
      modifies this
      ensures doubts == Answered(old(doubts), doubtId, answer, now)
    {
      doubts := Answered(doubts, doubtId, answer, now);
    }

    function GetDoubtsBySubject(subject: string): (r: seq<Doubt>)
      reads this
      ensures forall d :: d in r <==> d in doubts && d.subject == subject
    {
      BySubject(doubts, subject)
    }

    /** `getAllSubjects`: each subject of some doubt once, in order of first occurrence. */
    function GetAllSubjects(): (r: seq<string>)
      reads this
      ensures forall x :: x in r <==> exists i :: 0 <= i < |doubts| && doubts[i].subject == x
      ensures forall i, j :: 0 <= i < j < |r| ==> r[i] != r[j]
    {
      Distinct(SubjectsOf(doubts))
    }
  }
}
