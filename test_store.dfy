/**
 * The test store: the tests on offer and the attempts students have
 * submitted, held in memory, with two appends and three queries.
 */
module TestStore {
  import opened Wrappers
  import Seqs
  import opened TestTypes
  import DummyTests

  /**
   * `getTestsForStudent`: tests created for this student, and every test
   * that names any class at all, whichever class that is.
   */
  function ForStudent(tests: seq<Test>, studentId: string): (r: seq<Test>)
    ensures forall t :: t in r <==>
              t in tests && (t.createdFor == Some(studentId) || (t.classId.Some? && t.classId.value != ""))
  {
    Seqs.Filter(tests, (t: Test) => t.createdFor == Some(studentId) || (t.classId.Some? && t.classId.value != ""))
  }

  /** `getTestsForClass`: the tests carrying exactly this class id, in store order. */
  function ForClass(tests: seq<Test>, classId: string): (r: seq<Test>)
    ensures forall t :: t in r <==> t in tests && t.classId == Some(classId)
  {
    Seqs.Filter(tests, (t: Test) => t.classId == Some(classId))
  }

  /** The class filter keeps store order: it works piecewise on a split list. */
  lemma ForClassConcat(a: seq<Test>, b: seq<Test>, classId: string)
    ensures ForClass(a + b, classId) == ForClass(a, classId) + ForClass(b, classId)
  {
    Seqs.FilterConcat(a, b, (t: Test) => t.classId == Some(classId));
  }

  /** A test of some class is offered to every student, including students of other classes. */
  lemma ClassTestOfferedToEveryone(tests: seq<Test>, t: Test, studentId: string)
    requires t in tests && t.classId.Some? && t.classId.value != ""
    ensures t in ForStudent(tests, studentId)
  {
  }

  /** `getAttemptForTest`: the earliest attempt by this student at this test, if any. */
  function AttemptFor(attempts: seq<TestAttempt>, testId: string, studentId: string): (r: Option<TestAttempt>)
    ensures r.Some? <==> exists i :: 0 <= i < |attempts| && attempts[i].testId == testId && attempts[i].studentId == studentId
    ensures r.Some? ==> exists i :: 0 <= i < |attempts| && attempts[i] == r.value &&
                          r.value.testId == testId && r.value.studentId == studentId &&
                          forall j :: 0 <= j < i ==> !(attempts[j].testId == testId && attempts[j].studentId == studentId)
  {
    match Seqs.FindFirst(attempts, (a: TestAttempt) => a.testId == testId && a.studentId == studentId)
    case None => None
    case Some(k) => Some(attempts[k])
  }

  /** Once a student has an attempt at a test, attempts added later never change what is found. */
  lemma {:induction false} LaterAttemptsIgnored(attempts: seq<TestAttempt>, later: seq<TestAttempt>, testId: string, studentId: string)
    requires AttemptFor(attempts, testId, studentId).Some?
    ensures AttemptFor(attempts + later, testId, studentId) == AttemptFor(attempts, testId, studentId)
  {
    var p := (a: TestAttempt) => a.testId == testId && a.studentId == studentId;
    var k := Seqs.FindFirst(attempts, p).value;
    assert (attempts + later)[k] == attempts[k];
    assert p((attempts + later)[k]);
  }

  /** The first attempt a student submits at a test is the one found from then on. */
  lemma FirstAttemptFound(attempts: seq<TestAttempt>, a: TestAttempt)
    requires AttemptFor(attempts, a.testId, a.studentId).None?
    ensures AttemptFor(attempts + [a], a.testId, a.studentId) == Some(a)
  {
    var s := attempts + [a];
    assert s[|attempts|] == a;
    var r := AttemptFor(s, a.testId, a.studentId);
    var i :| 0 <= i < |s| && s[i] == r.value && r.value.testId == a.testId && r.value.studentId == a.studentId;
    if i < |attempts| {
      assert attempts[i] == s[i];
    }
  }

  class Store {
    var tests: seq<Test>
    var testAttempts: seq<TestAttempt>

    /** The store starts with the three built-in tests and no attempts. */
    constructor()
      ensures tests == DummyTests.DummyTests() && testAttempts == []
    {
      tests := DummyTests.DummyTests();
      testAttempts := [];
    }

    method AddTest(test: Test)
      modifies this
      ensures tests == old(tests) + [test] && testAttempts == old(testAttempts)
    {
      tests := tests + [test];
    }

    method AddTestAttempt(attempt: TestAttempt)
      modifies this
      ensures testAttempts == old(testAttempts) + [attempt] && tests == old(tests)
    {
      testAttempts := testAttempts + [attempt];
    }

    function GetTestsForStudent(studentId: string): (r: seq<Test>)
      reads this
      ensures forall t :: t in r <==>
                t in tests && (t.createdFor == Some(studentId) || (t.classId.Some? && t.classId.value != ""))
    {
      ForStudent(tests, studentId)
    }

    function GetTestsForClass(classId: string): (r: seq<Test>)
      reads this
      ensures forall t :: t in r <==> t in tests && t.classId == Some(classId)
    {
      ForClass(tests, classId)
    }

    function GetAttemptForTest(testId: string, studentId: string): (r: Option<TestAttempt>)
      reads this
      ensures r.Some? <==> exists i :: 0 <= i < |testAttempts| &&
                             testAttempts[i].testId == testId && testAttempts[i].studentId == studentId
      ensures r.Some? ==> exists i :: 0 <= i < |testAttempts| && testAttempts[i] == r.value &&
                            r.value.testId == testId && r.value.studentId == studentId &&
                            forall j :: 0 <= j < i ==> !(testAttempts[j].testId == testId && testAttempts[j].studentId == studentId)
    {
      AttemptFor(testAttempts, testId, studentId)
    }
  }
}
