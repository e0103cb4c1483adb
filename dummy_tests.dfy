/**
 * The three tests the test store starts with. Long texts are written as
 * concatenations of shorter literals; the value is the same. Dates are
 * midnight UTC of the day given, in milliseconds since the epoch.
 */
module DummyTests {
  import opened Wrappers
  import opened TestTypes

  /** `dummyTests`, in order. */
  function DummyTests(): seq<Test> {
    [MidTerm(), PhysicsQuiz(), AlgebraChallenge()]
  }

  function MidTerm(): Test {
    Test("test-1", "Mathematics " + "Mid-Term Exam", "Mathematics",
         ["Algebra", "Geometry"], ["Linear Equations", "Triangles"], Medium,
         [MidTermQ1(), MidTermQ2(), MidTermQ3(), MidTermQ4(), MidTermQ5()],
         "teacher-1", Some("Grade 8A"), None, 1763596800000, Some(1764892800000))
  }

  function MidTermQ1(): Question {
    Question("Solve for " + "x: 2x + 5 " + "= 15",
             ["x = 5",
              "x = 10",
              "x = 7.5",
              "x = 2.5"],
             "A",
             "Subtract 5 " + "from both " + "sides: 2x " + "= 10, then " + "divide by " + "2: x = 5")
  }

  function MidTermQ2(): Question {
    Question("What is the " + "sum of angles " + "in a triangle?",
             ["90 degrees",
              "180 degrees",
              "270 degrees",
              "360 degrees"],
             "B",
             "The sum of " + "all interior " + "angles in " + "any triangle " + "is always " + "180 degrees")
  }

  function MidTermQ3(): Question {
    Question("Simplify: " + "3(x + 4)",
             ["3x + 4",
              "3x + 12",
              "x + 12",
              "3x + 7"],
             "B",
             "Distribute " + "3 to both " + "terms: 3 \U{00D7} " + "x + 3 \U{00D7} 4 " + "= 3x + 12")
  }

  function MidTermQ4(): Question {
    Question("What is the " + "perimeter " + "of a square " + "with side " + "length 5 cm?",
             ["10 cm",
              "15 cm",
              "20 cm",
              "25 cm"],
             "C",
             "Perimeter " + "= 4 \U{00D7} side " + "= 4 \U{00D7} 5 = " + "20 cm")
  }

  function MidTermQ5(): Question {
    Question("If y = 2x " + "+ 3, what " + "is y when " + "x = 4?",
             ["8",
              "11",
              "9",
              "10"],
             "B",
             "Substitute " + "x = 4: y = " + "2(4) + 3 = " + "8 + 3 = 11")
  }

  function PhysicsQuiz(): Test {
    Test("test-2", "Science Quiz " + "- Physics " + "Basics", "Science",
         ["Physics"], ["Newton's Laws", "Energy"], Easy,
         [PhysicsQuizQ1(), PhysicsQuizQ2(), PhysicsQuizQ3()],
         "teacher-1", Some("Grade 8A"), None, 1763769600000, Some(1764547200000))
  }

  function PhysicsQuizQ1(): Question {
    Question("What is Newton's " + "First Law " + "of Motion?",
             ["Force equals " + "mass times " + "acceleration",
              "An object " + "at rest stays " + "at rest unless " + "acted upon " + "by a force",
              "For every " + "action there " + "is an equal " + "and opposite " + "reaction",
              "Energy cannot " + "be created " + "or destroyed"],
             "B",
             "Newton's First " + "Law states " + "that an object " + "at rest stays " + "at rest and " + "an object " + "in motion " + "stays in motion " + "unless acted " + "upon by an " + "external force")
  }

  function PhysicsQuizQ2(): Question {
    Question("What type " + "of energy " + "does a moving " + "car have?",
             ["Potential " + "energy",
              "Kinetic energy",
              "Chemical energy",
              "Thermal energy"],
             "B",
             "Kinetic energy " + "is the energy " + "of motion. " + "A moving car " + "has kinetic " + "energy.")
  }

  function PhysicsQuizQ3(): Question {
    Question("What is the " + "unit of force?",
             ["Joule",
              "Watt",
              "Newton",
              "Pascal"],
             "C",
             "The SI unit " + "of force is " + "the Newton " + "(N), named " + "after Isaac " + "Newton")
  }

  function AlgebraChallenge(): Test {
    Test("test-3", "Advanced Algebra " + "Challenge", "Mathematics",
         ["Algebra"], ["Quadratic " + "Equations", "Polynomials"], Hard,
         [AlgebraChallengeQ1(), AlgebraChallengeQ2(), AlgebraChallengeQ3(), AlgebraChallengeQ4()],
         "teacher-2", Some("Grade 8A"), None, 1764028800000, None)
  }

  function AlgebraChallengeQ1(): Question {
    Question("Solve: x\U{00B2} " + "- 5x + 6 = " + "0",
             ["x = 2 or x " + "= 3",
              "x = 1 or x " + "= 6",
              "x = -2 or " + "x = -3",
              "x = 2 or x " + "= -3"],
             "A",
             "Factor: (x " + "- 2)(x - 3) " + "= 0, so x " + "= 2 or x = " + "3")
  }

  function AlgebraChallengeQ2(): Question {
    Question("What is the " + "degree of " + "the polynomial: " + "3x\U{2074} + 2x\U{00B2} " + "- x + 5?",
             ["2",
              "3",
              "4",
              "5"],
             "C",
             "The degree " + "is the highest " + "power of x, " + "which is 4")
  }

  function AlgebraChallengeQ3(): Question {
    Question("Expand: (x " + "+ 3)\U{00B2}",
             ["x\U{00B2} + 9",
              "x\U{00B2} + 6x + " + "9",
              "x\U{00B2} + 3x + " + "9",
              "x\U{00B2} + 6x + " + "6"],
             "B",
             "(x + 3)\U{00B2} = " + "(x + 3)(x " + "+ 3) = x\U{00B2} " + "+ 3x + 3x " + "+ 9 = x\U{00B2} + " + "6x + 9")
  }

  function AlgebraChallengeQ4(): Question {
    Question("If f(x) = " + "2x + 1, what " + "is f(f(2))?",
             ["9",
              "11",
              "7",
              "5"],
             "B",
             "f(2) = 2(2) " + "+ 1 = 5, then " + "f(5) = 2(5) " + "+ 1 = 11")
  }

  lemma MidTermShaped()
    ensures TestShaped(MidTerm()) && |MidTerm().questions| == 5
  {
  }

  lemma PhysicsQuizShaped()
    ensures TestShaped(PhysicsQuiz()) && |PhysicsQuiz().questions| == 3
  {
  }

  lemma AlgebraChallengeShaped()
    ensures TestShaped(AlgebraChallenge()) && |AlgebraChallenge().questions| == 4
  {
  }

  /** Every question of every built-in test has four options and an answer letter from A to D. */
  lemma DummyTestsShaped()
    ensures |DummyTests()| == 3
    ensures forall i :: 0 <= i < |DummyTests()| ==> TestShaped(DummyTests()[i])
  {
    MidTermShaped();
    PhysicsQuizShaped();
    AlgebraChallengeShaped();
  }
}
