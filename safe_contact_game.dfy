/**
 * The safe touch game: ten fixed scenarios in order, each answered safe or
 * not safe; the answer's feedback stays on screen for three seconds, after
 * which a timer moves to the next scenario or to the completion screen.
 */
module SafeContactGame {
  import opened Wrappers
  import opened Scoring
  import opened Selection

  /** The circle of the person in the scenario. */
  datatype CircleColor = Blue | Green | Yellow | Orange | Red

  /** A scenario (situation, person, action and explanation texts are left out). */
  datatype Scenario = Scenario(id: nat, circleColor: CircleColor, isSafe: bool)

  function Scenarios(): seq<Scenario>
  {
    [
      Scenario(1, Blue, true),
      Scenario(2, Red, false),
      Scenario(3, Orange, true),
      Scenario(4, Red, false),
      Scenario(5, Orange, true),
      Scenario(6, Green, true),
      Scenario(7, Yellow, false),
      Scenario(8, Blue, true),
      Scenario(9, Red, false),
      Scenario(10, Orange, true)
    ]
  }

  /** The feedback shown after an answer. */
  datatype Feedback = Correct | Incorrect

  /**
   * Ten scenarios, no two alike, and every scenario with a stranger (the
   * red circle) is unsafe.
   */
  lemma ScenariosFacts()
    ensures |Scenarios()| == 10
    ensures Distinct(Scenarios())
    ensures forall k | 0 <= k < 10 :: Scenarios()[k].circleColor == Red ==> !Scenarios()[k].isSafe
  {
    PositionalKeysDistinct(Scenarios(), (s: Scenario) => s.id);
  }

  class Game {
    var currentIndex: nat
    var score: nat
    var feedback: Option<Feedback>
    var gameComplete: bool
    /** Whether each answer given so far this round was right, in order. */
    ghost var answers: seq<bool>

    /**
     * One answer per scenario reached (the current one included once it is
     * answered), the score counts exactly the right answers, the feedback
     * shows the current answer's outcome, and the game completes on the
     * last scenario with no feedback left on screen.
     */
    ghost predicate Valid()
      reads this
    {
      && currentIndex < |Scenarios()|
      && |answers| == currentIndex + (if feedback.Some? || gameComplete then 1 else 0)
      && score == CountCorrect(answers)
      && (feedback.Some? ==> !gameComplete && answers[currentIndex] == (feedback.value == Correct))
      && (gameComplete ==> currentIndex == |Scenarios()| - 1 && feedback == None)
    }

    /**
     * The score never exceeds the scenarios answered, and so never exceeds
     * the ten scenarios.
     */
    lemma ScoreWithinAnswered()
      requires Valid()
      ensures score <= currentIndex + (if feedback.Some? || gameComplete then 1 else 0)
      ensures score <= |Scenarios()|
    {
    }

    /** The hooks' initial values. */
    constructor ()
      ensures Valid()
      ensures currentIndex == 0 && score == 0 && feedback == None && !gameComplete
      ensures answers == []
    {
      currentIndex := 0;
      score := 0;
      feedback := None;
      gameComplete := false;
      answers := [];
    }

    /**
     * The safe or not-safe button on the game screen. While feedback is on
     * screen the click is ignored; otherwise the answer is right exactly
     * when it matches the scenario, the score rises by one exactly then,
     * and the matching feedback appears (starting the timer).
     */
    method HandleChoice(userSaysIsSafe: bool)
      requires Valid() && !gameComplete
      modifies this
      ensures Valid()
      ensures old(feedback).Some? ==> unchanged(this)
      ensures currentIndex == old(currentIndex) && !gameComplete
      ensures old(feedback).None? ==>
                var right := userSaysIsSafe == Scenarios()[currentIndex].isSafe;
                && feedback == Some(if right then Correct else Incorrect)
                && score == old(score) + (if right then 1 else 0)
                && answers == old(answers) + [right]
    {
      if feedback.Some? {
        return;
      }
      var right := userSaysIsSafe == Scenarios()[currentIndex].isSafe;
      CountCorrectAppend(answers, right);
      answers := answers + [right];
      if right {
        feedback := Some(Correct);
        score := score + 1;
      } else {
        feedback := Some(Incorrect);
      }
    }

    /**
     * The three-second timer started by an answer: the feedback is cleared
     * and the game moves to the next scenario, or completes after the last
     * one. The index it captured is the current one, since only this timer
     * changes the index and no second answer is taken meanwhile.
     */
    method FeedbackTimeout()
      requires Valid() && feedback.Some?
      modifies this
      ensures Valid()
      ensures feedback == None
      ensures old(currentIndex) < |Scenarios()| - 1 ==>
                currentIndex == old(currentIndex) + 1 && !gameComplete
      ensures old(currentIndex) == |Scenarios()| - 1 ==>
                currentIndex == old(currentIndex) && gameComplete
      ensures score == old(score) && answers == old(answers)
    {
      feedback := None;
      if currentIndex < |Scenarios()| - 1 {
        currentIndex := currentIndex + 1;
      } else {
        gameComplete := true;
      }
    }

    /**
     * Stars on the completion screen, over all ten scenarios: the score is
     * the number of right answers among the ten, and three stars follow
     * when every answer was right.
     */
    function Stars(): (stars: nat)
      reads this
      requires Valid() && gameComplete
      ensures 1 <= stars <= 3
      ensures |answers| == |Scenarios()| && score == CountCorrect(answers)
      ensures (forall k | 0 <= k < |answers| :: answers[k]) ==> stars == 3
    {
      RecordStars(answers);
      SessionStars(score, |Scenarios()|)
    }

    /** Play Again: back to the first scenario with a zero score. */
    method PlayAgain()
      requires Valid() && gameComplete
      modifies this
      ensures Valid()
      ensures currentIndex == 0 && score == 0 && !gameComplete && feedback == None
      ensures answers == []
    {
      currentIndex := 0;
      score := 0;
      gameComplete := false;
      answers := [];
    }
  }
}
