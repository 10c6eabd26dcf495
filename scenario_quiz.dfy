/**
 * The scenario quiz: six fixed scenarios in order. Each is introduced on a
 * scene screen, then answered by one of three choices; a wrong choice shows
 * feedback and sends the child back to the choices, a right one scores and
 * leads on to the next scenario.
 */
module ScenarioQuiz {
  import opened Scoring
  import opened Selection

  /** The five screens of the quiz. */
  datatype GameState = Setup | Choosing | FeedbackIncorrect | FeedbackCorrect | Complete

  /** The circle colour of the character in a scenario. */
  datatype CircleType = Red | Green | Yellow

  /** A choice button (label and icon are left out). */
  datatype Choice = Choice(id: string, safe: bool)

  /** A scenario (title, scene, prompt and feedback texts are left out). */
  datatype Scenario = Scenario(id: nat, circleType: CircleType, choices: seq<Choice>)

  function Scenarios(): seq<Scenario>
  {
    [
      Scenario(1, Red, [Choice("go", false), Choice("no", true), Choice("parent", true)]),
      Scenario(2, Green, [Choice("yes", false), Choice("no", true), Choice("parent", true)]),
      Scenario(3, Yellow, [Choice("tell", false), Choice("no", true), Choice("parent", true)]),
      Scenario(4, Yellow, [Choice("laugh", false), Choice("stop", true), Choice("adult", true)]),
      Scenario(5, Yellow, [Choice("take", false), Choice("no", true), Choice("parent", true)]),
      Scenario(6, Red, [Choice("chat", false), Choice("ignore", true), Choice("parent", true)])
    ]
  }

  /**
   * Six scenarios, no two alike, each offering three choices of which the
   * first is unsafe and the other two safe, so every scenario can be both
   * failed and passed.
   */
  lemma ScenariosFacts()
    ensures |Scenarios()| == 6
    ensures Distinct(Scenarios())
    ensures forall k | 0 <= k < 6 ::
              && |Scenarios()[k].choices| == 3
              && !Scenarios()[k].choices[0].safe
              && Scenarios()[k].choices[1].safe
              && Scenarios()[k].choices[2].safe
  {
    PositionalKeysDistinct(Scenarios(), (s: Scenario) => s.id);
  }

  class Game {
    var currentScenarioIndex: nat
    var gameState: GameState
    var score: nat

    /**
     * The index stays on a scenario, and the score counts exactly the
     * scenarios passed: one per scenario before the current one, plus the
     * current one once it is answered safely; the quiz completes only after
     * the last scenario is passed.
     */
    ghost predicate Valid()
      reads this
    {
      && currentScenarioIndex < |Scenarios()|
      && (gameState == FeedbackCorrect || gameState == Complete ==>
            score == currentScenarioIndex + 1)
      && (gameState != FeedbackCorrect && gameState != Complete ==>
            score == currentScenarioIndex)
      && (gameState == Complete ==> currentScenarioIndex == |Scenarios()| - 1)
    }

    /** The hooks' initial values. */
    constructor ()
      ensures Valid()
      ensures currentScenarioIndex == 0 && gameState == Setup && score == 0
    {
      currentScenarioIndex := 0;
      gameState := Setup;
      score := 0;
    }

    /** The "what should you do?" button of the scene screen. */
    method ShowChoices()
      requires Valid() && gameState == Setup
      modifies this
      ensures Valid()
      ensures gameState == Choosing
      ensures currentScenarioIndex == old(currentScenarioIndex) && score == old(score)
    {
      gameState := Choosing;
    }

    /**
     * A choice button: a safe choice scores one and shows the correct
     * feedback, an unsafe one shows the incorrect feedback and scores
     * nothing.
     */
    method HandleChoice(choice: Choice)
      requires Valid() && gameState == Choosing
      requires choice in Scenarios()[currentScenarioIndex].choices
      modifies this
      ensures Valid()
      ensures gameState == (if choice.safe then FeedbackCorrect else FeedbackIncorrect)
      ensures score == old(score) + (if choice.safe then 1 else 0)
      ensures currentScenarioIndex == old(currentScenarioIndex)
    {
      if choice.safe {
        gameState := FeedbackCorrect;
        score := score + 1;
      } else {
        gameState := FeedbackIncorrect;
      }
    }

    /** Try Again: back to the same scenario's choices. */
    method HandleTryAgain()
      requires Valid() && gameState == FeedbackIncorrect
      modifies this
      ensures Valid()
      ensures gameState == Choosing
      ensures currentScenarioIndex == old(currentScenarioIndex) && score == old(score)
    {
      gameState := Choosing;
    }

    /** Next Scenario (or Finish on the last): the next scene, or the completion screen. */
    method HandleNextScenario()
      requires Valid() && gameState == FeedbackCorrect
      modifies this
      ensures Valid()
      ensures old(currentScenarioIndex) < |Scenarios()| - 1 ==>
                currentScenarioIndex == old(currentScenarioIndex) + 1 && gameState == Setup
      ensures old(currentScenarioIndex) == |Scenarios()| - 1 ==>
                currentScenarioIndex == old(currentScenarioIndex) && gameState == Complete
      ensures score == old(score)
    {
      if currentScenarioIndex < |Scenarios()| - 1 {
        currentScenarioIndex := currentScenarioIndex + 1;
        gameState := Setup;
      } else {
        gameState := Complete;
      }
    }

    /**
     * Stars on the completion screen. Since a wrong choice only ever leads
     * back to the same scenario, every completed quiz has passed all six
     * scenarios and earns three stars.
     */
    function Stars(): (stars: nat)
      reads this
      requires Valid() && gameState == Complete
      ensures score == |Scenarios()|
      ensures stars == 3
    {
      SessionStarsExtremes(|Scenarios()|);
      SessionStars(score, |Scenarios()|)
    }

    /** Play Again: the first scene with a zero score. */
    method PlayAgain()
      requires Valid() && gameState == Complete
      modifies this
      ensures Valid()
      ensures currentScenarioIndex == 0 && score == 0 && gameState == Setup
    {
      currentScenarioIndex := 0;
      score := 0;
      gameState := Setup;
    }
  }
}
