/**
 * The space bubble: a session of scenarios drawn from a pool of eighteen,
 * each showing someone too close or at an okay distance.
 */
module SpaceBubble {
  import opened Wrappers
  import opened Scoring
  import opened Selection

  datatype GameState = Setup | Playing | Feedback | Complete

  /** The answer a scenario calls for, and the two buttons that give it. */
  datatype Distance = TooClose | Okay

  /** Where the picture places the other person. */
  datatype VisualDistance = InsideBubble | NearBubble | FarAway

  /** A scenario of the pool (text, emoji and explanation are left out). */
  datatype Scenario = Scenario(id: nat, distance: Distance, visualDistance: VisualDistance)

  function ScenarioPool(): seq<Scenario>
  {
    [
      Scenario(1, TooClose, InsideBubble),
      Scenario(2, TooClose, InsideBubble),
      Scenario(3, TooClose, InsideBubble),
      Scenario(4, TooClose, InsideBubble),
      Scenario(5, TooClose, InsideBubble),
      Scenario(6, TooClose, InsideBubble),
      Scenario(7, TooClose, InsideBubble),
      Scenario(8, Okay, NearBubble),
      Scenario(9, Okay, FarAway),
      Scenario(10, Okay, InsideBubble),
      Scenario(11, Okay, InsideBubble),
      Scenario(12, Okay, NearBubble),
      Scenario(13, Okay, InsideBubble),
      Scenario(14, Okay, FarAway),
      Scenario(15, Okay, NearBubble),
      Scenario(16, Okay, NearBubble),
      Scenario(17, Okay, InsideBubble),
      Scenario(18, Okay, InsideBubble)
    ]
  }

  /** The round counts the setup screen offers. */
  const SessionLengths: set<nat> := {5, 10, 15}

  /**
   * The pool has eighteen scenarios, no two alike, the first seven too close
   * and the rest okay; some okay scenarios still show the person inside the
   * bubble (a hug that was asked for, a doctor's visit).
   */
  lemma ScenarioPoolFacts()
    ensures |ScenarioPool()| == 18
    ensures Distinct(ScenarioPool())
    ensures forall k | 0 <= k < 18 :: ScenarioPool()[k].distance == TooClose <==> k < 7
    ensures exists k | 0 <= k < 18 ::
              ScenarioPool()[k].distance == Okay && ScenarioPool()[k].visualDistance == InsideBubble
  {
    PositionalKeysDistinct(ScenarioPool(), (s: Scenario) => s.id);
    assert ScenarioPool()[9].distance == Okay && ScenarioPool()[9].visualDistance == InsideBubble;
  }

  /** A session selected from a shuffled pool has no repeats. */
  lemma SessionFromPool(order: seq<nat>, length: nat)
    requires IsPermutation(order, 18)
    ensures |Take(Permute(ScenarioPool(), order), length)| == Min(length, 18)
    ensures Distinct(Take(Permute(ScenarioPool(), order), length))
  {
    ScenarioPoolFacts();
    SelectionFromPool(ScenarioPool(), order, length);
  }

  class Game {
    var gameState: GameState
    var sessionLength: nat
    var selectedScenarios: seq<Scenario>
    var currentIndex: nat
    var score: nat
    var waitingForChoice: bool
    var userChoice: Option<Distance>
    var isCorrect: bool
    /** Whether each answer given so far this session was right, in order. */
    ghost var answers: seq<bool>

    /**
     * The session is drawn from the pool without repeats and the index stays
     * on a selected scenario; during a session there is one recorded answer
     * per scenario reached (the current one included once it is answered),
     * the score is the number of right ones, and the feedback's verdict is
     * the current answer's.
     */
    ghost predicate Valid()
      reads this
    {
      && sessionLength in SessionLengths
      && Distinct(selectedScenarios)
      && (gameState != Setup ==>
            && |selectedScenarios| == sessionLength
            && currentIndex < |selectedScenarios|
            && |answers| == currentIndex + (if gameState == Playing then 0 else 1)
            && score == CountCorrect(answers)
            && (gameState != Playing ==> answers[currentIndex] == isCorrect))
      && (gameState == Feedback ==>
            userChoice.Some? &&
            isCorrect == (userChoice.value == selectedScenarios[currentIndex].distance))
      && (gameState == Complete ==> currentIndex == |selectedScenarios| - 1)
    }

    /** The hooks' initial values. */
    constructor ()
      ensures Valid()
      ensures gameState == Setup && sessionLength == 10 && selectedScenarios == []
      ensures currentIndex == 0 && score == 0
      ensures !waitingForChoice && userChoice == None && !isCorrect
      ensures answers == []
    {
      gameState := Setup;
      sessionLength := 10;
      selectedScenarios := [];
      currentIndex := 0;
      score := 0;
      waitingForChoice := false;
      userChoice := None;
      isCorrect := false;
      answers := [];
    }

    /** A length button of the setup screen. */
    method ChooseLength(length: nat)
      requires Valid() && gameState == Setup && length in SessionLengths
      modifies this
      ensures Valid()
      ensures sessionLength == length
      ensures gameState == old(gameState) && selectedScenarios == old(selectedScenarios)
      ensures currentIndex == old(currentIndex) && score == old(score)
      ensures waitingForChoice == old(waitingForChoice)
      ensures userChoice == old(userChoice) && isCorrect == old(isCorrect)
      ensures answers == old(answers)
    {
      sessionLength := length;
    }

    /**
     * `startGame(length)`, with `order` standing for the random sort of the
     * pool. The previous choice is kept, as in the component.
     */
    method StartGame(length: nat, order: seq<nat>)
      requires Valid() && gameState == Setup
      requires length in SessionLengths && IsPermutation(order, 18)
      modifies this
      ensures Valid()
      ensures selectedScenarios == Take(Permute(ScenarioPool(), order), length)
      ensures |selectedScenarios| == length
      ensures sessionLength == length && currentIndex == 0 && score == 0
      ensures gameState == Playing && !waitingForChoice
      ensures userChoice == old(userChoice) && isCorrect == old(isCorrect)
      ensures answers == []
    {
      SessionFromPool(order, length);
      selectedScenarios := Take(Permute(ScenarioPool(), order), length);
      sessionLength := length;
      currentIndex := 0;
      score := 0;
      gameState := Playing;
      waitingForChoice := false;
      answers := [];
    }

    /** The "decide now" button: the two choices become clickable. */
    method HandleDecideNow()
      requires Valid() && gameState == Playing
      modifies this
      ensures Valid()
      ensures waitingForChoice
      ensures gameState == old(gameState) && sessionLength == old(sessionLength)
      ensures selectedScenarios == old(selectedScenarios)
      ensures currentIndex == old(currentIndex) && score == old(score)
      ensures userChoice == old(userChoice) && isCorrect == old(isCorrect)
      ensures answers == old(answers)
    {
      waitingForChoice := true;
    }

    /**
     * The too-close or okay button. Ignored unless the player has asked to
     * decide; otherwise the choice is recorded, the score rises by one
     * exactly when it names the scenario's distance, and feedback is shown.
     */
    method HandleChoice(choice: Distance)
      requires Valid() && gameState == Playing
      modifies this
      ensures Valid()
      ensures !old(waitingForChoice) ==> unchanged(this)
      ensures sessionLength == old(sessionLength) && selectedScenarios == old(selectedScenarios)
      ensures currentIndex == old(currentIndex)
      ensures old(waitingForChoice) ==>
                && userChoice == Some(choice)
                && isCorrect == (choice == selectedScenarios[currentIndex].distance)
                && score == old(score) + (if isCorrect then 1 else 0)
                && gameState == Feedback && waitingForChoice
      ensures old(waitingForChoice) ==> answers == old(answers) + [isCorrect]
    {
      if !waitingForChoice {
        return;
      }
      userChoice := Some(choice);
      var correct := choice == selectedScenarios[currentIndex].distance;
      isCorrect := correct;
      if correct {
        score := score + 1;
      }
      CountCorrectAppend(answers, isCorrect);
      answers := answers + [isCorrect];
      gameState := Feedback;
    }

    /**
     * The continue button: the next scenario, with a fresh wait and no choice,
     * or the completion screen after the last one.
     */
    method HandleContinue()
      requires Valid() && gameState == Feedback
      modifies this
      ensures Valid()
      ensures old(currentIndex) < |selectedScenarios| - 1 ==>
                && currentIndex == old(currentIndex) + 1 && gameState == Playing
                && !waitingForChoice && userChoice == None
      ensures old(currentIndex) >= |selectedScenarios| - 1 ==>
                && currentIndex == old(currentIndex) && gameState == Complete
                && waitingForChoice == old(waitingForChoice) && userChoice == old(userChoice)
      ensures score == old(score) && sessionLength == old(sessionLength)
      ensures selectedScenarios == old(selectedScenarios) && isCorrect == old(isCorrect)
      ensures answers == old(answers)
    {
      if currentIndex < |selectedScenarios| - 1 {
        currentIndex := currentIndex + 1;
        gameState := Playing;
        waitingForChoice := false;
        userChoice := None;
      } else {
        gameState := Complete;
      }
    }

    /**
     * Stars on the completion screen: the score is the number of right
     * answers over the whole session, and a session answered without a
     * mistake earns three.
     */
    function Stars(): (stars: nat)
      reads this
      requires Valid() && gameState == Complete
      ensures 1 <= stars <= 3
      ensures score <= sessionLength
      ensures score == sessionLength ==> stars == 3
      ensures |answers| == |selectedScenarios| && score == CountCorrect(answers)
      ensures (forall k | 0 <= k < |answers| :: answers[k]) ==> stars == 3
    {
      RecordStars(answers);
      SessionStars(score, sessionLength)
    }

    /** Play Again returns to the setup screen and keeps the rest. */
    method PlayAgain()
      requires Valid() && gameState == Complete
      modifies this
      ensures Valid()
      ensures gameState == Setup
      ensures sessionLength == old(sessionLength) && selectedScenarios == old(selectedScenarios)
      ensures currentIndex == old(currentIndex) && score == old(score)
      ensures waitingForChoice == old(waitingForChoice)
      ensures userChoice == old(userChoice) && isCorrect == old(isCorrect)
      ensures answers == old(answers)
    {
      gameState := Setup;
    }
  }
}
