/**
 * Safe or not safe: a session of scenarios drawn from a pool of twenty, each
 * to be judged safe or unsafe, with feedback shown after every answer.
 */
module SafetyScenarios {
  import opened Scoring
  import opened Selection

  /** The component's state names; `Feedback` is declared but never entered. */
  datatype GameState = Setup | Playing | Feedback | Complete

  datatype Category = Stranger | Touch | Online | Sharing | Permission

  /** A scenario of the pool (title, text, emoji and explanation are left out). */
  datatype Scenario = Scenario(id: nat, isSafe: bool, category: Category)

  function ScenarioPool(): seq<Scenario>
  {
    [
      Scenario(1, false, Stranger),
      Scenario(2, false, Stranger),
      Scenario(3, false, Online),
      Scenario(4, false, Stranger),
      Scenario(5, false, Stranger),
      Scenario(6, false, Touch),
      Scenario(7, false, Sharing),
      Scenario(8, false, Sharing),
      Scenario(9, false, Touch),
      Scenario(10, false, Online),
      Scenario(11, true, Touch),
      Scenario(12, true, Permission),
      Scenario(13, true, Touch),
      Scenario(14, true, Touch),
      Scenario(15, true, Permission),
      Scenario(16, true, Sharing),
      Scenario(17, true, Sharing),
      Scenario(18, true, Sharing),
      Scenario(19, true, Permission),
      Scenario(20, true, Touch)
    ]
  }

  /** The round counts the setup screen offers. */
  const SessionLengths: set<nat> := {5, 10, 15}

  /** The pool has twenty scenarios, no two alike, ten unsafe ones followed by ten safe ones. */
  lemma ScenarioPoolFacts()
    ensures |ScenarioPool()| == 20
    ensures Distinct(ScenarioPool())
    ensures forall k | 0 <= k < 20 :: ScenarioPool()[k].isSafe <==> k >= 10
  {
    PositionalKeysDistinct(ScenarioPool(), (s: Scenario) => s.id);
  }

  /** A session selected from a shuffled pool has no repeats. */
  lemma SessionFromPool(order: seq<nat>, length: nat)
    requires IsPermutation(order, 20)
    ensures |Take(Permute(ScenarioPool(), order), length)| == Min(length, 20)
    ensures Distinct(Take(Permute(ScenarioPool(), order), length))
  {
    ScenarioPoolFacts();
    SelectionFromPool(ScenarioPool(), order, length);
  }

  class Game {
    var gameState: GameState
    var sessionLength: nat
    var selectedScenarios: seq<Scenario>
    var currentIndex: nat
    var score: nat
    var showFeedback: bool
    var lastAnswerCorrect: bool
    /** Whether each answer given so far this session was right, in order. */
    ghost var answers: seq<bool>

    /**
     * The session is drawn from the pool without repeats and the index stays
     * on a selected scenario; during a session there is one recorded answer
     * per scenario reached (the current one included once its feedback
     * shows), the score is the number of right ones, and the feedback's
     * verdict is the current answer's. The unused feedback state is never
     * entered, and the session only completes from the feedback of its last
     * scenario.
     */
    ghost predicate Valid()
      reads this
    {
      && sessionLength in SessionLengths
      && Distinct(selectedScenarios)
      && gameState != Feedback
      && (gameState != Setup ==>
            && |selectedScenarios| == sessionLength
            && currentIndex < |selectedScenarios|
            && |answers| == currentIndex + (if showFeedback then 1 else 0)
            && score == CountCorrect(answers)
            && (showFeedback ==> answers[currentIndex] == lastAnswerCorrect))
      && (gameState == Complete ==> showFeedback && currentIndex == |selectedScenarios| - 1)
    }

    /** The hooks' initial values (the voice setting is left out). */
    constructor ()
      ensures Valid()
      ensures gameState == Setup && sessionLength == 5 && selectedScenarios == []
      ensures currentIndex == 0 && score == 0
      ensures !showFeedback && !lastAnswerCorrect
      ensures answers == []
    {
      gameState := Setup;
      sessionLength := 5;
      selectedScenarios := [];
      currentIndex := 0;
      score := 0;
      showFeedback := false;
      lastAnswerCorrect := false;
      answers := [];
    }

    /** A length button of the setup screen. */
    method ChooseLength(length: nat)
      requires Valid() && gameState == Setup && length in SessionLengths
      modifies this
      ensures Valid()
      ensures sessionLength == length
      ensures gameState == old(gameState) && selectedScenarios == old(selectedScenarios)
      ensures currentIndex == old(currentIndex) && score == old(score)
      ensures showFeedback == old(showFeedback) && lastAnswerCorrect == old(lastAnswerCorrect)
      ensures answers == old(answers)
    {
      sessionLength := length;
    }

    /** `startSession(length)`, with `order` standing for the random sort of the pool. */
    method StartSession(length: nat, order: seq<nat>)
      requires Valid() && gameState == Setup
      requires length in SessionLengths && IsPermutation(order, 20)
      modifies this
      ensures Valid()
      ensures selectedScenarios == Take(Permute(ScenarioPool(), order), length)
      ensures |selectedScenarios| == length
      ensures sessionLength == length && currentIndex == 0 && score == 0
      ensures gameState == Playing && !showFeedback
      ensures lastAnswerCorrect == old(lastAnswerCorrect)
      ensures answers == []
    {
      SessionFromPool(order, length);
      selectedScenarios := Take(Permute(ScenarioPool(), order), length);
      sessionLength := length;
      currentIndex := 0;
      score := 0;
      gameState := Playing;
      showFeedback := false;
      answers := [];
    }

    /**
     * The safe or not-safe button, shown only while no feedback is on
     * screen: the answer is right exactly when it matches the scenario, the
     * score rises by one exactly then, and feedback is shown.
     */
    method HandleAnswer(userSaysIsSafe: bool)
      requires Valid() && gameState == Playing && !showFeedback
      modifies this
      ensures Valid()
      ensures gameState == old(gameState) && sessionLength == old(sessionLength)
      ensures selectedScenarios == old(selectedScenarios) && currentIndex == old(currentIndex)
      ensures lastAnswerCorrect == (userSaysIsSafe == selectedScenarios[currentIndex].isSafe)
      ensures score == old(score) + (if lastAnswerCorrect then 1 else 0)
      ensures showFeedback
      ensures answers == old(answers) + [lastAnswerCorrect]
    {
      var correct := userSaysIsSafe == selectedScenarios[currentIndex].isSafe;
      lastAnswerCorrect := correct;
      if correct {
        score := score + 1;
      }
      CountCorrectAppend(answers, correct);
      answers := answers + [correct];
      showFeedback := true;
    }

    /**
     * The next button of the feedback panel: the next scenario with the
     * feedback hidden, or the completion screen after the last one (the
     * feedback flag then stays set).
     */
    method HandleNext()
      requires Valid() && gameState == Playing && showFeedback
      modifies this
      ensures Valid()
      ensures old(currentIndex) < |selectedScenarios| - 1 ==>
                currentIndex == old(currentIndex) + 1 && !showFeedback && gameState == Playing
      ensures old(currentIndex) >= |selectedScenarios| - 1 ==>
                currentIndex == old(currentIndex) && showFeedback && gameState == Complete
      ensures score == old(score) && sessionLength == old(sessionLength)
      ensures selectedScenarios == old(selectedScenarios)
      ensures lastAnswerCorrect == old(lastAnswerCorrect)
      ensures answers == old(answers)
    {
      if currentIndex < |selectedScenarios| - 1 {
        currentIndex := currentIndex + 1;
        showFeedback := false;
      } else {
        gameState := Complete;
      }
    }

    /**
     * Stars on the completion screen: the score is the number of right
     * answers over the whole session, and a session answered without a
     * mistake earns three.
     */
    function Stars(): (stars: nat)
      reads this
      requires Valid() && gameState == Complete
      ensures 1 <= stars <= 3
      ensures score <= sessionLength
      ensures score == sessionLength ==> stars == 3
      ensures |answers| == |selectedScenarios| && score == CountCorrect(answers)
      ensures (forall k | 0 <= k < |answers| :: answers[k]) ==> stars == 3
    {
      RecordStars(answers);
      SessionStars(score, sessionLength)
    }

    /** Play Again returns to the setup screen and keeps the rest. */
    method PlayAgain()
      requires Valid() && gameState == Complete
      modifies this
      ensures Valid()
      ensures gameState == Setup
      ensures sessionLength == old(sessionLength) && selectedScenarios == old(selectedScenarios)
      ensures currentIndex == old(currentIndex) && score == old(score)
      ensures showFeedback == old(showFeedback) && lastAnswerCorrect == old(lastAnswerCorrect)
      ensures answers == old(answers)
    {
      gameState := Setup;
    }
  }
}
