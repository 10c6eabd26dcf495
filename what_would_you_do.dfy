/**
 * The "What Would You Do?" quiz: a session of scenarios drawn from a pool of
 * fifteen, each offering choices of which exactly one is the good one.
 * The component's state hooks are the fields of `Game`, its handlers its methods.
 */
module WhatWouldYouDo {
  import opened Wrappers
  import opened Scoring
  import opened Selection

  datatype GameState = Setup | Playing | Feedback | Complete

  datatype Category = Boundaries | Assertiveness | GameRules | StrangerSafety | AskingPermission

  /** A choice offered for a scenario (its text and icon are left out). */
  datatype Choice = Choice(id: string, isCorrect: bool)

  /** A scenario of the pool (emoji, texts and explanation are left out). */
  datatype Scenario = Scenario(id: nat, category: Category, choices: seq<Choice>)

  function ScenarioPool(): seq<Scenario>
  {
    [
      Scenario(1, Boundaries, [Choice("scream", false), Choice("alternative", true)]),
      Scenario(2, Assertiveness, [Choice("words", true), Choice("push", false)]),
      Scenario(3, GameRules, [Choice("game", true), Choice("yell", false)]),
      Scenario(4, StrangerSafety, [Choice("smile", false), Choice("stop", true)]),
      Scenario(5, AskingPermission, [Choice("take", false), Choice("ask", true)]),
      Scenario(6, Boundaries, [Choice("laugh", false), Choice("firm", true)]),
      Scenario(7, StrangerSafety, [Choice("help", false), Choice("no", true)]),
      Scenario(8, Assertiveness, [Choice("push", false), Choice("speak", true)]),
      Scenario(9, AskingPermission, [Choice("grab", false), Choice("ask", true)]),
      Scenario(10, GameRules, [Choice("keep", false), Choice("share", true)]),
      Scenario(11, Boundaries, [Choice("hit", false), Choice("words", true)]),
      Scenario(12, StrangerSafety, [Choice("take", false), Choice("refuse", true)]),
      Scenario(13, Assertiveness, [Choice("silent", false), Choice("express", true)]),
      Scenario(14, AskingPermission, [Choice("join", false), Choice("ask", true)]),
      Scenario(15, Boundaries, [Choice("silent", false), Choice("speak", true)])
    ]
  }

  /** The round counts the setup screen offers. */
  const SessionLengths: set<nat> := {5, 10, 15}

  /** How many of `choices` are marked correct: some, exactly when one of them is. */
  function CorrectCount(choices: seq<Choice>): (n: nat)
    ensures n <= |choices|
    ensures n > 0 <==> exists c | c in choices :: c.isCorrect
  {
    if choices == [] then 0
    else (if choices[0].isCorrect then 1 else 0) + CorrectCount(choices[1..])
  }

  /** `choices.find(c => c.isCorrect)`: the first correct choice, if there is one. */
  function FindCorrect(choices: seq<Choice>): (found: Option<Choice>)
    ensures found.Some? <==> CorrectCount(choices) > 0
    ensures found.Some? ==> found.value in choices && found.value.isCorrect
  {
    if choices == [] then None
    else if choices[0].isCorrect then Some(choices[0])
    else FindCorrect(choices[1..])
  }

  /** With exactly one correct choice, the lookup finds that one. */
  lemma {:induction false} FindCorrectIsUnique(choices: seq<Choice>, c: Choice)
    requires CorrectCount(choices) == 1
    requires c in choices && c.isCorrect
    ensures FindCorrect(choices) == Some(c)
  {
    if choices[0] != c {
      assert c in choices[1..];
      if choices[0].isCorrect {
        assert false;
      }
      FindCorrectIsUnique(choices[1..], c);
    }
  }

  /** What the game relies on about its pool: fifteen scenarios, no two alike, each with exactly one correct choice. */
  ghost predicate WellFormedPool(pool: seq<Scenario>)
  {
    |pool| == 15 && WellFormedSelection(pool)
  }

  /** No scenario twice, and each with exactly one correct choice. */
  ghost predicate WellFormedSelection(scenarios: seq<Scenario>)
  {
    && Distinct(scenarios)
    && (forall s | s in scenarios :: CorrectCount(s.choices) == 1)
  }

  /** The component's pool is well formed. */
  lemma ScenarioPoolFacts()
    ensures WellFormedPool(ScenarioPool())
  {
    var pool := ScenarioPool();
    PositionalKeysDistinct(pool, (s: Scenario) => s.id);
    forall k | 0 <= k < |pool| ensures CorrectCount(pool[k].choices) == 1 {
      OneOfTwoCorrect(pool[k].choices);
    }
  }

  /** Two choices of which one is right count one correct choice. */
  lemma OneOfTwoCorrect(choices: seq<Choice>)
    requires |choices| == 2 && choices[0].isCorrect != choices[1].isCorrect
    ensures CorrectCount(choices) == 1
  {
    assert choices[1..][1..] == [];
  }

  /**
   * A session selected from a shuffled well-formed pool has no repeats, and
   * each of its scenarios has exactly one correct choice.
   */
  lemma SessionFromPool(pool: seq<Scenario>, order: seq<nat>, length: nat)
    requires WellFormedPool(pool) && IsPermutation(order, |pool|)
    ensures |Take(Permute(pool, order), length)| == Min(length, 15)
    ensures WellFormedSelection(Take(Permute(pool, order), length))
  {
    SelectionFromPool(pool, order, length);
  }

  class Game {
    /** The module-level scenario pool the sessions are drawn from. */
    const pool: seq<Scenario>
    var gameState: GameState
    var sessionLength: nat
    var selectedScenarios: seq<Scenario>
    var currentIndex: nat
    var score: nat
    var waitingForChoice: bool
    var selectedChoice: Option<Choice>
    var isCorrect: bool
    /** Whether each answer given so far this session was right, in order. */
    ghost var answers: seq<bool>

    /**
     * The session is drawn from the pool without repeats and the index stays
     * on a selected scenario; during a session there is one recorded answer
     * per scenario reached (the current one included once it is answered),
     * the score is the number of right ones, and the feedback's verdict is
     * the current answer's.
     */
    ghost predicate Valid()
      reads this
    {
      && WellFormedPool(pool)
      && sessionLength in SessionLengths
      && WellFormedSelection(selectedScenarios)
      && (gameState != Setup ==>
            && |selectedScenarios| == sessionLength
            && currentIndex < |selectedScenarios|
            && |answers| == currentIndex + (if gameState == Playing then 0 else 1)
            && score == CountCorrect(answers)
            && (gameState != Playing ==> answers[currentIndex] == isCorrect))
      && (gameState == Feedback ==>
            && selectedChoice.Some? && selectedChoice.value in selectedScenarios[currentIndex].choices
            && isCorrect == selectedChoice.value.isCorrect)
      && (gameState == Complete ==> currentIndex == |selectedScenarios| - 1)
    }

    /**
     * The score never exceeds the answers given: the scenarios before the
     * current one while playing, and the current one too once it is answered.
     */
    lemma ScoreWithinAnswered()
      requires Valid() && gameState != Setup
      ensures score <= currentIndex + (if gameState == Playing then 0 else 1)
      ensures score <= sessionLength
    {
    }

    /** The hooks' initial values. */
    constructor ()
      ensures Valid()
      ensures pool == ScenarioPool()
      ensures gameState == Setup && sessionLength == 10 && selectedScenarios == []
      ensures currentIndex == 0 && score == 0
      ensures !waitingForChoice && selectedChoice == None && !isCorrect
      ensures answers == []
    {
      pool := ScenarioPool();
      ScenarioPoolFacts();
      gameState := Setup;
      sessionLength := 10;
      selectedScenarios := [];
      currentIndex := 0;
      score := 0;
      waitingForChoice := false;
      selectedChoice := None;
      isCorrect := false;
      answers := [];
    }

    /** A length button of the setup screen. */
    method ChooseLength(length: nat)
      requires Valid() && gameState == Setup && length in SessionLengths
      modifies this
      ensures Valid()
      ensures sessionLength == length
      ensures gameState == old(gameState) && selectedScenarios == old(selectedScenarios)
      ensures currentIndex == old(currentIndex) && score == old(score)
      ensures waitingForChoice == old(waitingForChoice)
      ensures selectedChoice == old(selectedChoice) && isCorrect == old(isCorrect)
      ensures answers == old(answers)
    {
      sessionLength := length;
    }

    /**
     * `startGame(length)`, with `order` standing for the random sort of the
     * pool. The previous selected choice is kept, as in the component.
     */
    method StartGame(length: nat, order: seq<nat>)
      requires Valid() && gameState == Setup
      requires length in SessionLengths && IsPermutation(order, |pool|)
      modifies this
      ensures Valid()
      ensures selectedScenarios == Take(Permute(pool, order), length)
      ensures |selectedScenarios| == length
      ensures sessionLength == length && currentIndex == 0 && score == 0
      ensures gameState == Playing && !waitingForChoice
      ensures selectedChoice == old(selectedChoice) && isCorrect == old(isCorrect)
      ensures answers == []
    {
      SessionFromPool(pool, order, length);
      selectedScenarios := Take(Permute(pool, order), length);
      sessionLength := length;
      currentIndex := 0;
      score := 0;
      gameState := Playing;
      waitingForChoice := false;
      answers := [];
    }

    /** The "read now" button: choices become clickable. */
    method HandleReadNow()
      requires Valid() && gameState == Playing
      modifies this
      ensures Valid()
      ensures waitingForChoice
      ensures gameState == old(gameState) && sessionLength == old(sessionLength)
      ensures selectedScenarios == old(selectedScenarios)
      ensures currentIndex == old(currentIndex) && score == old(score)
      ensures selectedChoice == old(selectedChoice) && isCorrect == old(isCorrect)
      ensures answers == old(answers)
    {
      waitingForChoice := true;
    }

    /**
     * A choice button of the current scenario. Ignored unless the player
     * has asked to choose; otherwise the choice is recorded, the score rises
     * by one exactly when the choice is correct, and feedback is shown.
     */
    method HandleChoice(choice: Choice)
      requires Valid() && gameState == Playing
      requires choice in selectedScenarios[currentIndex].choices
      modifies this
      ensures Valid()
      ensures !old(waitingForChoice) ==> unchanged(this)
      ensures old(waitingForChoice) ==>
                && selectedChoice == Some(choice) && isCorrect == choice.isCorrect
                && score == old(score) + (if choice.isCorrect then 1 else 0)
                && gameState == Feedback && waitingForChoice
      ensures sessionLength == old(sessionLength) && selectedScenarios == old(selectedScenarios)
      ensures currentIndex == old(currentIndex)
      ensures old(waitingForChoice) ==> answers == old(answers) + [isCorrect]
    {
      if !waitingForChoice {
        return;
      }
      selectedChoice := Some(choice);
      isCorrect := choice.isCorrect;
      if choice.isCorrect {
        score := score + 1;
      }
      CountCorrectAppend(answers, isCorrect);
      answers := answers + [isCorrect];
      gameState := Feedback;
    }

    /** The correct choice the feedback screen shows: it always exists. */
    function CorrectChoice(): (c: Choice)
      reads this
      requires Valid() && gameState == Feedback
      ensures c.isCorrect && c in selectedScenarios[currentIndex].choices
      ensures isCorrect ==> c == selectedChoice.value
    {
      var s := selectedScenarios[currentIndex];
      assert CorrectCount(s.choices) == 1;
      assert isCorrect ==> FindCorrect(s.choices) == selectedChoice by {
        if isCorrect {
          FindCorrectIsUnique(s.choices, selectedChoice.value);
        }
      }
      match FindCorrect(s.choices)
      case Some(c) => c
    }

    /**
     * The continue button: the next scenario, with a fresh wait and no
     * selected choice, or the completion screen after the last one.
     */
    method HandleContinue()
      requires Valid() && gameState == Feedback
      modifies this
      ensures Valid()
      ensures old(currentIndex) < |selectedScenarios| - 1 ==>
                && currentIndex == old(currentIndex) + 1 && gameState == Playing
                && !waitingForChoice && selectedChoice == None
      ensures old(currentIndex) >= |selectedScenarios| - 1 ==>
                && currentIndex == old(currentIndex) && gameState == Complete
                && waitingForChoice == old(waitingForChoice) && selectedChoice == old(selectedChoice)
      ensures score == old(score) && sessionLength == old(sessionLength)
      ensures selectedScenarios == old(selectedScenarios) && isCorrect == old(isCorrect)
      ensures answers == old(answers)
    {
      if currentIndex < |selectedScenarios| - 1 {
        currentIndex := currentIndex + 1;
        gameState := Playing;
        waitingForChoice := false;
        selectedChoice := None;
      } else {
        gameState := Complete;
      }
    }

    /**
     * Stars on the completion screen: the score is the number of right
     * answers over the whole session, and a session answered without a
     * mistake earns three.
     */
    function Stars(): (stars: nat)
      reads this
      requires Valid() && gameState == Complete
      ensures 1 <= stars <= 3
      ensures score <= sessionLength
      ensures score == sessionLength ==> stars == 3
      ensures |answers| == |selectedScenarios| && score == CountCorrect(answers)
      ensures (forall k | 0 <= k < |answers| :: answers[k]) ==> stars == 3
    {
      RecordStars(answers);
      SessionStars(score, sessionLength)
    }

    /** Play Again returns to the setup screen and keeps the rest. */
    method PlayAgain()
      requires Valid() && gameState == Complete
      modifies this
      ensures Valid()
      ensures gameState == Setup
      ensures sessionLength == old(sessionLength) && selectedScenarios == old(selectedScenarios)
      ensures currentIndex == old(currentIndex) && score == old(score)
      ensures waitingForChoice == old(waitingForChoice)
      ensures selectedChoice == old(selectedChoice) && isCorrect == old(isCorrect)
      ensures answers == old(answers)
    {
      gameState := Setup;
    }
  }
}
