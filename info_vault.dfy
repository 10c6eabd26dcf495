/**
 * The info vault: a session of pieces of information drawn from a pool of
 * twenty, each to be shared or kept secret.
 */
module InfoVault {
  import opened Wrappers
  import opened Scoring
  import opened Selection

  datatype GameState = Setup | Playing | Feedback | Complete

  datatype InfoCategory = Personal | Feelings | Location | Online | Body

  /** An item of the pool (title, emoji, who to share with and explanation are left out). */
  datatype InfoItem = InfoItem(id: nat, shouldShare: bool, category: InfoCategory)

  /** The two buttons, 'share' and 'secret'. */
  datatype VaultChoice = Share | Secret

  function InfoPool(): seq<InfoItem>
  {
    [
      InfoItem(1, true, Personal),
      InfoItem(2, true, Personal),
      InfoItem(3, true, Feelings),
      InfoItem(4, true, Feelings),
      InfoItem(5, true, Personal),
      InfoItem(6, true, Personal),
      InfoItem(7, true, Personal),
      InfoItem(8, true, Personal),
      InfoItem(9, true, Feelings),
      InfoItem(10, true, Personal),
      InfoItem(11, false, Location),
      InfoItem(12, false, Online),
      InfoItem(13, false, Personal),
      InfoItem(14, false, Location),
      InfoItem(15, false, Body),
      InfoItem(16, false, Location),
      InfoItem(17, false, Location),
      InfoItem(18, false, Personal),
      InfoItem(19, false, Personal),
      InfoItem(20, false, Location)
    ]
  }

  /** The round counts the setup screen offers. */
  const SessionLengths: set<nat> := {5, 10, 15}

  /**
   * The component's test: sharing a shareable item or keeping a secret one.
   * It holds exactly when the choice agrees with `shouldShare`.
   */
  function IsCorrectChoice(choice: VaultChoice, item: InfoItem): (correct: bool)
    ensures correct <==> ((choice == Share) == item.shouldShare)
  {
    (choice == Share && item.shouldShare) || (choice == Secret && !item.shouldShare)
  }

  /** The pool has twenty items, no two alike, ten to share and ten to keep. */
  lemma InfoPoolFacts()
    ensures |InfoPool()| == 20
    ensures Distinct(InfoPool())
    ensures forall k | 0 <= k < 20 :: InfoPool()[k].shouldShare <==> k < 10
  {
    PositionalKeysDistinct(InfoPool(), (item: InfoItem) => item.id);
  }

  /** A session selected from a shuffled pool has no repeats. */
  lemma SessionFromPool(order: seq<nat>, length: nat)
    requires IsPermutation(order, 20)
    ensures |Take(Permute(InfoPool(), order), length)| == Min(length, 20)
    ensures Distinct(Take(Permute(InfoPool(), order), length))
  {
    InfoPoolFacts();
    SelectionFromPool(InfoPool(), order, length);
  }

  class Game {
    var gameState: GameState
    var sessionLength: nat
    var selectedItems: seq<InfoItem>
    var currentIndex: nat
    var score: nat
    var waitingForChoice: bool
    var userChoice: Option<VaultChoice>
    var isCorrect: bool
    /** Whether each answer given so far this session was right, in order. */
    ghost var answers: seq<bool>

    /**
     * The session is drawn from the pool without repeats and the index stays
     * on a selected item; during a session there is one recorded answer
     * per item reached (the current one included once it is answered),
     * the score is the number of right ones, and the feedback's verdict is
     * the current answer's.
     */
    ghost predicate Valid()
      reads this
    {
      && sessionLength in SessionLengths
      && Distinct(selectedItems)
      && (gameState != Setup ==>
            && |selectedItems| == sessionLength
            && currentIndex < |selectedItems|
            && |answers| == currentIndex + (if gameState == Playing then 0 else 1)
            && score == CountCorrect(answers)
            && (gameState != Playing ==> answers[currentIndex] == isCorrect))
      && (gameState == Feedback ==>
            userChoice.Some? &&
            isCorrect == IsCorrectChoice(userChoice.value, selectedItems[currentIndex]))
      && (gameState == Complete ==> currentIndex == |selectedItems| - 1)
    }

    /** The hooks' initial values. */
    constructor ()
      ensures Valid()
      ensures gameState == Setup && sessionLength == 10 && selectedItems == []
      ensures currentIndex == 0 && score == 0
      ensures !waitingForChoice && userChoice == None && !isCorrect
      ensures answers == []
    {
      gameState := Setup;
      sessionLength := 10;
      selectedItems := [];
      currentIndex := 0;
      score := 0;
      waitingForChoice := false;
      userChoice := None;
      isCorrect := false;
      answers := [];
    }

    /** A length button of the setup screen. */
    method ChooseLength(length: nat)
      requires Valid() && gameState == Setup && length in SessionLengths
      modifies this
      ensures Valid()
      ensures sessionLength == length
      ensures gameState == old(gameState) && selectedItems == old(selectedItems)
      ensures currentIndex == old(currentIndex) && score == old(score)
      ensures waitingForChoice == old(waitingForChoice)
      ensures userChoice == old(userChoice) && isCorrect == old(isCorrect)
      ensures answers == old(answers)
    {
      sessionLength := length;
    }

    /**
     * `startGame(length)`, with `order` standing for the random sort of the
     * pool. The previous choice is kept, as in the component.
     */
    method StartGame(length: nat, order: seq<nat>)
      requires Valid() && gameState == Setup
      requires length in SessionLengths && IsPermutation(order, 20)
      modifies this
      ensures Valid()
      ensures selectedItems == Take(Permute(InfoPool(), order), length)
      ensures |selectedItems| == length
      ensures sessionLength == length && currentIndex == 0 && score == 0
      ensures gameState == Playing && !waitingForChoice
      ensures userChoice == old(userChoice) && isCorrect == old(isCorrect)
      ensures answers == []
    {
      SessionFromPool(order, length);
      selectedItems := Take(Permute(InfoPool(), order), length);
      sessionLength := length;
      currentIndex := 0;
      score := 0;
      gameState := Playing;
      waitingForChoice := false;
      answers := [];
    }

    /** The "decide now" button: the two choices become clickable. */
    method HandleDecideNow()
      requires Valid() && gameState == Playing
      modifies this
      ensures Valid()
      ensures waitingForChoice
      ensures gameState == old(gameState) && sessionLength == old(sessionLength)
      ensures selectedItems == old(selectedItems)
      ensures currentIndex == old(currentIndex) && score == old(score)
      ensures userChoice == old(userChoice) && isCorrect == old(isCorrect)
      ensures answers == old(answers)
    {
      waitingForChoice := true;
    }

    /**
     * The share or secret button. Ignored unless the player has asked to
     * decide; otherwise the choice is recorded, the score rises by one
     * exactly when it agrees with the item, and feedback is shown.
     */
    method HandleChoice(choice: VaultChoice)
      requires Valid() && gameState == Playing
      modifies this
      ensures Valid()
      ensures !old(waitingForChoice) ==> unchanged(this)
      ensures sessionLength == old(sessionLength) && selectedItems == old(selectedItems)
      ensures currentIndex == old(currentIndex)
      ensures old(waitingForChoice) ==>
                && userChoice == Some(choice)
                && isCorrect == ((choice == Share) == selectedItems[currentIndex].shouldShare)
                && score == old(score) + (if isCorrect then 1 else 0)
                && gameState == Feedback && waitingForChoice
      ensures old(waitingForChoice) ==> answers == old(answers) + [isCorrect]
    {
      if !waitingForChoice {
        return;
      }
      userChoice := Some(choice);
      var correct := IsCorrectChoice(choice, selectedItems[currentIndex]);
      isCorrect := correct;
      if correct {
        score := score + 1;
      }
      CountCorrectAppend(answers, isCorrect);
      answers := answers + [isCorrect];
      gameState := Feedback;
    }

    /**
     * The continue button: the next item, with a fresh wait and no choice,
     * or the completion screen after the last one.
     */
    method HandleContinue()
      requires Valid() && gameState == Feedback
      modifies this
      ensures Valid()
      ensures old(currentIndex) < |selectedItems| - 1 ==>
                && currentIndex == old(currentIndex) + 1 && gameState == Playing
                && !waitingForChoice && userChoice == None
      ensures old(currentIndex) >= |selectedItems| - 1 ==>
                && currentIndex == old(currentIndex) && gameState == Complete
                && waitingForChoice == old(waitingForChoice) && userChoice == old(userChoice)
      ensures score == old(score) && sessionLength == old(sessionLength)
      ensures selectedItems == old(selectedItems) && isCorrect == old(isCorrect)
      ensures answers == old(answers)
    {
      if currentIndex < |selectedItems| - 1 {
        currentIndex := currentIndex + 1;
        gameState := Playing;
        waitingForChoice := false;
        userChoice := None;
      } else {
        gameState := Complete;
      }
    }

    /**
     * Stars on the completion screen: the score is the number of right
     * answers over the whole session, and a session answered without a
     * mistake earns three.
     */
    function Stars(): (stars: nat)
      reads this
      requires Valid() && gameState == Complete
      ensures 1 <= stars <= 3
      ensures score <= sessionLength
      ensures score == sessionLength ==> stars == 3
      ensures |answers| == |selectedItems| && score == CountCorrect(answers)
      ensures (forall k | 0 <= k < |answers| :: answers[k]) ==> stars == 3
    {
      RecordStars(answers);
      SessionStars(score, sessionLength)
    }

    /** Play Again returns to the setup screen and keeps the rest. */
    method PlayAgain()
      requires Valid() && gameState == Complete
      modifies this
      ensures Valid()
      ensures gameState == Setup
      ensures sessionLength == old(sessionLength) && selectedItems == old(selectedItems)
      ensures currentIndex == old(currentIndex) && score == old(score)
      ensures waitingForChoice == old(waitingForChoice)
      ensures userChoice == old(userChoice) && isCorrect == old(isCorrect)
      ensures answers == old(answers)
    {
      gameState := Setup;
    }
  }
}
