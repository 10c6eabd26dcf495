/**
 * The circle sorter: a session of characters drawn from a pool of thirty,
 * each to be placed in one of six relationship circles.
 */
module CircleSorter {
  import opened Wrappers
  import opened Scoring
  import opened Selection

  datatype GameState = Setup | Playing | Feedback | Complete

  /** A character of the pool (its emoji is left out). */
  datatype Character = Character(name: string, correctCircle: string)

  /** A relationship circle; `title` is its label (size, colours, icon and description are left out). */
  datatype Circle = Circle(id: string, title: string)

  function CharacterPool(): seq<Character>
  {
    [
      Character("Mom", "blue"),
      Character("Dad", "blue"),
      Character("Grandma", "blue"),
      Character("Grandpa", "blue"),
      Character("Sister", "blue"),
      Character("Brother", "blue"),
      Character("Cousin", "blue"),
      Character("Best Friend", "green"),
      Character("Classmate", "green"),
      Character("School Friend", "green"),
      Character("Teammate", "green"),
      Character("Playground Buddy", "green"),
      Character("Neighbor", "yellow"),
      Character("Cashier", "yellow"),
      Character("Librarian", "yellow"),
      Character("Babysitter", "yellow"),
      Character("Bus Driver", "yellow"),
      Character("Mail Carrier", "yellow"),
      Character("Teacher", "orange"),
      Character("Doctor", "orange"),
      Character("Police Officer", "orange"),
      Character("Firefighter", "orange"),
      Character("Dentist", "orange"),
      Character("Nurse", "orange"),
      Character("Coach", "orange"),
      Character("Stranger", "red"),
      Character("Person at Park", "red"),
      Character("Unknown Person", "red"),
      Character("Online Stranger", "red"),
      Character("Pet", "purple")
    ]
  }

  /** The six circles, innermost first. */
  function Circles(): seq<Circle>
  {
    [ Circle("purple", "Me"), Circle("blue", "Family"), Circle("green", "Friends"),
      Circle("yellow", "Acquaintances"), Circle("orange", "Helpers"), Circle("red", "Strangers") ]
  }

  /** The ids of the six circles, in the order of `Circles()`. */
  function CircleIds(): seq<string>
  {
    ["purple", "blue", "green", "yellow", "orange", "red"]
  }

  /** The round counts the setup screen offers. */
  const SessionLengths: set<nat> := {5, 10, 15}

  /** `circles.find(c => c.id === id)`: the first circle with that id, if any. */
  function FindCircle(circles: seq<Circle>, id: string): (found: Option<Circle>)
    ensures found.Some? <==> exists c | c in circles :: c.id == id
    ensures found.Some? ==> found.value in circles && found.value.id == id
  {
    if circles == [] then None
    else if circles[0].id == id then Some(circles[0])
    else FindCircle(circles[1..], id)
  }

  /** `circleId === currentCharacter.correctCircle`. */
  predicate PlacedCorrectly(circleId: string, character: Character)
  {
    circleId == character.correctCircle
  }

  /** Every circle id names a circle, so looking it up succeeds. */
  lemma FindCircleById(id: string)
    requires id in CircleIds()
    ensures FindCircle(Circles(), id).Some?
    ensures FindCircle(Circles(), id).value.id == id
  {
    var k :| 0 <= k < 6 && CircleIds()[k] == id;
    assert Circles()[k].id == id;
  }

  /** Every character's circle is one of the six. */
  ghost predicate Placeable(characters: seq<Character>)
  {
    forall c | c in characters :: c.correctCircle in CircleIds()
  }

  /** What the game relies on about its pool: thirty characters, each placeable. */
  ghost predicate WellFormedPool(pool: seq<Character>)
  {
    |pool| == 30 && Placeable(pool)
  }

  /** The six ids, spelled out. */
  lemma CircleIdsListed(id: string)
    requires id == "purple" || id == "blue" || id == "green" || id == "yellow" || id == "orange" || id == "red"
    ensures id in CircleIds()
  {
  }

  /** The component's pool is well formed. */
  lemma CharacterPoolFacts()
    ensures WellFormedPool(CharacterPool())
  {
    var pool := CharacterPool();
    forall k | 0 <= k < |pool| ensures pool[k].correctCircle in CircleIds() {
      CircleIdsListed(pool[k].correctCircle);
    }
  }

  /**
   * A session selected from a shuffled well-formed pool has the requested
   * length (at most thirty), takes its `k`-th character from pool position
   * `order[k]` with no position used twice, and every selected character's
   * circle can be found.
   */
  lemma SessionFromPool(pool: seq<Character>, order: seq<nat>, length: nat)
    requires WellFormedPool(pool) && IsPermutation(order, |pool|)
    ensures |Take(Permute(pool, order), length)| == Min(length, 30)
    ensures forall k | 0 <= k < Min(length, 30) :: Take(Permute(pool, order), length)[k] == pool[order[k]]
    ensures forall i, j | 0 <= i < j < Min(length, 30) :: order[i] != order[j]
    ensures Placeable(Take(Permute(pool, order), length))
  {
    SelectionFromPool(pool, order, length);
  }

  class Game {
    /** The module-level character pool the sessions are drawn from. */
    const pool: seq<Character>
    var gameState: GameState
    var sessionLength: nat
    var selectedCharacters: seq<Character>
    var currentIndex: nat
    var score: nat
    var waitingForCircle: bool
    var selectedCircleId: Option<string>
    var isCorrect: bool
    /** Whether each answer given so far this session was right, in order. */
    ghost var answers: seq<bool>

    /**
     * The session is drawn from the pool without repeats and the index stays
     * on a selected character; during a session there is one recorded answer
     * per character reached (the current one included once it is answered),
     * the score is the number of right ones, and the feedback's verdict is
     * the current answer's.
     */
    ghost predicate Valid()
      reads this
    {
      && WellFormedPool(pool)
      && sessionLength in SessionLengths
      && Placeable(selectedCharacters)
      && (gameState != Setup ==>
            && |selectedCharacters| == sessionLength
            && currentIndex < |selectedCharacters|
            && |answers| == currentIndex + (if gameState == Playing then 0 else 1)
            && score == CountCorrect(answers)
            && (gameState != Playing ==> answers[currentIndex] == isCorrect))
      && (gameState == Feedback ==>
            selectedCircleId.Some? &&
            isCorrect == PlacedCorrectly(selectedCircleId.value, selectedCharacters[currentIndex]))
      && (gameState == Complete ==> currentIndex == |selectedCharacters| - 1)
    }

    /** The hooks' initial values. */
    constructor ()
      ensures Valid()
      ensures pool == CharacterPool()
      ensures gameState == Setup && sessionLength == 10 && selectedCharacters == []
      ensures currentIndex == 0 && score == 0
      ensures !waitingForCircle && selectedCircleId == None && !isCorrect
      ensures answers == []
    {
      pool := CharacterPool();
      CharacterPoolFacts();
      gameState := Setup;
      sessionLength := 10;
      selectedCharacters := [];
      currentIndex := 0;
      score := 0;
      waitingForCircle := false;
      selectedCircleId := None;
      isCorrect := false;
      answers := [];
    }

    /** A length button of the setup screen. */
    method ChooseLength(length: nat)
      requires Valid() && gameState == Setup && length in SessionLengths
      modifies this
      ensures Valid()
      ensures sessionLength == length
      ensures gameState == old(gameState) && selectedCharacters == old(selectedCharacters)
      ensures currentIndex == old(currentIndex) && score == old(score)
      ensures waitingForCircle == old(waitingForCircle)
      ensures selectedCircleId == old(selectedCircleId) && isCorrect == old(isCorrect)
      ensures answers == old(answers)
    {
      sessionLength := length;
    }

    /**
     * `startGame(length)`, with `order` standing for the random sort of the
     * pool. The previously selected circle is kept, as in the component.
     */
    method StartGame(length: nat, order: seq<nat>)
      requires Valid() && gameState == Setup
      requires length in SessionLengths && IsPermutation(order, |pool|)
      modifies this
      ensures Valid()
      ensures selectedCharacters == Take(Permute(pool, order), length)
      ensures |selectedCharacters| == length
      ensures sessionLength == length && currentIndex == 0 && score == 0
      ensures gameState == Playing && !waitingForCircle
      ensures selectedCircleId == old(selectedCircleId) && isCorrect == old(isCorrect)
      ensures answers == []
    {
      SessionFromPool(pool, order, length);
      selectedCharacters := Take(Permute(pool, order), length);
      sessionLength := length;
      currentIndex := 0;
      score := 0;
      gameState := Playing;
      waitingForCircle := false;
      answers := [];
    }

    /** The "choose circle" button: circles become clickable. */
    method HandleChooseCircle()
      requires Valid() && gameState == Playing
      modifies this
      ensures Valid()
      ensures waitingForCircle
      ensures gameState == old(gameState) && sessionLength == old(sessionLength)
      ensures selectedCharacters == old(selectedCharacters)
      ensures currentIndex == old(currentIndex) && score == old(score)
      ensures selectedCircleId == old(selectedCircleId) && isCorrect == old(isCorrect)
      ensures answers == old(answers)
    {
      waitingForCircle := true;
    }

    /**
     * A click on a circle. Ignored unless the player has asked to choose;
     * otherwise the circle is recorded, the score rises by one exactly when it
     * is the character's circle, and feedback is shown.
     */
    method HandleCircleClick(circleId: string)
      requires Valid() && gameState == Playing
      modifies this
      ensures Valid()
      ensures !old(waitingForCircle) ==> unchanged(this)
      ensures sessionLength == old(sessionLength) && selectedCharacters == old(selectedCharacters)
      ensures currentIndex == old(currentIndex)
      ensures old(waitingForCircle) ==>
                && selectedCircleId == Some(circleId)
                && isCorrect == (circleId == selectedCharacters[currentIndex].correctCircle)
                && score == old(score) + (if isCorrect then 1 else 0)
                && gameState == Feedback && waitingForCircle
      ensures old(waitingForCircle) ==> answers == old(answers) + [isCorrect]
    {
      if !waitingForCircle {
        return;
      }
      selectedCircleId := Some(circleId);
      var correct := PlacedCorrectly(circleId, selectedCharacters[currentIndex]);
      isCorrect := correct;
      if correct {
        score := score + 1;
      }
      CountCorrectAppend(answers, isCorrect);
      answers := answers + [isCorrect];
      gameState := Feedback;
    }

    /** The circle the feedback screen shows as the right one: it always exists. */
    function CorrectCircle(): (c: Circle)
      reads this
      requires Valid() && gameState == Feedback
      ensures c in Circles() && c.id == selectedCharacters[currentIndex].correctCircle
      ensures isCorrect ==> c.id == selectedCircleId.value
    {
      var character := selectedCharacters[currentIndex];
      assert character in selectedCharacters;
      FindCircleById(character.correctCircle);
      match FindCircle(Circles(), character.correctCircle)
      case Some(c) => c
    }

    /**
     * The continue button: the next character, with a fresh wait and no
     * selected circle, or the completion screen after the last one.
     */
    method HandleContinue()
      requires Valid() && gameState == Feedback
      modifies this
      ensures Valid()
      ensures old(currentIndex) < |selectedCharacters| - 1 ==>
                && currentIndex == old(currentIndex) + 1 && gameState == Playing
                && !waitingForCircle && selectedCircleId == None
      ensures old(currentIndex) >= |selectedCharacters| - 1 ==>
                && currentIndex == old(currentIndex) && gameState == Complete
                && waitingForCircle == old(waitingForCircle) && selectedCircleId == old(selectedCircleId)
      ensures score == old(score) && sessionLength == old(sessionLength)
      ensures selectedCharacters == old(selectedCharacters) && isCorrect == old(isCorrect)
      ensures answers == old(answers)
    {
      if currentIndex < |selectedCharacters| - 1 {
        currentIndex := currentIndex + 1;
        gameState := Playing;
        waitingForCircle := false;
        selectedCircleId := None;
      } else {
        gameState := Complete;
      }
    }

    /**
     * Stars on the completion screen: the score is the number of right
     * answers over the whole session, and a session answered without a
     * mistake earns three.
     */
    function Stars(): (stars: nat)
      reads this
      requires Valid() && gameState == Complete
      ensures 1 <= stars <= 3
      ensures score <= sessionLength
      ensures score == sessionLength ==> stars == 3
      ensures |answers| == |selectedCharacters| && score == CountCorrect(answers)
      ensures (forall k | 0 <= k < |answers| :: answers[k]) ==> stars == 3
    {
      RecordStars(answers);
      SessionStars(score, sessionLength)
    }

    /** Play Again returns to the setup screen and keeps the rest. */
    method PlayAgain()
      requires Valid() && gameState == Complete
      modifies this
      ensures Valid()
      ensures gameState == Setup
      ensures sessionLength == old(sessionLength) && selectedCharacters == old(selectedCharacters)
      ensures currentIndex == old(currentIndex) && score == old(score)
      ensures waitingForCircle == old(waitingForCircle)
      ensures selectedCircleId == old(selectedCircleId) && isCorrect == old(isCorrect)
      ensures answers == old(answers)
    {
      gameState := Setup;
    }
  }
}
