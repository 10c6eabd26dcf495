/**
 * The private-or-public sorting game: twenty fixed items in order, each
 * sorted into private or public; the choice and its feedback stay on screen
 * for two and a half seconds, after which a timer moves to the next item or
 * to the completion screen.
 */
module PrivatePublicSorting {
  import opened Wrappers
  import opened Scoring
  import opened Selection

  datatype ItemCategory = Body | Info | Activity | Place

  /** An item (text and emoji are left out). */
  datatype Item = Item(id: nat, isPrivate: bool, category: ItemCategory)

  function Items(): seq<Item>
  {
    [
      Item(1, true, Activity),
      Item(2, true, Body),
      Item(3, true, Info),
      Item(4, true, Info),
      Item(5, true, Activity),
      Item(6, true, Activity),
      Item(7, true, Place),
      Item(8, true, Info),
      Item(9, true, Activity),
      Item(10, true, Info),
      Item(11, false, Activity),
      Item(12, false, Activity),
      Item(13, false, Info),
      Item(14, false, Activity),
      Item(15, false, Activity),
      Item(16, false, Activity),
      Item(17, false, Info),
      Item(18, false, Activity),
      Item(19, false, Activity),
      Item(20, false, Activity)
    ]
  }

  /** The two sorting buttons. */
  datatype SortCategory = Private | Public

  /** The feedback shown after a choice. */
  datatype Feedback = Correct | Incorrect

  /** Twenty items, no two alike, the first ten private and the rest public. */
  lemma ItemsFacts()
    ensures |Items()| == 20
    ensures Distinct(Items())
    ensures forall k | 0 <= k < 20 :: Items()[k].isPrivate <==> k < 10
  {
    PositionalKeysDistinct(Items(), (item: Item) => item.id);
  }

  class Game {
    var currentIndex: nat
    var score: nat
    var feedback: Option<Feedback>
    var gameComplete: bool
    var selectedCategory: Option<SortCategory>
    /** Whether each choice made so far this round was right, in order. */
    ghost var answers: seq<bool>

    /**
     * One answer per item reached (the current one included once it is
     * sorted), the score counts exactly the right answers, a choice and its
     * feedback are on screen together and agree with the current item, and
     * the game completes on the last item with neither left on screen.
     */
    ghost predicate Valid()
      reads this
    {
      && currentIndex < |Items()|
      && (feedback.Some? <==> selectedCategory.Some?)
      && |answers| == currentIndex + (if feedback.Some? || gameComplete then 1 else 0)
      && score == CountCorrect(answers)
      && (feedback.Some? ==>
            && !gameComplete
            && answers[currentIndex] == (feedback.value == Correct)
            && answers[currentIndex] == ((selectedCategory.value == Private) == Items()[currentIndex].isPrivate))
      && (gameComplete ==> currentIndex == |Items()| - 1 && feedback == None)
    }

    /** The hooks' initial values. */
    constructor ()
      ensures Valid()
      ensures currentIndex == 0 && score == 0 && feedback == None && !gameComplete
      ensures selectedCategory == None && answers == []
    {
      currentIndex := 0;
      score := 0;
      feedback := None;
      gameComplete := false;
      selectedCategory := None;
      answers := [];
    }

    /**
     * The private or public button. Ignored while a choice or feedback is
     * on screen; otherwise the choice is right exactly when "private"
     * matches the item, the score rises by one exactly then, and the choice
     * and its feedback appear (starting the timer).
     */
    method HandleCategorySelect(category: SortCategory)
      requires Valid() && !gameComplete
      modifies this
      ensures Valid()
      ensures old(feedback).Some? || old(selectedCategory).Some? ==> unchanged(this)
      ensures currentIndex == old(currentIndex) && !gameComplete
      ensures old(feedback).None? && old(selectedCategory).None? ==>
                var right := (category == Private) == Items()[currentIndex].isPrivate;
                && selectedCategory == Some(category)
                && feedback == Some(if right then Correct else Incorrect)
                && score == old(score) + (if right then 1 else 0)
                && answers == old(answers) + [right]
    {
      if feedback.Some? || selectedCategory.Some? {
        return;
      }
      selectedCategory := Some(category);
      var right := (category == Private) == Items()[currentIndex].isPrivate;
      CountCorrectAppend(answers, right);
      answers := answers + [right];
      if right {
        feedback := Some(Correct);
        score := score + 1;
      } else {
        feedback := Some(Incorrect);
      }
    }

    /**
     * The timer started by a choice: choice and feedback are cleared and the
     * game moves to the next item, or completes after the last one. The
     * index it captured is the current one, since only this timer changes
     * the index and no second choice is taken meanwhile.
     */
    method FeedbackTimeout()
      requires Valid() && feedback.Some?
      modifies this
      ensures Valid()
      ensures feedback == None && selectedCategory == None
      ensures old(currentIndex) < |Items()| - 1 ==>
                currentIndex == old(currentIndex) + 1 && !gameComplete
      ensures old(currentIndex) == |Items()| - 1 ==>
                currentIndex == old(currentIndex) && gameComplete
      ensures score == old(score) && answers == old(answers)
    {
      feedback := None;
      selectedCategory := None;
      if currentIndex < |Items()| - 1 {
        currentIndex := currentIndex + 1;
      } else {
        gameComplete := true;
      }
    }

    /**
     * Stars on the completion screen, over all twenty items: the score is
     * the number of right choices among the twenty, and three stars follow
     * when every choice was right.
     */
    function Stars(): (stars: nat)
      reads this
      requires Valid() && gameComplete
      ensures 1 <= stars <= 3
      ensures |answers| == |Items()| && score == CountCorrect(answers)
      ensures (forall k | 0 <= k < |answers| :: answers[k]) ==> stars == 3
    {
      RecordStars(answers);
      SessionStars(score, |Items()|)
    }

    /** Play Again: back to the first item with a zero score. */
    method PlayAgain()
      requires Valid() && gameComplete
      modifies this
      ensures Valid()
      ensures currentIndex == 0 && score == 0 && !gameComplete
      ensures feedback == None && selectedCategory == None && answers == []
    {
      currentIndex := 0;
      score := 0;
      gameComplete := false;
      answers := [];
    }
  }
}
