/**
 * My places: five levels about private and public places, played from a
 * level-select screen that remembers each level's completion and stars.
 * Each level is its own screen with its own state, created fresh when the
 * level starts; its answer timers report the level's stars when the last
 * question's timer fires.
 */
module MyPlaces {
  import opened Wrappers
  import opened Scoring
  import opened Selection

  /** The three screens of the level map. */
  datatype Screen = LevelSelect | Playing | LevelComplete

  /** What the level map remembers about one level. */
  datatype Progress = Progress(completed: bool, stars: nat)

  /** The level numbers. */
  const Levels: set<nat> := {1, 2, 3, 4, 5}

  /** A level is either not completed with no stars, or completed with one to three. */
  predicate ProgressValid(p: Progress)
  {
    if p.completed then 1 <= p.stars <= 3 else p.stars == 0
  }

  /**
   * The tiered star rule the levels use: three stars from `forThree` right
   * answers on, two from `forTwo`, one otherwise.
   */
  function ThresholdStars(count: nat, forThree: nat, forTwo: nat): (stars: nat)
    requires forTwo <= forThree
    ensures 1 <= stars <= 3
    ensures stars == 3 <==> count >= forThree
    ensures stars >= 2 <==> count >= forTwo
  {
    if count >= forThree then 3 else if count >= forTwo then 2 else 1
  }

  /** The level map. */
  class MyPlaces {
    var gameState: Screen
    var currentLevel: nat
    var levelProgress: map<nat, Progress>

    /**
     * Every level has an entry and every entry is consistent, the current
     * level is one of the five, and the level-complete screen shows a
     * completed level.
     */
    ghost predicate Valid()
      reads this
    {
      && currentLevel in Levels
      && levelProgress.Keys == Levels
      && (forall l | l in levelProgress :: ProgressValid(levelProgress[l]))
      && (gameState == LevelComplete ==> levelProgress[currentLevel].completed)
    }

    /** The hooks' initial values: level 1, nothing completed. */
    constructor ()
      ensures Valid()
      ensures gameState == LevelSelect && currentLevel == 1
      ensures forall l | l in Levels :: l in levelProgress && levelProgress[l] == Progress(false, 0)
    {
      gameState := LevelSelect;
      currentLevel := 1;
      levelProgress := map l | l in Levels :: Progress(false, 0);
    }

    /** A level card of the select screen: any level may be played, in any order. */
    method StartLevel(level: nat)
      requires Valid() && gameState == LevelSelect && level in Levels
      modifies this
      ensures Valid()
      ensures currentLevel == level && gameState == Playing
      ensures levelProgress == old(levelProgress)
    {
      currentLevel := level;
      gameState := Playing;
    }

    /**
     * The level's completion callback: the current level's entry becomes
     * completed with the reported stars (replacing an earlier result, even
     * a better one), every other entry is kept, and the level-complete
     * screen shows.
     */
    method CompleteLevel(stars: nat)
      requires Valid() && 1 <= stars <= 3
      modifies this
      ensures Valid()
      ensures levelProgress == old(levelProgress)[currentLevel := Progress(true, stars)]
      ensures forall l | l in levelProgress && l != currentLevel :: levelProgress[l] == old(levelProgress)[l]
      ensures gameState == LevelComplete && currentLevel == old(currentLevel)
    {
      levelProgress := levelProgress[currentLevel := Progress(true, stars)];
      gameState := LevelComplete;
    }

    /** A level's Back button or the continue button of the level-complete screen. */
    method BackToLevelSelect()
      requires Valid()
      modifies this
      ensures Valid()
      ensures gameState == LevelSelect
      ensures currentLevel == old(currentLevel) && levelProgress == old(levelProgress)
    {
      gameState := LevelSelect;
    }

    /** The stars the level-complete screen shows: those just recorded, one to three. */
    function CompletedStars(): (stars: nat)
      reads this
      requires Valid() && gameState == LevelComplete
      ensures 1 <= stars <= 3
      ensures Progress(true, stars) == levelProgress[currentLevel]
    {
      levelProgress[currentLevel].stars
    }
  }

  /** Completing levels never loses another level's completion. */
  lemma CompletionIsKept(progress: map<nat, Progress>, level: nat, stars: nat, other: nat)
    requires other in progress && progress[other].completed
    ensures progress[level := Progress(true, stars)][other].completed
  {
  }

  // ---------------------------------------------------------------------
  // Level 1: home safe zones

  /** A room of the house; bedroom and bathroom are private, the others family rooms. */
  datatype Room = Room(id: string, isPrivate: bool)

  function Rooms(): seq<Room>
  {
    [Room("bedroom", true), Room("bathroom", true), Room("living-room", false), Room("kitchen", false)]
  }

  /** A behaviour to place, with the room it belongs in (text and icon are left out). */
  datatype Behavior = Behavior(id: string, correctRoom: string)

  function Behaviors(): seq<Behavior>
  {
    [
      Behavior("changing", "bedroom"),
      Behavior("bathing", "bathroom"),
      Behavior("watching-tv", "living-room"),
      Behavior("eating", "kitchen")
    ]
  }

  /**
   * The feedback of level 1 together with its pending timer: a right
   * answer's timer captured the step and the score of the click.
   */
  datatype HomeFeedback = Perfect(capturedStep: nat, capturedScore: nat) | ThinkAgain

  /**
   * The private behaviours belong in the private rooms and the family
   * behaviours in family rooms.
   */
  lemma BehaviorsFacts()
    ensures |Behaviors()| == 4
    ensures forall k | 0 <= k < 4 :: Behaviors()[k].correctRoom == Rooms()[k].id
    ensures forall k | 0 <= k < 4 :: Rooms()[k].isPrivate <==> k < 2
  {
  }

  class HomeSafeZones {
    var step: nat
    var score: nat
    var selectedBehavior: Option<string>
    var feedback: Option<HomeFeedback>

    /**
     * The step is a behaviour; a step is only left after a right answer, so
     * the score is the step (plus one while a right answer's feedback is on
     * screen), and that feedback's timer captured the current step and the
     * score before the answer, with the right room still selected.
     */
    ghost predicate Valid()
      reads this
    {
      && step < |Behaviors()|
      && (if feedback.Some? && feedback.value.Perfect? then
            && score == step + 1
            && feedback.value == Perfect(step, step)
            && selectedBehavior == Some(Behaviors()[step].correctRoom)
          else
            score == step)
    }

    /** The level's initial state. */
    constructor ()
      ensures Valid()
      ensures step == 0 && score == 0 && selectedBehavior == None && feedback == None
    {
      step := 0;
      score := 0;
      selectedBehavior := None;
      feedback := None;
    }

    /** A room button: selects the room unless one is already selected. */
    method HandleRoomSelect(roomId: string)
      requires Valid()
      modifies this
      ensures Valid()
      ensures old(selectedBehavior).Some? ==> unchanged(this)
      ensures old(selectedBehavior).None? ==> selectedBehavior == Some(roomId)
      ensures step == old(step) && score == old(score) && feedback == old(feedback)
    {
      if selectedBehavior.None? {
        selectedBehavior := Some(roomId);
      }
    }

    /**
     * Check Answer, shown while a room is selected and no feedback is on
     * screen. The right room scores one and starts the advancing timer; a
     * wrong one clears the selection and starts the timer that only hides
     * the hint.
     */
    method HandleSubmit()
      requires Valid() && selectedBehavior.Some? && feedback.None?
      modifies this
      ensures Valid()
      ensures step == old(step)
      ensures old(selectedBehavior) == Some(Behaviors()[step].correctRoom) ==>
                && score == old(score) + 1
                && feedback == Some(Perfect(step, old(score)))
                && selectedBehavior == old(selectedBehavior)
      ensures old(selectedBehavior) != Some(Behaviors()[step].correctRoom) ==>
                score == old(score) && feedback == Some(ThinkAgain) && selectedBehavior == None
    {
      if selectedBehavior == Some(Behaviors()[step].correctRoom) {
        feedback := Some(Perfect(step, score));
        score := score + 1;
      } else {
        feedback := Some(ThinkAgain);
        selectedBehavior := None;
      }
    }

    /**
     * The timer of a right answer: the next behaviour with nothing selected,
     * or, after the last, the level's stars from the captured score plus
     * one. Since every step is passed with exactly one right answer, the
     * level always reports three stars.
     */
    method CorrectTimeout() returns (completion: Option<nat>)
      requires Valid() && feedback.Some? && feedback.value.Perfect?
      modifies this
      ensures Valid()
      ensures completion.Some? <==> old(step) == |Behaviors()| - 1
      ensures completion.None? ==>
                step == old(step) + 1 && selectedBehavior == None && feedback == None
                && score == old(score)
      ensures completion.Some? ==> completion.value == 3 && unchanged(this)
    {
      var captured := feedback.value;
      if captured.capturedStep < |Behaviors()| - 1 {
        step := captured.capturedStep + 1;
        selectedBehavior := None;
        feedback := None;
        completion := None;
      } else {
        completion := Some(ThresholdStars(captured.capturedScore + 1, 3, 2));
      }
    }

    /** The timer of a wrong answer: only the hint disappears. */
    method WrongTimeout()
      requires Valid() && feedback == Some(ThinkAgain)
      modifies this
      ensures Valid()
      ensures feedback == None
      ensures step == old(step) && score == old(score) && selectedBehavior == old(selectedBehavior)
    {
      feedback := None;
    }
  }

  // ---------------------------------------------------------------------
  // Levels 2 to 4: a fixed run of questions with a timer after each answer

  /**
   * A pending answer timer of levels 2 to 4, with the position and the
   * score it captured when the answer was given.
   */
  datatype Pending = Pending(capturedPosition: nat, capturedScore: nat)

  /**
   * The stars levels 2 and 3 report read the score captured before the last
   * answer and add one, as if that answer had been right: they are never
   * fewer than the right answers would earn, and exceed them when the last
   * answer was wrong and the count sits just below a threshold.
   */
  lemma {:induction false} LastAnswerAssumedRight(answers: seq<bool>)
    requires |answers| == 6
    ensures ThresholdStars(CountCorrect(answers[..5]) + 1, 5, 3) >= ThresholdStars(CountCorrect(answers), 5, 3)
    ensures !answers[5] ==>
              ThresholdStars(CountCorrect(answers[..5]) + 1, 5, 3) == ThresholdStars(CountCorrect(answers) + 1, 5, 3)
  {
    assert answers == answers[..5] + [answers[5]];
    CountCorrectAppend(answers[..5], answers[5]);
  }

  /**
   * The stars level 4 reports read the score captured before the last
   * answer: the last story never counts, so they are never more than the
   * right answers would earn.
   */
  lemma {:induction false} LastAnswerIgnored(answers: seq<bool>)
    requires |answers| == 4
    ensures ThresholdStars(CountCorrect(answers[..3]), 3, 2) <= ThresholdStars(CountCorrect(answers), 3, 2)
  {
    assert answers == answers[..3] + [answers[3]];
    CountCorrectAppend(answers[..3], answers[3]);
  }

  /**
   * Six answers with only four right, the last one wrong, earn three stars
   * in levels 2 and 3, where four right answers alone would earn two.
   */
  lemma StaleScoreExample()
    ensures CountCorrect([false, true, true, true, true, false]) == 4
    ensures ThresholdStars(CountCorrect([false, true, true, true, true, false][..5]) + 1, 5, 3) == 3
    ensures ThresholdStars(4, 5, 3) == 2
  {
    assert [false, true, true, true, true, false][..5] == [false, true, true, true, true];
    var fourRight := [false, true, true, true, true];
    CountCorrectAppend([false, true], true);
    assert [false, true] + [true] == [false, true, true];
    CountCorrectAppend([false, true, true], true);
    assert [false, true, true] + [true] == [false, true, true, true];
    CountCorrectAppend([false, true, true, true], true);
    assert [false, true, true, true] + [true] == fourRight;
    CountCorrectAppend(fourRight, false);
    assert fourRight + [false] == [false, true, true, true, true, false];
  }

  // Level 2: community places

  /** A place with the behaviours asked about there, as "okay here?" answers. */
  datatype Place = Place(name: string, scenarios: seq<bool>)

  function Places(): seq<Place>
  {
    [Place("School", [true, false]), Place("Playground", [true, false]), Place("Shopping Mall", [true, false])]
  }

  class CommunityPlaces {
    var currentPlace: nat
    var currentScenario: nat
    var score: nat
    var feedback: Option<Pending>
    /** Whether each answer given so far was right, in order. */
    ghost var answers: seq<bool>

    /**
     * The position is a place and one of its two behaviours; one answer per
     * behaviour reached, in place order; the score counts the right ones;
     * and a pending timer captured the current position and the score
     * before the current answer.
     */
    ghost predicate Valid()
      reads this
    {
      && currentPlace < |Places()| && currentScenario < 2
      && |answers| == 2 * currentPlace + currentScenario + (if feedback.Some? then 1 else 0)
      && score == CountCorrect(answers)
      && (feedback.Some? ==>
            feedback.value == Pending(2 * currentPlace + currentScenario, CountCorrect(answers[..|answers| - 1])))
    }

    /** The level's initial state. */
    constructor ()
      ensures Valid()
      ensures currentPlace == 0 && currentScenario == 0 && score == 0 && feedback == None
      ensures answers == []
    {
      currentPlace := 0;
      currentScenario := 0;
      score := 0;
      feedback := None;
      answers := [];
    }

    /**
     * The yes or no button, shown while no feedback is on screen: the
     * answer is right when it agrees with the behaviour, scores one exactly
     * then, and starts the timer.
     */
    method HandleAnswer(answer: bool)
      requires Valid() && feedback.None?
      modifies this
      ensures Valid()
      ensures currentPlace == old(currentPlace) && currentScenario == old(currentScenario)
      ensures var right := answer == Places()[currentPlace].scenarios[currentScenario];
              && answers == old(answers) + [right]
              && score == old(score) + (if right then 1 else 0)
              && feedback == Some(Pending(2 * currentPlace + currentScenario, old(score)))
    {
      var right := answer == Places()[currentPlace].scenarios[currentScenario];
      CountCorrectAppend(answers, right);
      feedback := Some(Pending(2 * currentPlace + currentScenario, score));
      answers := answers + [right];
      assert answers[..|answers| - 1] == old(answers);
      if right {
        score := score + 1;
      }
    }

    /**
     * The answer timer: the next behaviour of the place, else the first of
     * the next place, else the level's stars from the score captured before
     * the last answer plus one.
     */
    method FeedbackTimeout() returns (completion: Option<nat>)
      requires Valid() && feedback.Some?
      modifies this
      ensures Valid()
      ensures completion.Some? <==> old(currentPlace) == |Places()| - 1 && old(currentScenario) == 1
      ensures completion.None? ==> feedback == None
      ensures score == old(score) && answers == old(answers)
      ensures completion.None? && old(currentScenario) == 0 ==>
                currentPlace == old(currentPlace) && currentScenario == 1
      ensures completion.None? && old(currentScenario) == 1 ==>
                currentPlace == old(currentPlace) + 1 && currentScenario == 0
      ensures completion.Some? ==>
                && |answers| == 6
                && completion.value == ThresholdStars(CountCorrect(answers[..5]) + 1, 5, 3)
                && unchanged(this)
    {
      var captured := feedback.value;
      var place, scenario := captured.capturedPosition / 2, captured.capturedPosition % 2;
      completion := None;
      if scenario < 1 {
        feedback := None;
        currentScenario := scenario + 1;
      } else if place < |Places()| - 1 {
        feedback := None;
        currentPlace := place + 1;
        currentScenario := 0;
      } else {
        completion := Some(ThresholdStars(captured.capturedScore + 1, 5, 3));
      }
    }
  }

  // Level 3: talk or keep private

  /** The two answers of level 3. */
  datatype Visibility = Public | Private

  /** The topics' right answers (topic text, icon and explanation are left out). */
  function Cards(): seq<Visibility>
  {
    [Public, Private, Public, Private, Public, Private]
  }

  class TalkOrKeepPrivate {
    var currentCard: nat
    var score: nat
    var feedback: Option<Pending>
    /** Whether each answer given so far was right, in order. */
    ghost var answers: seq<bool>

    /**
     * One answer per card reached, the score counts the right ones, and a
     * pending timer captured the current card and the score before the
     * current answer.
     */
    ghost predicate Valid()
      reads this
    {
      && currentCard < |Cards()|
      && |answers| == currentCard + (if feedback.Some? then 1 else 0)
      && score == CountCorrect(answers)
      && (feedback.Some? ==>
            feedback.value == Pending(currentCard, CountCorrect(answers[..|answers| - 1])))
    }

    /** The level's initial state. */
    constructor ()
      ensures Valid()
      ensures currentCard == 0 && score == 0 && feedback == None && answers == []
    {
      currentCard := 0;
      score := 0;
      feedback := None;
      answers := [];
    }

    /**
     * The public or private button, shown while no feedback is on screen:
     * right when it names the card's answer, scoring one exactly then, and
     * starting the timer.
     */
    method HandleAnswer(answer: Visibility)
      requires Valid() && feedback.None?
      modifies this
      ensures Valid()
      ensures currentCard == old(currentCard)
      ensures var right := answer == Cards()[currentCard];
              && answers == old(answers) + [right]
              && score == old(score) + (if right then 1 else 0)
              && feedback == Some(Pending(currentCard, old(score)))
    {
      var right := answer == Cards()[currentCard];
      CountCorrectAppend(answers, right);
      feedback := Some(Pending(currentCard, score));
      answers := answers + [right];
      assert answers[..|answers| - 1] == old(answers);
      if right {
        score := score + 1;
      }
    }

    /**
     * The answer timer: the next card, or after the last the level's stars
     * from the score captured before the last answer plus one.
     */
    method FeedbackTimeout() returns (completion: Option<nat>)
      requires Valid() && feedback.Some?
      modifies this
      ensures Valid()
      ensures completion.Some? <==> old(currentCard) == |Cards()| - 1
      ensures score == old(score) && answers == old(answers)
      ensures completion.None? ==> currentCard == old(currentCard) + 1 && feedback == None
      ensures completion.Some? ==>
                && |answers| == 6
                && completion.value == ThresholdStars(CountCorrect(answers[..5]) + 1, 5, 3)
                && unchanged(this)
    {
      var captured := feedback.value;
      completion := None;
      if captured.capturedPosition < |Cards()| - 1 {
        feedback := None;
        currentCard := captured.capturedPosition + 1;
      } else {
        completion := Some(ThresholdStars(captured.capturedScore + 1, 5, 3));
      }
    }
  }

  // Level 4: social stories

  /** An answer option of a story (its text and response are left out). */
  datatype StoryAnswer = StoryAnswer(index: nat, correct: bool)

  /** The stories' options, in display order. */
  function Stories(): seq<seq<StoryAnswer>>
  {
    [
      [StoryAnswer(0, false), StoryAnswer(1, true)],
      [StoryAnswer(0, false), StoryAnswer(1, true)],
      [StoryAnswer(0, false), StoryAnswer(1, true)],
      [StoryAnswer(0, true), StoryAnswer(1, false)]
    ]
  }

  /** Every story has exactly one right option among its two. */
  lemma StoriesFacts()
    ensures |Stories()| == 4
    ensures forall k | 0 <= k < 4 ::
              |Stories()[k]| == 2 && Stories()[k][0].correct != Stories()[k][1].correct
  {
  }

  class SocialStories {
    var currentStory: nat
    var score: nat
    var feedback: Option<Pending>
    /** Whether each answer given so far was right, in order. */
    ghost var answers: seq<bool>

    /**
     * One answer per story reached, the score counts the right ones, and a
     * pending timer captured the current story and the score before the
     * current answer.
     */
    ghost predicate Valid()
      reads this
    {
      && currentStory < |Stories()|
      && |answers| == currentStory + (if feedback.Some? then 1 else 0)
      && score == CountCorrect(answers)
      && (feedback.Some? ==>
            feedback.value == Pending(currentStory, CountCorrect(answers[..|answers| - 1])))
    }

    /** The level's initial state. */
    constructor ()
      ensures Valid()
      ensures currentStory == 0 && score == 0 && feedback == None && answers == []
    {
      currentStory := 0;
      score := 0;
      feedback := None;
      answers := [];
    }

    /**
     * An option button of the current story, shown while no feedback is on
     * screen: a right option scores one, and the timer starts.
     */
    method HandleAnswer(option: StoryAnswer)
      requires Valid() && feedback.None? && option in Stories()[currentStory]
      modifies this
      ensures Valid()
      ensures currentStory == old(currentStory)
      ensures answers == old(answers) + [option.correct]
      ensures score == old(score) + (if option.correct then 1 else 0)
      ensures feedback == Some(Pending(currentStory, old(score)))
    {
      CountCorrectAppend(answers, option.correct);
      feedback := Some(Pending(currentStory, score));
      answers := answers + [option.correct];
      assert answers[..|answers| - 1] == old(answers);
      if option.correct {
        score := score + 1;
      }
    }

    /**
     * The answer timer: the next story, or after the last the level's stars
     * from the score captured before the last answer, which therefore
     * never counts.
     */
    method FeedbackTimeout() returns (completion: Option<nat>)
      requires Valid() && feedback.Some?
      modifies this
      ensures Valid()
      ensures completion.Some? <==> old(currentStory) == |Stories()| - 1
      ensures score == old(score) && answers == old(answers)
      ensures completion.None? ==> currentStory == old(currentStory) + 1 && feedback == None
      ensures completion.Some? ==>
                && |answers| == 4
                && completion.value == ThresholdStars(CountCorrect(answers[..3]), 3, 2)
                && unchanged(this)
    {
      var captured := feedback.value;
      completion := None;
      if captured.capturedPosition < |Stories()| - 1 {
        feedback := None;
        currentStory := captured.capturedPosition + 1;
      } else {
        completion := Some(ThresholdStars(captured.capturedScore, 3, 2));
      }
    }
  }

  // ---------------------------------------------------------------------
  // Level 5: my safe routine

  /** The three parts of the day, built in this order. */
  datatype Phase = Morning | School | Home

  /** The activities offered in each part of the day (texts and icons are left out). */
  function PhaseActivities(phase: Phase): seq<string>
  {
    match phase
    case Morning => ["wake", "breakfast", "brush"]
    case School => ["learn", "play", "lunch"]
    case Home => ["homework", "family", "bedtime"]
  }

  /** The minimum of activities a phase needs before moving on. */
  const PhaseMinimum: nat := 2

  /** The total number of activities in a routine. */
  function TotalActivities(routine: map<Phase, seq<string>>): nat
    requires Morning in routine && School in routine && Home in routine
  {
    |routine[Morning]| + |routine[School]| + |routine[Home]|
  }

  /** A phase's routine holds offered activities, each once, so it has at most three. */
  lemma {:induction false} PhaseRoutineBound(phase: Phase, chosen: seq<string>)
    requires Distinct(chosen)
    requires forall a | a in chosen :: a in PhaseActivities(phase)
    ensures |chosen| <= |PhaseActivities(phase)|
  {
    var offered := PhaseActivities(phase);
    assert offered[0] != offered[1] && offered[0] != offered[2] && offered[1] != offered[2];
    var positions := set a | a in chosen;
    assert positions <= set a | a in offered;
    assert |set a | a in offered| <= 3 by {
      assert (set a | a in offered) == {offered[0], offered[1], offered[2]};
    }
    DistinctCardinality(chosen);
    SubsetCardinality(positions, set a | a in offered);
  }

  /** A sequence without repeats has as many distinct members as elements. */
  lemma {:induction false} DistinctCardinality<T>(s: seq<T>)
    requires Distinct(s)
    ensures |set a | a in s| == |s|
  {
    if s != [] {
      var rest := s[1..];
      assert Distinct(rest) by {
        forall i, j | 0 <= i < j < |rest| ensures rest[i] != rest[j] {
          assert rest[i] == s[i + 1] && rest[j] == s[j + 1];
        }
      }
      DistinctCardinality(rest);
      assert s[0] !in rest by {
        forall i | 0 <= i < |rest| ensures rest[i] != s[0] {
          assert rest[i] == s[i + 1];
        }
      }
      assert (set a | a in s) == (set a | a in rest) + {s[0]} by {
        assert s == [s[0]] + rest;
      }
    }
  }

  /** A subset has no more members than its superset. */
  lemma {:induction false} SubsetCardinality<T>(small: set<T>, large: set<T>)
    requires small <= large
    ensures |small| <= |large|
  {
    if small != {} {
      var x :| x in small;
      SubsetCardinality(small - {x}, large - {x});
    }
  }

  class RoutineBuilder {
    var routine: map<Phase, seq<string>>
    var currentPhase: Phase
    var showPreview: bool

    /**
     * Each phase's routine holds offered activities without repeats; every
     * phase before the current one has reached the minimum, and so has the
     * last phase once the preview has been reached.
     */
    ghost predicate Valid()
      reads this
    {
      && routine.Keys == {Morning, School, Home}
      && (forall p | p in routine :: Distinct(routine[p]))
      && (forall p | p in routine :: forall a | a in routine[p] :: a in PhaseActivities(p))
      && (currentPhase != Morning ==> |routine[Morning]| >= PhaseMinimum)
      && (currentPhase == Home ==> |routine[School]| >= PhaseMinimum)
      && (showPreview ==> currentPhase == Home && |routine[Home]| >= PhaseMinimum)
    }

    /** The level's initial state: the morning, nothing chosen. */
    constructor ()
      ensures Valid()
      ensures routine == map[Morning := [], School := [], Home := []]
      ensures currentPhase == Morning && !showPreview
    {
      routine := map[Morning := [], School := [], Home := []];
      currentPhase := Morning;
      showPreview := false;
    }

    /**
     * An activity button: an activity offered in the current phase and not
     * yet chosen is appended to that phase's routine; anything else changes
     * nothing.
     */
    method HandleActivitySelect(activityId: string)
      requires Valid() && !showPreview
      modifies this
      ensures Valid()
      ensures currentPhase == old(currentPhase) && showPreview == old(showPreview)
      ensures activityId in PhaseActivities(currentPhase) && activityId !in old(routine)[currentPhase] ==>
                routine == old(routine)[currentPhase := old(routine)[currentPhase] + [activityId]]
      ensures !(activityId in PhaseActivities(currentPhase) && activityId !in old(routine)[currentPhase]) ==>
                routine == old(routine)
    {
      if activityId in PhaseActivities(currentPhase) && activityId !in routine[currentPhase] {
        var chosen := routine[currentPhase];
        assert Distinct(chosen + [activityId]) by {
          forall i, j | 0 <= i < j < |chosen| + 1 ensures (chosen + [activityId])[i] != (chosen + [activityId])[j] {
            if j == |chosen| {
              assert (chosen + [activityId])[i] == chosen[i];
            }
          }
        }
        routine := routine[currentPhase := chosen + [activityId]];
      }
    }

    /**
     * Next (Preview on the last phase), enabled once the current phase has
     * two activities: the next phase, or the preview.
     */
    method HandleNext()
      requires Valid() && !showPreview && |routine[currentPhase]| >= PhaseMinimum
      modifies this
      ensures Valid()
      ensures old(currentPhase) == Morning ==> currentPhase == School && !showPreview
      ensures old(currentPhase) == School ==> currentPhase == Home && !showPreview
      ensures old(currentPhase) == Home ==> currentPhase == Home && showPreview
      ensures routine == old(routine)
    {
      match currentPhase
      case Morning => currentPhase := School;
      case School => currentPhase := Home;
      case Home => showPreview := true;
    }

    /** The preview's Back button: the last phase again, with its choices kept. */
    method PreviewBack()
      requires Valid() && showPreview
      modifies this
      ensures Valid()
      ensures !showPreview && currentPhase == old(currentPhase) && routine == old(routine)
    {
      showPreview := false;
    }

    /**
     * Complete Level on the preview: three stars from eight activities, two
     * from six. Since every phase holds two or three, a completed routine
     * has six to nine activities and always earns two or three stars.
     */
    function CompletionStars(): (stars: nat)
      reads this
      requires Valid() && showPreview
      ensures 6 <= TotalActivities(routine) <= 9
      ensures 2 <= stars <= 3
      ensures stars == 3 <==> TotalActivities(routine) >= 8
    {
      PhaseRoutineBound(Morning, routine[Morning]);
      PhaseRoutineBound(School, routine[School]);
      PhaseRoutineBound(Home, routine[Home]);
      ThresholdStars(TotalActivities(routine), 8, 6)
    }
  }
}
