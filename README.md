# Quiz state machines of a children's safety-education app

The app teaches body safety, privacy and personal space through small
quizzes. Each quiz is one React component whose `useState` hooks hold the
round's state and whose button handlers and `setTimeout` callbacks step
it along. This project models those state machines in Dafny and proves what
they promise.

- **Component as class.** Each component is a class. The class fields are
  the component's hooks, and each method is one handler or one timer
  callback. A `Valid()` predicate holds the invariant that every method
  keeps.
- **Recorded answers.** A ghost field `answers` records, in order, whether
  each answer was right. The invariant ties the score to it:
  `score == CountCorrect(answers)`.
- **Shuffled-session quizzes** (what would you do, circle sorter, info
  vault, space bubble, safety scenarios):
  - a setup screen offers 5, 10 or 15 rounds;
  - `startGame` shuffles the static pool and takes the first `length`
    items;
  - each round goes playing → (wait for the choose button) → feedback →
    next or complete;
  - the completion screen shows `Math.round(score / length * 100)` and
    one to three stars.
- **Fixed-sequence quizzes.**
  - The safe-touch game and the private/public sorting game walk their
    whole list. A timer moves to the next item after each answer.
  - The scenario quiz lets the child retry a scenario until a safe
    choice is made.
- **My places.** A level map remembers each level's completion and stars.
  Five levels each have their own small machine:
  - level 1 places behaviours in rooms;
  - levels 2–4 are yes/no, public/private and story questions;
  - level 5 builds a routine.
  - The stars a level reports are computed inside the answer timer, from
    the score captured when the answer was given.
- **Guided pointer.** A step sequencer with a current index, an active
  flag and a set of completed step ids.

Modelling decisions:

- The shuffle `sort(() => Math.random() - 0.5)` is any reordering of the
  pool. The caller supplies it as a permutation `order` of pool positions.
  Shuffled item `k` is pool item `order[k]`.
- `Math.round(score / total * 100)` is the integer
  `(200 * score + total) / (2 * total)`.
  - The star tier is then proved to depend only on whether
    `200 * score >= 179 * total` (three stars) and whether
    `200 * score >= 139 * total` (two or more).
  - For totals below 200 these boundaries are never hit exactly, so
    floating point does not change the tier.
- A timer callback is a method.
  - It reads the values its closure captured when the timer started. The
    pending timer is stored with those captured values (`Pending`,
    `Perfect`).
  - In my places, the timer that finishes a level returns the stars it
    passes to the level's completion callback (`completion`).
  - The level screen is removed at that point, so the level object is
    left unchanged then.
- Buttons that are only rendered in some state become `requires` of their
  handlers. Examples: the answer buttons exist only while no feedback is
  shown, and Next appears only in the correct-feedback state. Guards the
  handler tests itself are modelled as branches that change nothing.
- In what would you do and the circle sorter, the game object holds the
  pool it draws from as a constant `pool`. The constructor sets it to the
  component's pool, and `Valid()` carries what the game needs to know
  about that pool.

## Model

| member | source | states |
|---|---|---|
| `Scoring.RoundedPercentage` | src/components/WhatWouldYouDo.tsx:543 | the result is the integer nearest to 100·score/total, with halves rounded up (two-sided bound); at most 100 when the score is at most the total |
| `Scoring.SessionStars` | src/components/WhatWouldYouDo.tsx:543-544 | the star tier of the rounded percentage is always between one and three |
| `Scoring.SessionStarsThresholds` | src/components/InfoVault.tsx:364-365 | three stars exactly when 200·score ≥ 179·total, and two or more exactly when 200·score ≥ 139·total (both directions) |
| `Scoring.SessionStarsMonotone` | src/components/SpaceBubble.tsx:344-345 | more right answers never earn fewer stars |
| `Scoring.SessionStarsExtremes` | src/components/CircleSorter.tsx:285-286 | a perfect session earns three stars, and an empty score still earns one |
| `Scoring.SessionStarsExamples` | src/components/PrivatePublicSorting.tsx:100-101 | 9/10 gives 3, 7/10 gives 2, 6/10 gives 1; 18/20 gives 3, 14/20 gives 2, 13/20 gives 1 |
| `Scoring.CountCorrect` | src/components/WhatWouldYouDo.tsx:419-429 | the number of right answers is at most the number of answers, and equals it exactly when every answer was right |
| `Scoring.CountCorrectAppend` | src/components/WhatWouldYouDo.tsx:423-425 | one more answer adds one to the count exactly when it is right |
| `Scoring.RecordStars` | src/components/SafeContactGame.tsx:189-190 | the stars of a finished session over its record of answers lie in 1..3, and a record without a mistake earns three |
| `Selection.Permute` | src/components/WhatWouldYouDo.tsx:400 | the shuffled pool has the pool's length, and its `k`-th item is the pool item at position `order[k]` |
| `Selection.Take` | src/components/WhatWouldYouDo.tsx:401 | the slice has `min(length, pool size)` items, which are the first ones of the shuffled pool |
| `Selection.SelectionFromPool` | src/components/WhatWouldYouDo.tsx:399-401 | a session has `min(length, pool size)` items; item `k` is pool item `order[k]`; every item comes from the pool; a pool without repeats gives a session without repeats |
| `Selection.PositionalKeysDistinct` | src/components/InfoVault.tsx:20-204 | a pool whose ids are its positions plus one has no two equal items |
| `WhatWouldYouDo.CorrectCount` | src/components/WhatWouldYouDo.tsx:27-387 | the number of correct choices is at most the number of choices, and positive exactly when some choice is correct |
| `WhatWouldYouDo.FindCorrect` | src/components/WhatWouldYouDo.tsx:605 | `find` succeeds exactly when some choice is correct, and what it finds is a correct choice of the list |
| `WhatWouldYouDo.FindCorrectIsUnique` | src/components/WhatWouldYouDo.tsx:605 | with exactly one correct choice, `find` returns that choice |
| `WhatWouldYouDo.ScenarioPoolFacts` | src/components/WhatWouldYouDo.tsx:27-387 | the pool has fifteen scenarios, no two alike, each with exactly one correct choice |
| `WhatWouldYouDo.SessionFromPool` | src/components/WhatWouldYouDo.tsx:399-401 | a session drawn from the shuffled pool has `min(length, 15)` scenarios, no repeats, and one correct choice in each |
| `WhatWouldYouDo.Game.ScoreWithinAnswered` | src/components/WhatWouldYouDo.tsx:416-441 | the score is at most the current index while playing, at most index + 1 afterwards, and at most the session length |
| `WhatWouldYouDo.Game.constructor` | src/components/WhatWouldYouDo.tsx:390-397 | the hooks' initial values (setup, length 10, nothing selected, score 0), drawing from the component's pool |
| `WhatWouldYouDo.Game.ChooseLength` | src/components/WhatWouldYouDo.tsx:494-497 | a length button sets the session length and nothing else |
| `WhatWouldYouDo.Game.StartGame` | src/components/WhatWouldYouDo.tsx:399-408 | the session is the first `length` scenarios of the shuffled pool, with exactly `length` of them and no repeats; index and score are 0; playing; wait flag off; no answers recorded |
| `WhatWouldYouDo.Game.HandleReadNow` | src/components/WhatWouldYouDo.tsx:412-414 | the choose button turns the wait flag on and changes nothing else |
| `WhatWouldYouDo.Game.HandleChoice` | src/components/WhatWouldYouDo.tsx:416-430 | nothing changes unless the wait flag is on; otherwise the choice is recorded, the verdict is the choice's `isCorrect`, the score rises by one exactly when it is correct, the state becomes feedback, and the answer is appended to the record |
| `WhatWouldYouDo.Game.CorrectChoice` | src/components/WhatWouldYouDo.tsx:605 | the feedback's lookup of the correct choice always succeeds, and after a right answer it is the chosen one |
| `WhatWouldYouDo.Game.HandleContinue` | src/components/WhatWouldYouDo.tsx:432-441 | before the last scenario: the index rises by one, back to playing, wait flag off and selection cleared; on the last: complete with the index kept; score and record unchanged |
| `WhatWouldYouDo.Game.Stars` | src/components/WhatWouldYouDo.tsx:543-544 | stars in 1..3; the score is the number of right answers over the whole session and at most its length; a session without a mistake earns three |
| `WhatWouldYouDo.Game.PlayAgain` | src/components/WhatWouldYouDo.tsx:584 | back to setup, with everything else kept |
| `CircleSorter.FindCircle` | src/components/CircleSorter.tsx:351 | `circles.find` by id succeeds exactly when some circle has the id, and returns a circle with that id |
| `CircleSorter.FindCircleById` | src/components/CircleSorter.tsx:54-109 | every one of the six circle ids is found among the circles |
| `CircleSorter.CharacterPoolFacts` | src/components/CircleSorter.tsx:16-52 | the pool has thirty characters, and each one's circle is one of the six circle ids |
| `CircleSorter.SessionFromPool` | src/components/CircleSorter.tsx:124-127 | a session drawn from the shuffled pool has `min(length, 30)` characters; character `k` is the pool's character at position `order[k]`, no position is used twice, and each character's circle exists |
| `CircleSorter.Game.constructor` | src/components/CircleSorter.tsx:113-121 | the hooks' initial values, drawing from the component's pool |
| `CircleSorter.Game.ChooseLength` | src/components/CircleSorter.tsx:225 | a length button sets the session length and nothing else |
| `CircleSorter.Game.StartGame` | src/components/CircleSorter.tsx:124-134 | the session is the first `length` characters of the shuffled pool, with exactly `length` of them; index and score are 0; playing; wait flag off; no answers recorded |
| `CircleSorter.Game.HandleChooseCircle` | src/components/CircleSorter.tsx:138-140 | the choose button turns the wait flag on and changes nothing else |
| `CircleSorter.Game.HandleCircleClick` | src/components/CircleSorter.tsx:142-157 | nothing changes unless the wait flag is on; otherwise the circle is recorded, the answer is right exactly when it is the character's circle, the score rises by one exactly then, and the state becomes feedback |
| `CircleSorter.Game.CorrectCircle` | src/components/CircleSorter.tsx:351 | the feedback's lookup of the character's circle always succeeds, and after a right answer it is the clicked circle |
| `CircleSorter.Game.HandleContinue` | src/components/CircleSorter.tsx:159-168 | before the last character: the next one, wait flag off and circle cleared; on the last: complete with the index kept; score unchanged |
| `CircleSorter.Game.Stars` | src/components/CircleSorter.tsx:285-286 | stars in 1..3, the score counts the right answers of the whole session, and a perfect session earns three |
| `CircleSorter.Game.PlayAgain` | src/components/CircleSorter.tsx:328 | back to setup, with everything else kept |
| `InfoVault.IsCorrectChoice` | src/components/InfoVault.tsx:237-239 | the choice is right exactly when "share" agrees with the item's `shouldShare` |
| `InfoVault.InfoPoolFacts` | src/components/InfoVault.tsx:20-204 | the pool has twenty items, no two alike, the first ten to share and the last ten to keep secret |
| `InfoVault.SessionFromPool` | src/components/InfoVault.tsx:216-218 | a session drawn from the shuffled pool has `min(length, 20)` items and no repeats |
| `InfoVault.Game.constructor` | src/components/InfoVault.tsx:207-214 | the hooks' initial values |
| `InfoVault.Game.ChooseLength` | src/components/InfoVault.tsx:319 | a length button sets the session length and nothing else |
| `InfoVault.Game.StartGame` | src/components/InfoVault.tsx:216-225 | the session is the first `length` items of the shuffled pool, with exactly `length` of them; the round resets |
| `InfoVault.Game.HandleDecideNow` | src/components/InfoVault.tsx:229-231 | the decide button turns the wait flag on and changes nothing else |
| `InfoVault.Game.HandleChoice` | src/components/InfoVault.tsx:233-251 | nothing changes unless the wait flag is on; otherwise the choice is recorded, it is right exactly when "share" matches `shouldShare`, the score rises by one exactly then, and the state becomes feedback |
| `InfoVault.Game.HandleContinue` | src/components/InfoVault.tsx:253-262 | before the last item: the next one with the choice reset; on the last: complete with the index kept |
| `InfoVault.Game.Stars` | src/components/InfoVault.tsx:364-365 | stars in 1..3, the score counts the right answers of the whole session, and a perfect session earns three |
| `InfoVault.Game.PlayAgain` | src/components/InfoVault.tsx:404 | back to setup, with everything else kept |
| `SpaceBubble.ScenarioPoolFacts` | src/components/SpaceBubble.tsx:20-186 | eighteen scenarios, no two alike; the first seven are too close and the rest okay; some okay scenarios still show the person inside the bubble |
| `SpaceBubble.SessionFromPool` | src/components/SpaceBubble.tsx:198-200 | a session drawn from the shuffled pool has `min(length, 18)` scenarios and no repeats |
| `SpaceBubble.Game.constructor` | src/components/SpaceBubble.tsx:189-196 | the hooks' initial values |
| `SpaceBubble.Game.ChooseLength` | src/components/SpaceBubble.tsx:299 | a length button sets the session length and nothing else |
| `SpaceBubble.Game.StartGame` | src/components/SpaceBubble.tsx:198-207 | the session is the first `length` scenarios of the shuffled pool, with exactly `length` of them; the round resets |
| `SpaceBubble.Game.HandleDecideNow` | src/components/SpaceBubble.tsx:211-213 | the decide button turns the wait flag on and changes nothing else |
| `SpaceBubble.Game.HandleChoice` | src/components/SpaceBubble.tsx:215-231 | nothing changes unless the wait flag is on; otherwise the choice is recorded, it is right exactly when it names the scenario's distance, the score rises by one exactly then, and the state becomes feedback |
| `SpaceBubble.Game.HandleContinue` | src/components/SpaceBubble.tsx:233-242 | before the last scenario: the next one with the choice cleared; on the last: complete with the index kept |
| `SpaceBubble.Game.Stars` | src/components/SpaceBubble.tsx:344-345 | stars in 1..3, the score counts the right answers of the whole session, and a perfect session earns three |
| `SpaceBubble.Game.PlayAgain` | src/components/SpaceBubble.tsx:384 | back to setup, with everything else kept |
| `SafetyScenarios.ScenarioPoolFacts` | src/components/SafetyScenarios.tsx:20-204 | twenty scenarios, no two alike, ten unsafe followed by ten safe |
| `SafetyScenarios.SessionFromPool` | src/components/SafetyScenarios.tsx:232-234 | a session drawn from the shuffled pool has `min(length, 20)` scenarios and no repeats |
| `SafetyScenarios.Game.constructor` | src/components/SafetyScenarios.tsx:207-214 | the hooks' initial values (setup, length 5, no feedback) |
| `SafetyScenarios.Game.ChooseLength` | src/components/SafetyScenarios.tsx:362 | a length button sets the session length and nothing else |
| `SafetyScenarios.Game.StartSession` | src/components/SafetyScenarios.tsx:232-241 | the session is the first `length` scenarios of the shuffled pool, with exactly `length` of them; index and score 0; playing; feedback hidden |
| `SafetyScenarios.Game.HandleAnswer` | src/components/SafetyScenarios.tsx:276-291 | the answer is right exactly when it matches `isSafe`; the score rises by one exactly then; feedback shows while the state stays playing |
| `SafetyScenarios.Game.HandleNext` | src/components/SafetyScenarios.tsx:293-306 | before the last scenario: the next one with the feedback hidden; on the last: complete with the index kept |
| `SafetyScenarios.Game.Stars` | src/components/SafetyScenarios.tsx:425-426 | stars in 1..3, the score counts the right answers of the whole session, and a perfect session earns three |
| `SafetyScenarios.Game.PlayAgain` | src/components/SafetyScenarios.tsx:465 | back to setup, with everything else kept |
| `SafeContactGame.ScenariosFacts` | src/components/SafeContactGame.tsx:20-121 | ten scenarios, no two alike, and every scenario with a stranger (the red circle) is unsafe |
| `SafeContactGame.Game.ScoreWithinAnswered` | src/components/SafeContactGame.tsx:131-152 | the score never exceeds the scenarios answered, and so never exceeds ten |
| `SafeContactGame.Game.constructor` | src/components/SafeContactGame.tsx:124-127 | the hooks' initial values |
| `SafeContactGame.Game.HandleChoice` | src/components/SafeContactGame.tsx:131-143 | ignored while feedback is on screen; otherwise right exactly when the answer matches `isSafe`, with correct feedback and one more point, or incorrect feedback and the score kept |
| `SafeContactGame.Game.FeedbackTimeout` | src/components/SafeContactGame.tsx:145-152 | the feedback is cleared; the next scenario, or the game completes after the tenth |
| `SafeContactGame.Game.Stars` | src/components/SafeContactGame.tsx:189-190 | stars over all ten scenarios, in 1..3; the score counts the right answers; all right earns three |
| `SafeContactGame.Game.PlayAgain` | src/components/SafeContactGame.tsx:228-232 | back to the first scenario with score 0 and the game not complete |
| `PrivatePublicSorting.ItemsFacts` | src/components/PrivatePublicSorting.tsx:16-40 | twenty items, no two alike, the first ten private and the rest public |
| `PrivatePublicSorting.Game.constructor` | src/components/PrivatePublicSorting.tsx:43-47 | the hooks' initial values |
| `PrivatePublicSorting.Game.HandleCategorySelect` | src/components/PrivatePublicSorting.tsx:51-64 | ignored while a choice or feedback is on screen; otherwise right exactly when "private" matches `isPrivate`, the score rises by one exactly then, and choice and feedback appear |
| `PrivatePublicSorting.Game.FeedbackTimeout` | src/components/PrivatePublicSorting.tsx:66-74 | choice and feedback are both cleared; the next item, or the game completes after the twentieth |
| `PrivatePublicSorting.Game.Stars` | src/components/PrivatePublicSorting.tsx:100-101 | stars over all twenty items, in 1..3; the score counts the right choices; all right earns three |
| `PrivatePublicSorting.Game.PlayAgain` | src/components/PrivatePublicSorting.tsx:135-139 | back to the first item with score 0 and the game not complete |
| `ScenarioQuiz.ScenariosFacts` | src/components/ScenarioQuiz.tsx:10-101 | six scenarios, no two alike, each with three choices: the first unsafe and the other two safe |
| `ScenarioQuiz.Game.constructor` | src/components/ScenarioQuiz.tsx:104-106 | the hooks' initial values |
| `ScenarioQuiz.Game.ShowChoices` | src/components/ScenarioQuiz.tsx:253 | the scene's button leads to the choices of the same scenario |
| `ScenarioQuiz.Game.HandleChoice` | src/components/ScenarioQuiz.tsx:110-119 | a safe choice gives correct feedback and one more point; an unsafe one gives incorrect feedback and the score kept |
| `ScenarioQuiz.Game.HandleTryAgain` | src/components/ScenarioQuiz.tsx:121-123 | back to the choices, with index and score unchanged |
| `ScenarioQuiz.Game.HandleNextScenario` | src/components/ScenarioQuiz.tsx:125-132 | the next scene at index + 1, or the completion screen after the last scenario |
| `ScenarioQuiz.Game.Stars` | src/components/ScenarioQuiz.tsx:174-175 | a completed quiz has passed all six scenarios, so the score is 6 and the stars are 3 |
| `ScenarioQuiz.Game.PlayAgain` | src/components/ScenarioQuiz.tsx:195-199 | the first scene with score 0 |
| `MyPlaces.ThresholdStars` | src/components/MyPlaces.tsx:486 | stars in 1..3: three exactly from the three-star count, two or more exactly from the two-star count |
| `MyPlaces.MyPlaces.constructor` | src/components/MyPlaces.tsx:48-56 | level select, level 1, every level not completed with 0 stars |
| `MyPlaces.MyPlaces.StartLevel` | src/components/MyPlaces.tsx:58-61 | any level may start, with the progress unchanged |
| `MyPlaces.MyPlaces.CompleteLevel` | src/components/MyPlaces.tsx:63-69 | only the current level's entry becomes completed with the reported stars, replacing an earlier result even if it was better; every other entry is kept |
| `MyPlaces.MyPlaces.BackToLevelSelect` | src/components/MyPlaces.tsx:71-73 | back to level select, with level and progress kept |
| `MyPlaces.MyPlaces.CompletedStars` | src/components/MyPlaces.tsx:108 | the level-complete screen shows the stars just recorded, in 1..3 |
| `MyPlaces.CompletionIsKept` | src/components/MyPlaces.tsx:63-69 | completing a level never loses another level's completion |
| `MyPlaces.BehaviorsFacts` | src/components/MyPlaces.tsx:278-290 | four behaviours, each belonging in its own room; the first two rooms are private |
| `MyPlaces.HomeSafeZones.constructor` | src/components/MyPlaces.tsx:273-276 | level 1's initial state |
| `MyPlaces.HomeSafeZones.HandleRoomSelect` | src/components/MyPlaces.tsx:294-299 | a room is recorded only when none is selected yet |
| `MyPlaces.HomeSafeZones.HandleSubmit` | src/components/MyPlaces.tsx:301-324 | the right room scores one and starts the advancing timer with the step and the old score captured; a wrong one clears the selection and keeps step and score |
| `MyPlaces.HomeSafeZones.CorrectTimeout` | src/components/MyPlaces.tsx:307-315 | the next behaviour with nothing selected, or after the fourth the level's stars, which are always three |
| `MyPlaces.HomeSafeZones.WrongTimeout` | src/components/MyPlaces.tsx:321-323 | only the hint disappears |
| `MyPlaces.LastAnswerAssumedRight` | src/components/MyPlaces.tsx:486 | levels 2 and 3 report stars from the score before the last answer plus one: never fewer than the right answers earn, and as if a wrong last answer had been right |
| `MyPlaces.LastAnswerIgnored` | src/components/MyPlaces.tsx:771 | level 4 reports stars from the score before the last answer, so never more than the right answers earn |
| `MyPlaces.StaleScoreExample` | src/components/MyPlaces.tsx:614 | four right answers of six, the last wrong, earn three stars where four right answers earn two |
| `MyPlaces.CommunityPlaces.constructor` | src/components/MyPlaces.tsx:401-404 | level 2's initial state |
| `MyPlaces.CommunityPlaces.HandleAnswer` | src/components/MyPlaces.tsx:468-476 | right exactly when the yes/no answer agrees with the behaviour; one more point exactly then; the timer captures position and old score |
| `MyPlaces.CommunityPlaces.FeedbackTimeout` | src/components/MyPlaces.tsx:478-488 | the position advances like a two-digit counter over three places × two behaviours; after the sixth answer the level reports the captured score + 1 tier |
| `MyPlaces.TalkOrKeepPrivate.constructor` | src/components/MyPlaces.tsx:553-556 | level 3's initial state |
| `MyPlaces.TalkOrKeepPrivate.HandleAnswer` | src/components/MyPlaces.tsx:599-606 | right exactly when the answer names the card's side; one more point exactly then; the timer captures card and old score |
| `MyPlaces.TalkOrKeepPrivate.FeedbackTimeout` | src/components/MyPlaces.tsx:608-617 | the next card, or after the sixth the level reports the captured score + 1 tier |
| `MyPlaces.StoriesFacts` | src/components/MyPlaces.tsx:683-752 | four stories, each with exactly one right option of two |
| `MyPlaces.SocialStories.constructor` | src/components/MyPlaces.tsx:678-681 | level 4's initial state |
| `MyPlaces.SocialStories.HandleAnswer` | src/components/MyPlaces.tsx:756-766 | a right option scores one; the timer captures story and old score |
| `MyPlaces.SocialStories.FeedbackTimeout` | src/components/MyPlaces.tsx:767-774 | the next story, or after the fourth the level reports the captured score's tier, without the last answer |
| `MyPlaces.PhaseRoutineBound` | src/components/MyPlaces.tsx:844-860 | a phase's routine of offered activities without repeats has at most three entries |
| `MyPlaces.DistinctCardinality` | src/components/MyPlaces.tsx:862-871 | a list without repeats has as many distinct members as entries |
| `MyPlaces.RoutineBuilder.constructor` | src/components/MyPlaces.tsx:835-842 | level 5 starts in the morning with nothing chosen |
| `MyPlaces.RoutineBuilder.HandleActivitySelect` | src/components/MyPlaces.tsx:862-871 | an activity of the current phase not yet chosen is appended to that phase; anything else changes nothing; phases never hold repeats |
| `MyPlaces.RoutineBuilder.HandleNext` | src/components/MyPlaces.tsx:873-881 | enabled from two activities on: morning → school → home → preview, with the routine kept |
| `MyPlaces.RoutineBuilder.PreviewBack` | src/components/MyPlaces.tsx:896 | the preview's Back returns to the last phase with the choices kept |
| `MyPlaces.RoutineBuilder.CompletionStars` | src/components/MyPlaces.tsx:883-887 | a completed routine has six to nine activities, so it earns two or three stars, three exactly from eight |
| `GuidedPointer.FindIndex` | src/components/GuidedPointer.tsx:394 | -1 exactly when no step has the id, otherwise the position of the first step that has it |
| `GuidedPointer.Guide.constructor` | src/components/GuidedPointer.tsx:362-365 | the first step, inactive, nothing completed |
| `GuidedPointer.Guide.CurrentStep` | src/components/GuidedPointer.tsx:367-368 | the current step exactly while the guide is active and has steps, and none otherwise |
| `GuidedPointer.Guide.CurrentTarget` | src/components/GuidedPointer.tsx:409-410 | the current step's target under the same conditions, so none while inactive |
| `GuidedPointer.Guide.Progress` | src/components/GuidedPointer.tsx:418-420 | current = index + 1 and total = number of steps; with steps, current lies in 1..total |
| `GuidedPointer.Guide.StartGuide` | src/components/GuidedPointer.tsx:370-374 | index 0, completed set empty, active |
| `GuidedPointer.Guide.StopGuide` | src/components/GuidedPointer.tsx:376-378 | inactive, with position and completions kept |
| `GuidedPointer.Guide.NextStep` | src/components/GuidedPointer.tsx:380-391 | the current step's id joins the completed set; the next step, or on the last the guide deactivates in place |
| `GuidedPointer.Guide.GoToStep` | src/components/GuidedPointer.tsx:393-399 | the first step with the id becomes current and the guide activates; an unknown id changes nothing |
| `GuidedPointer.Guide.MarkStepComplete` | src/components/GuidedPointer.tsx:401-406 | the id joins the completed set; the guide moves on as Next does only when it is the current step's id |

## Left out

- Sound: `playSound`, `playSuccess`, `playError` and `playNeutral` use the Web Audio API and leave the state unchanged.
- Speech: speech synthesis and the voice setting loaded from `localStorage` in the safety scenarios quiz are browser I/O.
- Rendering: texts, emoji, icons, explanations, CSS classes, progress-bar widths and the displayed percentage are not modelled.
  - The displayed percentage is replaced by the integer rounding formula above.
  - The progress `percentage` field of the guided pointer is not modelled.
- Timer delays: each timer is a method the caller may invoke at any later point; the 2–3 second delays are not modelled.
- Timers after a screen is left: a timer that fires after its level or screen has been left (Back pressed during feedback) is not modelled.
- Level state after completion: after a level's completion callback the level screen is removed. The model leaves the level object unchanged rather than applying the timer's last state updates.
- Shuffle distribution: the `Math.random` comparator is taken as an arbitrary permutation; its distribution is not modelled.
- CircleSorter.SessionFromPool: no repeats are stated by pool position (no position is used twice), not as pairwise-different character names, because comparing the thirty names pairwise is too expensive to prove; the component copies the pool's own objects, so a repeat could only be a reused position.
- Guided pointer component: the DOM lookups, bounding boxes, polling, scroll and resize listeners, coordinate parsing and the `pointerPresets` data are left out. The step `condition` and `onComplete` callbacks are also left out, and the step list is fixed for the hook's lifetime.
- Level 5 `selectedTime`: the hook is set nowhere that affects the routine or the stars, so it is not modelled.
- Other files: the confetti, parent settings, parent photo card, image utilities, permissions, permission request and main menu files are not part of this model. They are storage, camera, permission and navigation glue.
- The setup screens' `onBack` and other navigation callbacks to the main menu are not modelled.
