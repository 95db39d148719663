# Lesson progression engine — a Dafny model

This project models the progression engine of an interactive lesson player. A lesson is a
flat list of steps. Each step is a timed video segment or an exercise (code, quiz,
simulation or ML). The engine tracks the current step and the set of completed steps. When
a video reaches its end boundary and the next step is an exercise, it opens that exercise in
an overlay. When the exercise reports completion, it records it and closes the overlay.
With a video handle present, it then moves on only if the step after the exercise is a
video; otherwise it resumes the current video. It also saves and restores progress through
one storage slot, `interactiveEdu_progress`.

The model has three parts, one per source component:

- **Sequencer** (`components/LessonPlayer.js`) is a class `LessonPlayer` whose fields are
  the component's state: `currentStep`, `completedSteps`, `showOverlay`, `overlayTitle`,
  `overlayContent`, the video handle and the storage slot. Every handler is a method. Each
  method states the whole new state as an update of the old `State()` snapshot. Each method
  also keeps `Valid()`: the completed steps have no duplicates, and the overlay is open
  exactly when it has content. An open overlay is always bound to the rendering of the
  exercise that comes right after the current step. The pure parts are functions:
  - the mode dispatch of `renderExercise` and the title mapping (module `Dispatch`);
  - `findIndex` over video steps (`Lesson.FirstVideo`);
  - the `safeStep` guard, restore and the save payload (module `ProgressStore`).
- **Playback checkpoint monitor** (`components/VideoPlayer.js`) is a class `VideoPlayer`.
  Its fields are the embedded player (absent, created, or created with its methods
  attached), `isReady`, `isPaused`, `currentTime`, a flag for the running sampler, and a log
  of the calls made on the embedded player. The sampling interval is a `Tick(time)` event.
  A ghost counter proves that a sampler emits at most one checkpoint.
- **Quiz** (`components/QuizCard.js`) is a class `QuizCard` with `selectedIndex`,
  `isAnswered` and `isCorrect`. The completions it emits are out-parameters. A ghost counter
  proves that `onComplete(true)` is emitted at most once. Choice styling is a function with
  an enumerated `Style`.

Modelling choices:

- **Completed steps.** `completedSteps` is a `seq<int>` without duplicates. A JavaScript
  `Set` keeps insertion order, and `Array.from` saves that order, so `Members` gives the set
  view. `new Set(array)` is `ProgressStore.FromArray`. Its contract states that the result has
  no duplicates and the same members as the array, and `FromArrayOfDistinct` states that an
  array without duplicates keeps its order; the order for an array with duplicates is the
  first-occurrence order of the definition, but no contract states it.
- **Video handle.** The lesson player's `videoPlayerRef.current` is an
  `Option<seq<Command>>`: `Some(log)` while a video player is mounted, holding the
  `playFrom`/`resume` commands it has received. Attaching and detaching the ref are
  environment events.
- **Storage slot.** The slot holds an `Option<Stored>`: absent, unparseable, or a record
  whose `currentStep` is a number or not, and whose `completedSteps` is an array, nullish,
  or not iterable.
- **Time.** Times are `real` seconds, and they are only compared. A missing `end` is `None`,
  and `time >= undefined` is false, so the sampler never fires without an `end`.
- **Module `Scenarios`.** It drives the three classes together. Watching video A to 10 s
  opens the quiz. A right answer, or a wrong answer followed by "Continue Anyway", completes
  step 1 and moves to video B. The player is then sent to B's start at 10 s.

In these places the model follows what the code does:

- The completion callback drops the quiz's `success` flag (`() => handleExerciseComplete(stepIndex)`).
- With no video handle, a completion records the step but does not advance.
- The overlay can be closed from the backdrop or the close button for every exercise type.
  Closing it resumes the video, does not complete the exercise and does not move.
- `goToStep` closes an open overlay, so navigation dismisses an unfinished exercise.
- Restore does not bound `currentStep` by the lesson length. From an index past the end,
  `goToNext` does nothing, and `goToPrevious` moves only from the index just past the last
  step.
- The checkpoint handler does not pause. The monitor has already paused, and only on the
  sampler path; the `ENDED` path does not pause.
- If `completedSteps` in the slot is not iterable, restore throws after it has already set
  the step. The step is restored and the completed set keeps its default.
- The second of two consecutive exercises is never offered. Completing the first one
  resumes the current video and does not move. When that video then ends (`ENDED`), the
  checkpoint fires again for the same step and reopens the exercise already completed
  (`Scenarios.ExerciseAfterExerciseScenario`).
- On a valid quiz card the "selected" style is unreachable. `selectedIndex` is only ever set
  together with `isAnswered`.

## Model

| member | source | states |
|---|---|---|
| `Lesson.FirstVideo` | components/LessonPlayer.js:75 | the result is the index of a video step with no video step before it, and it is `None` exactly when the lesson has no video step |
| `Dispatch.Title` | components/LessonPlayer.js:126-134 | the title is the generic "Exercise" exactly for modes other than the four known ones; a quiz gets "Quiz Question" |
| `Dispatch.Render` | components/LessonPlayer.js:136-178 | the four known modes render a widget whose completion is bound to the exercise's own index; any other mode renders a fallback with no completion path; a quiz widget gets the step's choices and answer index |
| `ProgressStore.FromArray` | components/LessonPlayer.js:56 | `new Set(xs)` in iteration order has no duplicates and holds exactly the elements of `xs` |
| `ProgressStore.FromArrayOfDistinct` | components/LessonPlayer.js:56 | an array without duplicates turns into a set with the same elements in the same order |
| `ProgressStore.Add` | components/LessonPlayer.js:102-104 | marking `i` gives the old set plus `i`, with no duplicates; an index already present leaves the order as it was, and a new index goes last |
| `ProgressStore.AddIdempotent` | components/LessonPlayer.js:102-104 | marking the same index twice gives the same set as marking it once |
| `ProgressStore.Restore` | components/LessonPlayer.js:48-61 | an absent or unparseable slot leaves the progress in place; a record restores a numeric non-negative step and turns anything else into 0; an array restores the same members, a nullish list restores the empty set, and a non-iterable list keeps the old set |
| `ProgressStore.RestoreSave` | components/LessonPlayer.js:48-61 | restoring the record that saving writes gives back the same step and the same completed steps |
| `Sequencer.LessonPlayer.constructor` | components/LessonPlayer.js:10-24 | mounting starts from step 0, an empty set, no overlay and no handle, then applies the restore of the slot |
| `Sequencer.LessonPlayer.AttachPlayer` | components/LessonPlayer.js:215-217 | a mounted video player attaches a fresh handle to the ref; nothing else changes |
| `Sequencer.LessonPlayer.DetachPlayer` | components/LessonPlayer.js:18 | an unmounted video player leaves the ref empty; nothing else changes |
| `Sequencer.LessonPlayer.GoToStep` | components/LessonPlayer.js:82-88 | an in-range index becomes the current step and closes the overlay, leaving the completed set, the handle and the slot unchanged; an out-of-range index changes nothing |
| `Sequencer.LessonPlayer.GoToNext` | components/LessonPlayer.js:90-94 | moves forward by exactly one and closes the overlay when a next step exists; otherwise nothing changes |
| `Sequencer.LessonPlayer.GoToPrevious` | components/LessonPlayer.js:96-100 | moves back by exactly one when the current step is past 0 and at most the lesson length; otherwise nothing changes |
| `Sequencer.LessonPlayer.MarkStepCompleted` | components/LessonPlayer.js:102-104 | the completed set becomes the old one plus the index; nothing else changes |
| `Sequencer.LessonPlayer.HandleCheckpointReached` | components/LessonPlayer.js:106-124 | the overlay opens, titled and bound to step `currentStep+1`, exactly when that step exists and is an exercise; otherwise nothing changes, and a checkpoint while the overlay is open changes nothing |
| `Sequencer.LessonPlayer.HandleExerciseComplete` | components/LessonPlayer.js:180-200 | the index is always added and the overlay closed. With a handle, a following video step receives `playFrom(its start)` and becomes current; otherwise the handle receives `resume` and the step stays. Without a handle the step stays and no command is sent |
| `Sequencer.LessonPlayer.OnWidgetComplete` | components/LessonPlayer.js:143-171 | a widget's completion, whatever success value it passes, completes exactly the exercise the open overlay is bound to; with no overlay or a fallback view nothing changes |
| `Sequencer.LessonPlayer.HandleOverlayClose` | components/LessonPlayer.js:202-210 | closes the overlay and sends `resume` to a present handle, without marking anything completed or moving the current step |
| `Sequencer.LessonPlayer.ResetProgress` | components/LessonPlayer.js:63-80 | the slot is removed, the step is 0, the set is empty and the overlay is closed; a present handle receives `playFrom(first video's start, or 0)` when the lesson has a video step |
| `Sequencer.LessonPlayer.SaveProgress` | components/LessonPlayer.js:27-34 | with a non-empty lesson the slot holds the current step and set, and restoring it gives them back; with an empty lesson nothing is written |
| `Playback.ReachedEnd` | components/VideoPlayer.js:79 | the end boundary is reached exactly when `end` is defined and the time is at or past it |
| `Playback.VideoPlayer.constructor` | components/VideoPlayer.js:4-7 | a new player has no backend, is not ready, not paused, at time 0, with no sampler and no calls |
| `Playback.VideoPlayer.PlayFrom` | components/VideoPlayer.js:11-17 | with a backend that has its methods: seeks to the offset, plays and clears `isPaused`; otherwise nothing changes |
| `Playback.VideoPlayer.Resume` | components/VideoPlayer.js:18-23 | with a backend that has its methods: plays and clears `isPaused`; otherwise nothing changes |
| `Playback.VideoPlayer.Pause` | components/VideoPlayer.js:24-29 | with a backend that has its methods: pauses and sets `isPaused`; otherwise nothing changes |
| `Playback.VideoPlayer.InitializePlayer` | components/VideoPlayer.js:42-45 | creates the backend only when none exists; otherwise nothing changes |
| `Playback.VideoPlayer.OnReady` | components/VideoPlayer.js:92-98 | a ready backend gets its methods and starts the sampler; on the first ready with a defined `start`, playback restarts through `playFrom(start)` |
| `Playback.VideoPlayer.OnStateChange` | components/VideoPlayer.js:62-67 | `ENDED` emits a checkpoint whatever the sampler state, and other states do not; no state changes |
| `Playback.VideoPlayer.Tick` | components/VideoPlayer.js:72-90 | with no sampler or no backend methods: no change, no emission. Before `end`: records the time, with no pause and no emission, and sampling goes on. At or past `end`: records the time, pauses, emits exactly one checkpoint and stops the sampler |
| `Quiz.QuizCard.constructor` | components/QuizCard.js:3-6 | a new card has no selection, is unanswered and not correct |
| `Quiz.QuizCard.HandleAnswerSelect` | components/QuizCard.js:8-20 | the first selection records the index, marks the card answered, judges it against the answer index and emits `onComplete(true)` only when correct; once answered, selections change nothing and emit nothing; success is emitted at most once per card |
| `Quiz.QuizCard.ForceNext` | components/QuizCard.js:22-24 | always emits `onComplete(false)` |
| `Quiz.QuizCard.ShowContinueAnyway` | components/QuizCard.js:103 | on a valid card, "Continue Anyway" is shown exactly when a choice was made and it is not the answer |
| `Quiz.QuizCard.ChoiceStyle` | components/QuizCard.js:26-42 | unanswered: "selected" exactly for the recorded index, else neutral, and always neutral on a valid card. Answered: "correct" exactly for the answer index, "wrong" exactly for a wrong recorded index, "dimmed" for every other choice |
| `Scenarios.WatchToEnd` | components/VideoPlayer.js:72-90 | ticks before `end` emit nothing, the tick at `end` emits, and a later tick emits nothing |
| `Scenarios.AnswerQuiz` | components/QuizCard.js:8-24 | a selection, followed by "Continue Anyway" when it was wrong, always ends in one completion whose flag says whether the choice was right |
| `Scenarios.QuizCheckpointScenario` | components/LessonPlayer.js:106-200 | for every choice, watching video A to its end and completing the quiz, right or forced, records step 1, moves to step 2 and sends `playFrom(10)` |
| `Scenarios.LoneVideoScenario` | components/LessonPlayer.js:106-124 | with no step after the video, the checkpoint leaves the video paused, the overlay closed and the step at 0 |
| `Scenarios.CompleteExerciseAfterVideo` | components/LessonPlayer.js:180-199 | from step 0 of a video followed by two exercises, the checkpoint and the widget's completion record step 1, close the overlay, send `resume` and leave the step at 0 |
| `Scenarios.ExerciseAfterExerciseScenario` | components/LessonPlayer.js:188-199 | in a lesson of a video and two exercises, completing the first exercise resumes the video without moving; the video's `ENDED` then reopens the overlay on the same, already completed exercise at step 1, with the current step still 0 |
| `Scenarios.ReloadScenario` | components/LessonPlayer.js:27-61 | a player mounted on the slot that another session saved starts at that session's step and completed set |
| `Scenarios.GoToStepTwice` | components/LessonPlayer.js:82-88 | going to the same step twice leaves the state that going once leaves |
| `Scenarios.MarkTwice` | components/LessonPlayer.js:102-104 | marking the same step twice leaves the state that marking once leaves |
| `Scenarios.CheckpointTwice` | components/LessonPlayer.js:106-124 | a second checkpoint before the exercise is resolved has no further effect |

## Left out

- Loading `/lesson.json` and the loading and "failed to load" screens are left out: this is asynchronous I/O and UI. The lesson is a fixed sequence, possibly empty, given when the player is built.
- JSX rendering, CSS classes and the header counter are left out: these are UI only.
- An out-of-range restored step is kept as the code keeps it. What rendering then does with `lesson[currentStep]` is not part of this model.
- `JSON.stringify`/`JSON.parse` and the real `localStorage` API are left out; they are replaced by the abstract slot. Storage exceptions are not modelled: neither the caught failure of `removeItem` nor an uncaught failure of `setItem`.
- Stored values are modelled as integers. A non-integer number stored as the step (which the guard would accept) and non-integer elements of the stored list are not modelled.
- `Sequencer.LessonPlayer.SaveProgress` is the body of the save effect. When React runs that effect (after a render whose `currentStep`, `completedSteps` or `lesson` changed identity) is left to the caller. So the model does not show that the effect writes `{0, []}` back right after `resetProgress` removes the slot.
- The handle's commands are recorded, not delivered. Which `VideoPlayer` instance is mounted for which step (`key={index}`) is not connected to the `Playback` model; attaching and detaching the handle are environment events.
- The embedded YouTube player, `window.YT` and the iframe are left out. Its four methods are modelled as attached together when it reports ready. Because of that, the unguarded `playVideo()` inside `playFrom` and `pauseVideo()` inside the tick cannot throw in the model.
- The real `setInterval`/`clearInterval` lifetime is left out. So is the interval leaked because the cleanup returned by `startTimeMonitoring` is ignored, and so is a second sampler started by a repeated ready event. The sampler is one flag driven by `Tick` events.
- `Playback.VideoPlayer.OnReady`: its contract does not say that a second ready event starts a second interval beside the first; the model restarts the single sampler flag instead.
- The widgets `components/CodeCell.js`, `components/MLCell.js` and `components/Simulation.js` are left out: they run foreign runtimes (Pyodide, Monaco, Plotly) and floating-point maths. Only their bare `onComplete()` is modelled, as `OnWidgetComplete(None)`.
- `components/ModalOverlay.js` is left out: it is animation timers and DOM side effects. The overlay's open state and content are modelled in the sequencer.
- `pages/_app.js` is left out: it only loads script tags.
- React batching and stale closures are left out. Each handler is one atomic step over the current state.
- An explicit JSON `null` for a video step's `start` or `end` is not modelled: `Option` treats it like a missing field. In the source `time >= null` compares with 0, so an `end` of `null` fires on the first tick, and `start !== undefined` holds for `null`, so the ready effect sends `playFrom(null)`.
- Step types other than `video` and `exercise` are not modelled.
