/** Clients that drive the components together the way the lesson player wires them:
    the video player's checkpoint calls the sequencer, the quiz in the overlay reports to
    the sequencer's completion callback. */
module Scenarios {
  import opened Wrappers
  import opened Lesson
  import opened Dispatch
  import opened ProgressStore
  import opened Sequencer
  import opened Playback
  import opened Quiz

  /** A video, a quiz whose answer is choice 1, and a second video starting at 10 s. */
  function QuizLesson(): seq<Step> {
    [ VideoStep("A", Some(0.0), Some(10.0)),
      ExerciseStep(Exercise("quiz", "Pick one", ["first", "second"], Some(1))),
      VideoStep("B", Some(10.0), Some(20.0)) ]
  }

  /** The sampler of a video ending at `end` reports a checkpoint on the first tick at or
      past `end`, and none on the ticks before and after. */
  method WatchToEnd(start: Option<real>, end: real) returns (before: bool, atEnd: bool, after: bool)
    ensures !before && atEnd && !after
  {
    var video := new VideoPlayer("A", start, Some(end));
    video.InitializePlayer();
    video.OnReady();
    before := video.Tick(end - 1.0);
    atEnd := video.Tick(end);
    after := video.Tick(end + 1.0);
  }

  /** The learner picks `choice` and, when it was wrong, presses "Continue Anyway": the quiz
      always reports a completion. */
  method AnswerQuiz(choices: seq<string>, answerIndex: Option<int>, choice: int)
    returns (completion: Option<bool>)
    ensures completion == Some(answerIndex == Some(choice))
  {
    var quiz := new QuizCard(choices, answerIndex);
    completion := quiz.HandleAnswerSelect(choice);
    if completion.None? {
      assert quiz.ShowContinueAnyway();
      completion := quiz.ForceNext();
    }
  }

  /** The learner watches video A to its end and picks `choice` in the quiz; on a wrong
      choice they press "Continue Anyway". Either way the quiz is recorded as completed, the
      lesson moves on to video B and the player is sent to B's start. */
  method QuizCheckpointScenario(choice: int)
    returns (step: nat, completed: seq<int>, commands: seq<Command>)
    ensures step == 2 && completed == [1]
    ensures commands == [PlayFrom(Some(10.0))]
  {
    var lesson := QuizLesson();
    var before, fired, after := WatchToEnd(Some(0.0), 10.0);
    var lp := new LessonPlayer(lesson, None);
    lp.AttachPlayer();
    assert lp.player == Some([]) && lp.currentStep == 0 && lp.completedSteps == [];
    if fired {
      lp.HandleCheckpointReached();
    }
    assert lp.showOverlay && lp.BoundTo(1);
    assert lp.player == Some([]) && lp.currentStep == 0 && lp.completedSteps == [];
    var view := lp.overlayContent.value;
    var completion := AnswerQuiz(view.choices, view.answerIndex, choice);
    assert Add([], 1) == [1];
    lp.OnWidgetComplete(completion);
    step, completed, commands := lp.currentStep, lp.completedSteps, lp.player.value;
  }

  /** A single video with nothing after it: the checkpoint pauses the video and opens
      nothing. */
  method LoneVideoScenario() returns (paused: bool, overlayOpen: bool, step: nat)
    ensures paused && !overlayOpen && step == 0
  {
    var lp := new LessonPlayer([VideoStep("A", Some(0.0), Some(5.0))], None);
    var video := new VideoPlayer("A", Some(0.0), Some(5.0));
    lp.AttachPlayer();
    video.InitializePlayer();
    video.OnReady();
    var fired := video.Tick(5.2);
    if fired {
      lp.HandleCheckpointReached();
    }
    paused, overlayOpen, step := video.isPaused, lp.showOverlay, lp.currentStep;
  }

  /** The checkpoint at the end of video 0 opens exercise 1, and its widget completes it;
      the step after it is no video, so the current video is resumed and nothing moves. */
  method CompleteExerciseAfterVideo(lp: LessonPlayer)
    requires lp.Valid() && |lp.lesson| == 3
    requires lp.lesson[1].ExerciseStep? && IsKnownMode(lp.lesson[1].exercise.mode)
    requires lp.lesson[2].ExerciseStep?
    requires lp.currentStep == 0 && lp.completedSteps == [] && lp.player == Some([])
    modifies lp
    ensures lp.Valid() && !lp.showOverlay
    ensures lp.currentStep == 0 && lp.completedSteps == [1] && lp.player == Some([Resume])
  {
    lp.HandleCheckpointReached();
    assert lp.showOverlay && lp.BoundTo(1);
    ghost var shown := lp.State();
    assert shown.player == Some([]) && !lp.lesson[2].VideoStep?;
    assert Add([], 1) == [1];
    ghost var none: seq<Command> := [];
    assert none + [Resume] == [Resume];
    assert Send(Some(none), Resume) == Some([Resume]);
    assert lp.AfterCompletion(shown, 1) == shown.(completedSteps := [1], showOverlay := false,
      overlayContent := None, player := Some([Resume]));
    lp.OnWidgetComplete(None);
  }

  /** A video followed by two exercises. Completing the first exercise resumes the video
      without moving, and when the video then ends the checkpoint reopens the exercise
      already completed, not the second one. */
  method ExerciseAfterExerciseScenario()
    returns (step: nat, completed: seq<int>, commands: seq<Command>, boundTo: Option<nat>)
    ensures step == 0 && completed == [1] && commands == [Resume]
    ensures boundTo == Some(1)
  {
    var lesson := [ VideoStep("A", Some(0.0), Some(10.0)),
                    ExerciseStep(Exercise("code", "Write it", [], None)),
                    ExerciseStep(Exercise("code", "Write more", [], None)) ];
    assert lesson[1].ExerciseStep? && IsKnownMode(lesson[1].exercise.mode);
    var lp := new LessonPlayer(lesson, None);
    lp.AttachPlayer();
    CompleteExerciseAfterVideo(lp);
    var video := new VideoPlayer("A", Some(0.0), Some(10.0));
    var ended := video.OnStateChange(Ended);
    if ended {
      lp.HandleCheckpointReached();
    }
    assert lp.showOverlay && lp.BoundTo(1);
    step, completed, commands := lp.currentStep, lp.completedSteps, lp.player.value;
    boundTo := if lp.overlayContent.Some? then CompletionOf(lp.overlayContent.value) else None;
  }

  /** Progress saved by one session is what the next session starts with. */
  method ReloadScenario(lp: LessonPlayer) returns (next: LessonPlayer)
    requires lp.Valid() && |lp.lesson| > 0
    modifies lp
    ensures next.currentStep == lp.currentStep && next.completedSteps == lp.completedSteps
  {
    lp.SaveProgress();
    next := new LessonPlayer(lp.lesson, lp.storage);
  }

  /** `goToStep(i)` twice leaves the state `goToStep(i)` once leaves. */
  method GoToStepTwice(lp: LessonPlayer, stepIndex: int)
    requires lp.Valid()
    modifies lp
    ensures lp.Valid()
    ensures 0 <= stepIndex < |lp.lesson| ==>
      lp.State() == old(lp.State()).(currentStep := stepIndex, showOverlay := false, overlayContent := None)
    ensures !(0 <= stepIndex < |lp.lesson|) ==> lp.State() == old(lp.State())
  {
    lp.GoToStep(stepIndex);
    lp.GoToStep(stepIndex);
  }

  /** `markStepCompleted(i)` twice leaves the set `markStepCompleted(i)` once leaves. */
  method MarkTwice(lp: LessonPlayer, stepIndex: int)
    requires lp.Valid()
    modifies lp
    ensures lp.Valid()
    ensures lp.State() == old(lp.State()).(completedSteps := Add(old(lp.completedSteps), stepIndex))
  {
    lp.MarkStepCompleted(stepIndex);
    lp.MarkStepCompleted(stepIndex);
    AddIdempotent(old(lp.completedSteps), stepIndex);
  }

  /** A second checkpoint before the exercise is resolved has no further effect. */
  method CheckpointTwice(lp: LessonPlayer)
    requires lp.Valid()
    modifies lp
    ensures lp.Valid()
    ensures var next := old(lp.currentStep) + 1;
      next < |lp.lesson| && lp.lesson[next].ExerciseStep? ==>
        && lp.showOverlay && lp.BoundTo(next)
        && lp.State() == old(lp.State()).(showOverlay := true,
             overlayTitle := Title(lp.lesson[next].exercise.mode),
             overlayContent := Some(Render(lp.lesson[next].exercise, next)))
    ensures var next := old(lp.currentStep) + 1;
      !(next < |lp.lesson| && lp.lesson[next].ExerciseStep?) ==> lp.State() == old(lp.State())
  {
    lp.HandleCheckpointReached();
    lp.HandleCheckpointReached();
  }
}
