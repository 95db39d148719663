/** The lesson sequencer: the state of the lesson player component and its handlers.
    Each handler is one atomic step over the current state. */
module Sequencer {
  import opened Wrappers
  import opened Lesson
  import opened Dispatch
  import opened ProgressStore

  /** A command sent to the video player's imperative handle. */
  datatype Command = PlayFrom(at: Option<real>) | Resume

  /** The handle after it receives `c`: a missing handle (`videoPlayerRef.current` is null)
      receives nothing. */
  function Send(handle: Option<seq<Command>>, c: Command): (h: Option<seq<Command>>)
    ensures h.Some? <==> handle.Some?
    ensures h.Some? ==> h.value == handle.value + [c]
  {
    match handle
    case None => None
    case Some(log) => Some(log + [c])
  }

  /** Every field of the lesson player at one moment. */
  datatype Snapshot = Snapshot(
    currentStep: nat,
    completedSteps: seq<int>,
    showOverlay: bool,
    overlayTitle: string,
    overlayContent: Option<View>,
    player: Option<seq<Command>>,
    storage: Option<Stored>)

  class LessonPlayer {
    const lesson: seq<Step>
    var currentStep: nat
    var completedSteps: seq<int>            // a Set, in insertion order
    var showOverlay: bool
    var overlayTitle: string
    var overlayContent: Option<View>
    var player: Option<seq<Command>>        // the video handle and the commands it received
    var storage: Option<Stored>             // the `interactiveEdu_progress` slot

    ghost function State(): Snapshot
      reads this
    {
      Snapshot(currentStep, completedSteps, showOverlay, overlayTitle, overlayContent, player, storage)
    }

    /** The overlay shows the exercise at index `i`, rendered and titled for that step. */
    ghost predicate BoundTo(i: nat)
      reads this
    {
      && i < |lesson|
      && lesson[i].ExerciseStep?
      && overlayContent == Some(Render(lesson[i].exercise, i))
      && overlayTitle == Title(lesson[i].exercise.mode)
    }

    /** The completed steps form a set; the overlay is open exactly when it has content, and
        then it is bound to the exercise right after the current step. */
    ghost predicate Valid()
      reads this
    {
      && NoDup(completedSteps)
      && showOverlay == overlayContent.Some?
      && (showOverlay ==> BoundTo(currentStep + 1))
    }

    /** The state completing exercise `stepIndex` leads to from `s`. */
    ghost function AfterCompletion(s: Snapshot, stepIndex: nat): (t: Snapshot)
    {
      var closed := s.(completedSteps := Add(s.completedSteps, stepIndex),
                       showOverlay := false, overlayContent := None);
      if s.player.None? then closed
      else if stepIndex + 1 < |lesson| && lesson[stepIndex + 1].VideoStep? then
        closed.(currentStep := stepIndex + 1,
                player := Send(s.player, PlayFrom(lesson[stepIndex + 1].start)))
      else closed.(player := Send(s.player, Resume))
    }

    /** Mounting: the defaults, then `restoreProgress` from the slot. */
    constructor (lesson: seq<Step>, slot: Option<Stored>)
      ensures Valid()
      ensures this.lesson == lesson
      ensures Progress(currentStep, completedSteps) == Restore(slot, Progress(0, []))
      ensures !showOverlay && overlayContent.None? && overlayTitle == ""
      ensures player.None? && storage == slot
    {
      this.lesson := lesson;
      var restored := Restore(slot, Progress(0, []));
      currentStep := restored.currentStep;
      completedSteps := restored.completedSteps;
      showOverlay := false;
      overlayTitle := "";
      overlayContent := None;
      player := None;
      storage := slot;
    }

    /** The video player mounts and its handle is attached to the ref. */
    method AttachPlayer()
      requires Valid()
      modifies this
      ensures Valid()
      ensures State() == old(State()).(player := Some([]))
    {
      player := Some([]);
    }

    /** The video player unmounts and the ref is cleared. */
    method DetachPlayer()
      requires Valid()
      modifies this
      ensures Valid()
      ensures State() == old(State()).(player := None)
    {
      player := None;
    }

    /** `goToStep`: an in-range index becomes the current step and closes the overlay. */
    method GoToStep(stepIndex: int)
      requires Valid()
      modifies this
      ensures Valid()
      ensures 0 <= stepIndex < |lesson| ==>
        State() == old(State()).(currentStep := stepIndex, showOverlay := false, overlayContent := None)
      ensures !(0 <= stepIndex < |lesson|) ==> State() == old(State())
    {
      if 0 <= stepIndex < |lesson| {
        currentStep := stepIndex;
        showOverlay := false;
        overlayContent := None;
      }
    }

    /** `goToNext`: one step forward, unless the current step is the last (or beyond it). */
    method GoToNext()
      requires Valid()
      modifies this
      ensures Valid()
      ensures old(currentStep) + 1 < |lesson| ==>
        State() == old(State()).(currentStep := old(currentStep) + 1, showOverlay := false, overlayContent := None)
      ensures old(currentStep) + 1 >= |lesson| ==> State() == old(State())
    {
      if currentStep < |lesson| - 1 {
        GoToStep(currentStep + 1);
      }
    }

    /** `goToPrevious`: one step back, unless at the first step; from an index beyond the
        lesson only the one just past the last step moves, to the last step. */
    method GoToPrevious()
      requires Valid()
      modifies this
      ensures Valid()
      ensures 0 < old(currentStep) <= |lesson| ==>
        State() == old(State()).(currentStep := old(currentStep) - 1, showOverlay := false, overlayContent := None)
      ensures !(0 < old(currentStep) <= |lesson|) ==> State() == old(State())
    {
      if currentStep > 0 {
        GoToStep(currentStep - 1);
      }
    }

    /** `markStepCompleted`: the index joins the completed set. */
    method MarkStepCompleted(stepIndex: int)
      requires Valid()
      modifies this
      ensures Valid()
      ensures Members(completedSteps) == Members(old(completedSteps)) + {stepIndex}
      ensures State() == old(State()).(completedSteps := Add(old(completedSteps), stepIndex))
    {
      completedSteps := Add(completedSteps, stepIndex);
    }

    /** `handleCheckpointReached`: opens the overlay on the exercise right after the current
        step, if there is one; a second checkpoint while it is open changes nothing. */
    method HandleCheckpointReached()
      requires Valid()
      modifies this
      ensures Valid()
      ensures var next := old(currentStep) + 1;
        next < |lesson| && lesson[next].ExerciseStep? ==>
          && showOverlay && BoundTo(next)
          && State() == old(State()).(showOverlay := true,
               overlayTitle := Title(lesson[next].exercise.mode),
               overlayContent := Some(Render(lesson[next].exercise, next)))
      ensures var next := old(currentStep) + 1;
        !(next < |lesson| && lesson[next].ExerciseStep?) ==> State() == old(State())
      ensures old(showOverlay) ==> State() == old(State())
    {
      var next := currentStep + 1;
      if next < |lesson| && lesson[next].ExerciseStep? {
        var step := lesson[next];
        overlayTitle := Title(step.exercise.mode);
        overlayContent := Some(Render(step.exercise, next));
        showOverlay := true;
      }
    }

    /** `handleExerciseComplete`: the exercise is recorded and the overlay closed; with a
        player, the next video step starts from its beginning, or else the current video
        resumes. Without a player nothing moves and no command is sent. */
    method HandleExerciseComplete(stepIndex: nat)
      requires Valid()
      modifies this
      ensures Valid()
      ensures State() == AfterCompletion(old(State()), stepIndex)
      ensures Members(completedSteps) == Members(old(completedSteps)) + {stepIndex}
      ensures !showOverlay && overlayContent.None?
      ensures currentStep == old(currentStep) || currentStep == stepIndex + 1
      ensures old(player).None? ==> currentStep == old(currentStep) && player.None?
    {
      var next := stepIndex + 1;
      var step, handle := currentStep, player;
      if player.Some? {
        if next < |lesson| && lesson[next].VideoStep? {
          handle := Send(player, PlayFrom(lesson[next].start));
          step := next;
        } else {
          handle := Send(player, Resume);
        }
      }
      completedSteps, showOverlay, overlayContent := Add(completedSteps, stepIndex), false, None;
      currentStep, player := step, handle;
    }

    /** The widget in the overlay calls its `onComplete`, with `success` or with no argument.
        The callback completes the exercise it was rendered for and drops `success`; the
        fallback view has no callback. */
    method OnWidgetComplete(success: Option<bool>)
      requires Valid()
      modifies this
      ensures Valid()
      ensures old(showOverlay) && IsKnownMode(lesson[old(currentStep) + 1].exercise.mode) ==>
        State() == AfterCompletion(old(State()), old(currentStep) + 1)
      ensures !(old(showOverlay) && IsKnownMode(lesson[old(currentStep) + 1].exercise.mode)) ==>
        State() == old(State())
    {
      if overlayContent.Some? && CompletionOf(overlayContent.value).Some? {
        HandleExerciseComplete(CompletionOf(overlayContent.value).value);
      }
    }

    /** `handleOverlayClose` (backdrop or close button): closes the overlay and resumes the
        video, without completing the exercise or moving. */
    method HandleOverlayClose()
      requires Valid()
      modifies this
      ensures Valid()
      ensures State() == old(State()).(showOverlay := false, overlayContent := None,
                                       player := Send(old(player), Resume))
    {
      showOverlay := false;
      overlayContent := None;
      player := Send(player, Resume);
    }

    /** `resetProgress`: removes the slot, clears the progress and the overlay, and sends the
        player to the start of the first video step (0 when it has none). */
    method ResetProgress()
      requires Valid()
      modifies this
      ensures Valid()
      ensures State() == old(State()).(
        storage := None, completedSteps := [], showOverlay := false, overlayContent := None,
        currentStep := 0,
        player := match FirstVideo(lesson)
                  case None => old(player)
                  case Some(k) => Send(old(player), PlayFrom(Some(lesson[k].start.GetOr(0.0)))))
    {
      storage := None;
      completedSteps := [];
      showOverlay := false;
      overlayContent := None;
      currentStep := 0;
      var firstVideo := FirstVideo(lesson);
      if firstVideo.Some? && player.Some? {
        var first := lesson[firstVideo.value];
        player := Send(player, PlayFrom(Some(first.start.GetOr(0.0))));
      }
    }

    /** The save effect: writes the progress to the slot, only once a lesson is loaded. */
    method SaveProgress()
      requires Valid()
      modifies this
      ensures Valid()
      ensures |lesson| > 0 ==>
        State() == old(State()).(storage := Some(Save(Progress(currentStep, completedSteps))))
      ensures |lesson| == 0 ==> State() == old(State())
      ensures |lesson| > 0 ==> Restore(storage, Progress(0, [])) == Progress(currentStep, completedSteps)
    {
      if |lesson| > 0 {
        storage := Some(Save(Progress(currentStep, completedSteps)));
        RestoreSave(Progress(currentStep, completedSteps), Progress(0, []));
      }
    }
  }
}
