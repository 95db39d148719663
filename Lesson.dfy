/** The lesson: an ordered list of video segments and exercises, fixed once loaded. */
module Lesson {
  import opened Wrappers

  /** The fields of an exercise step; `mode` selects the widget that renders it. */
  datatype Exercise = Exercise(
    mode: string,
    prompt: string,
    choices: seq<string>,       // used by the quiz widget only
    answerIndex: Option<int>)   // used by the quiz widget only

  /** One step of the lesson (`type` is `video` or `exercise` in the lesson document). */
  datatype Step =
    | VideoStep(videoId: string, start: Option<real>, end: Option<real>)
    | ExerciseStep(exercise: Exercise)

  /** The index of the first video step, as `lesson.findIndex(step => step.type === 'video')`,
      with `None` for its `-1`. */
  function FirstVideo(lesson: seq<Step>): (r: Option<nat>)
    ensures r.Some? ==> r.value < |lesson| && lesson[r.value].VideoStep?
    ensures r.Some? ==> forall j :: 0 <= j < r.value ==> !lesson[j].VideoStep?
    ensures r.None? <==> forall j :: 0 <= j < |lesson| ==> !lesson[j].VideoStep?
  {
    if |lesson| == 0 then None
    else if lesson[0].VideoStep? then Some(0)
    else
      match FirstVideo(lesson[1..])
      case None => None
      case Some(k) => Some(k + 1)
  }
}
