/** The exercise dispatcher: from an exercise step's `mode` to the widget that renders it,
    with the widget's completion wired back to the lesson player. */
module Dispatch {
  import opened Wrappers
  import opened Lesson

  /** The completion callback handed to a widget: `() => handleExerciseComplete(stepIndex)`.
      It takes no argument, so whatever the widget passes to it is dropped. */
  datatype Callback = CompleteStep(stepIndex: nat)

  /** What `renderExercise` produces for the overlay. */
  datatype View =
    | CodeCell(prompt: string, onComplete: Callback)
    | QuizCard(prompt: string, choices: seq<string>, answerIndex: Option<int>, onComplete: Callback)
    | Simulation(prompt: string, onComplete: Callback)
    | MLCell(prompt: string, onComplete: Callback)
    | Fallback(mode: string)   // "Unknown exercise type": no widget, no callback

  /** The four modes the dispatcher knows. */
  predicate IsKnownMode(mode: string) {
    mode == "code" || mode == "quiz" || mode == "simulation" || mode == "ml"
  }

  /** `getExerciseTitle`: the overlay title for an exercise of the given mode. */
  function Title(mode: string): (t: string)
    ensures t == "Exercise" <==> !IsKnownMode(mode)
    ensures mode == "quiz" ==> t == "Quiz Question"
  {
    if mode == "code" then "Code Exercise"
    else if mode == "quiz" then "Quiz Question"
    else if mode == "simulation" then "Interactive Simulation"
    else if mode == "ml" then "Machine Learning Exercise"
    else "Exercise"
  }

  /** The step index a rendered view reports as completed, if it can complete at all. */
  function CompletionOf(v: View): Option<nat> {
    if v.Fallback? then None else Some(v.onComplete.stepIndex)
  }

  /** `renderExercise(step, stepIndex)`, the mode dispatch only. */
  function Render(ex: Exercise, stepIndex: nat): (v: View)
    ensures CompletionOf(v) == if IsKnownMode(ex.mode) then Some(stepIndex) else None
    ensures v.Fallback? ==> v.mode == ex.mode
    ensures !v.Fallback? ==> v.prompt == ex.prompt
    ensures v.QuizCard? <==> ex.mode == "quiz"
    ensures v.QuizCard? ==> v.choices == ex.choices && v.answerIndex == ex.answerIndex
  {
    if ex.mode == "code" then CodeCell(ex.prompt, CompleteStep(stepIndex))
    else if ex.mode == "quiz" then QuizCard(ex.prompt, ex.choices, ex.answerIndex, CompleteStep(stepIndex))
    else if ex.mode == "simulation" then Simulation(ex.prompt, CompleteStep(stepIndex))
    else if ex.mode == "ml" then MLCell(ex.prompt, CompleteStep(stepIndex))
    else Fallback(ex.mode)
  }
}
