/** The quiz widget: a one-shot answer, the "Continue Anyway" escape, and choice styling. */
module Quiz {
  import opened Wrappers

  /** The look of a choice button, in `getChoiceStyle`'s order. */
  datatype Style = Selected | Neutral | Correct | Wrong | Dimmed

  class QuizCard {
    const choices: seq<string>
    const answerIndex: Option<int>
    var selectedIndex: Option<int>
    var isAnswered: bool
    var isCorrect: bool
    ghost var successes: nat    // how often `onComplete(true)` has been emitted

    /** A choice is recorded exactly when the card is answered, the verdict is that of the
        recorded choice, and success has been reported once if and only if it was correct. */
    ghost predicate Valid()
      reads this
    {
      && (selectedIndex.Some? <==> isAnswered)
      && (isCorrect <==> isAnswered && selectedIndex == answerIndex)
      && successes == (if isCorrect then 1 else 0)
    }

    constructor (choices: seq<string>, answerIndex: Option<int>)
      ensures Valid()
      ensures this.choices == choices && this.answerIndex == answerIndex
      ensures selectedIndex.None? && !isAnswered && !isCorrect
    {
      this.choices, this.answerIndex := choices, answerIndex;
      selectedIndex, isAnswered, isCorrect := None, false, false;
      successes := 0;
    }

    /** `handleAnswerSelect(index)`: the first selection is recorded and judged, and reports
        `onComplete(true)` if correct; once answered, selections do nothing. */
    method HandleAnswerSelect(index: int) returns (completion: Option<bool>)
      requires Valid()
      modifies this
      ensures Valid() && successes <= 1
      ensures old(isAnswered) ==>
        && completion.None?
        && selectedIndex == old(selectedIndex) && isAnswered && isCorrect == old(isCorrect)
        && successes == old(successes)
      ensures !old(isAnswered) ==>
        && selectedIndex == Some(index) && isAnswered
        && (isCorrect <==> answerIndex == Some(index))
        && completion == (if isCorrect then Some(true) else None)
      ensures completion.Some? ==> completion == Some(true) && successes == old(successes) + 1
    {
      completion := None;
      if !isAnswered {
        selectedIndex := Some(index);
        isAnswered := true;
        var correct := answerIndex == Some(index);
        isCorrect := correct;
        if correct {
          completion := Some(true);
          successes := successes + 1;
        }
      }
    }

    /** `forceNext` ("Continue Anyway"): always reports `onComplete(false)`. */
    method ForceNext() returns (completion: Option<bool>)
      ensures completion == Some(false)
    {
      completion := Some(false);
    }

    /** "Continue Anyway" is offered once a wrong choice has been made. */
    function ShowContinueAnyway(): (shown: bool)
      reads this
      ensures Valid() ==> (shown <==> selectedIndex.Some? && selectedIndex != answerIndex)
    {
      !isCorrect && isAnswered
    }

    /** `getChoiceStyle(index)`. Before an answer a choice is highlighted only if it is the
        recorded one, which cannot happen on a valid card; after it the right answer shows as
        correct, a wrong recorded choice as wrong, and every other choice dimmed. */
    function ChoiceStyle(index: int): (s: Style)
      reads this
      ensures !isAnswered ==> (s == Selected <==> selectedIndex == Some(index))
      ensures !isAnswered ==> s == Selected || s == Neutral
      ensures Valid() && !isAnswered ==> s == Neutral
      ensures isAnswered ==> (s == Correct <==> answerIndex == Some(index))
      ensures Valid() && isAnswered ==>
        (s == Wrong <==> selectedIndex == Some(index) && answerIndex != Some(index))
      ensures Valid() && isAnswered ==>
        (s == Dimmed <==> selectedIndex != Some(index) && answerIndex != Some(index))
    {
      if !isAnswered then
        (if selectedIndex == Some(index) then Selected else Neutral)
      else if answerIndex == Some(index) then Correct
      else if selectedIndex == Some(index) && !isCorrect then Wrong
      else Dimmed
    }
  }
}
