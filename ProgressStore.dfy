/** The progress record and the storage slot it is persisted in, under the key
    `interactiveEdu_progress`. The slot is abstracted from JSON text to the shape the
    parsed value has; only the parts `restoreProgress` looks at are kept. */
module ProgressStore {
  import opened Wrappers

  /** No index occurs twice: the sequence is the insertion order of a JavaScript `Set`. */
  predicate NoDup(s: seq<int>) {
    forall i, j :: 0 <= i < j < |s| ==> s[i] != s[j]
  }

  /** The set a sequence holds. */
  function Members(s: seq<int>): set<int> {
    set x | x in s
  }

  /** `new Set(xs)` read back in iteration order. The contract gives the members; the
      definition keeps the first occurrence of each element. */
  function FromArray(xs: seq<int>): (r: seq<int>)
    ensures NoDup(r)
    ensures Members(r) == Members(xs)
    decreases |xs|
  {
    if xs == [] then []
    else
      var front, x := xs[..|xs| - 1], xs[|xs| - 1];
      assert xs == front + [x];
      assert Members(xs) == Members(front) + {x};
      var r := FromArray(front);
      if x in r then r else r + [x]
  }

  /** A sequence that already has no duplicates is its own `Set` order. */
  lemma {:induction false} FromArrayOfDistinct(xs: seq<int>)
    requires NoDup(xs)
    ensures FromArray(xs) == xs
    decreases |xs|
  {
    if xs != [] {
      var front, x := xs[..|xs| - 1], xs[|xs| - 1];
      assert NoDup(front);
      FromArrayOfDistinct(front);
      assert x !in front;
      assert xs == front + [x];
    }
  }

  /** `markStepCompleted`: `new Set([...prev, stepIndex])`. */
  function Add(prev: seq<int>, stepIndex: int): (r: seq<int>)
    ensures NoDup(r)
    ensures Members(r) == Members(prev) + {stepIndex}
    ensures NoDup(prev) ==> r == if stepIndex in prev then prev else prev + [stepIndex]
  {
    assert (prev + [stepIndex])[..|prev|] == prev;
    assert NoDup(prev) ==> FromArray(prev) == prev by {
      if NoDup(prev) { FromArrayOfDistinct(prev); }
    }
    FromArray(prev + [stepIndex])
  }

  /** Adding an index that is already present changes nothing, so adding twice is adding once. */
  lemma AddIdempotent(prev: seq<int>, stepIndex: int)
    ensures Add(Add(prev, stepIndex), stepIndex) == Add(prev, stepIndex)
  {
  }

  /** The progress the lesson player keeps. */
  datatype Progress = Progress(currentStep: nat, completedSteps: seq<int>)

  /** What `typeof savedStep` can be, as far as the restore guard is concerned. */
  datatype StoredStep = Number(value: int) | NotNumber

  /** What `savedCompleted` can be, as far as `new Set(savedCompleted)` is concerned:
      an array, `undefined`/`null` (an empty set), or something that makes it throw. */
  datatype StoredList = Items(items: seq<int>) | Nullish | NotIterable

  /** The content of the slot: text that `JSON.parse` rejects or that parses to `null`, or
      a value whose two fields are read (a parsed number or string reads both as absent). */
  datatype Stored = Unparseable | Record(step: StoredStep, completed: StoredList)

  /** The save effect's payload: `{currentStep, completedSteps: Array.from(completedSteps)}`. */
  function Save(p: Progress): Stored {
    Record(Number(p.currentStep), Items(p.completedSteps))
  }

  /** `safeStep`: a numeric, non-negative stored step, or 0. */
  function SafeStep(v: StoredStep): nat {
    if v.Number? && v.value >= 0 then v.value else 0
  }

  /** `restoreProgress`, starting from the progress `d` already in place. The step is set
      before the set is built, so a non-iterable list keeps the old set but not the old step. */
  function Restore(slot: Option<Stored>, d: Progress): (r: Progress)
    ensures slot.None? || slot == Some(Unparseable) ==> r == d
    ensures slot.Some? && slot.value.Record? ==>
      r.currentStep == (if slot.value.step.Number? && slot.value.step.value >= 0
                        then slot.value.step.value else 0)
    ensures slot.Some? && slot.value.Record? && slot.value.completed.Items? ==>
      Members(r.completedSteps) == Members(slot.value.completed.items)
    ensures slot.Some? && slot.value.Record? && slot.value.completed.Nullish? ==>
      r.completedSteps == []
    ensures slot.Some? && slot.value.Record? && slot.value.completed.NotIterable? ==>
      r.completedSteps == d.completedSteps
    ensures NoDup(d.completedSteps) ==> NoDup(r.completedSteps)
  {
    match slot
    case None => d
    case Some(Unparseable) => d
    case Some(Record(step, completed)) =>
      var safeStep := SafeStep(step);
      match completed
      case Items(xs) => Progress(safeStep, FromArray(xs))
      case Nullish => Progress(safeStep, [])
      case NotIterable => Progress(safeStep, d.completedSteps)
  }

  /** Saving and restoring gives back the same progress, whatever was in place before. */
  lemma {:induction false} RestoreSave(p: Progress, d: Progress)
    requires NoDup(p.completedSteps)
    ensures Restore(Some(Save(p)), d) == p
  {
    FromArrayOfDistinct(p.completedSteps);
  }
}
