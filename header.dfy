/** The step bar of src/components/Header.tsx: pure comparisons against the
    constant list of chain steps. */
module Header {
  import opened AppTypes

  /** The header's `steps`; `saved` is not among them. */
  const Steps: seq<Step> := [LetterheadStep, TemplateStep, EditorStep, PreviewStep]

  /** `steps.findIndex(step => step.id === s)`. */
  function IndexOf(steps: seq<Step>, s: Step): (r: int)
    ensures -1 <= r < |steps|
    ensures r >= 0 ==> steps[r] == s
    ensures r == -1 <==> s !in steps
    ensures forall j :: 0 <= j < |steps| && (r < 0 || j < r) ==> steps[j] != s
  {
    if steps == [] then -1
    else if steps[0] == s then 0
    else
      var k := IndexOf(steps[1..], s);
      if k < 0 then -1 else k + 1
  }

  /** `currentStepIndex`. */
  function CurrentStepIndex(current: Step): int {
    IndexOf(Steps, current)
  }

  /** The chain steps have indices 0..3 in order; `saved` has -1. */
  lemma StepIndices()
    ensures CurrentStepIndex(LetterheadStep) == 0
    ensures CurrentStepIndex(TemplateStep) == 1
    ensures CurrentStepIndex(EditorStep) == 2
    ensures CurrentStepIndex(PreviewStep) == 3
    ensures CurrentStepIndex(SavedStep) == -1
  {
    assert Steps[0] == LetterheadStep;
    assert Steps[1] == TemplateStep;
    assert Steps[2] == EditorStep;
    assert Steps[3] == PreviewStep;
  }

  /** `isActive` of the entry at position i. */
  predicate IsActive(i: int, current: Step)
    requires 0 <= i < |Steps|
  {
    Steps[i] == current
  }

  /** `isCompleted` of the entry at position i. */
  predicate IsCompleted(i: int, current: Step) {
    i < CurrentStepIndex(current)
  }

  /** The number of connectors drawn (`index < steps.length - 1`). */
  function ConnectorCount(): nat {
    |Steps| - 1
  }

  /** Connector i is highlighted (`index < currentStepIndex`). */
  predicate ConnectorHighlighted(i: int, current: Step)
    requires 0 <= i < ConnectorCount()
  {
    i < CurrentStepIndex(current)
  }

  /** The step bar is rendered only off the saved view. */
  predicate StepBarVisible(current: Step) {
    current != SavedStep
  }

  /** The red count badge on the saved button. */
  predicate BadgeVisible(savedCount: int) {
    savedCount > 0
  }

  /** The step bar is shown exactly when the current step is one of the
      header's entries. */
  lemma StepBarShownOnChain(current: Step)
    ensures StepBarVisible(current) <==> CurrentStepIndex(current) >= 0
  {
    StepIndices();
  }

  function ActiveEntries(current: Step): set<int> {
    set i | 0 <= i < |Steps| && IsActive(i, current)
  }

  /** Exactly one entry is active on a chain step, and none on `saved`. */
  lemma ActiveEntriesExact(current: Step)
    ensures current != SavedStep ==> ActiveEntries(current) == {CurrentStepIndex(current)}
    ensures current == SavedStep ==> ActiveEntries(current) == {}
  {
    StepIndices();
    var a := ActiveEntries(current);
    if current != SavedStep {
      var k := CurrentStepIndex(current);
      assert k in a;
      forall i | i in a ensures i == k {
        assert Steps[i] == current;
      }
    }
  }

  /** An entry is completed exactly when the current step appears later in
      the header order; nothing is completed on the first step or on `saved`,
      and the active entry is never completed. */
  lemma CompletedEntries(current: Step)
    ensures forall i :: 0 <= i < |Steps| ==>
      (IsCompleted(i, current) <==> exists j :: i < j < |Steps| && Steps[j] == current)
    ensures current == LetterheadStep || current == SavedStep ==>
      forall i :: 0 <= i < |Steps| ==> !IsCompleted(i, current)
    ensures forall i :: 0 <= i < |Steps| && IsActive(i, current) ==> !IsCompleted(i, current)
  {
    StepIndices();
    var k := CurrentStepIndex(current);
    forall i | 0 <= i < |Steps|
      ensures IsCompleted(i, current) <==> exists j :: i < j < |Steps| && Steps[j] == current
    {
      if i < k {
        assert Steps[k] == current;
      }
    }
  }

  /** Connector i is highlighted exactly when entry i is completed, so none is
      highlighted on the first step or on `saved`. */
  lemma ConnectorsFollowCompletion(current: Step)
    ensures ConnectorCount() == 3
    ensures forall i :: 0 <= i < ConnectorCount() ==>
      (ConnectorHighlighted(i, current) <==> IsCompleted(i, current))
    ensures current == LetterheadStep || current == SavedStep ==>
      forall i :: 0 <= i < ConnectorCount() ==> !ConnectorHighlighted(i, current)
  {
    StepIndices();
  }
}
