/** The analysis stepper: four fixed steps, each completed, current or pending
    relative to `currentStep`, and the overall percentage bar. */
module AnalysisProgress {

  datatype Step = Step(id: int, name: string, description: string)

  /** The steps, in display order. */
  const Steps: seq<Step> := [
    Step(1, "Data Cleaning", "Validating and preprocessing data"),
    Step(2, "Feature Extraction", "Extracting consumption patterns"),
    Step(3, "ML Analysis", "Running anomaly detection models"),
    Step(4, "Generating Results", "Preparing insights and reports")
  ]

  /** The prop's default when the caller passes none. */
  const DefaultCurrentStep: int := 0

  /** A step not yet reached; under the default step every step is. */
  predicate IsPending(currentStep: int, step: Step)
    ensures currentStep == DefaultCurrentStep && step in Steps ==> IsPending(currentStep, step)
  {
    currentStep < step.id
  }

  /** The step being worked on; it is never also pending. */
  predicate IsCurrent(currentStep: int, step: Step)
    ensures IsCurrent(currentStep, step) ==> !IsPending(currentStep, step)
  {
    currentStep == step.id
  }

  /** A step already passed: exactly when it is neither current nor pending. */
  predicate IsCompleted(currentStep: int, step: Step)
    ensures IsCompleted(currentStep, step) <==> !IsCurrent(currentStep, step) && !IsPending(currentStep, step)
  {
    currentStep > step.id
  }

  datatype StepStatus = Completed | Current | Pending

  /** The status each step is drawn with, in step order. */
  function StepStatuses(currentStep: int): (r: seq<StepStatus>)
    ensures |r| == |Steps|
    ensures forall i :: 0 <= i < |Steps| ==>
      (r[i] == Completed <==> IsCompleted(currentStep, Steps[i])) &&
      (r[i] == Current <==> IsCurrent(currentStep, Steps[i])) &&
      (r[i] == Pending <==> IsPending(currentStep, Steps[i]))
  {
    seq(|Steps|, i requires 0 <= i < |Steps| =>
      if IsCompleted(currentStep, Steps[i]) then Completed
      else if IsCurrent(currentStep, Steps[i]) then Current
      else Pending)
  }

  /** The step ids are 1, 2, 3, 4 in order. */
  lemma StepIds()
    ensures |Steps| == 4
    ensures forall i :: 0 <= i < |Steps| ==> Steps[i].id == i + 1
  {
  }

  /** Exactly one of the three predicates holds of every step. */
  lemma ExactlyOneStatus(currentStep: int, step: Step)
    ensures IsCompleted(currentStep, step) || IsCurrent(currentStep, step) || IsPending(currentStep, step)
    ensures !(IsCompleted(currentStep, step) && IsCurrent(currentStep, step))
    ensures !(IsCompleted(currentStep, step) && IsPending(currentStep, step))
    ensures !(IsCurrent(currentStep, step) && IsPending(currentStep, step))
  {
  }

  /** At most one step is current, and it is the one whose id is `currentStep`. */
  lemma AtMostOneCurrent(currentStep: int, i: int, j: int)
    requires 0 <= i < |Steps| && 0 <= j < |Steps|
    requires IsCurrent(currentStep, Steps[i]) && IsCurrent(currentStep, Steps[j])
    ensures i == j && i == currentStep - 1
  {
    StepIds();
  }

  /** With no progress yet every step is pending. */
  lemma NothingStarted()
    ensures forall i :: 0 <= i < |Steps| ==> StepStatuses(DefaultCurrentStep)[i] == Pending
    ensures ProgressPercent(DefaultCurrentStep) == 0
  {
  }

  /** `Math.min(currentStep * 25, 100)` */
  function ProgressPercent(currentStep: int): (p: int)
    ensures p <= 100
    ensures p == 100 <==> currentStep >= 4
    ensures currentStep >= 0 ==> p >= 0
    ensures currentStep <= 4 ==> p == currentStep * 25
  {
    if currentStep * 25 < 100 then currentStep * 25 else 100
  }
}
