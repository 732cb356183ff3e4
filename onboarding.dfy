/** The three-step sign-up form (frontend/src/components/OnboardingScreen.js): name and time
    zone, then personality type, then persona; the step counter, each step's validity, and the
    submit guard. */
module Onboarding {
  import opened Wrappers
  import opened Text

  datatype FormData = FormData(name: string, timezone: string, personalityType: string, selectedPersona: string)

  const InitialForm: FormData := FormData("", "UTC-5 (EST)", "", "")

  const FirstStep: int := 1
  const LastStep: int := 3

  /** `handleNext`: one step on, but not past the last. */
  function NextStep(step: int): (r: int)
    ensures step < LastStep ==> r == step + 1
    ensures step >= LastStep ==> r == step
  {
    if step < LastStep then step + 1 else step
  }

  /** `handleBack`: one step back, but not before the first. */
  function BackStep(step: int): (r: int)
    ensures step > FirstStep ==> r == step - 1
    ensures step <= FirstStep ==> r == step
  {
    if step > FirstStep then step - 1 else step
  }

  predicate InRange(step: int)
  {
    FirstStep <= step <= LastStep
  }

  /** Both moves keep the counter within 1..3. */
  lemma StepsStayInRange(step: int)
    requires InRange(step)
    ensures InRange(NextStep(step)) && InRange(BackStep(step))
  {
  }

  /** Back undoes Next below the last step, and Next undoes Back above the first. */
  lemma NextBackUndo(step: int)
    requires InRange(step)
    ensures step < LastStep ==> BackStep(NextStep(step)) == step
    ensures step > FirstStep ==> NextStep(BackStep(step)) == step
  {
  }

  /** Two presses of Next from the first step reach the last, and more presses stay there. */
  lemma {:induction false} NextReachesLast(k: nat)
    ensures Iterate(FirstStep, k) == if k < 2 then FirstStep + k else LastStep
  {
    if k > 0 {
      NextReachesLast(k - 1);
    }
  }

  /** `k` presses of Next. */
  function Iterate(step: int, k: nat): int
  {
    if k == 0 then step else NextStep(Iterate(step, k - 1))
  }

  /** `isStepValid`: step 1 needs a name that is not blank and a time zone, step 2 a personality
      type, step 3 a persona; any other step is invalid. */
  predicate IsStepValid(step: int, f: FormData)
    ensures IsStepValid(step, f) ==> InRange(step)
    ensures IsStepValid(step, f) && step == 1 ==> f.name != "" && f.timezone != ""
  {
    if step == 1 then !IsBlank(f.name) && f.timezone != ""
    else if step == 2 then f.personalityType != ""
    else if step == 3 then f.selectedPersona != ""
    else false
  }

  /** Next and submit are enabled exactly when the current step is valid and nothing is loading. */
  predicate ButtonEnabled(step: int, f: FormData, loading: bool)
    ensures ButtonEnabled(step, f, loading) ==> InRange(step) && !loading
    ensures loading ==> !ButtonEnabled(step, f, loading)
  {
    IsStepValid(step, f) && !loading
  }

  /** Step 1 needs a name with a character other than white space, steps 2 and 3 their field,
      and no other step is ever valid; an enabled button means a valid step of the form and no
      request in flight. */
  lemma StepValidity(step: int, f: FormData, loading: bool)
    ensures IsStepValid(1, f) <==> !AllSpace(f.name) && f.timezone != ""
    ensures IsStepValid(2, f) <==> f.personalityType != ""
    ensures IsStepValid(3, f) <==> f.selectedPersona != ""
    ensures ButtonEnabled(step, f, loading) ==> InRange(step) && !loading
  {
    BlankIffAllSpace(f.name);
  }

  /** `handleSubmit`'s guard: all three text fields non-empty; the name is not trimmed here. */
  predicate SubmitAllowed(f: FormData)
    ensures SubmitAllowed(f) ==> IsStepValid(2, f) && IsStepValid(3, f)
    ensures IsStepValid(1, f) && IsStepValid(2, f) && IsStepValid(3, f) ==> SubmitAllowed(f)
  {
    f.name != "" && f.personalityType != "" && f.selectedPersona != ""
  }

  /** The untrimmed submit guard lets a name of spaces through, which step 1 refuses. */
  lemma SubmitGuardSkipsTrim()
    ensures SubmitAllowed(FormData(" ", "UTC-5 (EST)", "type", "wildCard"))
    ensures !IsStepValid(1, FormData(" ", "UTC-5 (EST)", "type", "wildCard"))
  {
    BlankIffAllSpace(" ");
    assert AllSpace(" ") by {
      assert IsJsSpace(" "[0]);
    }
  }

  /** A form that passed all three steps may be submitted. */
  lemma ValidStepsAllowSubmit(f: FormData)
    requires IsStepValid(1, f) && IsStepValid(2, f) && IsStepValid(3, f)
    ensures SubmitAllowed(f)
  {
    BlankIffAllSpace(f.name);
  }

  /** The form's state as the screen keeps it. */
  class OnboardingForm {
    var step: int
    var form: FormData

    predicate Valid()
      reads this
    {
      InRange(step)
    }

    constructor()
      ensures Valid() && step == FirstStep && form == InitialForm
    {
      step := FirstStep;
      form := InitialForm;
    }

    method HandleNext()
      requires Valid()
      modifies this
      ensures Valid() && step == NextStep(old(step)) && form == old(form)
    {
      if step < LastStep {
        step := step + 1;
      }
    }

    method HandleBack()
      requires Valid()
      modifies this
      ensures Valid() && step == BackStep(old(step)) && form == old(form)
    {
      if step > FirstStep {
        step := step - 1;
      }
    }

    /** An input's `onChange`: the form takes the new values; the step stays. */
    method Edit(f: FormData)
      modifies this
      ensures form == f && step == old(step)
    {
      form := f;
    }

    /** `handleSubmit`: the data handed to `onboardUser`, when the guard lets it through. */
    method HandleSubmit() returns (submitted: Option<FormData>)
      ensures submitted.Some? <==> SubmitAllowed(form)
      ensures submitted.Some? ==> submitted.value == form
    {
      if form.name == "" || form.personalityType == "" || form.selectedPersona == "" {
        submitted := None;
      } else {
        submitted := Some(form);
      }
    }
  }
}
