/** The four-step booking controller shared by the English and French
    booking pages. The two pages differ in their field sets and in which
    fields step 2 requires; both are instances of BookingFlow. */
module Booking {
  import opened Js
  import opened I18n

  /** Service selection, personal information, appointment details, review. */
  const StepCount: int := 4

  /** `nextStep` / `handleNext` on the step number. */
  function AfterNext(step: int): (r: int)
    ensures 1 <= step <= StepCount ==> 1 <= r <= StepCount
    ensures step < StepCount ==> r == step + 1
    ensures step >= StepCount ==> r == step
  {
    if step < StepCount then step + 1 else step
  }

  /** `prevStep` / `handlePrevious` on the step number. */
  function AfterPrevious(step: int): (r: int)
    ensures 1 <= step <= StepCount ==> 1 <= r <= StepCount
    ensures step > 1 ==> r == step - 1
    ensures step <= 1 ==> r == step
  {
    if step > 1 then step - 1 else step
  }

  /** Going forward and back from any step that has a forward move returns there. */
  lemma NextThenPrevious(step: int)
    requires 1 <= step < StepCount
    ensures AfterPrevious(AfterNext(step)) == step
  {
  }

  /** Going back and forward from any step that has a backward move returns there. */
  lemma PreviousThenNext(step: int)
    requires 1 < step <= StepCount
    ensures AfterNext(AfterPrevious(step)) == step
  {
  }

  /** All the named fields hold a truthy value. */
  function AllFilled(data: map<string, string>, names: seq<string>): (b: bool)
    ensures b <==> forall k :: 0 <= k < |names| ==> Truthy(Prop(data, names[k]))
  {
    if names == [] then true
    else Truthy(Prop(data, names[0])) && AllFilled(data, names[1..])
  }

  /** The negation of the Next button's `disabled` expression: a service is
      chosen and, on step 2, every field that step requires is filled. */
  function NextEnabled(step: int, data: map<string, string>, stepTwoRequired: seq<string>): (b: bool)
    ensures b <==> Truthy(Prop(data, "service")) &&
                   (step == 2 ==> forall k :: 0 <= k < |stepTwoRequired| ==> Truthy(Prop(data, stepTwoRequired[k])))
  {
    Truthy(Prop(data, "service")) && (step != 2 || AllFilled(data, stepTwoRequired))
  }

  /** The step numbers of the progress bar, in order. */
  const StepNumbers: seq<int> := [1, 2, 3, 4]

  /** The steps drawn as reached (`currentStep >= step.number`). */
  function ReachedSteps(current: int): (r: set<int>)
    ensures forall s :: s in r <==> 1 <= s <= StepCount && s <= current
  {
    set s | s in StepNumbers && current >= s
  }

  /** The steps drawn as completed (`currentStep > step.number`). */
  function CompletedSteps(current: int): (r: set<int>)
    ensures forall s :: s in r <==> 1 <= s <= StepCount && s < current
  {
    set s | s in StepNumbers && current > s
  }

  /** On step k the progress bar shows the first k steps reached and the
      first k - 1 completed; the current step is reached and not completed. */
  lemma ProgressCounts(current: int)
    requires 1 <= current <= StepCount
    ensures |ReachedSteps(current)| == current
    ensures |CompletedSteps(current)| == current - 1
    ensures CompletedSteps(current) + {current} == ReachedSteps(current)
    ensures current !in CompletedSteps(current)
  {
    if current == 1 {
      assert ReachedSteps(1) == {1};
      assert CompletedSteps(1) == {};
    } else if current == 2 {
      assert ReachedSteps(2) == {1, 2};
      assert CompletedSteps(2) == {1};
    } else if current == 3 {
      assert ReachedSteps(3) == {1, 2, 3};
      assert CompletedSteps(3) == {1, 2};
    } else {
      assert ReachedSteps(4) == {1, 2, 3, 4};
      assert CompletedSteps(4) == {1, 2, 3};
    }
  }

  /** One booking page's draft: the step, the field bag, and the submitted
      flag with the completions that `setTimeout` still has pending. */
  class BookingFlow {
    const stepTwoRequired: seq<string>
    var locale: Locale
    var currentStep: int
    var formData: map<string, string>
    var isSubmitted: bool
    var pendingSubmissions: nat

    ghost predicate Valid()
      reads this
    {
      1 <= currentStep <= StepCount
    }

    constructor (initialLocale: Locale, initialData: map<string, string>, stepTwoRequired: seq<string>)
      ensures Valid()
      ensures this.stepTwoRequired == stepTwoRequired
      ensures locale == initialLocale && currentStep == 1 && formData == initialData
      ensures !isSubmitted && pendingSubmissions == 0
    {
      this.stepTwoRequired := stepTwoRequired;
      locale := initialLocale;
      currentStep := 1;
      formData := initialData;
      isSubmitted := false;
      pendingSubmissions := 0;
    }

    /** `handleInputChange(field, value)`. */
    method HandleInputChange(field: string, value: string)
      modifies this`formData
      ensures formData == Spread(old(formData), field, value)
    {
      formData := formData[field := value];
    }

    /** `nextStep` / `handleNext`. */
    method NextStep()
      requires Valid()
      modifies this`currentStep
      ensures Valid()
      ensures currentStep == AfterNext(old(currentStep))
    {
      if currentStep < StepCount {
        currentStep := currentStep + 1;
      }
    }

    /** `prevStep` / `handlePrevious`. */
    method PrevStep()
      requires Valid()
      modifies this`currentStep
      ensures Valid()
      ensures currentStep == AfterPrevious(old(currentStep))
    {
      if currentStep > 1 {
        currentStep := currentStep - 1;
      }
    }

    /** `handleSubmit`: schedules the completion and changes nothing else. */
    method HandleSubmit()
      modifies this`pendingSubmissions
      ensures pendingSubmissions == old(pendingSubmissions) + 1
    {
      pendingSubmissions := pendingSubmissions + 1;
    }

    /** The `setTimeout` callback of one earlier `handleSubmit` firing. */
    method CompleteSubmission()
      requires pendingSubmissions > 0
      modifies this`isSubmitted, this`pendingSubmissions
      ensures isSubmitted
      ensures pendingSubmissions == old(pendingSubmissions) - 1
    {
      isSubmitted := true;
      pendingSubmissions := pendingSubmissions - 1;
    }

    /** Next is enabled. */
    predicate CanAdvance()
      reads this
      ensures CanAdvance() ==> Truthy(Prop(formData, "service"))
      ensures CanAdvance() && currentStep == 2 ==>
                forall k :: 0 <= k < |stepTwoRequired| ==> Truthy(Prop(formData, stepTwoRequired[k]))
    {
      NextEnabled(currentStep, formData, stepTwoRequired)
    }

    /** Once submitted, the confirmation view replaces the form. */
    predicate ShowsConfirmation()
      reads this
      ensures ShowsConfirmation() ==> !PreviousOffered() && !NextOffered() && !SubmitOffered()
    {
      isSubmitted
    }

    /** The buttons the form view renders. */
    predicate PreviousOffered()
      reads this
      ensures PreviousOffered() ==> AfterPrevious(currentStep) == currentStep - 1
    {
      !isSubmitted && currentStep > 1
    }

    predicate NextOffered()
      reads this
      ensures NextOffered() ==> AfterNext(currentStep) == currentStep + 1
    {
      !isSubmitted && currentStep < StepCount
    }

    predicate SubmitOffered()
      reads this
      ensures Valid() && !isSubmitted ==> (SubmitOffered() <==> !NextOffered())
    {
      !isSubmitted && currentStep == StepCount
    }

    /** A click on Next: it acts only when the button is rendered and enabled. */
    method ClickNext()
      requires Valid()
      modifies this`currentStep
      ensures Valid()
      ensures currentStep == if old(NextOffered() && CanAdvance()) then old(currentStep) + 1 else old(currentStep)
    {
      if NextOffered() && CanAdvance() {
        NextStep();
      }
    }

    /** A click on Previous: it acts only when the button is rendered. */
    method ClickPrevious()
      requires Valid()
      modifies this`currentStep
      ensures Valid()
      ensures currentStep == if old(PreviousOffered()) then old(currentStep) - 1 else old(currentStep)
    {
      if PreviousOffered() {
        PrevStep();
      }
    }

    /** A click on the submit button: it exists only on the last step of the form view. */
    method ClickSubmit()
      modifies this`pendingSubmissions
      ensures pendingSubmissions == old(pendingSubmissions) + if old(SubmitOffered()) then 1 else 0
    {
      if SubmitOffered() {
        HandleSubmit();
      }
    }
  }
}
