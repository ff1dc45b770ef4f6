/** The contact form shared by the English and French contact pages: a
    flat field bag and a submitted flag, with no steps. The English page
    clears the bag when the submission completes; the French one keeps it. */
module Contact {
  import opened Js
  import opened I18n

  class ContactFlow {
    const blankData: map<string, string>
    const clearsOnCompletion: bool
    var locale: Locale
    var formData: map<string, string>
    var isSubmitted: bool
    var pendingSubmissions: nat

    constructor (initialLocale: Locale, blankData: map<string, string>, clearsOnCompletion: bool)
      ensures this.blankData == blankData && this.clearsOnCompletion == clearsOnCompletion
      ensures locale == initialLocale && formData == blankData
      ensures !isSubmitted && pendingSubmissions == 0
    {
      this.blankData := blankData;
      this.clearsOnCompletion := clearsOnCompletion;
      locale := initialLocale;
      formData := blankData;
      isSubmitted := false;
      pendingSubmissions := 0;
    }

    /** `handleInputChange(field, value)`. */
    method HandleInputChange(field: string, value: string)
      modifies this`formData
      ensures formData == Spread(old(formData), field, value)
    {
      formData := formData[field := value];
    }

    /** `handleSubmit`: schedules the completion and changes nothing else. */
    method HandleSubmit()
      modifies this`pendingSubmissions
      ensures pendingSubmissions == old(pendingSubmissions) + 1
    {
      pendingSubmissions := pendingSubmissions + 1;
    }

    /** The `setTimeout` callback of one earlier `handleSubmit` firing. */
    method CompleteSubmission()
      requires pendingSubmissions > 0
      modifies this`isSubmitted, this`formData, this`pendingSubmissions
      ensures isSubmitted
      ensures formData == if clearsOnCompletion then blankData else old(formData)
      ensures pendingSubmissions == old(pendingSubmissions) - 1
    {
      isSubmitted := true;
      if clearsOnCompletion {
        formData := blankData;
      }
      pendingSubmissions := pendingSubmissions - 1;
    }

    /** Once submitted, the confirmation view replaces the form. */
    predicate ShowsConfirmation()
      reads this
      ensures ShowsConfirmation() <==> !SubmitOffered()
    {
      isSubmitted
    }

    /** The submit button belongs to the form view. */
    predicate SubmitOffered()
      reads this
    {
      !isSubmitted
    }

    /** A click on the submit button: it exists only while the form is shown. */
    method ClickSubmit()
      modifies this`pendingSubmissions
      ensures pendingSubmissions == old(pendingSubmissions) + if old(SubmitOffered()) then 1 else 0
    {
      if SubmitOffered() {
        HandleSubmit();
      }
    }
  }
}
