/** The English contact page: five fields, locale detection from the
    path, and a field bag cleared when the submission completes. */
module EnglishContact {
  import opened Js
  import opened I18n
  import PageLocale
  import opened Contact

  const BlankFormData: map<string, string> := map[
    "name" := "", "email" := "", "subject" := "", "serviceInterest" := "", "message" := ""]

  /** The page's initial state: English, every field empty, not submitted. */
  method NewPage() returns (c: ContactFlow)
    ensures fresh(c)
    ensures c.blankData == BlankFormData && c.clearsOnCompletion
    ensures c.locale == En && c.formData == BlankFormData
    ensures !c.isSubmitted && c.pendingSubmissions == 0
  {
    c := new ContactFlow(En, BlankFormData, true);
  }

  /** The mount effect: French when the path starts with "/fr". */
  method MountEffect(c: ContactFlow, pathname: string)
    modifies c`locale
    ensures c.locale == PageLocale.AfterMount(old(c.locale), pathname)
  {
    if StartsWith(pathname, "/fr") {
      c.locale := Fr;
    }
  }

  /** Every field of the blank bag is empty. */
  lemma BlankDraft(f: string)
    ensures Prop(BlankFormData, f) == ""
  {
  }

  /** Filling the form, submitting it and letting the completion fire
      ends on the confirmation view with every field empty again. */
  method SubmitScenario() returns (c: ContactFlow)
    ensures c.ShowsConfirmation()
    ensures forall f :: Prop(c.formData, f) == ""
  {
    c := NewPage();
    c.HandleInputChange("name", "Jane Doe");
    c.HandleInputChange("email", "jane@example.com");
    c.HandleInputChange("subject", "Inquiry");
    c.HandleInputChange("message", "Hello");
    c.HandleSubmit();
    c.CompleteSubmission();
    forall f ensures Prop(c.formData, f) == "" {
      BlankDraft(f);
    }
  }
}
