/** The French contact page: five fields (a phone instead of the service
    interest), the locale fixed to French, and a field bag that is kept
    when the submission completes. */
module FrenchContact {
  import opened Js
  import opened I18n
  import opened Contact

  const BlankFormData: map<string, string> := map[
    "name" := "", "email" := "", "phone" := "", "subject" := "", "message" := ""]

  /** The page's initial state: French, every field empty, not submitted. */
  method NewPage() returns (c: ContactFlow)
    ensures fresh(c)
    ensures c.blankData == BlankFormData && !c.clearsOnCompletion
    ensures c.locale == Fr && c.formData == BlankFormData
    ensures !c.isSubmitted && c.pendingSubmissions == 0
  {
    c := new ContactFlow(Fr, BlankFormData, false);
  }

  /** The mount effect sets the locale to French unconditionally. */
  method MountEffect(c: ContactFlow)
    modifies c`locale
    ensures c.locale == Fr
  {
    c.locale := Fr;
  }

  /** Every field of the blank bag is empty. */
  lemma BlankDraft(f: string)
    ensures Prop(BlankFormData, f) == ""
  {
  }

  /** Filling the form, submitting it and letting the completion fire ends
      on the confirmation view with the entered values still in the bag. */
  method SubmitScenario() returns (c: ContactFlow)
    ensures c.ShowsConfirmation()
    ensures Prop(c.formData, "name") == "Jean Dupont" && Prop(c.formData, "message") == "Bonjour"
  {
    c := NewPage();
    c.HandleInputChange("name", "Jean Dupont");
    c.HandleInputChange("message", "Bonjour");
    c.HandleSubmit();
    c.CompleteSubmission();
  }
}
