/** The English booking page: its field set, its step-2 requirements
    (name, email and phone), service selection by localised label, and
    locale detection from the path. */
module EnglishBooking {
  import opened Js
  import opened I18n
  import Content
  import PageLocale
  import opened Booking

  const InitialFormData: map<string, string> := map[
    "service" := "", "fullName" := "", "email" := "", "phone" := "",
    "preferredLanguage" := "en", "preferredDate" := "", "preferredTime" := "",
    "consultationType" := "video", "message" := ""]

  const StepTwoRequired: seq<string> := ["fullName", "email", "phone"]

  /** The page's initial state: English, step 1, the initial draft, not submitted. */
  method NewPage() returns (b: BookingFlow)
    ensures fresh(b) && b.Valid()
    ensures b.stepTwoRequired == StepTwoRequired
    ensures b.locale == En && b.currentStep == 1 && b.formData == InitialFormData
    ensures !b.isSubmitted && b.pendingSubmissions == 0
  {
    b := new BookingFlow(En, InitialFormData, StepTwoRequired);
  }

  /** The mount effect: French when the path starts with "/fr". */
  method MountEffect(b: BookingFlow, pathname: string)
    modifies b`locale
    ensures b.locale == PageLocale.AfterMount(old(b.locale), pathname)
  {
    if StartsWith(pathname, "/fr") {
      b.locale := Fr;
    }
  }

  /** A click on a service option stores the option's label in the page's locale. */
  method SelectService(b: BookingFlow, option: Content.Text)
    modifies b`formData
    ensures b.formData == Spread(old(b.formData), "service", Content.LocalizedText(Some(option), b.locale))
  {
    b.HandleInputChange("service", Content.LocalizedText(Some(option), b.locale));
  }

  /** Every field starts empty except the preferred language ("en") and
      the consultation type ("video"). */
  lemma InitialDraft(f: string)
    ensures Prop(InitialFormData, f) ==
              if f == "preferredLanguage" then "en"
              else if f == "consultationType" then "video"
              else ""
  {
  }

  /** Next is enabled exactly when a service is chosen and, on step 2,
      the full name, email and phone are all filled. */
  lemma {:induction false} NextGate(step: int, data: map<string, string>)
    ensures NextEnabled(step, data, StepTwoRequired) <==>
              Truthy(Prop(data, "service")) &&
              (step == 2 ==> Truthy(Prop(data, "fullName")) && Truthy(Prop(data, "email")) && Truthy(Prop(data, "phone")))
  {
    assert StepTwoRequired[0] == "fullName" && StepTwoRequired[1] == "email" && StepTwoRequired[2] == "phone";
  }

  /** The gating walk through the first steps: Next is disabled until a
      service is chosen, and on step 2 until name, email and phone are all given. */
  lemma GatingWalkthrough(service: string, name: string, email: string, phone: string)
    requires Truthy(service) && Truthy(name) && Truthy(email) && Truthy(phone)
    ensures !NextEnabled(1, InitialFormData, StepTwoRequired)
    ensures var d1 := Spread(InitialFormData, "service", service);
            NextEnabled(1, d1, StepTwoRequired) &&
            var d2 := Spread(Spread(d1, "fullName", name), "email", email);
            !NextEnabled(2, d2, StepTwoRequired) &&
            NextEnabled(2, Spread(d2, "phone", phone), StepTwoRequired)
  {
    InitialDraft("service");
    InitialDraft("phone");
    var d1 := Spread(InitialFormData, "service", service);
    var d2 := Spread(Spread(d1, "fullName", name), "email", email);
    NextGate(2, d2);
    NextGate(2, Spread(d2, "phone", phone));
  }
}
