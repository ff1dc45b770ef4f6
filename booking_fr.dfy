/** The French booking page: its own field set, step-2 requirements of
    name and email only (no phone), service selection by code from a fixed
    list, and the review's lookup of the chosen service's label. */
module FrenchBooking {
  import opened Js
  import opened I18n
  import Content
  import opened Booking
  import EnglishBooking

  datatype ServiceOption = ServiceOption(code: string, caption: Content.Text)

  /** The five services offered on step 1, in display order. */
  const Services: seq<ServiceOption> := [
    ServiceOption("study-abroad", Content.Text("Study Abroad", "Études à l'Étranger")),
    ServiceOption("work-abroad", Content.Text("Work Abroad", "Travail à l'Étranger")),
    ServiceOption("tourism", Content.Text("Tourism", "Tourisme")),
    ServiceOption("visa-assistance", Content.Text("Visa Assistance", "Assistance Visa")),
    ServiceOption("consultation", Content.Text("General Consultation", "Consultation Générale"))
  ]

  const InitialFormData: map<string, string> := map[
    "service" := "", "name" := "", "email" := "", "phone" := "",
    "date" := "", "time" := "", "message" := ""]

  const StepTwoRequired: seq<string> := ["name", "email"]

  /** The page's initial state: French, step 1, every field empty, not submitted. */
  method NewPage() returns (b: BookingFlow)
    ensures fresh(b) && b.Valid()
    ensures b.stepTwoRequired == StepTwoRequired
    ensures b.locale == Fr && b.currentStep == 1 && b.formData == InitialFormData
    ensures !b.isSubmitted && b.pendingSubmissions == 0
  {
    b := new BookingFlow(Fr, InitialFormData, StepTwoRequired);
  }

  /** The mount effect sets the locale to French unconditionally. */
  method MountEffect(b: BookingFlow)
    modifies b`locale
    ensures b.locale == Fr
  {
    b.locale := Fr;
  }

  /** A click on the k-th service button stores that service's code. */
  method SelectService(b: BookingFlow, k: nat)
    requires k < |Services|
    modifies b`formData
    ensures b.formData == Spread(old(b.formData), "service", Services[k].code)
  {
    b.HandleInputChange("service", Services[k].code);
  }

  /** `options.find(s => s.value === code)`: the first option with that code. */
  function FindService(options: seq<ServiceOption>, code: string): (r: Option<ServiceOption>)
    ensures r.None? <==> forall k :: 0 <= k < |options| ==> options[k].code != code
    ensures r.Some? ==> exists k :: 0 <= k < |options| && options[k] == r.value && r.value.code == code &&
                                    forall j :: 0 <= j < k ==> options[j].code != code
  {
    if options == [] then None
    else if options[0].code == code then Some(options[0])
    else
      var r := FindService(options[1..], code);
      assert r.Some? ==> exists k :: 1 <= k < |options| && options[k] == r.value && r.value.code == code &&
                                     forall j :: 0 <= j < k ==> options[j].code != code
      by {
        if r.Some? {
          var k :| 0 <= k < |options[1..]| && options[1..][k] == r.value && r.value.code == code &&
                   forall j :: 0 <= j < k ==> options[1..][j].code != code;
          assert options[k + 1] == r.value;
          assert forall j :: 0 <= j < k + 1 ==> options[j].code != code by {
            forall j | 0 <= j < k + 1 ensures options[j].code != code {
              if j > 0 { assert options[j] == options[1..][j - 1]; }
            }
          }
        }
      }
      r
  }

  /** The service label shown on the review step: the label, in the page's
      locale, of the service whose code is stored; nothing if none matches. */
  function ReviewServiceLabel(code: string, locale: Locale): (r: Option<string>)
    ensures r.None? <==> forall k :: 0 <= k < |Services| ==> Services[k].code != code
    ensures r.Some? ==> exists k :: 0 <= k < |Services| && Services[k].code == code &&
                                    r.value == Services[k].caption.Variant(locale)
  {
    match FindService(Services, code)
    case None => None
    case Some(s) => Some(s.caption.Variant(locale))
  }

  /** The service codes are pairwise distinct. */
  lemma CodesDistinct(i: nat, j: nat)
    requires i < j < |Services|
    ensures Services[i].code != Services[j].code
  {
    assert Services[i].code[0] != Services[j].code[0];
  }

  /** After selecting the k-th service the review shows exactly that
      service's label. */
  lemma {:induction false} SelectedServiceReviewed(k: nat, locale: Locale)
    requires k < |Services|
    ensures ReviewServiceLabel(Services[k].code, locale) == Some(Services[k].caption.Variant(locale))
  {
    var r := ReviewServiceLabel(Services[k].code, locale);
    assert r.Some?;
    var m :| 0 <= m < |Services| && Services[m].code == Services[k].code &&
             r.value == Services[m].caption.Variant(locale);
    if m < k {
      CodesDistinct(m, k);
    } else if k < m {
      CodesDistinct(k, m);
    }
  }

  /** A stored value that is not one of the codes shows no label. */
  lemma UnknownCodeShowsNothing(locale: Locale)
    ensures ReviewServiceLabel("Tourisme", locale) == None
  {
  }

  /** Next is enabled exactly when a service is chosen and, on step 2, the
      name and email are filled; the phone is not required. */
  lemma {:induction false} NextGate(step: int, data: map<string, string>)
    ensures NextEnabled(step, data, StepTwoRequired) <==>
              Truthy(Prop(data, "service")) &&
              (step == 2 ==> Truthy(Prop(data, "name")) && Truthy(Prop(data, "email")))
  {
    assert StepTwoRequired[0] == "name" && StepTwoRequired[1] == "email";
  }

  /** Every field starts empty. */
  lemma InitialDraft(f: string)
    ensures Prop(InitialFormData, f) == ""
  {
  }

  /** The two pages gate step 2 differently: a draft without a phone
      number may advance on the French page and not on the English one. */
  lemma PhoneRequiredOnlyInEnglish()
    ensures var d := map["service" := "tourism", "name" := "Jane", "fullName" := "Jane", "email" := "jane@example.com"];
            NextEnabled(2, d, StepTwoRequired) && !NextEnabled(2, d, EnglishBooking.StepTwoRequired)
  {
    var d := map["service" := "tourism", "name" := "Jane", "fullName" := "Jane", "email" := "jane@example.com"];
    NextGate(2, d);
    EnglishBooking.NextGate(2, d);
  }
}
