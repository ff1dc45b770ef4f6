/** The bilingual value resolvers over the read-only content document. */
module Content {
  import opened Js
  import opened I18n

  /** A bilingual string, `{ en: string; fr: string }`. An untranslated
      variant is the empty string. */
  datatype Text = Text(en: string, fr: string) {
    function Variant(locale: Locale): string {
      match locale
      case En => en
      case Fr => fr
    }
  }

  /** A bilingual array or object, `{ en: T; fr: T }`, whose variants may
      be absent (`undefined`). A present array or object is truthy even
      when it is empty. */
  datatype Bilingual<T> = Bilingual(en: Option<T>, fr: Option<T>) {
    function Variant(locale: Locale): Option<T> {
      match locale
      case En => en
      case Fr => fr
    }
  }

  /** What `getLocalizedObject` can hand back: a variant, the `{}` it
      returns for a missing value, or `undefined` when neither variant exists. */
  datatype Resolved<T> = Found(value: T) | EmptyObject | Undefined

  /** `getLocalizedText`: `obj[locale] || obj.en || ''`. */
  function LocalizedText(obj: Option<Text>, locale: Locale): (r: string)
    ensures obj.None? ==> r == ""
    ensures obj.Some? && Truthy(obj.value.Variant(locale)) ==> r == obj.value.Variant(locale)
    ensures obj.Some? && !Truthy(obj.value.Variant(locale)) ==> r == obj.value.en
    ensures r == "" || (obj.Some? && (r == obj.value.Variant(locale) || r == obj.value.en))
  {
    match obj
    case None => ""
    case Some(t) =>
      if Truthy(t.Variant(locale)) then t.Variant(locale)
      else if Truthy(t.en) then t.en
      else ""
  }

  /** `getLocalizedArray`: `obj[locale] || obj.en || []`. Only an absent
      array falls back; an empty one is returned as it is. */
  function LocalizedArray(obj: Option<Bilingual<seq<string>>>, locale: Locale): (r: seq<string>)
    ensures obj.None? ==> r == []
    ensures obj.Some? && obj.value.Variant(locale).Some? ==> r == obj.value.Variant(locale).value
    ensures obj.Some? && obj.value.Variant(locale).None? ==> r == obj.value.en.GetOr([])
  {
    match obj
    case None => []
    case Some(b) =>
      match b.Variant(locale)
      case Some(a) => a
      case None => b.en.GetOr([])
  }

  /** `getLocalizedObject`: `obj[locale] || obj.en`, or `{}` for no value. */
  function LocalizedObject<T>(obj: Option<Bilingual<T>>, locale: Locale): (r: Resolved<T>)
    ensures obj.None? ==> r == EmptyObject
    ensures obj.Some? && obj.value.Variant(locale).Some? ==> r == Found(obj.value.Variant(locale).value)
    ensures obj.Some? && obj.value.Variant(locale).None? ==>
              r == (if obj.value.en.Some? then Found(obj.value.en.value) else Undefined)
  {
    match obj
    case None => EmptyObject
    case Some(b) =>
      match b.Variant(locale)
      case Some(v) => Found(v)
      case None =>
        match b.en
        case Some(v) => Found(v)
        case None => Undefined
  }

  /** English text is never replaced by a fallback. */
  lemma EnglishTextIsEnglish(t: Text)
    ensures LocalizedText(Some(t), En) == t.en
  {
  }

  /** The resolver returns the French text when it exists and the English
      text otherwise. */
  lemma FrenchTextFallsBack(t: Text)
    ensures LocalizedText(Some(t), Fr) == if t.fr != "" then t.fr else t.en
  {
  }

  /** Strings and arrays differ in truthiness: an empty French string falls
      back to English, an empty French array does not. */
  lemma EmptyStringAndEmptyArrayDiffer()
    ensures LocalizedText(Some(Text("Home", "")), Fr) == "Home"
    ensures LocalizedArray(Some(Bilingual(Some(["Home"]), Some([]))), Fr) == []
  {
  }

  /** Where a list has a variant to give, the array and object resolvers agree. */
  lemma ArrayAgreesWithObject(obj: Option<Bilingual<seq<string>>>, locale: Locale)
    requires obj.Some? && (obj.value.Variant(locale).Some? || obj.value.en.Some?)
    ensures LocalizedObject(obj, locale) == Found(LocalizedArray(obj, locale))
  {
  }

  /** The page names of the content document: a closed set of keys. */
  datatype PageName = Home | Services | Destinations | Resources | BookAppointment | Contact

  /** The `pages_structure` section of the content document. */
  datatype PagesStructure<P> = PagesStructure(
    home: P, services: P, destinations: P, resources: P, bookAppointment: P, contact: P)

  /** `getPageData`: the section for a page name; total over the closed key set. */
  function GetPageData<P>(pages: PagesStructure<P>, name: PageName): P {
    match name
    case Home => pages.home
    case Services => pages.services
    case Destinations => pages.destinations
    case Resources => pages.resources
    case BookAppointment => pages.bookAppointment
    case Contact => pages.contact
  }
}
