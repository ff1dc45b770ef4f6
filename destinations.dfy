/** The destinations page: its own copy of the array resolver and its
    locale detection on mount. */
module Destinations {
  import opened Js
  import opened I18n
  import Content
  import PageLocale

  /** The page's local `getLocalizedArray`; it agrees with the library's. */
  function LocalizedArray(obj: Option<Content.Bilingual<seq<string>>>, locale: Locale): (r: seq<string>)
    ensures r == Content.LocalizedArray(obj, locale)
    ensures obj.None? ==> r == []
    ensures obj.Some? && obj.value.Variant(locale).Some? ==> r == obj.value.Variant(locale).value
  {
    if obj.None? then []
    else if obj.value.Variant(locale).Some? then obj.value.Variant(locale).value
    else if obj.value.en.Some? then obj.value.en.value
    else []
  }

  /** The page's locale state. */
  class DestinationsPage {
    var locale: Locale

    constructor ()
      ensures locale == En
    {
      locale := En;
    }

    /** The mount effect: French when the path starts with "/fr". */
    method MountEffect(pathname: string)
      modifies this`locale
      ensures locale == PageLocale.AfterMount(old(locale), pathname)
    {
      if StartsWith(pathname, "/fr") {
        locale := Fr;
      }
    }
  }
}
