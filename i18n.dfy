/** The locale router: deriving the locale from a path and adding or
    removing the French `/fr` prefix. */
module I18n {
  import opened Js

  datatype Locale = En | Fr

  const Locales: seq<Locale> := [En, Fr]
  const DefaultLocale: Locale := En

  /** `getLocaleFromPath`: French exactly when the path starts with "/fr/"
      (the bare path "/fr" is English). */
  function LocaleFromPath(pathname: string): (l: Locale)
    ensures l == Fr <==> exists rest :: pathname == "/fr/" + rest
  {
    if StartsWith(pathname, "/fr/") then
      assert pathname == "/fr/" + pathname[4..];
      Fr
    else
      En
  }

  /** `getLocalizedPath`: English paths are left alone; French paths get
      "/fr" glued in front, with no check for a prefix already there. */
  function LocalizedPath(pathname: string, locale: Locale): (r: string)
    ensures locale == En ==> r == pathname
    ensures locale == Fr ==> |r| == |pathname| + 3 && StartsWith(r, "/fr") && r[3..] == pathname
  {
    if locale == Fr then "/fr" + pathname else pathname
  }

  /** `removeLocaleFromPath`: `pathname.replace(/^\/fr/, '')`. The pattern
      is anchored at the start but not at a segment boundary. */
  function RemoveLocaleFromPath(pathname: string): (r: string)
    ensures |r| <= |pathname|
    ensures !StartsWith(pathname, "/fr") ==> r == pathname
    ensures StartsWith(pathname, "/fr") ==> pathname == "/fr" + r
  {
    if StartsWith(pathname, "/fr") then
      assert pathname == pathname[..3] + pathname[3..];
      pathname[3..]
    else
      pathname
  }

  /** Stripping undoes adding the French prefix, for every path. */
  lemma {:induction false} RemoveAfterFrench(p: string)
    ensures RemoveLocaleFromPath(LocalizedPath(p, Fr)) == p
  {
    var q := LocalizedPath(p, Fr);
    assert StartsWith(q, "/fr");
    assert q == "/fr" + RemoveLocaleFromPath(q);
  }

  /** Stripping undoes the English (identity) localisation exactly for
      logical paths, those that do not themselves start with "/fr". */
  lemma RemoveAfterEnglish(p: string)
    ensures RemoveLocaleFromPath(LocalizedPath(p, En)) == p <==> !StartsWith(p, "/fr")
  {
  }

  /** A French link is recognised as French exactly when the logical path
      starts with "/"; `LocalizedPath("", Fr)` is "/fr", which reads as English. */
  lemma {:induction false} FrenchLinkDetected(p: string)
    ensures LocaleFromPath(LocalizedPath(p, Fr)) == Fr <==> StartsWith(p, "/")
  {
    var q := LocalizedPath(p, Fr);
    if StartsWith(p, "/") {
      assert q == "/fr/" + p[1..];
    }
  }

  /** An English link is recognised as English unless the path itself
      already starts with "/fr/". */
  lemma EnglishLinkDetected(p: string)
    ensures LocaleFromPath(LocalizedPath(p, En)) == En <==> !StartsWith(p, "/fr/")
  {
    if LocaleFromPath(p) == Fr {
      var rest :| p == "/fr/" + rest;
      assert p[..4] == "/fr/";
    }
  }

  /** The bare prefix "/fr" is not a French path for the router. */
  lemma BarePrefixIsEnglish()
    ensures LocaleFromPath("/fr") == En
    ensures LocaleFromPath(LocalizedPath("", Fr)) == En
  {
    assert !StartsWith("/fr", "/fr/");
  }

  /** Stripping the bare prefix "/fr" leaves the empty path, not "/". */
  lemma BarePrefixStripsToEmpty()
    ensures RemoveLocaleFromPath("/fr") == ""
    ensures LocalizedPath(RemoveLocaleFromPath("/fr"), Fr) == "/fr"
  {
    assert StartsWith("/fr", "/fr");
  }

  /** Localising twice prefixes twice. */
  lemma NoDoublePrefixCheck()
    ensures LocalizedPath(LocalizedPath("/x", Fr), Fr) == "/fr/fr/x"
  {
  }

  /** The strip is not segment-aware: "/france" loses its first three characters. */
  lemma RemoveIsNotSegmentAware()
    ensures RemoveLocaleFromPath("/france") == "ance"
  {
    assert StartsWith("/france", "/fr");
  }

  /** The strip removes one prefix per call, so it is not idempotent. */
  lemma RemoveIsNotIdempotent()
    ensures RemoveLocaleFromPath("/fr/fr/x") == "/fr/x"
    ensures RemoveLocaleFromPath(RemoveLocaleFromPath("/fr/fr/x")) == "/x"
  {
    assert StartsWith("/fr/fr/x", "/fr");
    assert StartsWith("/fr/x", "/fr");
  }
}
