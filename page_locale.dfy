/** The locale the English-tree pages derive on mount: they start in
    English and switch to French when `window.location.pathname` starts
    with "/fr", a looser test than the router's "/fr/". */
module PageLocale {
  import opened Js
  import opened I18n

  /** The locale after the mount effect, from the locale before it. */
  function AfterMount(current: Locale, pathname: string): (l: Locale)
    ensures StartsWith(pathname, "/fr") ==> l == Fr
    ensures !StartsWith(pathname, "/fr") ==> l == current
  {
    if StartsWith(pathname, "/fr") then Fr else current
  }

  /** Whatever the router reads as French, a page reads as French too. */
  lemma {:induction false} RouterFrenchIsPageFrench(pathname: string, current: Locale)
    requires LocaleFromPath(pathname) == Fr
    ensures AfterMount(current, pathname) == Fr
  {
    var rest :| pathname == "/fr/" + rest;
    assert pathname[..3] == "/fr";
  }

  /** The two tests disagree on the bare prefix and on paths such as "/france". */
  lemma PagesAndRouterDisagree()
    ensures AfterMount(En, "/fr") == Fr && LocaleFromPath("/fr") == En
    ensures AfterMount(En, "/france") == Fr && LocaleFromPath("/france") == En
  {
    BarePrefixIsEnglish();
    assert StartsWith("/france", "/fr");
    assert "/france"[3] != "/fr/"[3];
  }

  /** A page mounted at a link built for a locale from a logical path
      recovers that locale. */
  lemma MountRecoversLinkLocale(p: string, locale: Locale)
    requires !StartsWith(p, "/fr")
    ensures AfterMount(En, LocalizedPath(p, locale)) == locale
  {
  }
}
