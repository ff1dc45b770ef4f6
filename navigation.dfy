/** The pure parts of the navigation bar: the current logical path, the
    active-item test and the links it renders. */
module Navigation {
  import opened Js
  import opened I18n
  import Content

  datatype NavItem = NavItem(href: string, caption: Content.Text)

  /** The five entries of the navigation bar, in display order. */
  const NavigationItems: seq<NavItem> := [
    NavItem("/", Content.Text("Home", "Accueil")),
    NavItem("/services", Content.Text("Services", "Services")),
    NavItem("/destinations", Content.Text("Destinations", "Destinations")),
    NavItem("/resources", Content.Text("Resources", "Ressources")),
    NavItem("/contact", Content.Text("Contact", "Contact"))
  ]

  /** `currentPath = removeLocaleFromPath(pathname)`, with the component's
      own copy of the strip, which behaves as the router's. */
  function CurrentPath(pathname: string): (r: string)
    ensures !StartsWith(pathname, "/fr") ==> r == pathname
    ensures StartsWith(pathname, "/fr") ==> pathname == "/fr" + r
  {
    RemoveLocaleFromPath(pathname)
  }

  /** `isActive`: an entry is active on its own path and, except for the
      root entry, on every path it is a prefix of. */
  predicate IsActive(currentPath: string, href: string)
    ensures currentPath == href ==> IsActive(currentPath, href)
    ensures href == "/" ==> (IsActive(currentPath, href) <==> currentPath == "/")
    ensures href != "/" ==> (IsActive(currentPath, href) <==> StartsWith(currentPath, href))
  {
    currentPath == href || (href != "/" && StartsWith(currentPath, href))
  }

  /** The logical path of a localised page is the path itself, so the
      active entry does not depend on the locale. */
  lemma ActiveIsLocaleIndependent(p: string, locale: Locale, href: string)
    requires !StartsWith(p, "/fr")
    ensures IsActive(CurrentPath(LocalizedPath(p, locale)), href) == IsActive(p, href)
  {
    if locale == Fr {
      RemoveAfterFrench(p);
    }
  }

  /** The non-root entries begin with pairwise different letters. */
  lemma SecondLettersDiffer(i: nat, j: nat)
    requires 0 < i < j < |NavigationItems|
    ensures |NavigationItems[i].href| > 1 && |NavigationItems[j].href| > 1
    ensures NavigationItems[i].href[1] != NavigationItems[j].href[1]
  {
    if i == 1 {
    } else if i == 2 {
    } else {
    }
  }

  /** At most one entry of the navigation bar is active on any path. */
  lemma {:induction false} AtMostOneActive(currentPath: string, i: nat, j: nat)
    requires i < j < |NavigationItems|
    ensures !(IsActive(currentPath, NavigationItems[i].href) && IsActive(currentPath, NavigationItems[j].href))
  {
    if i == 0 {
      assert |NavigationItems[j].href| > 1;
    } else {
      SecondLettersDiffer(i, j);
    }
  }

  /** Every entry links to a logical path: it starts with "/" and not with "/fr". */
  lemma HrefIsLogical(k: nat)
    requires k < |NavigationItems|
    ensures StartsWith(NavigationItems[k].href, "/")
    ensures !StartsWith(NavigationItems[k].href, "/fr")
  {
    var h := NavigationItems[k].href;
    if k == 0 {
    } else {
      assert h[1] != 'f';
    }
  }

  /** The hrefs of a list of entries, localised. */
  function LocalizedHrefs(items: seq<NavItem>, locale: Locale): (r: seq<string>)
    ensures |r| == |items|
    ensures forall k :: 0 <= k < |items| ==> r[k] == LocalizedPath(items[k].href, locale)
  {
    if items == [] then [] else [LocalizedPath(items[0].href, locale)] + LocalizedHrefs(items[1..], locale)
  }

  /** The links of the navigation entries, desktop and mobile alike. */
  function NavLinks(locale: Locale): (r: seq<string>)
    ensures |r| == |NavigationItems|
    ensures forall k :: 0 <= k < |r| ==> r[k] == LocalizedPath(NavigationItems[k].href, locale)
  {
    LocalizedHrefs(NavigationItems, locale)
  }

  /** Every navigation link is read back by the router as the locale it
      was built for. */
  lemma {:induction false} NavLinksKeepLocale(locale: Locale, k: nat)
    requires k < |NavigationItems|
    ensures LocaleFromPath(NavLinks(locale)[k]) == locale
  {
    var h := NavigationItems[k].href;
    HrefIsLogical(k);
    if locale == Fr {
      FrenchLinkDetected(h);
    } else {
      EnglishLinkDetected(h);
    }
  }

  /** The "English" entry of the language switcher. */
  function EnglishSwitchHref(pathname: string): (r: string)
    ensures !StartsWith(pathname, "/fr") ==> r == pathname
    ensures StartsWith(pathname, "/fr") ==> pathname == "/fr" + r
  {
    LocalizedPath(CurrentPath(pathname), En)
  }

  /** The "Français" entry of the language switcher. */
  function FrenchSwitchHref(pathname: string): (r: string)
    ensures StartsWith(pathname, "/fr") ==> r == pathname
    ensures !StartsWith(pathname, "/fr") ==> r == "/fr" + pathname
  {
    LocalizedPath(CurrentPath(pathname), Fr)
  }

  /** The switcher maps a page of either locale to the same logical page
      in the chosen locale. */
  lemma SwitcherKeepsLogicalPage(p: string, locale: Locale)
    requires !StartsWith(p, "/fr")
    ensures EnglishSwitchHref(LocalizedPath(p, locale)) == LocalizedPath(p, En)
    ensures FrenchSwitchHref(LocalizedPath(p, locale)) == LocalizedPath(p, Fr)
  {
    if locale == Fr {
      RemoveAfterFrench(p);
    }
  }

  /** The French home route "/fr" (the French localisation of "", not of
      "/"): its logical path is empty, so no entry is active and the
      "English" switcher entry is the empty link. */
  lemma {:induction false} FrenchHomeRoute()
    ensures CurrentPath("/fr") == ""
    ensures EnglishSwitchHref("/fr") == ""
    ensures FrenchSwitchHref("/fr") == "/fr"
    ensures forall k :: 0 <= k < |NavigationItems| ==> !IsActive(CurrentPath("/fr"), NavigationItems[k].href)
  {
    BarePrefixStripsToEmpty();
    forall k | 0 <= k < |NavigationItems|
      ensures !IsActive("", NavigationItems[k].href)
    {
      HrefIsLogical(k);
    }
  }
}
