/**
 * Hash routing: the URL fragment names one of four pages, and the current
 * page is written back as a canonical fragment.
 */
module Router {

  import opened Text

  /** The four pages of the site; `Hero` is the landing page. */
  datatype PageName = Hero | About | Expertise | Contact

  /** The route table of `getPageNameFromHash`; any other hash means `Hero`. */
  const RouteMap: map<string, PageName> :=
    map["#about" := About, "#expertise" := Expertise, "#contact" := Contact]

  /** `getPageNameFromHash`: parses a `location.hash` value into a page. */
  function PageFromHash(hash: string): (p: PageName)
    ensures p == About <==> hash == "#about"
    ensures p == Expertise <==> hash == "#expertise"
    ensures p == Contact <==> hash == "#contact"
    ensures p == Hero <==> hash !in {"#about", "#expertise", "#contact"}
  {
    if hash in RouteMap then RouteMap[hash] else Hero
  }

  /**
   * The fragment the page-to-hash effect writes for a page: the page's own
   * name, except that `Hero` is the empty fragment.
   */
  function CanonicalFragment(p: PageName): (f: string)
    ensures f == "" <==> p == Hero
    ensures p != Hero ==> PageFromHash("#" + f) == p
  {
    match p
    case Hero => ""
    case About => "about"
    case Expertise => "expertise"
    case Contact => "contact"
  }

  /**
   * What `window.location.hash` reads for a URL whose fragment is `fragment`:
   * the empty string when the fragment is empty, `#` and the fragment otherwise.
   */
  function LocationHash(fragment: string): (h: string)
    ensures h == "" <==> fragment == ""
    ensures h != "" ==> h[0] == '#' && h[1..] == fragment
  {
    if fragment == "" then "" else "#" + fragment
  }

  /** Writing a page's fragment and parsing it back, with or without the `#`, gives the page. */
  lemma FragmentRoundTrip(p: PageName)
    ensures PageFromHash("#" + CanonicalFragment(p)) == p
    ensures PageFromHash(LocationHash(CanonicalFragment(p))) == p
  {
    if p == Hero {
      assert "#" + CanonicalFragment(p) == "#";
    }
  }

  /** Distinct pages have distinct canonical fragments. */
  lemma CanonicalFragmentInjective(p: PageName, q: PageName)
    requires CanonicalFragment(p) == CanonicalFragment(q)
    ensures p == q
  {
    FragmentRoundTrip(p);
    FragmentRoundTrip(q);
  }

  /**
   * The URL and the page agree when parsing the live `location.hash`
   * gives the current page.
   */
  predicate InSync(fragment: string, page: PageName) {
    PageFromHash(LocationHash(fragment)) == page
  }

  /**
   * The page-to-hash effect: the fragment after it runs. The fragment is
   * rewritten only when it differs from the page's canonical fragment.
   */
  function SyncedFragment(fragment: string, page: PageName): (f: string)
    ensures fragment == CanonicalFragment(page) ==> f == fragment
    ensures fragment != CanonicalFragment(page) ==> f == CanonicalFragment(page)
    ensures InSync(f, page)
  {
    FragmentRoundTrip(page);
    var newHash := CanonicalFragment(page);
    if SubstringFrom(LocationHash(fragment), 1) != newHash then newHash else fragment
  }
}
