/** The mobile bottom navigation: five fixed items, each highlighted when the current
    path is its path or, for every item but Home, starts with it. */
module MobileBottomNav {
  import opened Text

  datatype NavItem = NavItem(text: string, path: string)

  const Home := "/"

  const NavItems: seq<NavItem> := [
    NavItem("Home", "/"),
    NavItem("Job Cards", "/job-cards"),
    NavItem("Search", "/search"),
    NavItem("Customers", "/customers"),
    NavItem("Account", "/profile")
  ]

  /** `isActive` */
  predicate IsActive(path: string, currentPath: string) {
    currentPath == path || (path != Home && StartsWith(currentPath, path))
  }

  /** Home is highlighted only on "/" itself. */
  lemma HomeOnlyExact(currentPath: string)
    ensures IsActive(Home, currentPath) <==> currentPath == "/"
  {
  }

  /** Any other item is highlighted exactly when its path is a prefix of the current
      path. */
  lemma OtherItemsByPrefix(path: string, currentPath: string)
    requires path != Home
    ensures IsActive(path, currentPath) <==> StartsWith(currentPath, path)
  {
  }

  /** The test is on characters, not on path segments: "/customers-archive" highlights
      Customers. */
  lemma PrefixNotSegment()
    ensures IsActive("/customers", "/customers-archive")
  {
    assert "/customers-archive"[..|"/customers"|] == "/customers";
  }

  /** Every item's own path highlights it, and a page inside an item highlights it. */
  lemma OwnPathActive(k: nat, rest: string)
    requires k < |NavItems|
    ensures IsActive(NavItems[k].path, NavItems[k].path)
    ensures k > 0 ==> IsActive(NavItems[k].path, NavItems[k].path + rest)
  {
    if k > 0 {
      StartsWithAppend(NavItems[k].path, rest);
    }
  }

  /** On "/" only Home is highlighted. */
  lemma RootHighlightsHomeOnly(k: nat)
    requires k < |NavItems|
    ensures IsActive(NavItems[k].path, "/") <==> k == 0
  {
    if k > 0 {
      assert |NavItems[k].path| > 1;
    }
  }

  /** Exactly five items, Home first and Account last. */
  lemma FixedItems()
    ensures |NavItems| == 5 && NavItems[0].path == Home && NavItems[4].text == "Account"
    ensures forall i, j :: 0 <= i < j < |NavItems| ==> NavItems[i].path != NavItems[j].path
  {
  }
}
