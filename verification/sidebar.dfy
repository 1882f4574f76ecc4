/** The sidebar's expand/collapse state: a list of expanded entry names
    toggled by clicks, widened by the entries whose submenu holds the
    current path, and the active/submenu predicates of each entry. */
module Sidebar {
  import opened Seqs
  import opened Access

  predicate NoDuplicates<T(==)>(s: seq<T>) {
    forall i, j :: 0 <= i < j < |s| ==> s[i] != s[j]
  }

  /** `toggleExpanded(name)`: drop every occurrence when present, otherwise
      append it. */
  function Toggle(expanded: seq<string>, name: string): (r: seq<string>)
    ensures name in r <==> name !in expanded
    ensures forall other :: other != name ==> (other in r <==> other in expanded)
  {
    if name in expanded then
      FilterMembership(expanded, (n: string) => n != name);
      Filter(expanded, (n: string) => n != name)
    else expanded + [name]
  }

  /** Toggling twice gives every name back its membership. */
  lemma ToggleTwice(expanded: seq<string>, name: string)
    ensures forall n :: n in Toggle(Toggle(expanded, name), name) <==> n in expanded
  {
  }

  /** Toggling keeps a duplicate-free list duplicate-free. */
  lemma {:induction false} ToggleKeepsNoDuplicates(expanded: seq<string>, name: string)
    requires NoDuplicates(expanded)
    ensures NoDuplicates(Toggle(expanded, name))
  {
    if name in expanded {
      FilterNoDuplicates(expanded, (n: string) => n != name);
    }
  }

  lemma {:induction false} FilterNoDuplicates<T>(s: seq<T>, p: T -> bool)
    requires NoDuplicates(s)
    ensures NoDuplicates(Filter(s, p))
    decreases |s|
  {
    if s != [] {
      FilterNoDuplicates(s[1..], p);
      FilterMembership(s[1..], p);
      if p(s[0]) {
        var r := Filter(s, p);
        assert r == [s[0]] + Filter(s[1..], p);
        assert s[0] !in s[1..];
        forall i, j | 0 <= i < j < |r| ensures r[i] != r[j] {
          if i == 0 {
            assert r[j] in Filter(s[1..], p);
          } else {
            assert r[i] == Filter(s[1..], p)[i - 1];
          }
        }
      }
    }
  }

  /** `pathname === href` for some submenu entry. */
  predicate SubmenuHolds(item: NavItem, pathname: string) {
    exists k :: 0 <= k < |item.submenu| && item.submenu[k].href == pathname
  }

  /** `isActive`: the entry's own path or one of its submenu paths. */
  predicate IsActive(item: NavItem, pathname: string) {
    pathname == item.href || SubmenuHolds(item, pathname)
  }

  /** `hasSubmenu`. */
  predicate HasSubmenu(item: NavItem) {
    |item.submenu| > 0
  }

  /** `Array.from(new Set(s))`: first occurrences, in order. */
  function Dedup(s: seq<string>): (r: seq<string>)
    ensures forall x :: x in r <==> x in s
    ensures NoDuplicates(r)
  {
    if s == [] then []
    else
      var d := Dedup(s[..|s| - 1]);
      var x := s[|s| - 1];
      assert s == s[..|s| - 1] + [x];
      if x in d then d else d + [x]
  }

  /** The entries opened because the current path is one of their
      submenu paths. */
  function AutoExpanded(navigation: seq<NavItem>, pathname: string): seq<string> {
    Names(Filter(navigation, (item: NavItem) => SubmenuHolds(item, pathname)))
  }

  /** `getExpandedItems()`. */
  function ExpandedItems(expanded: seq<string>, navigation: seq<NavItem>, pathname: string): (r: seq<string>)
    ensures NoDuplicates(r)
  {
    Dedup(expanded + AutoExpanded(navigation, pathname))
  }

  /** A name is expanded iff it was opened by hand or names an entry whose
      submenu holds the current path. */
  lemma ExpandedItemsMembership(expanded: seq<string>, navigation: seq<NavItem>, pathname: string, name: string)
    ensures name in ExpandedItems(expanded, navigation, pathname) <==>
      (name in expanded || exists item :: item in navigation && SubmenuHolds(item, pathname) && item.name == name)
  {
    var p := (item: NavItem) => SubmenuHolds(item, pathname);
    var f := Filter(navigation, p);
    FilterMembership(navigation, p);
    var auto := Names(f);
    if name in auto {
      var i :| 0 <= i < |auto| && auto[i] == name;
      assert f[i] in f;
    }
    if exists item :: item in navigation && SubmenuHolds(item, pathname) && item.name == name {
      var item :| item in navigation && SubmenuHolds(item, pathname) && item.name == name;
      assert item in f;
      var i :| 0 <= i < |f| && f[i] == item;
      assert auto[i] == name;
    }
  }

  /** Every entry opened by the path is also shown as active. */
  lemma AutoExpandedIsActive(item: NavItem, pathname: string)
    requires SubmenuHolds(item, pathname)
    ensures IsActive(item, pathname) && HasSubmenu(item)
  {
  }

  /** On a product sub-page the Products entry is both active and open. */
  lemma ProductsOpenOnBrandsPage(expanded: seq<string>, navigation: seq<NavItem>)
    requires AllNavigation[2] in navigation
    ensures "Products" in ExpandedItems(expanded, navigation, "/products/brands")
    ensures IsActive(AllNavigation[2], "/products/brands")
  {
    var item := AllNavigation[2];
    assert item.submenu[2].href == "/products/brands";
    ExpandedItemsMembership(expanded, navigation, "/products/brands", "Products");
  }
}
