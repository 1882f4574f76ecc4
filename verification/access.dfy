/** Who sees what: the protected-route wrapper, the role guard, the home
    page redirect, and the role-filtered navigation table. Each decision is
    what the component renders plus where its effect navigates, as functions
    of the session's loading flag and user. */
module Access {
  import opened Wrappers
  import opened Types
  import opened Seqs

  /** What a guard renders. */
  datatype Render = Spinner | Nothing | Children

  /** A render together with the navigation its effect performs, if any. */
  datatype Decision = Decision(render: Render, redirect: Option<string>)

  const AllRoles: seq<Role> := [Admin, Cashier, Storekeeper]

  /** Where a user whose role a page refuses is sent. */
  function RoleHome(role: string): (path: string)
    ensures role == "storekeeper" <==> path == "/grn"
    ensures path == "/grn" || path == "/pos"
  {
    if role == "storekeeper" then "/grn" else "/pos"
  }

  predicate Allowed(allowedRoles: seq<Role>, user: Option<User>) {
    user.Some? && RoleAllowed(allowedRoles, user.value.role)
  }

  /** `ProtectedRoute` with explicit `allowedRoles`. */
  function ProtectedRoute(loading: bool, user: Option<User>, allowedRoles: seq<Role>): (d: Decision)
    ensures loading <==> d.render == Spinner
    ensures loading ==> d.redirect.None?
  {
    if loading then Decision(Spinner, None)
    else if user.None? then Decision(Nothing, Some("/login"))
    else if !RoleAllowed(allowedRoles, user.value.role) then Decision(Nothing, Some(RoleHome(user.value.role)))
    else Decision(Children, None)
  }

  /** `ProtectedRoute` without `allowedRoles`: all three roles. */
  function ProtectedRouteDefault(loading: bool, user: Option<User>): Decision {
    ProtectedRoute(loading, user, AllRoles)
  }

  /** `RoleGuard`; an empty `fallbackPath` stands for an absent one. */
  function RoleGuard(loading: bool, user: Option<User>, allowedRoles: seq<Role>, fallbackPath: string): (d: Decision)
    ensures d.render != Spinner
  {
    if loading then Decision(Nothing, None)
    else if user.None? then Decision(Nothing, None)
    else if !RoleAllowed(allowedRoles, user.value.role) then
      Decision(Nothing, Some(if fallbackPath != "" then fallbackPath else RoleHome(user.value.role)))
    else Decision(Children, None)
  }

  /** The home page. */
  function Home(loading: bool, user: Option<User>): (d: Decision)
    ensures d.render == (if loading then Spinner else Nothing)
  {
    if loading then Decision(Spinner, None)
    else if user.None? then Decision(Nothing, Some("/login"))
    else if user.value.role == "admin" then Decision(Nothing, Some("/dashboard"))
    else Decision(Nothing, Some("/pos"))
  }

  /** Children are shown exactly to a loaded, allowed user, and then
      without a redirect; everyone else who is loaded is redirected. */
  lemma ProtectedRouteChildren(loading: bool, user: Option<User>, allowedRoles: seq<Role>)
    ensures var d := ProtectedRoute(loading, user, allowedRoles);
      (d.render == Children <==> !loading && Allowed(allowedRoles, user))
      && (d.render == Children ==> d.redirect.None?)
      && (!loading && !Allowed(allowedRoles, user) <==> d.redirect.Some?)
  {
  }

  /** Loaded without a user: to the login page, nothing rendered. */
  lemma ProtectedRouteNoUser(user: Option<User>, allowedRoles: seq<Role>)
    requires user.None?
    ensures ProtectedRoute(false, user, allowedRoles) == Decision(Nothing, Some("/login"))
  {
  }

  /** The default allows every role the client knows. */
  lemma DefaultAllowsEveryRole(u: User, r: Role)
    requires u.role == RoleName(r)
    ensures ProtectedRouteDefault(false, Some(u)) == Decision(Children, None)
  {
    match r
    case Admin => assert RoleName(AllRoles[0]) == u.role;
    case Cashier => assert RoleName(AllRoles[1]) == u.role;
    case Storekeeper => assert RoleName(AllRoles[2]) == u.role;
  }

  /** A role string outside the three is refused even by the default and
      sent to the POS page. */
  lemma DefaultRefusesUnknownRole(u: User)
    requires u.role != "admin" && u.role != "cashier" && u.role != "storekeeper"
    ensures ProtectedRouteDefault(false, Some(u)) == Decision(Nothing, Some("/pos"))
  {
  }

  /** The roles of the goods-received page. */
  const GrnRoles: seq<Role> := [Admin, Storekeeper]

  /** A refused storekeeper is sent to the goods-received page, which lets
      storekeepers in: the redirect does not loop. */
  lemma StorekeeperRedirectLands(u: User, allowedRoles: seq<Role>)
    requires u.role == "storekeeper" && !RoleAllowed(allowedRoles, u.role)
    ensures ProtectedRoute(false, Some(u), allowedRoles).redirect == Some("/grn")
    ensures ProtectedRoute(false, Some(u), GrnRoles) == Decision(Children, None)
  {
    assert RoleName(GrnRoles[1]) == u.role;
  }

  /** The guard and the protected route agree on who sees the children;
      they differ in that the guard shows no spinner and never sends a
      missing user to the login page. */
  lemma GuardAgreesWithProtectedRoute(loading: bool, user: Option<User>, allowedRoles: seq<Role>, fallbackPath: string)
    ensures (RoleGuard(loading, user, allowedRoles, fallbackPath).render == Children)
        <==> (ProtectedRoute(loading, user, allowedRoles).render == Children)
    ensures user.None? ==> RoleGuard(loading, user, allowedRoles, fallbackPath).redirect.None?
  {
  }

  /** A refused user goes to the fallback when one is given, otherwise to
      the role's home. */
  lemma GuardRedirect(user: User, allowedRoles: seq<Role>, fallbackPath: string)
    requires !RoleAllowed(allowedRoles, user.role)
    ensures RoleGuard(false, Some(user), allowedRoles, fallbackPath).redirect
      == Some(if fallbackPath != "" then fallbackPath else RoleHome(user.role))
  {
  }

  /** The home page sends an admin to the dashboard and every other loaded
      user to the POS page. */
  lemma HomeByRole(u: User)
    ensures Home(false, Some(u)).redirect == Some(if u.role == "admin" then "/dashboard" else "/pos")
    ensures Home(true, Some(u)).redirect.None?
  {
  }

  // ---------------------------------------------------------------------
  // Navigation
  // ---------------------------------------------------------------------

  datatype SubItem = SubItem(name: string, href: string)

  datatype NavItem = NavItem(name: string, href: string, roles: seq<Role>, submenu: seq<SubItem>)

  /** The navigation table, in display order. */
  const AllNavigation: seq<NavItem> := [
    NavItem("Dashboard", "/dashboard", [Admin], []),
    NavItem("POS", "/pos", [Admin, Cashier], []),
    NavItem("Products", "/products", [Admin, Cashier], [
      SubItem("All Products", "/products"),
      SubItem("Product Categories", "/products/categories"),
      SubItem("Product Brands", "/products/brands")]),
    NavItem("Customers", "/customers", [Admin, Cashier], []),
    NavItem("Invoices", "/invoices", [Admin, Cashier], []),
    NavItem("Suppliers", "/suppliers", [Admin, Cashier, Storekeeper], []),
    NavItem("Reports", "/reports", [Admin], []),
    NavItem("Settings", "/settings", [Admin], []),
    NavItem("GRN", "/grn", [Admin, Storekeeper], [])
  ]

  /** The entries a role string may see. */
  function VisibleTo(role: string): NavItem -> bool {
    (item: NavItem) => RoleAllowed(item.roles, role)
  }

  /** `useRoleBasedNavigation()`. */
  function Navigation(user: Option<User>): (r: seq<NavItem>)
    ensures user.None? ==> r == []
    ensures |r| <= |AllNavigation|
  {
    match user
    case None => []
    case Some(u) => Filter(AllNavigation, VisibleTo(u.role))
  }

  /** The entries' names, in order. */
  function Names(items: seq<NavItem>): (r: seq<string>)
    ensures |r| == |items|
    ensures forall i :: 0 <= i < |items| ==> r[i] == items[i].name
  {
    if items == [] then [] else [items[0].name] + Names(items[1..])
  }

  /** The result is the order-preserving selection of the table's entries
      that list the user's role. */
  lemma NavigationIsRoleFilter(u: User)
    ensures IsSubsequence(Navigation(Some(u)), AllNavigation)
    ensures forall item :: item in Navigation(Some(u)) <==> item in AllNavigation && RoleAllowed(item.roles, u.role)
  {
    FilterMembership(AllNavigation, VisibleTo(u.role));
  }

  /** An admin sees the whole table. */
  lemma AdminSeesAll(u: User)
    requires u.role == "admin"
    ensures Navigation(Some(u)) == AllNavigation
  {
    var p := VisibleTo("admin");
    forall i | 0 <= i < |AllNavigation| ensures p(AllNavigation[i]) {
      ListsAdminFirst(i);
      AdminEntry(AllNavigation[i]);
    }
    FilterKeepsAll(AllNavigation, p);
  }

  /** A storekeeper sees Suppliers, then GRN, and nothing else. */
  lemma StorekeeperSeesSuppliersAndGrn(u: User)
    requires u.role == "storekeeper"
    ensures Names(Navigation(Some(u))) == ["Suppliers", "GRN"]
  {
    StorekeeperRows();
    NamesOfPair(AllNavigation[5], AllNavigation[8]);
  }

  /** The storekeeper's selection is the Suppliers and GRN entries. */
  lemma StorekeeperRows()
    ensures Filter(AllNavigation, VisibleTo("storekeeper")) == [AllNavigation[5], AllNavigation[8]]
  {
    var p := VisibleTo("storekeeper");
    forall i | 0 <= i < |AllNavigation| && i != 5 && i != 8 ensures !p(AllNavigation[i]) {
      StorekeeperEntry(i);
    }
    StorekeeperEntry(5);
    StorekeeperEntry(8);
    FilterKeepsTwo(AllNavigation, p, 5, 8);
  }

  lemma NamesOfPair(x: NavItem, y: NavItem)
    ensures Names([x, y]) == [x.name, y.name]
  {
    assert [x, y][1..] == [y];
  }

  /** Only the Suppliers and GRN entries list the storekeeper role. */
  lemma StorekeeperEntry(i: int)
    requires 0 <= i < |AllNavigation|
    ensures RoleAllowed(AllNavigation[i].roles, "storekeeper") <==> i == 5 || i == 8
  {
    if i == 5 {
      assert RoleName(AllNavigation[5].roles[2]) == "storekeeper";
    } else if i == 8 {
      assert RoleName(AllNavigation[8].roles[1]) == "storekeeper";
    } else if i == 0 {} else if i == 1 {} else if i == 2 {} else if i == 3 {} else if i == 4 {}
    else if i == 6 {} else {}
  }

  /** An entry that lists the admin role first is visible to an admin. */
  lemma AdminEntry(item: NavItem)
    requires item.roles != [] && item.roles[0] == Admin
    ensures VisibleTo("admin")(item)
  {
    assert RoleName(item.roles[0]) == "admin";
  }

  lemma ListsAdminFirst(i: int)
    requires 0 <= i < |AllNavigation|
    ensures AllNavigation[i].roles != [] && AllNavigation[i].roles[0] == Admin
  {
    if i == 0 {} else if i == 1 {} else if i == 2 {} else if i == 3 {} else if i == 4 {}
    else if i == 5 {} else if i == 6 {} else if i == 7 {} else {}
  }

  /** The admin-only entries and GRN do not list the cashier role. */
  lemma CashierEntry(i: int)
    requires 0 <= i < |AllNavigation|
    requires RoleAllowed(AllNavigation[i].roles, "cashier")
    ensures AllNavigation[i].name !in {"Dashboard", "Reports", "Settings", "GRN"}
  {
    if i == 0 {} else if i == 1 {} else if i == 2 {} else if i == 3 {} else if i == 4 {}
    else if i == 5 {} else if i == 6 {} else if i == 7 {} else {}
  }

  /** A cashier never sees Dashboard, Reports, Settings or GRN. */
  lemma CashierExclusions(u: User)
    requires u.role == "cashier"
    ensures forall item :: item in Navigation(Some(u)) ==> item.name !in {"Dashboard", "Reports", "Settings", "GRN"}
  {
    NavigationIsRoleFilter(u);
    forall item | item in Navigation(Some(u)) ensures item.name !in {"Dashboard", "Reports", "Settings", "GRN"} {
      var i :| 0 <= i < |AllNavigation| && AllNavigation[i] == item;
      CashierEntry(i);
    }
  }
}
