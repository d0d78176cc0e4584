/**
 * components/Sidebar.jsx: the role-filtered navigation menu, the active-link
 * test, the driver's label for shipments, and the sign-out button.
 */
module Sidebar {
  import opened Wrappers
  import opened Roles
  import opened Seqs
  import opened Text
  import opened Browser
  import AuthContext

  datatype MenuItem = MenuItem(name: string, path: string, roles: seq<Role>)
  datatype MenuGroup = MenuGroup(heading: string, items: seq<MenuItem>)

  const Dashboard: MenuItem := MenuItem("Dashboard", "/dashboard", [ADMIN, AGENT, DRIVER])
  const Shipments: MenuItem := MenuItem("Shipments", "/shipments", [ADMIN, AGENT, DRIVER, CLIENT])
  const Invoices: MenuItem := MenuItem("Invoices", "/invoices", [ADMIN, AGENT, CLIENT])
  const Payments: MenuItem := MenuItem("Payments", "/payments", [ADMIN, AGENT])
  const Incidents: MenuItem := MenuItem("Incidents", "/incidents", [ADMIN, AGENT, DRIVER])
  const Claims: MenuItem := MenuItem("Claims", "/claims", [ADMIN, AGENT, CLIENT])

  /** `menuGroups`, in declaration order. */
  const MenuGroups: seq<MenuGroup> := [
    MenuGroup("Core Operations", [Dashboard, Shipments]),
    MenuGroup("Financials", [Invoices, Payments]),
    MenuGroup("Support & Safety", [Incidents, Claims])
  ]

  /** `item.roles.includes(user?.role)`. */
  predicate Shown(item: MenuItem, role: Option<string>)
  {
    Includes(item.roles, role)
  }

  /** `group.items.filter(item => item.roles.includes(user?.role))`. */
  function ItemsFor(items: seq<MenuItem>, role: Option<string>): seq<MenuItem>
  {
    Filter(items, item => Shown(item, role))
  }

  predicate HasItems(g: MenuGroup)
  {
    g.items != []
  }

  /** Each group with its items filtered, before empty groups are dropped. */
  function FilteredGroups(groups: seq<MenuGroup>, role: Option<string>): (r: seq<MenuGroup>)
    ensures |r| == |groups|
    ensures forall i :: 0 <= i < |groups| ==>
      r[i] == MenuGroup(groups[i].heading, ItemsFor(groups[i].items, role))
  {
    seq(|groups|, i requires 0 <= i < |groups| => MenuGroup(groups[i].heading, ItemsFor(groups[i].items, role)))
  }

  /** The callback of `menuGroups.map`: the group with its permitted items, or nothing (`null`). */
  function RenderGroup(g: MenuGroup, role: Option<string>): seq<MenuGroup>
  {
    var filtered := ItemsFor(g.items, role);
    if filtered == [] then [] else [MenuGroup(g.heading, filtered)]
  }

  /** `menuGroups.map(...)`, where the `null`s render nothing. */
  function RenderedGroups(groups: seq<MenuGroup>, role: Option<string>): seq<MenuGroup>
  {
    if groups == [] then [] else RenderGroup(groups[0], role) + RenderedGroups(groups[1..], role)
  }

  /**
   * The rendered menu is the declared groups, each with exactly its permitted
   * items, minus the groups left empty: groups and items keep their order.
   */
  lemma {:induction false} RenderedGroupsSpec(groups: seq<MenuGroup>, role: Option<string>)
    ensures RenderedGroups(groups, role) == Filter(FilteredGroups(groups, role), HasItems)
    ensures IsSubsequence(RenderedGroups(groups, role), FilteredGroups(groups, role))
    ensures forall g :: g in RenderedGroups(groups, role) ==> g.items != []
  {
    if groups != [] {
      RenderedGroupsSpec(groups[1..], role);
      var fg := FilteredGroups(groups, role);
      assert fg[1..] == FilteredGroups(groups[1..], role);
      assert fg == [fg[0]] + fg[1..];
    }
    FilterIsSubsequence(FilteredGroups(groups, role), HasItems);
  }

  /** An item is shown exactly when its role list includes the user's role. */
  lemma ItemsForExactly(items: seq<MenuItem>, role: Option<string>, item: MenuItem)
    ensures item in ItemsFor(items, role) <==> item in items && Includes(item.roles, role)
    ensures IsSubsequence(ItemsFor(items, role), items)
  {
    FilterKeepsExactly(items, x => Shown(x, role), item);
    FilterIsSubsequence(items, x => Shown(x, role));
  }

  /** Without a user, or with an undefined role, no group is rendered. */
  lemma {:induction false} NoRoleNoMenu(groups: seq<MenuGroup>)
    ensures RenderedGroups(groups, None) == []
  {
    if groups != [] {
      FilterNonePass(groups[0].items, x => Shown(x, None));
      NoRoleNoMenu(groups[1..]);
    }
  }

  /** Filtering a two-item group. */
  lemma ItemsForPair(a: MenuItem, b: MenuItem, role: Option<string>)
    ensures ItemsFor([a, b], role) ==
      (if Shown(a, role) then [a] else []) + (if Shown(b, role) then [b] else [])
  {
    FilterPair(a, b, item => Shown(item, role));
  }

  lemma RenderedThree(a: MenuGroup, b: MenuGroup, c: MenuGroup, role: Option<string>)
    ensures RenderedGroups([a, b, c], role) == RenderGroup(a, role) + RenderGroup(b, role) + RenderGroup(c, role)
  {
    assert [c][1..] == [];
    assert RenderedGroups([c], role) == RenderGroup(c, role) + [];
    assert [b, c][1..] == [c];
    assert RenderedGroups([b, c], role) == RenderGroup(b, role) + RenderGroup(c, role);
    assert [a, b, c][1..] == [b, c];
    assert RenderedGroups([a, b, c], role) == RenderGroup(a, role) + (RenderGroup(b, role) + RenderGroup(c, role));
  }

  /** A two-item group as a signed-in user with role `r` sees it. */
  lemma PairForRole(a: MenuItem, b: MenuItem, r: Role)
    ensures ItemsFor([a, b], Some(Name(r))) == (if r in a.roles then [a] else []) + (if r in b.roles then [b] else [])
  {
    IncludesRole(a.roles, r);
    IncludesRole(b.roles, r);
    ItemsForPair(a, b, Some(Name(r)));
  }

  /** What each role sees in the sidebar, group by group. */
  lemma MenuForRole(r: Role)
    ensures RenderedGroups(MenuGroups, Some(Name(r))) ==
      match r
      case CLIENT =>
        [MenuGroup("Core Operations", [Shipments]), MenuGroup("Financials", [Invoices]),
         MenuGroup("Support & Safety", [Claims])]
      case DRIVER =>
        [MenuGroup("Core Operations", [Dashboard, Shipments]), MenuGroup("Support & Safety", [Incidents])]
      case _ => MenuGroups
  {
    MenuByGroup(r);
    var role := Some(Name(r));
    var core, financials, support := MenuGroups[0], MenuGroups[1], MenuGroups[2];
    match r
    case CLIENT =>
      assert ItemsFor(core.items, role) == [Shipments];
      assert ItemsFor(financials.items, role) == [Invoices];
      assert ItemsFor(support.items, role) == [Claims];
    case DRIVER =>
      assert ItemsFor(core.items, role) == core.items;
      assert ItemsFor(financials.items, role) == [];
      assert ItemsFor(support.items, role) == [Incidents];
    case _ =>
      StaffMenu(r);
  }

  /** The menu is the three groups rendered one after the other, each filtered for role `r`. */
  lemma MenuByGroup(r: Role)
    ensures RenderedGroups(MenuGroups, Some(Name(r))) ==
      RenderGroup(MenuGroups[0], Some(Name(r))) + RenderGroup(MenuGroups[1], Some(Name(r))) +
      RenderGroup(MenuGroups[2], Some(Name(r)))
    ensures ItemsFor(MenuGroups[0].items, Some(Name(r))) ==
      (if r in Dashboard.roles then [Dashboard] else []) + (if r in Shipments.roles then [Shipments] else [])
    ensures ItemsFor(MenuGroups[1].items, Some(Name(r))) ==
      (if r in Invoices.roles then [Invoices] else []) + (if r in Payments.roles then [Payments] else [])
    ensures ItemsFor(MenuGroups[2].items, Some(Name(r))) ==
      (if r in Incidents.roles then [Incidents] else []) + (if r in Claims.roles then [Claims] else [])
  {
    PairForRole(Dashboard, Shipments, r);
    PairForRole(Invoices, Payments, r);
    PairForRole(Incidents, Claims, r);
    RenderedThree(MenuGroups[0], MenuGroups[1], MenuGroups[2], Some(Name(r)));
    assert MenuGroups == [MenuGroups[0], MenuGroups[1], MenuGroups[2]];
  }

  /** ADMIN and AGENT see every group whole. */
  lemma StaffMenu(r: Role)
    requires r == ADMIN || r == AGENT
    ensures RenderedGroups(MenuGroups, Some(Name(r))) == MenuGroups
  {
    MenuByGroup(r);
    var role := Some(Name(r));
    var core, financials, support := MenuGroups[0], MenuGroups[1], MenuGroups[2];
    assert ItemsFor(core.items, role) == core.items;
    assert ItemsFor(financials.items, role) == financials.items;
    assert ItemsFor(support.items, role) == support.items;
    assert RenderGroup(core, role) == [core];
    assert RenderGroup(financials, role) == [financials];
    assert RenderGroup(support, role) == [support];
  }

  /** `location.pathname.startsWith(item.path)`: the highlight test. */
  function IsActive(pathname: string, item: MenuItem): (active: bool)
    ensures pathname == item.path ==> active
    ensures active ==> |pathname| >= |item.path| && pathname == item.path + pathname[|item.path|..]
  {
    StartsWith(pathname, item.path)
  }

  /** Every page below an item's path highlights that item, e.g. `/shipments/create` highlights Shipments. */
  lemma ActiveBelowPath(item: MenuItem, rest: string)
    ensures IsActive(item.path + rest, item)
  {
    assert (item.path + rest)[..|item.path|] == item.path;
  }

  /** The text of a link: drivers see "Assigned Cargo" for the shipments item. */
  function Label(user: Option<ClientUser>, item: MenuItem): (text: string)
    ensures text == "Assigned Cargo" || text == item.name
    ensures text != item.name ==> HasRole(user, DRIVER) && item.name == "Shipments"
    ensures HasRole(user, DRIVER) && item.name == "Shipments" ==> text == "Assigned Cargo"
  {
    if RoleOf(user) == Some("DRIVER") && item.name == "Shipments" then "Assigned Cargo" else item.name
  }

  /**
   * `handleLogout`: removes only the access token (the refresh token stays),
   * clears the user and navigates to the login page.
   */
  method HandleLogout(auth: AuthContext.AuthProvider) returns (target: string)
    modifies auth, auth.storage
    ensures auth.storage.items == old(auth.storage.items) - {ACCESS_TOKEN}
    ensures REFRESH_TOKEN in old(auth.storage.items) ==>
      REFRESH_TOKEN in auth.storage.items && auth.storage.items[REFRESH_TOKEN] == old(auth.storage.items)[REFRESH_TOKEN]
    ensures auth.user == None && auth.loading == old(auth.loading)
    ensures target == "/login"
  {
    auth.storage.RemoveItem(ACCESS_TOKEN);
    auth.SetUser(None);
    target := "/login";
  }
}
