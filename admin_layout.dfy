/** The admin shell around every admin page: the sidebar menu filtered by the
    signed-in user's role, the highlighted entry, the bare login page and the
    inactivity threshold for the automatic sign-out. */
module AdminShell {
  import opened Wrappers
  import opened Seqs
  import opened Text
  import UserAdminApi

  datatype MenuItem = MenuItem(name: string, href: string, adminOnly: bool)

  const MenuItems: seq<MenuItem> := [
    MenuItem("Dashboard", "/admin/dashboard", false),
    MenuItem("Donasi", "/admin/donations", false),
    MenuItem("Events", "/admin/events", false),
    MenuItem("Pengeluaran", "/admin/disbursements", false),
    MenuItem("Mutasi Saldo", "/admin/mutations", false),
    MenuItem("Users", "/admin/users", true),
    MenuItem("Profil Saya", "/admin/profile", false)]

  /** Ten minutes, in milliseconds. */
  const MaxInactivity: int := 10 * 60 * 1000

  const LoginPath := "/admin/login"

  /** `role?.toLowerCase() === 'admin'`: false for a null role. */
  predicate RoleIsAdmin(role: Option<string>)
  {
    role.Some? && Lower(role.value) == "admin"
  }

  /** The filter's test: admin-only entries need the admin role, the others
      are always shown. */
  function ShownFor(role: Option<string>): MenuItem -> bool
  {
    (item: MenuItem) => !item.adminOnly || RoleIsAdmin(role)
  }

  /** `menuItems.filter(...)` over any list of entries. */
  function Menu(items: seq<MenuItem>, role: Option<string>): seq<MenuItem>
  {
    Filter(items, ShownFor(role))
  }

  /** `filteredMenuItems`. Users is the only admin-only entry: it is listed
      iff the role is admin, and every other entry always is. */
  function FilteredMenu(role: Option<string>): (r: seq<MenuItem>)
    ensures MenuItems[5].href == "/admin/users"
    ensures RoleIsAdmin(role) <==> MenuItems[5] in r
    ensures forall i :: 0 <= i < |MenuItems| && i != 5 ==> MenuItems[i] in r
  {
    UsersEntry();
    MenuSpec(MenuItems, role);
    Menu(MenuItems, role)
  }

  /** Entries open to everyone are always listed; an admin-only entry is
      listed iff the role, lower-cased, is 'admin'; the menu keeps its order. */
  lemma MenuSpec(items: seq<MenuItem>, role: Option<string>)
    ensures var r := Menu(items, role);
            && (forall i :: 0 <= i < |items| && !items[i].adminOnly ==> items[i] in r)
            && (forall i :: 0 <= i < |items| && items[i].adminOnly ==> (items[i] in r <==> RoleIsAdmin(role)))
            && (forall i :: 0 <= i < |r| ==> r[i] in items)
            && Subsequence(r, items)
  {
    FilterIsSubsequence(items, ShownFor(role));
  }

  /** With the admin role every entry is listed. */
  lemma AdminSeesAll(items: seq<MenuItem>, role: Option<string>)
    requires RoleIsAdmin(role)
    ensures Menu(items, role) == items
  {
    FilterKeepsAll(items, ShownFor(role));
  }

  /** Without it, exactly the entries open to everyone are listed. */
  lemma {:induction false} OthersSeeOpenEntries(items: seq<MenuItem>, role: Option<string>)
    requires !RoleIsAdmin(role)
    ensures Menu(items, role) == Filter(items, (item: MenuItem) => !item.adminOnly)
    decreases |items|
  {
    if items != [] {
      OthersSeeOpenEntries(items[1..], role);
    }
  }

  /** The sixth entry, Users, is the only admin-only one. */
  lemma UsersEntry()
    ensures |MenuItems| == 7 && MenuItems[5].href == "/admin/users" && MenuItems[5].adminOnly
    ensures forall i :: 0 <= i < |MenuItems| && i != 5 ==> !MenuItems[i].adminOnly
  {
  }

  /** The menu lower-cases the role but the user-management endpoint does
      not: a profile whose role is "Admin" sees the Users entry, yet every
      request it makes there is refused with 403. */
  lemma MenuAndEndpointDisagree(userId: string)
    ensures RoleIsAdmin(Some("Admin"))
    ensures UserAdminApi.Gate(UserAdminApi.Caller(Some(userId), Some("Admin"))) == Some(UserAdminApi.Forbidden)
  {
    assert Lower("Admin") == "admin";
    assert "Admin"[0] != "admin"[0];
  }

  /** `pathname === item.href`: a highlighted menu entry is the only entry
      with that link. */
  predicate IsActive(pathname: string, item: MenuItem)
    ensures IsActive(pathname, item) && item in MenuItems ==>
              forall j :: 0 <= j < |MenuItems| && MenuItems[j] != item ==> MenuItems[j].href != pathname
  {
    DistinctLinks();
    pathname == item.href
  }

  /** No two menu entries share a link. */
  lemma DistinctLinks()
    ensures forall i, j :: 0 <= i < j < |MenuItems| ==> MenuItems[i].href != MenuItems[j].href
  {
    forall i, j | 0 <= i < j < |MenuItems| ensures MenuItems[i].href != MenuItems[j].href {
      assert MenuItems[i].href[7] != MenuItems[j].href[7] || MenuItems[i].href[8] != MenuItems[j].href[8];
    }
  }

  /** The menu links are distinct, so at most one entry is highlighted. */
  lemma AtMostOneActive(pathname: string, role: Option<string>)
    ensures forall i, j :: 0 <= i < j < |MenuItems| && IsActive(pathname, MenuItems[i]) ==> !IsActive(pathname, MenuItems[j])
  {
    DistinctLinks();
  }

  /** What the layout renders around a page: nothing on the login page (the
      page alone), the filtered menu elsewhere. */
  function Shell(pathname: string, role: Option<string>): (r: Option<seq<MenuItem>>)
    ensures r.None? <==> pathname == LoginPath
    ensures r.Some? ==> r.value == FilteredMenu(role)
  {
    if pathname == LoginPath then None else Some(FilteredMenu(role))
  }

  /** The check made every minute: sign out once at least ten minutes have
      passed since the last activity. */
  predicate ShouldLogout(now: int, lastActivity: int)
    ensures ShouldLogout(now, lastActivity) <==> now >= lastActivity + 600000
  {
    now - lastActivity >= MaxInactivity
  }

  /** Fresh activity never signs out; once the threshold is reached, every
      later check signs out too until there is new activity. */
  lemma InactivityThreshold(now: int, later: int, lastActivity: int)
    requires now <= later
    ensures !ShouldLogout(lastActivity, lastActivity)
    ensures ShouldLogout(now, lastActivity) ==> ShouldLogout(later, lastActivity)
    ensures ShouldLogout(now, lastActivity) <==> now >= lastActivity + 600000
  {
  }
}
