/**
 * The application layout: the navigation list with its `current` flags, the
 * admin-only entries hidden from other roles, the header title and the
 * avatar's fallback letter.
 */
module Layout {
  import opened Wrappers
  import Seqs
  import Sessions

  datatype NavItem = NavItem(name: string, href: string, current: bool, adminOnly: bool)

  /** The four entries, each current exactly when it is the page being shown. */
  function Navigation(pathname: string): (nav: seq<NavItem>)
    ensures |nav| == 4
    ensures forall i :: 0 <= i < |nav| ==> (nav[i].current <==> pathname == nav[i].href)
    ensures nav[0].name == "Dashboard" && nav[1].name == "Movimientos" && nav[2].name == "Usuarios" && nav[3].name == "Reportes"
    ensures !nav[0].adminOnly && !nav[1].adminOnly && nav[2].adminOnly && nav[3].adminOnly
  {
    [
      NavItem("Dashboard", "/", pathname == "/", false),
      NavItem("Movimientos", "/movements", pathname == "/movements", false),
      NavItem("Usuarios", "/users", pathname == "/users", true),
      NavItem("Reportes", "/reports", pathname == "/reports", true)
    ]
  }

  /** `session?.user?.role || "ADMIN"`: a missing or empty role counts as "ADMIN". */
  function UserRole(session: Option<Sessions.Session>): (role: string)
    ensures Sessions.RoleOf(session).None? ==> role == "ADMIN"
    ensures Sessions.RoleOf(session).Some? ==> role == Sessions.RoleOf(session).value
    ensures role != ""
  {
    match Sessions.RoleOf(session)
    case None => "ADMIN"
    case Some(r) => r
  }

  predicate IsAdmin(session: Option<Sessions.Session>) {
    UserRole(session) == "ADMIN"
  }

  /** The entries the sidebar shows to this user. */
  predicate Visible(item: NavItem, admin: bool) {
    !item.adminOnly || admin
  }

  /**
   * `filteredNavigation`: an order-preserving part of the list; an admin sees
   * all four entries, anyone else only Dashboard and Movimientos.
   */
  function FilteredNavigation(pathname: string, session: Option<Sessions.Session>): (r: seq<NavItem>)
    ensures Seqs.IsSubsequence(r, Navigation(pathname))
    ensures IsAdmin(session) ==> r == Navigation(pathname)
    ensures !IsAdmin(session) ==> r == Navigation(pathname)[..2]
  {
    var nav := Navigation(pathname);
    var admin := IsAdmin(session);
    var p := (item: NavItem) => Visible(item, admin);
    Seqs.FilterIsSubsequence(nav, p);
    if admin then
      Seqs.FilterAll(nav, p);
      Seqs.Filter(nav, p)
    else
      KeepFirstTwo(nav, p);
      Seqs.Filter(nav, p)
  }

  /** Filtering four entries of which only the first two pass keeps exactly those two. */
  lemma KeepFirstTwo(nav: seq<NavItem>, p: NavItem -> bool)
    requires |nav| == 4 && p(nav[0]) && p(nav[1]) && !p(nav[2]) && !p(nav[3])
    ensures Seqs.Filter(nav, p) == nav[..2]
  {
    var t3, t2, t1 := nav[3..], nav[2..], nav[1..];
    assert t3[1..] == [] && t2[1..] == t3 && t1[1..] == t2 && nav[1..] == t1;
    assert Seqs.Filter(t3, p) == [];
    assert Seqs.Filter(t2, p) == [];
    assert Seqs.Filter(t1, p) == [nav[1]];
    assert nav[..2] == [nav[0], nav[1]];
  }

  /** `items.find(item => item.current)?.name`. */
  function FirstCurrentName(items: seq<NavItem>): (r: Option<string>)
    ensures r.None? <==> forall i :: 0 <= i < |items| ==> !items[i].current
    ensures r.Some? ==> exists i :: 0 <= i < |items| && items[i].current && items[i].name == r.value
                                    && forall j :: 0 <= j < i ==> !items[j].current
  {
    if items == [] then None
    else if items[0].current then Some(items[0].name)
    else
      var r := FirstCurrentName(items[1..]);
      assert forall i :: 0 < i < |items| ==> items[i] == items[1..][i - 1];
      if r.Some? then
        var k :| 0 <= k < |items[1..]| && items[1..][k].current && items[1..][k].name == r.value
                 && forall j :: 0 <= j < k ==> !items[1..][j].current;
        assert items[k + 1].current && items[k + 1].name == r.value;
        r
      else
        r
  }

  /** Any two entries have different links, so at most one is current. */
  lemma AtMostOneCurrent(pathname: string)
    ensures var nav := Navigation(pathname);
      forall i, j :: 0 <= i < j < |nav| && nav[i].current ==> !nav[j].current
  {
  }

  /** The header title: the current entry's name (taken from the full list), "Dashboard" on any other page. */
  function Title(pathname: string): (t: string)
    ensures pathname == "/movements" ==> t == "Movimientos"
    ensures pathname == "/users" ==> t == "Usuarios"
    ensures pathname == "/reports" ==> t == "Reportes"
    ensures pathname != "/movements" && pathname != "/users" && pathname != "/reports" ==> t == "Dashboard"
  {
    var nav := Navigation(pathname);
    match FirstCurrentName(nav)
    case None => "Dashboard"
    case Some(name) =>
      name
  }

  /** `s?.charAt(0)`: the first character, "" for an empty or missing string. */
  function FirstChar(s: Option<string>): (r: string)
    ensures |r| <= 1
    ensures r != "" <==> Truthy(s)
    ensures r != "" ==> r[0] == s.value[0]
  {
    if Truthy(s) then [s.value[0]] else ""
  }

  /** The avatar letter: the name's first character, else the email's, else "U". */
  function AvatarFallback(session: Option<Sessions.Session>): (r: string)
    ensures |r| == 1
    ensures var u := if Sessions.HasUser(session) then session.value.user else None;
      && (u.Some? && Truthy(u.value.name) ==> r[0] == u.value.name.value[0])
      && (u.Some? && !Truthy(u.value.name) && Truthy(u.value.email) ==> r[0] == u.value.email.value[0])
      && ((u.None? || (!Truthy(u.value.name) && !Truthy(u.value.email))) ==> r == "U")
  {
    var u := if Sessions.HasUser(session) then session.value.user else None;
    var fromName := if u.Some? then FirstChar(u.value.name) else "";
    var fromEmail := if u.Some? then FirstChar(u.value.email) else "";
    if fromName != "" then fromName else if fromEmail != "" then fromEmail else "U"
  }

  /** The header's user label `session?.user?.name || session?.user?.email`, "" when neither is truthy. */
  function HeaderName(session: Option<Sessions.Session>): string {
    var u := if Sessions.HasUser(session) then session.value.user else None;
    if u.Some? && Truthy(u.value.name) then u.value.name.value
    else if u.Some? && Truthy(u.value.email) then u.value.email.value
    else ""
  }

  /** The avatar shows the first letter of the label beside it, or "U" when that label is empty. */
  lemma AvatarIsHeaderInitial(session: Option<Sessions.Session>)
    ensures HeaderName(session) != "" ==> AvatarFallback(session) == [HeaderName(session)[0]]
    ensures HeaderName(session) == "" ==> AvatarFallback(session) == "U"
  {
  }
}
