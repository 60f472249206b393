/** The main layout's sidebar: which navigation entries a role sees, which
    entry is highlighted for the current path, and how the role is shown
    under the user's e-mail. */
module Layout {

  import opened Types
  import opened Seqs
  import opened Text

  /** The three destinations of the sidebar. */
  datatype Destination = DashboardPage | BookingsPage | UsersPage

  function Caption(d: Destination): string {
    match d
    case DashboardPage => "Dashboard"
    case BookingsPage => "Quản lý đơn"
    case UsersPage => "Quản lý nhân sự"
  }

  function PathOf(d: Destination): string {
    match d
    case DashboardPage => "/dashboard"
    case BookingsPage => "/admin/bookings"
    case UsersPage => "/admin/users"
  }

  datatype NavItem = NavItem(destination: Destination, roles: seq<Role>) {
    function path(): string { PathOf(destination) }
  }

  /** `navItems`, in sidebar order. */
  const NavItems: seq<NavItem> := [
    NavItem(DashboardPage, [Staff, ManagerViet, ManagerKorea, Admin]),
    NavItem(BookingsPage, [Admin]),
    NavItem(UsersPage, [Admin])
  ]

  /** The role the sidebar filters by: a missing role counts as staff. */
  function EffectiveRole(role: Option<Role>): Role {
    role.GetOr(Staff)
  }

  function VisibleTo(role: Option<Role>): NavItem -> bool {
    (item: NavItem) => EffectiveRole(role) in item.roles
  }

  /** The entries rendered for `role`, in their declared order. */
  function VisibleNav(role: Option<Role>): (r: seq<NavItem>)
    ensures forall item :: item in r <==> item in NavItems && EffectiveRole(role) in item.roles
    ensures IsSubsequence(r, NavItems)
  {
    FilterIsSubsequence(NavItems, VisibleTo(role));
    Filter(NavItems, VisibleTo(role))
  }

  /** The admin sees every entry. */
  lemma AdminSeesAll()
    ensures VisibleNav(Some(Admin)) == NavItems
  {
    var p := VisibleTo(Some(Admin));
    assert forall i :: 0 <= i < |NavItems| ==> p(NavItems[i]) by {
      assert Admin in NavItems[0].roles && Admin in NavItems[1].roles && Admin in NavItems[2].roles;
    }
    FilterKeepsAll(NavItems, p);
  }

  /** Every other role, and a user with no role, sees the dashboard entry
      alone. */
  lemma OthersSeeDashboardOnly(role: Option<Role>)
    requires role != Some(Admin)
    ensures VisibleNav(role) == [NavItems[0]]
  {
    var p := VisibleTo(role);
    assert EffectiveRole(role) != Admin;
    assert NavItems[1].roles == [Admin] && NavItems[2].roles == [Admin];
    assert !p(NavItems[1]) && !p(NavItems[2]);
    assert EffectiveRole(role) in [Staff, ManagerViet, ManagerKorea, Admin];
    assert p(NavItems[0]);
    FilterOfThree(NavItems, p);
  }

  /** `activeItem`: the first entry, visible or not, whose path starts the
      current path. */
  function ActiveItem(pathname: string): (r: Option<NavItem>)
    ensures r.Some? ==> r.value in NavItems && IsPrefix(r.value.path(), pathname)
    ensures r.None? <==> forall i :: 0 <= i < |NavItems| ==> !IsPrefix(NavItems[i].path(), pathname)
    ensures r.Some? ==> exists k :: 0 <= k < |NavItems| && NavItems[k] == r.value
                          && forall i :: 0 <= i < k ==> !IsPrefix(NavItems[i].path(), pathname)
  {
    FindFirst(NavItems, (item: NavItem) => IsPrefix(item.path(), pathname))
  }

  /** The highlighted entry is chosen from all entries, so on an admin path a
      staff user gets an active entry the sidebar does not show. */
  lemma ActiveItemMayBeHidden()
    ensures ActiveItem("/admin/users") == Some(NavItems[2])
    ensures NavItems[2] !in VisibleNav(Some(Staff))
  {
    var path := "/admin/users";
    assert !IsPrefix(NavItems[0].path(), path) by {
      assert path[1] == 'a' && NavItems[0].path()[1] == 'd';
    }
    assert !IsPrefix(NavItems[1].path(), path) by {
      assert path[7] == 'u' && NavItems[1].path()[7] == 'b';
    }
    assert IsPrefix(NavItems[2].path(), path) by {
      assert path[..|NavItems[2].path()|] == NavItems[2].path();
    }
    OthersSeeDashboardOnly(Some(Staff));
  }

  /** `user?.role?.replace("_", " ")`: the role's name with its first
      underscore turned into a space; nothing without a role. */
  function RoleDisplay(role: Option<Role>): (r: Option<string>)
    ensures r.None? <==> role.None?
    ensures r.Some? ==> |r.value| == |RoleName(role.value)|
  {
    if role.Some? then Some(ReplaceFirst(RoleName(role.value), '_', ' ')) else None
  }

  /** A role name without an underscore is displayed as it is. */
  lemma PlainRoleDisplay(r: Role)
    requires r == Admin || r == Staff
    ensures RoleDisplay(Some(r)) == Some(RoleName(r))
  {
    var n := RoleName(r);
    assert forall i :: 0 <= i < |n| ==> n[i] != '_';
  }

  /** A manager role is displayed with its one underscore replaced, so the
      display has none. */
  lemma VietManagerDisplay()
    ensures RoleDisplay(Some(ManagerViet)) == Some("manager viet")
  {
    var n := "manager_viet";
    assert IndexOf(n, '_') == 7 by {
      assert n[7] == '_' && forall i :: 0 <= i < 7 ==> n[i] != '_';
    }
    assert n[..7] + [' '] + n[8..] == "manager viet" by {
      assert n == "manager" + "_" + "viet";
      assert n[..7] == "manager" && n[8..] == "viet";
      assert "manager" + " " + "viet" == "manager viet";
    }
  }

  lemma KoreaManagerDisplay()
    ensures RoleDisplay(Some(ManagerKorea)) == Some("manager korea")
  {
    var n := "manager_korea";
    assert IndexOf(n, '_') == 7 by {
      assert n[7] == '_' && forall i :: 0 <= i < 7 ==> n[i] != '_';
    }
    assert n[..7] + [' '] + n[8..] == "manager korea" by {
      assert n == "manager" + "_" + "korea";
      assert n[..7] == "manager" && n[8..] == "korea";
      assert "manager" + " " + "korea" == "manager korea";
    }
  }
}
