/** The navigation menu (Sidebar.jsx): seven entries in a fixed order, each
    shown to everyone or only to admins, with the dashboard entry pointing to
    the role's dashboard. */
module Sidebar {
  import opened Wrappers
  import opened Seqs
  import AuthContext

  datatype MenuItem = MenuItem(title: string, icon: string, path: string, show: bool)

  /** `user?.role === ROLES.ADMIN`: false without a user. */
  predicate IsAdmin(user: Option<AuthContext.UserInfo>)
  {
    user.Some? && user.value.role == "ADMIN"
  }

  /** `menuItems`. */
  function MenuItems(isAdmin: bool): seq<MenuItem>
  {
    [MenuItem("Dashboard", "bi-speedometer2", if isAdmin then "/dashboard" else "/employee-dashboard", true),
     MenuItem("Employees", "bi-people", "/employees", isAdmin),
     MenuItem("Departments", "bi-building", "/departments", isAdmin),
     MenuItem("Job Roles", "bi-briefcase", "/jobroles", isAdmin),
     MenuItem("Leave Management", "bi-calendar-check", "/leaves", true),
     MenuItem("Leave Approval", "bi-check-circle", "/leaves/approval", isAdmin),
     MenuItem("Payroll", "bi-cash-stack", "/payroll", true)]
  }

  function Shown(item: MenuItem): bool
  {
    item.show
  }

  /** `filteredMenuItems`, for `isAdmin == IsAdmin(user)`. */
  function VisibleItems(isAdmin: bool): seq<MenuItem>
  {
    Filter(MenuItems(isAdmin), Shown)
  }

  /** `end` on the link: exact matching for the two dashboard paths only. */
  predicate ExactMatch(item: MenuItem)
  {
    item.path == "/dashboard" || item.path == "/employee-dashboard"
  }

  /** Keeping the shown entries of a menu whose first, fifth and seventh
      entries alone are shown leaves exactly those three, in order. */
  lemma {:induction false} FilterPicksPublic(items: seq<MenuItem>)
    requires |items| == 7
    requires items[0].show && items[4].show && items[6].show
    requires !items[1].show && !items[2].show && !items[3].show && !items[5].show
    ensures Filter(items, Shown) == [items[0], items[4], items[6]]
  {
    var tail := items[4..];
    assert tail[1..][1..] == items[6..];
    assert tail[1..] == items[5..];
    FilterLastThree(tail);
    var k := 3;
    while k > 0
      invariant 0 <= k <= 3
      invariant Filter(items[k + 1..], Shown) == [items[4], items[6]]
    {
      assert items[k..][1..] == items[k + 1..];
      FilterStep(items[k..]);
      k := k - 1;
    }
    FilterStep(items);
  }

  /** Three entries of which the middle one alone is hidden. */
  lemma FilterLastThree(t: seq<MenuItem>)
    requires |t| == 3 && t[0].show && !t[1].show && t[2].show
    ensures Filter(t, Shown) == [t[0], t[2]]
  {
    FilterStep(t);
    FilterStep(t[1..]);
    FilterStep(t[1..][1..]);
    assert t[1..][1..][1..] == [];
  }

  /** One step of `Filter` on the menu, stated without its other
      properties so that a chain of steps stays cheap. */
  lemma FilterStep(s: seq<MenuItem>)
    requires s != []
    ensures Filter(s, Shown) == (if s[0].show then [s[0]] else []) + Filter(s[1..], Shown)
  {
  }

  /** An admin sees all seven entries in declaration order, the dashboard
      entry first and pointing to `/dashboard`. */
  lemma AdminMenu()
    ensures VisibleItems(true) == MenuItems(true)
    ensures |VisibleItems(true)| == 7
    ensures VisibleItems(true)[0].title == "Dashboard" && VisibleItems(true)[0].path == "/dashboard"
  {
    var items := MenuItems(true);
    assert |items| == 7;
    forall i | 0 <= i < |items|
      ensures Shown(items[i])
    {
    }
    FilterKeepsAll(items, Shown);
  }

  /** Anyone else sees exactly Dashboard, Leave Management and Payroll, in
      that order, the dashboard entry pointing to `/employee-dashboard`. */
  lemma OthersMenu()
    ensures |VisibleItems(false)| == 3
    ensures VisibleItems(false)[0].title == "Dashboard" && VisibleItems(false)[0].path == "/employee-dashboard"
    ensures VisibleItems(false)[1].title == "Leave Management" && VisibleItems(false)[1].path == "/leaves"
    ensures VisibleItems(false)[2].title == "Payroll" && VisibleItems(false)[2].path == "/payroll"
  {
    FilterPicksPublic(MenuItems(false));
  }

  /** In either menu only the first entry carries a dashboard path. */
  lemma MenuExactMatch(isAdmin: bool, j: nat)
    requires j < 7
    ensures ExactMatch(MenuItems(isAdmin)[j]) <==> j == 0
  {
  }

  lemma AdminExactMatch(i: nat)
    requires i < |VisibleItems(true)|
    ensures ExactMatch(VisibleItems(true)[i]) <==> i == 0
  {
    AdminMenu();
    MenuExactMatch(true, i);
  }

  /** In a menu shaped like the non-admin one, whose only exact-match entry
      is the first, the filtered menu keeps that entry first and alone. */
  lemma PublicExactMatch(items: seq<MenuItem>, i: nat)
    requires |items| == 7
    requires items[0].show && items[4].show && items[6].show
    requires !items[1].show && !items[2].show && !items[3].show && !items[5].show
    requires forall j :: 0 <= j < 7 ==> (ExactMatch(items[j]) <==> j == 0)
    requires i < |Filter(items, Shown)|
    ensures ExactMatch(Filter(items, Shown)[i]) <==> i == 0
  {
    FilterPicksPublic(items);
  }

  lemma OthersExactMatch(isAdmin: bool, i: nat)
    requires !isAdmin && i < |VisibleItems(isAdmin)|
    ensures ExactMatch(VisibleItems(isAdmin)[i]) <==> i == 0
  {
    var items := MenuItems(isAdmin);
    forall j | 0 <= j < 7
      ensures ExactMatch(items[j]) <==> j == 0
    {
      MenuExactMatch(isAdmin, j);
    }
    PublicExactMatch(items, i);
  }

  /** Whatever the role, only the first visible entry, the dashboard, uses
      exact matching. */
  lemma OnlyDashboardIsExact(isAdmin: bool, i: nat)
    requires i < |VisibleItems(isAdmin)|
    ensures ExactMatch(VisibleItems(isAdmin)[i]) <==> i == 0
  {
    if isAdmin {
      AdminExactMatch(i);
    } else {
      OthersExactMatch(isAdmin, i);
    }
  }
}
