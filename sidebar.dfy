/**
 * The navigation sidebar of components/sidebar.tsx: the fixed table of
 * destinations, the role filter, and the active-item highlight.
 */
module Sidebar {
  import opened Wrappers
  import opened Seqs
  import Auth

  datatype NavIcon = LayoutDashboardIcon | BookOpenIcon | FileTextIcon | CalendarIcon | UsersIcon | SettingsIcon

  datatype NavItem = NavItem(title: string, href: string, icon: NavIcon, roles: seq<Auth.Role>)

  const Both: seq<Auth.Role> := [Auth.Teacher, Auth.Student]

  /** `navigationItems` */
  const NavigationItems: seq<NavItem> := [
    NavItem("Dashboard", "/dashboard", LayoutDashboardIcon, Both),
    NavItem("My Classes", "/classes", BookOpenIcon, Both),
    NavItem("Notes", "/notes", FileTextIcon, Both),
    NavItem("Homework", "/homework", CalendarIcon, Both),
    NavItem("Students", "/students", UsersIcon, [Auth.Teacher]),
    NavItem("Settings", "/settings", SettingsIcon, Both)]

  /** `user?.role || 'student'`: a signed-out visitor is treated as a student. */
  function EffectiveRole(user: Option<Auth.User>): (r: Auth.Role)
    ensures user.None? ==> r == Auth.Student
    ensures user.Some? ==> r == user.value.role
  {
    if user.Some? then user.value.role else Auth.Student
  }

  /** `filteredItems` */
  function FilteredItems(user: Option<Auth.User>): (r: seq<NavItem>)
    ensures forall item :: item in r <==> item in NavigationItems && EffectiveRole(user) in item.roles
    ensures IsSubseq(r, NavigationItems)
  {
    Filter(NavigationItems, (item: NavItem) => EffectiveRole(user) in item.roles)
  }

  /** Teachers get the whole table. */
  lemma TeacherItems(user: Option<Auth.User>)
    requires Auth.IsTeacher(user)
    ensures FilteredItems(user) == NavigationItems && |FilteredItems(user)| == 6
  {
    var p := (item: NavItem) => EffectiveRole(user) in item.roles;
    assert EffectiveRole(user) == Auth.Teacher;
    forall item | item in NavigationItems
      ensures p(item)
    {
      assert Auth.Teacher in item.roles;
    }
    FilterKeepsAll(NavigationItems, p);
  }

  /** Everyone else gets the table without "Students", in the same order. */
  lemma StudentItems(user: Option<Auth.User>)
    requires !Auth.IsTeacher(user)
    ensures FilteredItems(user) == NavigationItems[..4] + NavigationItems[5..] && |FilteredItems(user)| == 5
    ensures NavigationItems[4].title == "Students"
  {
    var p := (item: NavItem) => EffectiveRole(user) in item.roles;
    assert EffectiveRole(user) == Auth.Student;
    var front, students, back := NavigationItems[..4], [NavigationItems[4]], NavigationItems[5..];
    assert NavigationItems == front + students + back;
    forall item | item in front
      ensures p(item)
    {
      assert item.roles == Both;
    }
    forall item | item in back
      ensures p(item)
    {
      assert item.roles == Both;
    }
    FilterAppend(front, students, p);
    FilterKeepsAll(front, p);
    assert !p(students[0]);
    assert Filter(students, p) == Filter(students[1..], p);
    assert Filter(front + students, p) == front;
    FilterAppend(front + students, back, p);
    FilterKeepsAll(back, p);
    assert Filter(NavigationItems, p) == front + back;
  }

  /** The six destinations are distinct. */
  lemma HrefsDistinct()
    ensures DistinctBy(NavigationItems, (item: NavItem) => item.href)
  {
    var h := seq(6, i requires 0 <= i < 6 => NavigationItems[i].href);
    assert |h[0]| == 10 && |h[1]| == 8 && |h[2]| == 6 && |h[3]| == 9 && |h[4]| == 9 && |h[5]| == 9;
    assert h[3][1] == 'h' && h[4][1] == 's' && h[5][1] == 's';
    assert h[4][2] == 't' && h[5][2] == 'e';
  }

  /** One rendered row: its caption, target, whether it is highlighted,
      and whether clicking it closes the mobile menu. */
  datatype NavLink = NavLink(title: string, href: string, active: bool, closesMenu: bool)

  /** The rendered `<nav>`: one link per filtered item, each wired to
      `onClose`. */
  function NavLinks(user: Option<Auth.User>, pathname: string): (r: seq<NavLink>)
    ensures |r| == |FilteredItems(user)|
    ensures forall i :: 0 <= i < |r| ==>
      r[i].href == FilteredItems(user)[i].href && r[i].title == FilteredItems(user)[i].title
      && (r[i].active <==> pathname == FilteredItems(user)[i].href) && r[i].closesMenu
  {
    var items := FilteredItems(user);
    seq(|items|, i requires 0 <= i < |items| => NavLink(items[i].title, items[i].href, pathname == items[i].href, true))
  }

  /** However the path looks, at most one row is highlighted. */
  lemma AtMostOneActive(user: Option<Auth.User>, pathname: string)
    ensures forall i, j :: 0 <= i < j < |NavLinks(user, pathname)| ==>
      !(NavLinks(user, pathname)[i].active && NavLinks(user, pathname)[j].active)
  {
    HrefsDistinct();
    SubseqDistinctBy(FilteredItems(user), NavigationItems, (item: NavItem) => item.href);
  }

  /** The row for the current page is highlighted whenever the page is in
      the visitor's menu. */
  lemma CurrentPageHighlighted(user: Option<Auth.User>, k: nat)
    requires k < |FilteredItems(user)|
    ensures NavLinks(user, FilteredItems(user)[k].href)[k].active
  {
  }
}
