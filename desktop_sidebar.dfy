/** The desktop sidebar (src/components/DesktopSidebar.tsx): the fixed list
    of navigation items, the role rule that decides which of them are shown,
    and the role shown in the footer. */
module DesktopSidebar {
  import opened Lists

  /** A navigation entry. An absent `showFor` or `hideFor` list behaves like
      an empty one: neither contains any role. */
  datatype NavItem = NavItem(id: string, caption: string, showFor: seq<string>, hideFor: seq<string>)

  /** `navItems`, in the order they are drawn. */
  function NavItems(): (r: seq<NavItem>)
    ensures |r| == 7
    ensures forall i :: 0 <= i < |r| ==> r[i].showFor == [] || r[i].id == "billing"
  {
    [ NavItem("dashboard", "Beranda", [], []),
      NavItem("schedule", "Jadwal", [], ["tata-usaha"]),
      NavItem("students", "Siswa", [], ["teacher"]),
      NavItem("attendance", "Absensi", [], ["tata-usaha"]),
      NavItem("billing", "Tagihan", ["admin", "tata-usaha"], []),
      NavItem("messages", "Pesan", [], []),
      NavItem("announcements", "Pengumuman", [], ["teacher", "tata-usaha"]) ]
  }

  /** The `filteredItems` condition. `showFor` is looked at first and can
      only force an item visible; `hideFor` hides an item the role is not
      in `showFor` of; every other item is shown. */
  predicate IsVisible(item: NavItem, role: string)
    ensures role in item.showFor ==> IsVisible(item, role)
    ensures role !in item.showFor && role in item.hideFor ==> !IsVisible(item, role)
    ensures role !in item.hideFor ==> IsVisible(item, role)
  {
    if role in item.showFor then true
    else if role in item.hideFor then false
    else true
  }

  function VisibleTo(role: string): NavItem -> bool
  {
    (item: NavItem) => IsVisible(item, role)
  }

  /** The items of `items` the role may see, in their order. */
  function FilterVisible(items: seq<NavItem>, role: string): (r: seq<NavItem>)
    ensures forall item :: item in r <==> item in items && IsVisible(item, role)
    ensures IsSubsequence(r, items)
  {
    FilterIsSubsequence(items, VisibleTo(role));
    Filter(items, VisibleTo(role))
  }

  /** Filtering an already filtered list for the same role changes
      nothing. */
  lemma FilterVisibleIdempotent(items: seq<NavItem>, role: string)
    ensures FilterVisible(FilterVisible(items, role), role) == FilterVisible(items, role)
  {
    FilterIdempotent(items, VisibleTo(role));
  }

  /** `filteredItems`: the entries the sidebar draws for a role. */
  function SidebarItems(role: string): (r: seq<NavItem>)
    ensures |r| <= 7
    ensures IsSubsequence(r, NavItems())
    ensures forall item :: item in r <==> item in NavItems() && IsVisible(item, role)
  {
    FilterVisible(NavItems(), role)
  }

  /** Dashboard and messages are shown to every role. */
  lemma DashboardAndMessagesForAll(role: string)
    ensures NavItems()[0] in SidebarItems(role) && NavItems()[5] in SidebarItems(role)
  {
  }

  /** Schedule and attendance are hidden from `tata-usaha` only. */
  lemma ScheduleAndAttendance(role: string)
    ensures NavItems()[1] in SidebarItems(role) <==> role != "tata-usaha"
    ensures NavItems()[3] in SidebarItems(role) <==> role != "tata-usaha"
  {
  }

  /** Students is hidden from `teacher` only. */
  lemma StudentsHiddenFromTeacher(role: string)
    ensures NavItems()[2] in SidebarItems(role) <==> role != "teacher"
  {
  }

  /** Billing is shown to every role, `teacher` included: its `showFor`
      list never hides it. */
  lemma BillingForAll(role: string)
    ensures NavItems()[4].id == "billing" && NavItems()[4] in SidebarItems(role)
  {
  }

  /** Announcements are hidden from `teacher` and `tata-usaha`; among the
      three roles of the application only `admin` sees them. */
  lemma AnnouncementsForAdmin(role: string)
    ensures NavItems()[6].id == "announcements"
    ensures NavItems()[6] in SidebarItems(role) <==> role != "teacher" && role != "tata-usaha"
  {
  }

  /** A role in `showFor` sees the item even when `hideFor` names it too. */
  lemma ShowForWins(item: NavItem, role: string)
    requires role in item.showFor && role in item.hideFor
    ensures item in FilterVisible([item], role)
  {
  }

  /** The footer's role name: "Admin Sekolah", "Guru", and "Tata Usaha"
      for every other role. */
  function RoleLabel(role: string): (r: string)
    ensures r == "Admin Sekolah" <==> role == "admin"
    ensures r == "Guru" <==> role == "teacher"
    ensures r == "Tata Usaha" <==> role != "admin" && role != "teacher"
  {
    if role == "admin" then "Admin Sekolah"
    else if role == "teacher" then "Guru"
    else "Tata Usaha"
  }

  /** The footer's e-mail address, chosen by the same rule. */
  function RoleEmail(role: string): (r: string)
    ensures r == "admin@sekolah.com" <==> role == "admin"
    ensures r == "guru@sekolah.com" <==> role == "teacher"
    ensures r == "tatausaha@sekolah.com" <==> role != "admin" && role != "teacher"
  {
    if role == "admin" then "admin@sekolah.com"
    else if role == "teacher" then "guru@sekolah.com"
    else "tatausaha@sekolah.com"
  }
}
