/** The bottom navigation bar of small screens
    (src/components/MobileNavigation.tsx): five fixed entries, one of them
    for administrators only. */
module MobileNavigation {
  import opened Lists

  datatype NavItem = NavItem(id: string, caption: string, adminOnly: bool)

  /** `navItems`, in the order they are drawn. */
  function NavItems(): (r: seq<NavItem>)
    ensures |r| == 5
    ensures forall i :: 0 <= i < |r| ==> (r[i].adminOnly <==> r[i].id == "students")
  {
    [ NavItem("dashboard", "Beranda", false),
      NavItem("schedule", "Jadwal", false),
      NavItem("students", "Siswa", true),
      NavItem("attendance", "Absensi", false),
      NavItem("messages", "Pesan", false) ]
  }

  function NotAdminOnly(): NavItem -> bool
  {
    (item: NavItem) => !item.adminOnly
  }

  /** `filteredItems`: everything for `admin`, the entries that are not
      administrator-only for every other role, in their order. */
  function BarItems(role: string): (r: seq<NavItem>)
    ensures role == "admin" ==> r == NavItems()
    ensures role != "admin" ==> r == Filter(NavItems(), NotAdminOnly())
    ensures |r| <= |NavItems()|
    ensures IsSubsequence(r, NavItems())
    ensures forall item :: item in r <==> item in NavItems() && (role == "admin" || !item.adminOnly)
  {
    if role == "admin" then
      SubsequenceOfSelf(NavItems());
      NavItems()
    else
      FilterIsSubsequence(NavItems(), NotAdminOnly());
      Filter(NavItems(), NotAdminOnly())
  }

  /** A non-administrator gets the four entries other than students, in
      order. */
  lemma BarItemsForNonAdmin(role: string)
    requires role != "admin"
    ensures BarItems(role) == [NavItems()[0], NavItems()[1], NavItems()[3], NavItems()[4]]
  {
    WithoutAdminOnly();
  }

  lemma WithoutAdminOnly()
    ensures Filter(NavItems(), NotAdminOnly()) == [NavItems()[0], NavItems()[1], NavItems()[3], NavItems()[4]]
  {
    var s := NavItems();
    DropThird(s[0], s[1], s[2], s[3], s[4], NotAdminOnly());
    assert s == [s[0], s[1], s[2], s[3], s[4]];
  }

  /** Filtering five elements of which only the third fails. */
  lemma DropThird<T(!new)>(a: T, b: T, c: T, d: T, e: T, p: T -> bool)
    requires p(a) && p(b) && !p(c) && p(d) && p(e)
    ensures Filter([a, b, c, d, e], p) == [a, b, d, e]
  {
    DropFirstOfFour(b, c, d, e, p);
    FilterCons(a, [b, c, d, e], p);
    assert [a] + [b, c, d, e] == [a, b, c, d, e];
    assert [a] + [b, d, e] == [a, b, d, e];
  }

  lemma DropFirstOfFour<T(!new)>(b: T, c: T, d: T, e: T, p: T -> bool)
    requires p(b) && !p(c) && p(d) && p(e)
    ensures Filter([b, c, d, e], p) == [b, d, e]
  {
    DropFirstOfThree(c, d, e, p);
    FilterCons(b, [c, d, e], p);
    assert [b] + [c, d, e] == [b, c, d, e];
    assert [b] + [d, e] == [b, d, e];
  }

  lemma DropFirstOfThree<T(!new)>(c: T, d: T, e: T, p: T -> bool)
    requires !p(c) && p(d) && p(e)
    ensures Filter([c, d, e], p) == [d, e]
  {
    FilterCons(e, [], p);
    assert [e] + [] == [e];
    FilterCons(d, [e], p);
    assert [d] + [e] == [d, e];
    FilterCons(c, [d, e], p);
    assert [c] + [d, e] == [c, d, e];
  }

  /** Filtering the bar's entries again for the same role changes
      nothing. */
  lemma BarItemsIdempotent(role: string)
    ensures role != "admin" ==> Filter(BarItems(role), NotAdminOnly()) == BarItems(role)
    ensures |BarItems(role)| == (if role == "admin" then 5 else 4)
  {
    FilterIdempotent(NavItems(), NotAdminOnly());
    if role != "admin" {
      BarItemsForNonAdmin(role);
    }
  }
}
