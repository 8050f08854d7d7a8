/** The sidebar: the menu entries a role may see and which one is active. */
module Sidebar {
  import opened Wrappers
  import opened Models
  import opened Seqs
  import opened Text

  datatype MenuItem = MenuItem(href: string, text: string, roles: seq<Role>)

  const EveryRole: seq<Role> := [Collector, Nursery, Partner, Admin]

  const Profile := MenuItem("/dashboard/profile", "Profile", EveryRole)
  const Settings := MenuItem("/dashboard/settings", "Settings", EveryRole)

  /** A block of entries that all belong to one role. */
  function Section(role: Role, entries: seq<(string, string)>): (items: seq<MenuItem>)
    ensures |items| == |entries|
    ensures forall k :: 0 <= k < |items| ==> items[k] == MenuItem(entries[k].0, entries[k].1, [role])
  {
    seq(|entries|, k requires 0 <= k < |entries| => MenuItem(entries[k].0, entries[k].1, [role]))
  }

  /** The role-specific entries of `allMenuItems`, in declared order. */
  function RoleItems(): seq<MenuItem> {
    Section(Collector, [("/dashboard", "My Collections")])
    + Section(Admin, [("/admin", "Dashboard"), ("/admin/batches", "Seed Batches"),
                      ("/admin/nurseries", "Nurseries"), ("/admin/projects", "Projects"),
                      ("/admin/provenance", "Provenance"), ("/admin/analytics", "Analytics")])
    + Section(Nursery, [("/nursery", "Dashboard"), ("/nursery/inventory", "Inventory"),
                        ("/nursery/germination", "Germination"), ("/nursery/sales", "Sales")])
    + Section(Partner, [("/partner", "Dashboard"), ("/partner/browse", "Browse Seeds"),
                        ("/partner/projects", "My Projects")])
  }

  /** `allMenuItems`: the role-specific entries, then the common ones. */
  function AllMenuItems(): seq<MenuItem> {
    RoleItems() + [Profile, Settings]
  }

  /** `!user || item.roles.includes(user.role)` */
  predicate Sees(user: Option<User>, i: MenuItem) {
    user.None? || user.value.role in i.roles
  }

  function SeesFn(user: Option<User>): MenuItem -> bool {
    (i: MenuItem) => Sees(user, i)
  }

  /** The entries the sidebar shows, in declared order. */
  function Visible(user: Option<User>): (items: seq<MenuItem>)
    ensures forall i :: i in items <==> i in AllMenuItems() && Sees(user, i)
    ensures IsSubsequence(items, AllMenuItems())
  {
    FilterIsSubsequence(AllMenuItems(), SeesFn(user));
    Filter(AllMenuItems(), SeesFn(user))
  }

  /** The four section roots are active only on their own page; every other
      entry is active on any path below it. */
  function IsActive(pathname: string, href: string): bool {
    if href in ["/dashboard", "/admin", "/nursery", "/partner"] then pathname == href
    else StartsWith(pathname, href)
  }

  // ------------------------------------------------------------- properties

  /** Without a user every entry shows. */
  lemma NoUserSeesAll()
    ensures Visible(None) == AllMenuItems()
  {
    FilterKeepsAll(AllMenuItems(), SeesFn(None));
  }

  /** Filtering a list whose last two entries pass keeps them last. */
  lemma LastTwoKept(front: seq<MenuItem>, p: MenuItem -> bool)
    requires p(Profile) && p(Settings)
    ensures var items := Filter(front + [Profile, Settings], p);
      |items| >= 2 && items[|items| - 2..] == [Profile, Settings]
  {
    FilterAppend(front, [Profile, Settings], p);
    assert Filter([Settings], p) == [Settings];
    assert [Profile, Settings][1..] == [Settings];
    assert Filter([Profile, Settings], p) == [Profile, Settings];
    var items := Filter(front, p) + [Profile, Settings];
    assert items[|items| - 2..] == [Profile, Settings];
  }

  /** Profile and Settings show for every known role and close the menu. */
  lemma CommonEntriesLast(u: User)
    requires u.role in EveryRole
    ensures var items := Visible(Some(u));
      |items| >= 2 && items[|items| - 2..] == [Profile, Settings]
  {
    LastTwoKept(RoleItems(), SeesFn(Some(u)));
  }

  /** Each role-specific entry lists a single role. */
  lemma RoleItemsHaveOneRole()
    ensures forall i :: i in RoleItems() ==> |i.roles| == 1
  {
  }

  lemma OneRoleOneViewer(i: MenuItem, r: Role, q: Role)
    requires |i.roles| == 1 && r in i.roles && q in i.roles
    ensures r == q
  {
    assert i.roles == [i.roles[0]];
  }

  /** When every entry but the common ones has one role, two different
      roles share nothing but the common ones. */
  lemma SharedAreCommon(front: seq<MenuItem>, u: User, v: User)
    requires u.role != v.role
    requires forall i :: i in front ==> |i.roles| == 1
    ensures forall i :: i in Filter(front + [Profile, Settings], SeesFn(Some(u)))
                     && i in Filter(front + [Profile, Settings], SeesFn(Some(v)))
                     ==> i == Profile || i == Settings
  {
    forall i | i in Filter(front + [Profile, Settings], SeesFn(Some(u)))
            && i in Filter(front + [Profile, Settings], SeesFn(Some(v)))
      ensures i == Profile || i == Settings
    {
      assert Sees(Some(u), i) && Sees(Some(v), i);
      if i in front {
        OneRoleOneViewer(i, u.role, v.role);
        assert false;
      }
    }
  }

  /** So two different roles share only Profile and Settings. */
  lemma RoleMenusDisjoint(u: User, v: User)
    requires u.role != v.role
    ensures forall i :: i in Visible(Some(u)) && i in Visible(Some(v)) ==> i == Profile || i == Settings
  {
    RoleItemsHaveOneRole();
    SharedAreCommon(RoleItems(), u, v);
  }

  /** On `/dashboard/profile`, "My Collections" is not active and Profile is. */
  lemma ProfilePageActive()
    ensures !IsActive("/dashboard/profile", "/dashboard")
    ensures IsActive("/dashboard/profile", Profile.href)
  {
    assert "/dashboard/profile"[..|Profile.href|] == Profile.href;
  }

  /** A prefix entry is active on itself and on every path that extends it. */
  lemma PrefixEntryActive(href: string, rest: string)
    requires href !in ["/dashboard", "/admin", "/nursery", "/partner"]
    ensures IsActive(href + rest, href)
  {
    assert (href + rest)[..|href|] == href;
  }
}
