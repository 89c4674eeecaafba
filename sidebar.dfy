/** The navigation sidebar (src/components/Layout/Sidebar.tsx): the seven menu items, the
    role gate that hides Analytics from everyone but alumni, the active item, and the role
    label and subtitle at the foot. */
module SidebarNav {
  import opened Types
  import opened Seqs

  /** A menu entry; `roles` absent means "every role". The icon is left out. */
  datatype SidebarItem = SidebarItem(name: string, href: string, roles: Option<seq<Role>>)

  const Dashboard := SidebarItem("Dashboard", "/dashboard", None)
  const Forum := SidebarItem("Q&A Forum", "/queries", None)
  const ResourcesItem := SidebarItem("Resources", "/resources", None)
  const LeaderboardItem := SidebarItem("Leaderboard", "/leaderboard", None)
  const DirectoryItem := SidebarItem("Alumni Directory", "/directory", None)
  const Analytics := SidebarItem("Analytics", "/analytics", Some([Alumni]))
  const ProfileItem := SidebarItem("Profile", "/profile", None)

  /** `sidebarItems`, in menu order. */
  const Items: seq<SidebarItem> :=
    [Dashboard, Forum, ResourcesItem, LeaderboardItem, DirectoryItem, Analytics, ProfileItem]

  /** `!item.roles || item.roles.includes(user?.role)`: without a user the role is undefined,
      which no roles list includes. */
  predicate ShownTo(item: SidebarItem, user: Option<User>)
  {
    item.roles.None? || (user.Some? && user.value.role in item.roles.value)
  }

  function ShownFor(user: Option<User>): SidebarItem -> bool
  {
    item => ShownTo(item, user)
  }

  /** `filteredItems`: the items the user may see; an item without a roles list is always
      among them. */
  function FilteredItems(items: seq<SidebarItem>, user: Option<User>): (r: seq<SidebarItem>)
    ensures forall item :: item in r <==> item in items && ShownTo(item, user)
    ensures forall item :: item in items && item.roles.None? ==> item in r
  {
    Filter(items, ShownFor(user))
  }

  /** The visible items keep their menu order. */
  lemma FilteredItemsInOrder(items: seq<SidebarItem>, user: Option<User>)
    ensures IsSubsequence(FilteredItems(items, user), items)
  {
    FilterSubsequence(items, ShownFor(user));
  }

  /** Analytics is in the menu exactly for alumni: not for students, not without a user. */
  lemma AnalyticsOnlyForAlumni(user: Option<User>)
    ensures Analytics in FilteredItems(Items, user) <==> user.Some? && user.value.role == Alumni
  {
    assert Analytics in Items;
    if user.Some? && user.value.role == Alumni {
      assert user.value.role in Analytics.roles.value;
    }
  }

  /** The five items before Analytics have no roles list, so everybody sees them. */
  const OpenItems: seq<SidebarItem> := [Dashboard, Forum, ResourcesItem, LeaderboardItem, DirectoryItem]

  /** Filtering a menu whose items, except possibly `gated`, all lack a roles list. */
  lemma FilterMenu(open: seq<SidebarItem>, gated: SidebarItem, last: SidebarItem, user: Option<User>)
    requires forall x :: x in open ==> x.roles.None?
    requires last.roles.None?
    ensures Filter(open + [gated] + [last], ShownFor(user)) ==
      open + (if ShownTo(gated, user) then [gated] else []) + [last]
  {
    var p := ShownFor(user);
    FilterKeepsAll(open, p);
    FilterSnoc(open, gated, p);
    FilterSnoc(open + [gated], last, p);
  }

  lemma MenuShape(user: Option<User>)
    ensures FilteredItems(Items, user) ==
      OpenItems + (if ShownTo(Analytics, user) then [Analytics] else []) + [ProfileItem]
  {
    assert Items == OpenItems + [Analytics] + [ProfileItem];
    FilterMenu(OpenItems, Analytics, ProfileItem, user);
  }

  /** A student and a visitor without a user see six items, an alumnus all seven. */
  lemma MenuSizes(user: Option<User>)
    ensures user.Some? && user.value.role == Alumni ==> FilteredItems(Items, user) == Items
    ensures !(user.Some? && user.value.role == Alumni) ==> FilteredItems(Items, user) == OpenItems + [ProfileItem]
    ensures |FilteredItems(Items, user)| == if user.Some? && user.value.role == Alumni then 7 else 6
  {
    MenuShape(user);
    if user.Some? && user.value.role == Alumni {
      assert user.value.role in Analytics.roles.value;
      assert Items == OpenItems + [Analytics] + [ProfileItem];
    }
  }

  /** `location.pathname === item.href` */
  predicate IsActive(item: SidebarItem, pathname: string)
  {
    item.href == pathname
  }

  /** No two entries of a menu lead to the same page. */
  predicate HrefsUnique(r: seq<SidebarItem>)
  {
    forall i, j :: 0 <= i < j < |r| ==> r[i].href != r[j].href
  }

  /** Different menu items lead to different pages. */
  lemma HrefsDistinct()
    ensures HrefsUnique(Items)
  {
  }

  /** Both menus a user can get, with or without Analytics, have distinct pages. */
  lemma MenuHrefsUnique(withAnalytics: bool)
    ensures HrefsUnique(OpenItems + (if withAnalytics then [Analytics] else []) + [ProfileItem])
  {
    if withAnalytics {
      assert OpenItems + [Analytics] + [ProfileItem] == Items;
      HrefsDistinct();
    } else {
      assert OpenItems + [] + [ProfileItem] ==
        [Dashboard, Forum, ResourcesItem, LeaderboardItem, DirectoryItem, ProfileItem];
    }
  }

  /** Whatever the path and the user, at most one visible item is highlighted. */
  lemma {:induction false} AtMostOneActive(user: Option<User>, pathname: string)
    ensures var r := FilteredItems(Items, user);
      forall i, j :: 0 <= i < |r| && 0 <= j < |r| && IsActive(r[i], pathname) && IsActive(r[j], pathname) ==> i == j
  {
    MenuShape(user);
    MenuHrefsUnique(ShownTo(Analytics, user));
  }

  /** The role label: "Alumni" for an alumnus, "Student" otherwise, also without a user. */
  function RoleLabel(user: Option<User>): (r: string)
    ensures r == "Alumni" <==> user.Some? && user.value.role == Alumni
    ensures r != "Alumni" ==> r == "Student"
  {
    if user.Some? && user.value.role == Alumni then "Alumni" else "Student"
  }

  /** A present, non-empty string: what `||` treats as true. */
  predicate Usable(s: Option<string>)
  {
    s.Some? && s.value != ""
  }

  /** `user?.company || user?.batch || 'Member'`: an absent or empty company falls through to
      the batch, and an absent or empty batch to "Member". */
  function FooterSubtitle(user: Option<User>): (r: string)
    ensures r != ""
    ensures user.Some? && user.value.company.Some? && user.value.company.value != "" ==>
      r == user.value.company.value
    ensures r == "Member" || (user.Some? && (user.value.company == Some(r) || user.value.batch == Some(r)))
    ensures user.None? ==> r == "Member"
    ensures user.Some? && !Usable(user.value.company) && Usable(user.value.batch) ==> r == user.value.batch.value
    ensures user.Some? && !Usable(user.value.company) && !Usable(user.value.batch) ==> r == "Member"
  {
    if user.Some? && user.value.company.Some? && user.value.company.value != "" then user.value.company.value
    else if user.Some? && user.value.batch.Some? && user.value.batch.value != "" then user.value.batch.value
    else "Member"
  }
}
