/** The bottom navigation bar: which tabs each role gets and which one is
    highlighted. */
module Navigation {
  import opened Types
  import opened App

  datatype Tab = Tab(id: AppView, caption: string)

  const DriverTabs: seq<Tab> := [
    Tab(Dashboard, "Home"), Tab(Stations, "Map"), Tab(Bookings, "Bookings"), Tab(Profile, "Profile")
  ]

  /** The provider tabs, labelled for installers or for the others. */
  function ProviderTabs(installer: bool): seq<Tab> {
    if installer then
      [Tab(ProviderDashboard, "Overview"), Tab(ProviderBookings, "Installations"), Tab(Profile, "Profile")]
    else
      [Tab(ProviderDashboard, "Hub"), Tab(ProviderBookings, "Customers"), Tab(Profile, "Profile")]
  }

  /** `tabs`: by role, the provider set chosen by whether the business is
      a Normal Installer. */
  function Tabs(u: User): seq<Tab> {
    if u.role == Provider then ProviderTabs(u.businessType == Some(NormalInstaller)) else DriverTabs
  }

  function Ids(tabs: seq<Tab>): (ids: seq<AppView>)
    ensures |ids| == |tabs|
    ensures forall i :: 0 <= i < |tabs| ==> ids[i] == tabs[i].id
  {
    if tabs == [] then [] else [tabs[0].id] + Ids(tabs[1..])
  }

  /** `isActive` */
  predicate IsActive(current: AppView, t: Tab) {
    current == t.id
  }

  /** Installers and other providers get the same destinations under
      other labels. */
  lemma InstallerTabsRelabelOnly()
    ensures Ids(ProviderTabs(true)) == Ids(ProviderTabs(false))
    ensures forall i :: 0 <= i < 2 ==> ProviderTabs(true)[i].caption != ProviderTabs(false)[i].caption
  {
  }

  /** No two tabs of a bar lead to the same view, so at most one tab is
      highlighted whatever the current view. */
  lemma {:induction false} AtMostOneActive(u: User, current: AppView)
    ensures forall i, j :: 0 <= i < j < |Tabs(u)| ==> Tabs(u)[i].id != Tabs(u)[j].id
    ensures forall i, j :: (0 <= i < |Tabs(u)| && 0 <= j < |Tabs(u)|
              && IsActive(current, Tabs(u)[i]) && IsActive(current, Tabs(u)[j])) ==> i == j
  {
  }

  /** Every tab leads to a view the user's role may stay on, so the shell's
      redirect leaves a tab click where it was aimed, and the clicked tab
      is the highlighted one. */
  lemma {:induction false} TabsAreFixedPoints(u: User, i: int)
    requires 0 <= i < |Tabs(u)|
    ensures Permitted(u.role, Tabs(u)[i].id)
    ensures Settle(Some(u), Tabs(u)[i].id) == Tabs(u)[i].id
    ensures IsActive(Settle(Some(u), Tabs(u)[i].id), Tabs(u)[i])
  {
    ProviderPrefixedViews(Tabs(u)[i].id);
  }

  /** A tab click, handled by the shell, lands on the tab's view. */
  method ClickTab(session: Session, u: User, i: int)
    requires session.Valid() && session.user == Some(u)
    requires 0 <= i < |Tabs(u)|
    modifies session
    ensures session.Valid()
    ensures session.currentView == Tabs(u)[i].id
    ensures session.user == old(session.user) && session.bookings == old(session.bookings)
    ensures session.vehicle == old(session.vehicle) && session.store == old(session.store)
    ensures session.stationFilter == old(session.stationFilter)
  {
    TabsAreFixedPoints(u, i);
    session.Navigate(Tabs(u)[i].id);
  }
}
