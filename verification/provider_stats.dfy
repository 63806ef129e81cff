/** The figures the provider dashboard derives from the signed-in provider
    and the booking list: its bookings, its revenue, its resources. */
module ProviderStats {
  import opened Types
  import opened Collections
  import opened Pricing
  import opened BookingList

  predicate NotCancelled(b: Booking) {
    b.status != Cancelled
  }

  /** `providerBookings`: every booking that is not Cancelled, Pending ones
      included, in list order. */
  function ProviderBookings(bs: seq<Booking>): seq<Booking> {
    Filter(bs, NotCancelled)
  }

  /** The dashboard's revenue: the prices of all bookings that are not
      Cancelled, so Pending ones count here, unlike in the queue's figure. */
  function DashboardRevenue(bs: seq<Booking>): Option<real> {
    Total(ProviderBookings(bs))
  }

  /** Without Pending bookings the two revenue figures agree. */
  lemma {:induction false} RevenuesAgreeWithoutPending(bs: seq<Booking>)
    requires forall i :: 0 <= i < |bs| ==> bs[i].status != Pending
    ensures DashboardRevenue(bs) == DailyRevenue(bs)
  {
    FilterAgree(bs, NotCancelled, Earning);
  }

  /** A lone Pending booking priced "₹1,499" earns 1499 on the dashboard and
      nothing in the queue. */
  lemma {:induction false} PendingCountsOnlyOnDashboard(b: Booking)
    requires b.status == Pending && b.price == [Rupee] + "1,499"
    ensures DashboardRevenue([b]) == Some(1499.0)
    ensures DailyRevenue([b]) == Some(0.0)
  {
    CommaRemoved();
    FilterSingle(b, NotCancelled);
    FilterSingle(b, Earning);
    TotalSingle(b);
  }

  predicate IsMechanicOrInstaller(u: User) {
    u.businessType == Some(EVMechanic) || u.businessType == Some(NormalInstaller)
  }

  /** `count || fallback`: NaN, 0 and a missing field all give the fallback. */
  function CountOr(c: CountField, fallback: int): int {
    if c.Count? && c.n != 0 then c.n else fallback
  }

  /** `resourceCount`: technicians for mechanics and installers (3 when the
      field is missing, NaN or 0), plugs for everyone else (4 likewise). */
  function ResourceCount(u: User): (r: int)
    ensures r != 0
    ensures IsMechanicOrInstaller(u) ==> r == CountOr(u.technicianCount, 3)
    ensures !IsMechanicOrInstaller(u) ==> r == CountOr(u.plugCount, 4)
  {
    if IsMechanicOrInstaller(u) then CountOr(u.technicianCount, 3) else CountOr(u.plugCount, 4)
  }

  /** Resources #1 and #3 are always shown as busy. */
  const ActiveResources: seq<int> := [1, 3]

  /** `availableResourcesCount` */
  function AvailableResources(u: User): (r: int)
    ensures r == ResourceCount(u) - 2
  {
    ResourceCount(u) - |ActiveResources|
  }

  /** A provider with a single plug is shown minus one available plug. */
  lemma {:induction false} OnePlugShowsMinusOne(u: User)
    requires !IsMechanicOrInstaller(u) && u.plugCount == Count(1)
    ensures AvailableResources(u) == -1
  {
  }

  /** The resource grid: cells numbered 1 to `count` (none when `count` is
      not positive, as `Array.from` makes no cells for a negative length),
      each marked busy when its number is in ActiveResources. */
  function ResourceGrid(count: int): (g: seq<(int, bool)>)
    ensures |g| == if count > 0 then count else 0
    ensures forall i :: 0 <= i < |g| ==> g[i] == (i + 1, (i + 1) in ActiveResources)
  {
    if count <= 0 then [] else ResourceGrid(count - 1) + [(count, count in ActiveResources)]
  }

  function BusyCells(g: seq<(int, bool)>): seq<(int, bool)> {
    Filter(g, (c: (int, bool)) => c.1)
  }

  /** The free cells of the grid against the count the header shows: equal
      from three resources up; for one or two resources the header shows one
      fewer than the free cells, as resource #3 does not exist to be busy. */
  lemma {:induction false} AvailableMatchesGrid(u: User)
    ensures var g := ResourceGrid(ResourceCount(u));
            ResourceCount(u) >= 3 ==> |g| - |BusyCells(g)| == AvailableResources(u)
    ensures var g := ResourceGrid(ResourceCount(u));
            1 <= ResourceCount(u) <= 2 ==> |g| - |BusyCells(g)| == AvailableResources(u) + 1
    ensures var g := ResourceGrid(ResourceCount(u));
            ResourceCount(u) < 0 ==> |g| == 0 && AvailableResources(u) < 0
  {
    BusyCellCount(ResourceCount(u));
  }

  /** How many grid cells are busy: two once there are three cells, so the
      free cells then number exactly AvailableResources; one for a grid of
      one or two cells, where AvailableResources is negative or zero. */
  lemma {:induction false} BusyCellCount(count: int)
    ensures |BusyCells(ResourceGrid(count))| == if count >= 3 then 2 else if count >= 1 then 1 else 0
  {
    if count > 0 {
      BusyCellCount(count - 1);
      var p := (c: (int, bool)) => c.1;
      FilterAppend(ResourceGrid(count - 1), [(count, count in ActiveResources)], p);
      FilterSingle((count, count in ActiveResources), p);
    }
  }

  /** The installer's recent-installations list: the first five bookings
      that are not Cancelled. */
  function RecentInstallations(bs: seq<Booking>): (r: seq<Booking>)
    ensures |r| <= 5
    ensures forall i :: 0 <= i < |r| ==> r[i].status != Cancelled
    ensures |ProviderBookings(bs)| >= 5 ==> |r| == 5
    ensures |r| == Min(5, |ProviderBookings(bs)|) && r == ProviderBookings(bs)[..|r|]
  {
    Take(ProviderBookings(bs), 5)
  }

  /** The other providers' activity log: the first three such bookings. */
  function ActivityLog(bs: seq<Booking>): (r: seq<Booking>)
    ensures |r| <= 3
    ensures forall i :: 0 <= i < |r| ==> r[i].status != Cancelled
    ensures |r| <= |RecentInstallations(bs)| && r == RecentInstallations(bs)[..|r|]
    ensures |r| == Min(3, |ProviderBookings(bs)|) && r == ProviderBookings(bs)[..|r|]
  {
    Take(ProviderBookings(bs), 3)
  }
}
