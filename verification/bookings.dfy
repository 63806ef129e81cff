/** The booking list as the driver's bookings screen and the provider's
    customer queue change and read it: status updates, the actions each
    status offers, the status tabs, the live revenue and the active count. */
module BookingList {
  import opened Types
  import opened Collections
  import opened Pricing
  import opened Numbers

  /** `bookings.map(b => b.id === id ? { ...b, status } : b)`, the new list
      that both `cancelBooking` (with Cancelled) and `updateStatus` hand to
      the parent. The status the booking had is not looked at. */
  function SetStatus(bs: seq<Booking>, id: string, status: BookingStatus): (r: seq<Booking>)
    ensures |r| == |bs|
    ensures forall i :: 0 <= i < |bs| && bs[i].id == id ==> r[i] == bs[i].(status := status)
    ensures forall i :: 0 <= i < |bs| && bs[i].id != id ==> r[i] == bs[i]
  {
    if bs == [] then []
    else [if bs[0].id == id then bs[0].(status := status) else bs[0]] + SetStatus(bs[1..], id, status)
  }

  /** Updating an id no booking has leaves the list as it was. */
  lemma {:induction false} SetStatusAbsent(bs: seq<Booking>, id: string, status: BookingStatus)
    requires forall i :: 0 <= i < |bs| ==> bs[i].id != id
    ensures SetStatus(bs, id, status) == bs
  {
  }

  /** Setting the same status twice is setting it once. */
  lemma {:induction false} SetStatusIdempotent(bs: seq<Booking>, id: string, status: BookingStatus)
    ensures SetStatus(SetStatus(bs, id, status), id, status) == SetStatus(bs, id, status)
  {
  }

  /** Called directly, cancelling overwrites even a Completed booking. */
  lemma {:induction false} CancelOverwritesCompleted(b: Booking)
    requires b.status == Completed
    ensures SetStatus([b], b.id, Cancelled) == [b.(status := Cancelled)]
  {
  }

  /** The driver's cancel button is shown only for bookings that are
      neither Cancelled nor Completed. */
  predicate CancelOffered(b: Booking) {
    b.status != Cancelled && b.status != Completed
  }

  const DefaultStyle: string := "bg-slate-50 text-slate-500"

  /** `getStatusStyle`, a switch over the status text. */
  function StatusStyle(status: string): string {
    if status == "Confirmed" then "bg-emerald-100 text-emerald-700"
    else if status == "Pending" then "bg-amber-100 text-amber-700"
    else if status == "Completed" then "bg-slate-100 text-slate-700"
    else if status == "Cancelled" then "bg-rose-100 text-rose-700"
    else DefaultStyle
  }

  /** Each of the four statuses has a style of its own, none of them the
      default one; every other text gets the default. */
  lemma {:induction false} StatusStylesDistinct(s: BookingStatus, t: BookingStatus, other: string)
    requires forall u: BookingStatus :: other != StatusName(u)
    ensures StatusStyle(StatusName(s)) != DefaultStyle
    ensures s != t ==> StatusStyle(StatusName(s)) != StatusStyle(StatusName(t))
    ensures StatusStyle(other) == DefaultStyle
  {
    assert other != StatusName(Pending) && other != StatusName(Confirmed);
    assert other != StatusName(Completed) && other != StatusName(Cancelled);
  }

  /** The buttons the provider's queue shows for a booking of each status. */
  function OfferedTransitions(s: BookingStatus): seq<BookingStatus> {
    match s
    case Pending => [Confirmed, Cancelled]
    case Confirmed => [Completed]
    case Completed => []
    case Cancelled => []
  }

  /** The booking life cycle: Pending may be confirmed or cancelled,
      Confirmed may be completed or cancelled; Completed and Cancelled are
      terminal. */
  predicate LegalTransition(from: BookingStatus, to: BookingStatus) {
    (from == Pending && (to == Confirmed || to == Cancelled))
    || (from == Confirmed && (to == Completed || to == Cancelled))
  }

  predicate IsTerminal(s: BookingStatus) {
    s == Completed || s == Cancelled
  }

  /** A position in the life cycle; every legal step goes up. */
  function Stage(s: BookingStatus): nat {
    match s
    case Pending => 0
    case Confirmed => 1
    case Completed => 2
    case Cancelled => 2
  }

  /** The actions the two screens offer, the provider's buttons together
      with the driver's cancel button, are exactly the legal transitions;
      none of them goes backwards and terminal statuses offer nothing. */
  lemma {:induction false} OfferedActionsAreLegal(b: Booking, to: BookingStatus)
    ensures (to in OfferedTransitions(b.status) || (CancelOffered(b) && to == Cancelled))
            <==> LegalTransition(b.status, to)
    ensures LegalTransition(b.status, to) ==> Stage(b.status) < Stage(to)
    ensures IsTerminal(b.status) ==> OfferedTransitions(b.status) == [] && !CancelOffered(b)
  {
  }

  /** The provider queue's status tabs; 'All' shows every booking. */
  datatype StatusTab = AllTab | Only(status: BookingStatus)

  /** The tabs the queue offers: there is no Pending tab. */
  const OfferedTabs: seq<StatusTab> := [AllTab, Only(Confirmed), Only(Completed), Only(Cancelled)]

  predicate InTab(tab: StatusTab, b: Booking) {
    tab.AllTab? || b.status == tab.status
  }

  /** `bookings.filter(b => activeTab === 'All' || b.status === activeTab)` */
  function TabFilter(bs: seq<Booking>, tab: StatusTab): seq<Booking> {
    Filter(bs, b => InTab(tab, b))
  }

  /** The All tab lists every booking; a status tab lists exactly the
      bookings with that status, in the order of the list. */
  lemma {:induction false} TabFilterSpec(bs: seq<Booking>, tab: StatusTab)
    ensures tab.AllTab? ==> TabFilter(bs, tab) == bs
    ensures tab.Only? ==> forall b :: b in TabFilter(bs, tab) <==> b in bs && b.status == tab.status
  {
    if tab.AllTab? {
      FilterKeepsAll(bs, b => InTab(tab, b));
    } else {
      forall b | b in bs && b.status == tab.status ensures b in TabFilter(bs, tab) {
        var i :| 0 <= i < |bs| && bs[i] == b;
      }
    }
  }

  /** A Pending booking appears under no offered tab but All. */
  lemma {:induction false} PendingOnlyUnderAll(bs: seq<Booking>, b: Booking, tab: StatusTab)
    requires b.status == Pending && tab in OfferedTabs
    ensures b in bs ==> (b in TabFilter(bs, tab) <==> tab == AllTab)
  {
    TabFilterSpec(bs, tab);
  }

  /** The bookings the queue's live revenue counts. */
  predicate Earning(b: Booking) {
    b.status == Confirmed || b.status == Completed
  }

  /** `dailyRevenue`: the summed prices of Confirmed and Completed bookings. */
  function DailyRevenue(bs: seq<Booking>): Option<real> {
    Total(Filter(bs, Earning))
  }

  /** Pending and Cancelled bookings add nothing to the daily revenue, at
      whatever position they stand and whatever their price text. */
  lemma {:induction false} DailyRevenueSkips(a: seq<Booking>, b: Booking, c: seq<Booking>)
    requires b.status == Pending || b.status == Cancelled
    ensures DailyRevenue(a + [b] + c) == DailyRevenue(a + c)
  {
    FilterAppend(a + [b], c, Earning);
    FilterAppend(a, [b], Earning);
    FilterSingle(b, Earning);
    FilterAppend(a, c, Earning);
    assert Filter(a, Earning) + [] == Filter(a, Earning);
  }

  /** A Confirmed or Completed booking adds its parsed price. */
  lemma {:induction false} DailyRevenueCounts(b: Booking, c: seq<Booking>)
    requires Earning(b)
    ensures DailyRevenue([b] + c) == Add(PriceValue(b.price), DailyRevenue(c))
  {
    FilterAppend([b], c, Earning);
    FilterSingle(b, Earning);
    TotalAppend([b], Filter(c, Earning));
    TotalSingle(b);
  }

  /** An earning booking followed by one that earns nothing: the revenue
      is the first booking's price alone. */
  lemma {:induction false} DailyRevenueOfPair(x: Booking, y: Booking)
    requires Earning(x) && !Earning(y)
    ensures DailyRevenue([x, y]) == Add(PriceValue(x.price), Some(0.0))
  {
    DailyRevenueSkips([x], y, []);
    assert [x] + [y] + [] == [x, y];
    assert [x] + [] == [x];
    DailyRevenueCounts(x, []);
    assert Filter([], Earning) == [];
  }

  lemma Price450()
    ensures PriceValue([Rupee] + "450.00") == Some(450.0)
  {
    assert Fixed2(45000) == "450.00";
    PriceOfFixed2(45000);
  }

  /** A confirmed "₹450.00" and a cancelled "₹1,499" give a revenue of 450. */
  lemma {:induction false} DailyRevenueExample(x: Booking, y: Booking)
    requires x.status == Confirmed && x.price == [Rupee] + "450.00"
    requires y.status == Cancelled && y.price == [Rupee] + "1,499"
    ensures DailyRevenue([x, y]) == Some(450.0)
  {
    Price450();
    DailyRevenueOfPair(x, y);
  }

  /** The Active Now figure. */
  function ActiveNow(bs: seq<Booking>): nat {
    |Filter(bs, (b: Booking) => b.status == Confirmed)|
  }

  /** Active Now counts the Confirmed bookings: one for each, none for any
      other. */
  lemma {:induction false} ActiveNowCounts(a: seq<Booking>, b: Booking)
    ensures ActiveNow(a + [b]) == ActiveNow(a) + if b.status == Confirmed then 1 else 0
  {
    var p := (x: Booking) => x.status == Confirmed;
    FilterAppend(a, [b], p);
    FilterSingle(b, p);
  }
}
