/** The driver dashboard's figures: the range, the battery display, the
    live availability cards, the service buttons and the recent history. */
module DashboardFigures {
  import opened Types
  import opened Collections
  import opened Fixtures
  import opened StationSearch

  /** `Math.floor(capacity * 6.5 * (level / 100))`, in km. */
  function Range(v: Vehicle): int {
    (v.batteryCapacity * 6.5 * (v.batteryLevel / 100.0)).Floor
  }

  /** The range is never negative for a non-negative capacity and level,
      is 0 on an empty battery, and never falls as the level rises. */
  lemma {:induction false} RangeProperties(v: Vehicle, level: real)
    requires v.batteryCapacity >= 0.0 && v.batteryLevel >= 0.0
    ensures Range(v) >= 0
    ensures v.batteryLevel == 0.0 ==> Range(v) == 0
    ensures v.batteryLevel <= level ==> Range(v) <= Range(v.(batteryLevel := level))
  {
    var c, l := v.batteryCapacity, v.batteryLevel;
    assert c * 6.5 * (l / 100.0) == (c * l) * 0.065;
    assert c * 6.5 * (level / 100.0) == (c * level) * 0.065;
    if l <= level {
      assert c * level - c * l == c * (level - l);
      MulNonNegative(c, level - l);
    }
    MulNonNegative(c, l);
  }

  lemma {:induction false} MulNonNegative(x: real, y: real)
    requires x >= 0.0 && y >= 0.0
    ensures x * y >= 0.0
  {
  }

  /** The percentage shown: the level rounded down. */
  function PercentShown(v: Vehicle): (p: int)
    ensures p as real <= v.batteryLevel < p as real + 1.0
  {
    v.batteryLevel.Floor
  }

  /** The battery icon turns red below 20. */
  predicate LowBattery(v: Vehicle) {
    v.batteryLevel < 20.0
  }

  /** The red icon and the number shown agree: the battery is low exactly
      when the percentage shown is below 20. */
  lemma {:induction false} LowBatteryMatchesPercent(v: Vehicle)
    ensures LowBattery(v) <==> PercentShown(v) < 20
  {
  }

  predicate IsLive(s: Station) {
    s.stationType == Hyper || s.stationType == Fast || s.stationType == Mechanic
  }

  /** `liveResources` */
  function LiveResources(ss: seq<Station>): seq<Station> {
    Filter(ss, IsLive)
  }

  /** The live cards are exactly the stations that are not Standard, in
      their order. */
  lemma {:induction false} LiveResourcesSpec(ss: seq<Station>, a: seq<Station>, b: seq<Station>)
    ensures forall s :: s in LiveResources(ss) <==> s in ss && s.stationType != Standard
    ensures LiveResources(a + b) == LiveResources(a) + LiveResources(b)
  {
    forall s | s in ss && s.stationType != Standard ensures s in LiveResources(ss) {
      var i :| 0 <= i < |ss| && ss[i] == s;
    }
    FilterAppend(a, b, IsLive);
  }

  /** A live card shows at most the first two of the station's slots. */
  function CardSlots(s: Station): (r: seq<string>)
    ensures |r| <= 2
    ensures s.availableSlots.None? ==> r == []
    ensures s.availableSlots.Some? ==> |r| <= |s.availableSlots.value| && r == s.availableSlots.value[..|r|]
    ensures s.availableSlots.Some? && |s.availableSlots.value| >= 2 ==> |r| == 2
    ensures s.availableSlots.Some? && |s.availableSlots.value| < 2 ==> r == s.availableSlots.value
  {
    match s.availableSlots
    case Some(slots) => Take(slots, 2)
    case None => []
  }

  /** The station filter each of the three service buttons selects. */
  const ServiceButtons: seq<StationFilter> := [OfType(Fast), OfType(Standard), OfType(Mechanic)]

  /** Between them the three buttons cover every station type, each type
      by exactly one button: Hyper stations are found under the fast
      charging button. */
  lemma {:induction false} ServiceButtonsPartitionTypes(t: StationType)
    ensures exists i :: 0 <= i < |ServiceButtons| && MatchesType(ServiceButtons[i], t)
    ensures forall i, j :: 0 <= i < j < |ServiceButtons| ==>
              !(MatchesType(ServiceButtons[i], t) && MatchesType(ServiceButtons[j], t))
    ensures t == Hyper ==> MatchesType(ServiceButtons[0], t)
  {
    var i := match t case Fast => 0 case Hyper => 0 case Standard => 1 case Mechanic => 2;
    assert MatchesType(ServiceButtons[i], t);
  }

  /** The recent history: at most the first booking. */
  function RecentHistory(bs: seq<Booking>): (r: seq<Booking>)
    ensures |r| <= 1
    ensures r == [] <==> bs == []
    ensures r != [] ==> r[0] == bs[0]
  {
    Take(bs, 1)
  }

  /** The 'No recent history' line. */
  predicate NoHistoryShown(bs: seq<Booking>) {
    |bs| == 0
  }

  /** The empty message shows exactly when no booking is shown, and a new
      booking is the one shown next. */
  lemma {:induction false} RecentHistorySpec(bs: seq<Booking>, b: Booking)
    ensures NoHistoryShown(bs) <==> RecentHistory(bs) == []
    ensures RecentHistory([b] + bs) == [b]
  {
  }
}
