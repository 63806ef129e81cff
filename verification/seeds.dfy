/** Facts about the seed data: the stations, the services, the vehicle and
    the booking the application starts from. */
module SeedFacts {
  import opened Types
  import opened Text
  import opened Numbers
  import opened Collections
  import opened Pricing
  import opened BookingList
  import opened ProviderStats
  import opened Fixtures
  import opened Mechanics
  import opened DashboardFigures

  /** The five stations have distinct ids and each lists some slots. */
  lemma SeedStationsWellFormed()
    ensures |MockStations| == 5
    ensures forall i, j :: 0 <= i < j < |MockStations| ==> MockStations[i].id != MockStations[j].id
    ensures forall i :: 0 <= i < |MockStations| ==>
              MockStations[i].availableSlots.Some? && |MockStations[i].availableSlots.value| > 0
  {
  }

  function OfStationType(ss: seq<Station>, t: StationType): seq<Station> {
    Filter(ss, (s: Station) => s.stationType == t)
  }

  /** The part of `Filter` one element contributes. */
  function Kept<T>(x: T, p: T -> bool): seq<T> {
    if p(x) then [x] else []
  }

  /** `Filter` peels off its first element. */
  lemma {:induction false} FilterUnfold<T>(s: seq<T>, p: T -> bool)
    requires s != []
    ensures Filter(s, p) == Kept(s[0], p) + Filter(s[1..], p)
  {
  }

  lemma {:induction false} FilterOfTwo<T>(s: seq<T>, p: T -> bool)
    requires |s| == 2
    ensures Filter(s, p) == Kept(s[0], p) + Kept(s[1], p)
  {
    assert s[1..][1..] == [];
    FilterUnfold(s[1..], p);
    assert Filter(s[1..], p) == Kept(s[1], p);
    FilterUnfold(s, p);
  }

  lemma {:induction false} FilterOfThree<T>(s: seq<T>, p: T -> bool)
    requires |s| == 3
    ensures Filter(s, p) == Kept(s[0], p) + (Kept(s[1], p) + Kept(s[2], p))
  {
    FilterOfTwo(s[1..], p);
    FilterUnfold(s, p);
  }

  lemma {:induction false} FilterOfFour<T>(s: seq<T>, p: T -> bool)
    requires |s| == 4
    ensures Filter(s, p) == Kept(s[0], p) + (Kept(s[1], p) + (Kept(s[2], p) + Kept(s[3], p)))
  {
    FilterOfThree(s[1..], p);
    FilterUnfold(s, p);
  }

  /** `Filter` from position `k` on: the element at `k`, if kept, before
      what is kept after it. */
  lemma {:induction false} FilterStep<T>(s: seq<T>, k: int, p: T -> bool, rest: seq<T>)
    requires 0 <= k < |s| && Filter(s[k + 1..], p) == rest
    ensures Filter(s[k..], p) == if p(s[k]) then [s[k]] + rest else rest
  {
    assert s[k..][1..] == s[k + 1..];
    FilterUnfold(s[k..], p);
  }

  /** `Filter` over five elements, one element at a time. */
  lemma {:induction false} FilterOfFive<T>(s: seq<T>, p: T -> bool)
    requires |s| == 5
    ensures Filter(s, p) == Kept(s[0], p) + (Kept(s[1], p) + (Kept(s[2], p) + (Kept(s[3], p) + Kept(s[4], p))))
  {
    FilterOfFour(s[1..], p);
    FilterUnfold(s, p);
  }

  /** Over five stations, the ones of type `t` are those the mask picks. */
  lemma {:induction false} OfTypeOfFive(ss: seq<Station>, t: StationType)
    requires |ss| == 5
    ensures OfStationType(ss, t) ==
      Kept(ss[0], (s: Station) => s.stationType == t) + (Kept(ss[1], (s: Station) => s.stationType == t)
      + (Kept(ss[2], (s: Station) => s.stationType == t) + (Kept(ss[3], (s: Station) => s.stationType == t)
      + Kept(ss[4], (s: Station) => s.stationType == t))))
  {
    FilterOfFive(ss, (s: Station) => s.stationType == t);
  }

  /** Over five stations of which only the third is Standard, the Standard
      list is that station. */
  lemma {:induction false} StandardOfFive(ss: seq<Station>)
    requires |ss| == 5
    requires ss[2].stationType == Standard
    requires forall i :: 0 <= i < 5 && i != 2 ==> ss[i].stationType != Standard
    ensures OfStationType(ss, Standard) == [ss[2]]
  {
    OfTypeOfFive(ss, Standard);
    assert ss[0].stationType != Standard && ss[1].stationType != Standard;
    assert ss[3].stationType != Standard && ss[4].stationType != Standard;
  }

  /** Over five stations of which only the last two are mechanics, the
      mechanic list is those two. */
  lemma {:induction false} MechanicsOfFive(ss: seq<Station>)
    requires |ss| == 5
    requires ss[3].stationType == Mechanic && ss[4].stationType == Mechanic
    requires forall i :: 0 <= i < 3 ==> ss[i].stationType != Mechanic
    ensures OfStationType(ss, Mechanic) == [ss[3], ss[4]]
  {
    OfTypeOfFive(ss, Mechanic);
    assert ss[0].stationType != Mechanic && ss[1].stationType != Mechanic && ss[2].stationType != Mechanic;
  }

  /** Exactly one seed station is Standard: s3. */
  lemma OneStandardStation()
    ensures OfStationType(MockStations, Standard) == [MockStations[2]] && MockStations[2].id == "s3"
  {
    StandardOfFive(MockStations);
  }

  /** Exactly two seed stations are mechanics: m1 and m2. */
  lemma TwoMechanicStations()
    ensures OfStationType(MockStations, Mechanic) == [MockStations[3], MockStations[4]]
    ensures MockStations[3].id == "m1" && MockStations[4].id == "m2"
  {
    MechanicsOfFive(MockStations);
  }

  /** Over five stations of which only the third is Standard, the live
      cards are the other four. */
  lemma {:induction false} LiveOfFive(ss: seq<Station>)
    requires |ss| == 5
    requires ss[2].stationType == Standard
    requires ss[0].stationType != Standard && ss[1].stationType != Standard
    requires ss[3].stationType != Standard && ss[4].stationType != Standard
    ensures LiveResources(ss) == [ss[0], ss[1], ss[3], ss[4]]
  {
    LiveFromOne(ss);
    FilterUnfold(ss, IsLive);
    assert Kept(ss[0], IsLive) == [ss[0]];
    ConsOntoThree(ss[0], ss[1], ss[3], ss[4]);
  }

  lemma ConsOntoThree<T>(a: T, b: T, c: T, d: T)
    ensures [a] + [b, c, d] == [a, b, c, d]
  {
  }

  lemma {:induction false} LiveFromOne(ss: seq<Station>)
    requires |ss| == 5
    requires ss[2].stationType == Standard
    requires ss[1].stationType != Standard && ss[3].stationType != Standard && ss[4].stationType != Standard
    ensures Filter(ss[1..], IsLive) == [ss[1], ss[3], ss[4]]
  {
    LiveFromThree(ss);
    assert !IsLive(ss[2]);
    FilterStep(ss, 2, IsLive, [ss[3], ss[4]]);
    assert IsLive(ss[1]);
    FilterStep(ss, 1, IsLive, [ss[3], ss[4]]);
  }

  lemma {:induction false} LiveFromThree(ss: seq<Station>)
    requires |ss| == 5
    requires ss[3].stationType != Standard && ss[4].stationType != Standard
    ensures Filter(ss[3..], IsLive) == [ss[3], ss[4]]
  {
    assert ss[5..] == [];
    assert IsLive(ss[4]);
    FilterStep(ss, 4, IsLive, []);
    assert IsLive(ss[3]);
    FilterStep(ss, 3, IsLive, [ss[4]]);
  }

  /** The live cards are the four seed stations that are not Standard. */
  lemma SeedLiveResources()
    ensures LiveResources(MockStations) == [MockStations[0], MockStations[1], MockStations[3], MockStations[4]]
  {
    LiveOfFive(MockStations);
  }

  /** A title whose lower-cased form has no 'l' cannot contain
      "installation". */
  lemma {:induction false} NoLMeansNoInstallation(title: string)
    requires 'l' !in Lower(title)
    ensures !IsInstallation(title)
  {
    if IsInstallation(title) {
      ContainedCharsOccur(Lower(title), "installation", 5);
      assert false;
    }
  }

  /** Lower-casing makes an 'l' only out of an 'l' or an 'L'. */
  lemma {:induction false} LowerKeepsOutL(s: string)
    requires 'l' !in s && 'L' !in s
    ensures 'l' !in Lower(s)
  {
    forall i | 0 <= i < |s| ensures Lower(s)[i] != 'l' {
      assert s[i] != 'l' && s[i] != 'L';
    }
  }

  /** A title holding a capital 'I' at position `k` followed by the rest
      of the word "installation" in lower case is an installation. */
  lemma {:induction false} InstallationAt(title: string, k: nat, rest: string)
    requires k + 1 + |rest| <= |title| && title[k] == 'I' && title[k + 1..k + 1 + |rest|] == rest
    requires forall j :: 0 <= j < |rest| ==> !('A' <= rest[j] <= 'Z')
    requires ['i'] + rest == "installation"
    ensures IsInstallation(title)
  {
    var low := Lower(title);
    var word := ['i'] + rest;
    forall j | 0 <= j < |word| ensures low[k + j] == word[j] {
      if j > 0 {
        assert title[k + j] == rest[j - 1];
      }
    }
    assert low[k..k + |word|] == word;
    assert OccursAt(low, "installation", k);
    ContainsIff(low, "installation");
  }

  /** A title with no 'l' in either case is not an installation. */
  lemma {:induction false} NoLetterL(title: string)
    requires 'l' !in title && 'L' !in title
    ensures !IsInstallation(title)
  {
    LowerKeepsOutL(title);
    NoLMeansNoInstallation(title);
  }

  lemma ServiceZero()
    ensures !IsInstallation(MechanicServices[0].title)
  {
    var title := MechanicServices[0].title;
    assert title == "Battery " + "Diagnostic";
    assert 'l' !in "Battery " && 'L' !in "Battery ";
    assert 'l' !in "Diagnostic" && 'L' !in "Diagnostic";
    NoLetterL(title);
  }

  lemma ServiceOne()
    ensures !IsInstallation(MechanicServices[1].title)
  {
    NoLetterL(MechanicServices[1].title);
  }

  lemma ServiceTwo()
    ensures !IsInstallation(MechanicServices[2].title)
  {
    NoLetterL(MechanicServices[2].title);
  }

  lemma {:induction false} HomeInstallation(title: string)
    requires title == "Home Installation"
    ensures IsInstallation(title)
  {
    var rest := "nstallation";
    assert title[5] == 'I' && title[6..17] == rest;
    assert forall j :: 0 <= j < |rest| ==> !('A' <= rest[j] <= 'Z');
    InstallationAt(title, 5, rest);
  }

  lemma ServiceThree()
    ensures IsInstallation(MechanicServices[3].title)
  {
    HomeInstallation(MechanicServices[3].title);
  }

  /** Of the four services only "Home Installation" is an installation. */
  lemma {:induction false} OneInstallationService(i: int)
    requires 0 <= i < |MechanicServices|
    ensures IsInstallation(MechanicServices[i].title) <==> i == 3
  {
    if i == 0 { ServiceZero(); }
    else if i == 1 { ServiceOne(); }
    else if i == 2 { ServiceTwo(); }
    else { ServiceThree(); }
  }

  /** The seed vehicle: 40.5 kWh at 65 %, not charging, which the
      dashboard shows as 65 % and 171 km. */
  lemma SeedVehicle()
    ensures InitialVehicle.batteryCapacity == 40.5 && InitialVehicle.batteryLevel == 65.0
    ensures !InitialVehicle.isCharging
    ensures PercentShown(InitialVehicle) == 65 && !LowBattery(InitialVehicle)
    ensures Range(InitialVehicle) == 171
  {
    assert 40.5 * 6.5 * (65.0 / 100.0) == 171.1125;
  }

  /** The seed price has no rupee sign, no comma and no leading number, so
      it reads as NaN. */
  lemma SeedPriceIsNaN()
    ensures PriceValue(SeedPrice) == None
  {
    assert Rupee !in SeedPrice;
    assert ',' !in SeedPrice;
    assert PriceText(SeedPrice) == SeedPrice;
    assert !StartsNumber(Unsigned(SeedPrice));
  }

  /** The seed booking is one Confirmed charging booking for the seed
      vehicle, and because its price reads as NaN both provider revenue
      figures over the seed list are NaN. */
  lemma SeedRevenueIsNaN()
    ensures |InitialBookings| == 1
    ensures InitialBookings[0].status == Confirmed && InitialBookings[0].kind == Charging
    ensures InitialBookings[0].vehicleId == InitialVehicle.id
    ensures DailyRevenue(InitialBookings) == None
    ensures DashboardRevenue(InitialBookings) == None
  {
    SeedPriceIsNaN();
    var b := InitialBookings[0];
    FilterSingle(b, Earning);
    FilterSingle(b, NotCancelled);
    TotalSingle(b);
  }
}
