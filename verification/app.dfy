/** The application shell: the signed-in user, the current view, the station
    filter, the vehicle and the booking list, the three stored records they
    are saved to, and the handlers and effects that change them. */
module App {
  import opened Types
  import opened Fixtures

  /** The views each role may stay on: a provider the provider views and
      the profile, a driver every view without the provider prefix. */
  predicate Permitted(role: UserRole, v: AppView) {
    match role
    case Provider => IsProviderView(v) || v == Profile
    case Driver => !IsProviderView(v)
  }

  /** The view a role lands on after signing in. */
  function RoleHome(role: UserRole): (v: AppView)
    ensures Permitted(role, v)
  {
    match role
    case Provider => ProviderDashboard
    case Driver => ProviderPrefixedViews(Dashboard); Dashboard
  }

  /** The redirect the user effect applies after every change of the user
      or of the view: a view the role may stay on is kept, any other one is
      replaced by the role's home. */
  function Reconcile(role: UserRole, v: AppView): (r: AppView)
    ensures Permitted(role, r)
    ensures r == v <==> Permitted(role, v)
    ensures r != v ==> r == RoleHome(role)
  {
    if role == Provider && !IsProviderView(v) && v != Profile then ProviderDashboard
    else if role == Driver && IsProviderView(v) then RoleHome(Driver)
    else v
  }

  /** The redirect lands on a view it leaves alone, so the effect it
      triggers by changing the view changes nothing more. */
  lemma {:induction false} ReconcileIdempotent(role: UserRole, v: AppView)
    ensures Reconcile(role, Reconcile(role, v)) == Reconcile(role, v)
  {
  }

  /** The concrete redirects: a provider is sent from the driver views
      (profile excepted) to the provider dashboard, a driver from the three
      provider views to the dashboard. */
  lemma {:induction false} ReconcileRedirects(v: AppView)
    ensures Reconcile(Provider, v) != v <==> v in {Dashboard, Stations, Services, Bookings, Admin}
    ensures Reconcile(Driver, v) != v <==> v in {ProviderDashboard, ProviderServices, ProviderBookings}
  {
    ProviderPrefixedViews(v);
  }

  /** The view the user effect leaves in place: reconciled while someone is
      signed in, untouched otherwise. */
  function Settle(user: Option<User>, v: AppView): (r: AppView)
    ensures user.Some? ==> Permitted(user.value.role, r)
    ensures user.None? ==> r == v
  {
    if user.Some? then Reconcile(user.value.role, v) else v
  }

  /** The first view: the provider dashboard exactly when a stored user is
      a provider. */
  function InitialView(stored: Option<User>): (v: AppView)
    ensures v == ProviderDashboard <==> stored.Some? && stored.value.role == Provider
    ensures v != ProviderDashboard ==> v == Dashboard
    ensures stored.Some? ==> v == RoleHome(stored.value.role)
  {
    if stored.Some? && stored.value.role == Provider then ProviderDashboard else Dashboard
  }

  /** The three records kept in the browser's storage, each possibly
      absent. */
  datatype Storage = Storage(user: Option<User>, vehicle: Option<Vehicle>, bookings: Option<seq<Booking>>)

  const EmptyStorage: Storage := Storage(None, None, None)

  /** What the shell renders. */
  datatype Screen =
    | SignUpScreen | DashboardScreen | StationsScreen | MechanicsScreen | BookingsScreen
    | ProviderDashboardScreen | ProviderBookingsScreen | ProfileScreen | AdminScreen

  /** `renderView`: a view without a case of its own, which is only
      provider_services, gets the driver dashboard. */
  function ScreenFor(v: AppView): (s: Screen)
    ensures s != SignUpScreen
    ensures s == DashboardScreen <==> v == Dashboard || v == ProviderServices
  {
    match v
    case Dashboard => DashboardScreen
    case Stations => StationsScreen
    case Services => MechanicsScreen
    case Bookings => BookingsScreen
    case ProviderDashboard => ProviderDashboardScreen
    case ProviderBookings => ProviderBookingsScreen
    case Profile => ProfileScreen
    case Admin => AdminScreen
    case ProviderServices => DashboardScreen
  }

  /** One step of the charging interval: half a point up, never past 100. */
  function TickLevel(l: real): (r: real)
    ensures r <= 100.0
    ensures l < 100.0 ==> l < r && r - l <= 0.5
    ensures r < 100.0 ==> r == l + 0.5
  {
    if l + 0.5 < 100.0 then l + 0.5 else 100.0
  }

  /** The interval runs while the vehicle is charging and below 100. */
  predicate Armed(v: Vehicle) {
    v.isCharging && v.batteryLevel < 100.0
  }

  function Ceil(x: real): (n: int)
    ensures x <= n as real < x + 1.0
  {
    -((-x).Floor)
  }

  /** How many ticks take the level `l` to 100. */
  function StepsToFull(l: real): nat {
    if l >= 100.0 then 0 else Ceil(2.0 * (100.0 - l))
  }

  /** Each tick below 100 brings the level one step nearer to full. */
  lemma {:induction false} TickStep(l: real)
    requires l < 100.0
    ensures StepsToFull(l) > 0
    ensures StepsToFull(TickLevel(l)) + 1 == StepsToFull(l)
  {
    if l + 0.5 < 100.0 {
      assert 2.0 * (100.0 - TickLevel(l)) == 2.0 * (100.0 - l) - 1.0;
    }
  }

  /** The level after `n` ticks. */
  function Iterate(l: real, n: nat): real
    decreases n
  {
    if n == 0 then l else Iterate(TickLevel(l), n - 1)
  }

  /** From any level up to 100, the ticks climb strictly, stay below 100
      until the last one, and the last one lands exactly on 100. */
  lemma {:induction false} ChargesToFull(l: real)
    requires l <= 100.0
    ensures Iterate(l, StepsToFull(l)) == 100.0
    ensures forall k :: 0 <= k < StepsToFull(l) ==> Iterate(l, k) < 100.0 && Iterate(l, k) < Iterate(l, k + 1)
    decreases StepsToFull(l)
  {
    if l < 100.0 {
      TickStep(l);
      ChargesToFull(TickLevel(l));
      forall k | 0 <= k < StepsToFull(l)
        ensures Iterate(l, k) < 100.0 && Iterate(l, k) < Iterate(l, k + 1)
      {
        if k > 0 {
          assert Iterate(l, k) == Iterate(TickLevel(l), k - 1);
        }
      }
    }
  }

  /** The application shell's state. */
  class Session {
    var user: Option<User>
    var currentView: AppView
    var stationFilter: StationFilter
    var vehicle: Vehicle
    var bookings: seq<Booking>
    var store: Storage

    /** What the effects keep true between handlers: the stored user is the
        signed-in one, a stored vehicle or booking list is the one in
        memory, and a signed-in user is on a view their role may stay on. */
    predicate Valid()
      reads this
    {
      && store.user == user
      && (store.vehicle.Some? ==> store.vehicle.value == vehicle)
      && (store.bookings.Some? ==> store.bookings.value == bookings)
      && (user.Some? ==> Permitted(user.value.role, currentView))
    }

    /** The sign-up screen while nobody is signed in, else the view's. */
    function Screen(): (s: Screen)
      reads this
      ensures s == SignUpScreen <==> user.None?
    {
      if user.None? then SignUpScreen else ScreenFor(currentView)
    }

    /** Mounting the shell: each cell is read from storage or falls back to
        its seed, then the effects write all three records back. */
    constructor (saved: Storage)
      ensures Valid()
      ensures user == saved.user
      ensures currentView == InitialView(saved.user)
      ensures stationFilter == AllTypes
      ensures vehicle == saved.vehicle.GetOr(InitialVehicle)
      ensures bookings == saved.bookings.GetOr(InitialBookings)
      ensures store == Storage(saved.user, Some(vehicle), Some(bookings))
    {
      user := saved.user;
      currentView := InitialView(saved.user);
      stationFilter := AllTypes;
      vehicle := saved.vehicle.GetOr(InitialVehicle);
      bookings := saved.bookings.GetOr(InitialBookings);
      new;
      store := Storage(user, Some(vehicle), Some(bookings));
    }

    /** `handleAddBooking`: the booking goes first; a charging booking also
        starts charging and moves to the dashboard. */
    method AddBooking(b: Booking)
      requires Valid()
      modifies this
      ensures Valid()
      ensures bookings == [b] + old(bookings)
      ensures b.kind == Charging ==> vehicle == old(vehicle).(isCharging := true)
      ensures b.kind != Charging ==> vehicle == old(vehicle) && currentView == old(currentView)
      ensures b.kind == Charging ==> currentView == Settle(user, Dashboard)
      ensures user == old(user) && stationFilter == old(stationFilter)
      ensures store == Storage(old(store).user, if b.kind == Charging then Some(vehicle) else old(store).vehicle, Some(bookings))
    {
      bookings := [b] + bookings;
      store := store.(bookings := Some(bookings));
      if b.kind == Charging {
        vehicle := vehicle.(isCharging := true);
        store := store.(vehicle := Some(vehicle));
        currentView := Settle(user, Dashboard);
      }
    }

    /** One firing of the charging interval, which runs whoever is signed
        in: a no-op unless the vehicle is charging below 100. */
    method Tick()
      requires Valid()
      modifies this
      ensures Valid()
      ensures Armed(old(vehicle)) ==> vehicle == old(vehicle).(batteryLevel := TickLevel(old(vehicle).batteryLevel))
      ensures Armed(old(vehicle)) ==> store == old(store).(vehicle := Some(vehicle))
      ensures !Armed(old(vehicle)) ==> vehicle == old(vehicle) && store == old(store)
      ensures user == old(user) && currentView == old(currentView)
      ensures stationFilter == old(stationFilter) && bookings == old(bookings)
    {
      if Armed(vehicle) {
        vehicle := vehicle.(batteryLevel := TickLevel(vehicle.batteryLevel));
        store := store.(vehicle := Some(vehicle));
      }
    }

    /** The interval left to run until it stops itself: a charging vehicle
        below 100 ends at exactly 100, still charging, after StepsToFull
        ticks; any other vehicle is left as it is. */
    method ChargeUntilStopped() returns (ticks: nat)
      requires Valid()
      modifies this
      ensures Valid()
      ensures Armed(old(vehicle)) ==> vehicle == old(vehicle).(batteryLevel := 100.0)
      ensures Armed(old(vehicle)) ==> ticks == StepsToFull(old(vehicle).batteryLevel)
      ensures !Armed(old(vehicle)) ==> vehicle == old(vehicle) && ticks == 0
      ensures !Armed(vehicle)
      ensures Armed(old(vehicle)) ==> store == old(store).(vehicle := Some(vehicle))
      ensures !Armed(old(vehicle)) ==> store == old(store)
      ensures user == old(user) && currentView == old(currentView)
      ensures stationFilter == old(stationFilter) && bookings == old(bookings)
    {
      var start := vehicle;
      ticks := 0;
      if Armed(start) {
        ChargesToFull(start.batteryLevel);
      }
      while Armed(vehicle)
        invariant Valid()
        invariant user == old(user) && currentView == old(currentView)
        invariant stationFilter == old(stationFilter) && bookings == old(bookings)
        invariant !Armed(start) ==> vehicle == start && ticks == 0
        invariant Armed(start) ==> vehicle == start.(batteryLevel := Iterate(start.batteryLevel, ticks))
        invariant Armed(start) ==> ticks + StepsToFull(vehicle.batteryLevel) == StepsToFull(start.batteryLevel)
        invariant ticks == 0 ==> store == old(store)
        invariant ticks > 0 ==> store == old(store).(vehicle := Some(vehicle))
        decreases StepsToFull(vehicle.batteryLevel)
      {
        TickStep(vehicle.batteryLevel);
        assert Iterate(start.batteryLevel, ticks + 1) == TickLevel(Iterate(start.batteryLevel, ticks)) by {
          IterateLast(start.batteryLevel, ticks);
        }
        Tick();
        ticks := ticks + 1;
      }
    }

    /** `handleLogin`: the new user and vehicle, and the role's home view. */
    method Login(u: User, v: Vehicle)
      requires Valid()
      modifies this
      ensures Valid()
      ensures user == Some(u) && vehicle == v && currentView == RoleHome(u.role)
      ensures stationFilter == old(stationFilter) && bookings == old(bookings)
      ensures store == old(store).(user := Some(u), vehicle := Some(v))
    {
      user := Some(u);
      vehicle := v;
      currentView := RoleHome(u.role);
      store := store.(user := Some(u), vehicle := Some(v));
    }

    /** `handleLogout`: nobody signed in, storage emptied, the dashboard
        selected; the vehicle and bookings stay in memory, unsaved. */
    method Logout()
      requires Valid()
      modifies this
      ensures Valid()
      ensures user == None && currentView == Dashboard && store == EmptyStorage
      ensures Screen() == SignUpScreen
      ensures stationFilter == old(stationFilter) && vehicle == old(vehicle) && bookings == old(bookings)
    {
      user := None;
      store := EmptyStorage;
      currentView := Dashboard;
    }

    /** `setCurrentView` from a tab, a header avatar or a dashboard link,
        followed by the user effect's redirect. */
    method Navigate(v: AppView)
      requires Valid()
      modifies this
      ensures Valid()
      ensures currentView == Settle(user, v)
      ensures user == old(user) && stationFilter == old(stationFilter)
      ensures vehicle == old(vehicle) && bookings == old(bookings) && store == old(store)
    {
      currentView := Settle(user, v);
    }

    /** `navigateToStations`: set the filter and go to the station list. */
    method NavigateToStations(f: StationFilter)
      requires Valid()
      modifies this
      ensures Valid()
      ensures stationFilter == f && currentView == Settle(user, Stations)
      ensures user == old(user) && vehicle == old(vehicle) && bookings == old(bookings) && store == old(store)
    {
      stationFilter := f;
      currentView := Settle(user, Stations);
    }

    /** `setStationFilter`, called by the station list. */
    method SetStationFilter(f: StationFilter)
      requires Valid()
      modifies this
      ensures Valid()
      ensures stationFilter == f
      ensures user == old(user) && currentView == old(currentView)
      ensures vehicle == old(vehicle) && bookings == old(bookings) && store == old(store)
    {
      stationFilter := f;
    }

    /** `setBookings`, called with a whole new list by the two booking
        screens; the bookings effect saves it. */
    method SetBookings(bs: seq<Booking>)
      requires Valid()
      modifies this
      ensures Valid()
      ensures bookings == bs && store == old(store).(bookings := Some(bs))
      ensures user == old(user) && currentView == old(currentView)
      ensures stationFilter == old(stationFilter) && vehicle == old(vehicle)
    {
      bookings := bs;
      store := store.(bookings := Some(bs));
    }

    /** `setVehicle`, called with a whole record by the profile screen. */
    method SetVehicle(v: Vehicle)
      requires Valid()
      modifies this
      ensures Valid()
      ensures vehicle == v && store == old(store).(vehicle := Some(v))
      ensures user == old(user) && currentView == old(currentView)
      ensures stationFilter == old(stationFilter) && bookings == old(bookings)
    {
      vehicle := v;
      store := store.(vehicle := Some(v));
    }

    /** `setUser`, called with a whole record by the profile screen; the
        user effect saves it and redirects for its role. */
    method SetUser(u: User)
      requires Valid()
      modifies this
      ensures Valid()
      ensures user == Some(u) && store == old(store).(user := Some(u))
      ensures currentView == Reconcile(u.role, old(currentView))
      ensures stationFilter == old(stationFilter) && vehicle == old(vehicle) && bookings == old(bookings)
    {
      user := Some(u);
      store := store.(user := Some(u));
      currentView := Reconcile(u.role, currentView);
    }
  }

  lemma {:induction false} IterateLast(l: real, n: nat)
    ensures Iterate(l, n + 1) == TickLevel(Iterate(l, n))
    decreases n
  {
    if n > 0 {
      IterateLast(TickLevel(l), n - 1);
    }
  }
}
