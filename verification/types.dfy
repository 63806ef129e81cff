/** The shared value types of the marketplace: stations, services, bookings,
    vehicles, users and the application's views. */
module Types {

  datatype Option<T> = None | Some(value: T) {
    function GetOr(default: T): T {
      match this
      case Some(v) => v
      case None => default
    }
  }

  datatype StationType = Fast | Standard | Hyper | Mechanic

  /** The station-type filter: a type, or 'All'. */
  datatype StationFilter = AllTypes | OfType(stationType: StationType)

  datatype BookingStatus = Pending | Confirmed | Completed | Cancelled

  datatype PaymentMethod = Online | Cash

  datatype AppView =
    | Dashboard | Stations | Services | Bookings | Profile | Admin
    | ProviderDashboard | ProviderServices | ProviderBookings

  datatype VehicleType = TwoWheeler | ThreeWheeler | FourWheeler

  /** The source spells the driver role 'user'. */
  datatype UserRole = Driver | Provider

  datatype BusinessType = FastCharging | EVMechanic | NormalInstaller

  /** The `type` field of a booking. */
  datatype BookingKind = Charging | MechanicVisit | Installation

  datatype Availability = Available | Occupied | Maintenance

  /** A station's `price` is a number with at most two decimals; it is kept
      here in hundredths so that the text the views print from it is exact. */
  datatype Station = Station(
    id: string,
    name: string,
    lat: real,
    lng: real,
    stationType: StationType,
    status: Availability,
    priceCents: nat,
    distance: string,
    address: string,
    availableSlots: Option<seq<string>>)

  datatype MechanicService = MechanicService(
    id: string,
    title: string,
    description: string,
    priceCents: nat,
    icon: string)

  /** A booking; its price is display text such as "₹450.00", not a number. */
  datatype Booking = Booking(
    id: string,
    kind: BookingKind,
    title: string,
    date: string,
    time: string,
    status: BookingStatus,
    price: string,
    paymentMethod: PaymentMethod,
    location: string,
    vehicleId: string,
    userName: Option<string>,
    userAvatar: Option<string>)

  datatype Vehicle = Vehicle(
    id: string,
    vehicleType: VehicleType,
    brand: string,
    model: string,
    batteryCapacity: real,
    batteryLevel: real,
    isCharging: bool)

  /** An optional numeric capacity field of a user: left out of the record,
      NaN (what parseInt gives for text without digits), or a number. */
  datatype CountField = Unset | NaN | Count(n: int)

  datatype User = User(
    id: string,
    name: string,
    email: string,
    isPro: bool,
    avatar: string,
    role: UserRole,
    businessType: Option<BusinessType>,
    plugCount: CountField,
    technicianCount: CountField)

  /** The identifier the source uses for each view. */
  function ViewId(v: AppView): string {
    match v
    case Dashboard => "dashboard"
    case Stations => "stations"
    case Services => "services"
    case Bookings => "bookings"
    case Profile => "profile"
    case Admin => "admin"
    case ProviderDashboard => "provider_dashboard"
    case ProviderServices => "provider_services"
    case ProviderBookings => "provider_bookings"
  }

  const ProviderPrefix: string := "provider_"

  /** `view.startsWith('provider_')` */
  predicate IsProviderView(v: AppView) {
    |ProviderPrefix| <= |ViewId(v)| && ViewId(v)[..|ProviderPrefix|] == ProviderPrefix
  }

  /** The status names, as the views print them and compare them. */
  function StatusName(s: BookingStatus): string {
    match s
    case Pending => "Pending"
    case Confirmed => "Confirmed"
    case Completed => "Completed"
    case Cancelled => "Cancelled"
  }

  /** Of the nine views exactly three carry the provider prefix, and the
      identifiers tell the views apart. */
  lemma {:induction false} ProviderPrefixedViews(v: AppView)
    ensures IsProviderView(v) <==> v in {ProviderDashboard, ProviderServices, ProviderBookings}
    ensures forall w :: ViewId(w) == ViewId(v) ==> w == v
  {
    match v
    case Dashboard => assert ViewId(v)[0] != ProviderPrefix[0];
    case Stations => assert ViewId(v)[0] != ProviderPrefix[0];
    case Services => assert ViewId(v)[0] != ProviderPrefix[0];
    case Bookings => assert ViewId(v)[0] != ProviderPrefix[0];
    case Profile => assert ViewId(v)[3] != ProviderPrefix[3];
    case Admin => assert ViewId(v)[0] != ProviderPrefix[0];
    case _ =>
  }
}
