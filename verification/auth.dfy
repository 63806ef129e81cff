/** The sign-up wizard: its steps, its form, and the user and vehicle
    records it hands to the shell on submit. */
module SignUp {
  import opened Types
  import opened Numbers
  import opened App
  import opened ProviderStats

  /** The wizard's steps. The declared 'role_select' step is never
      entered. */
  datatype Step = Credentials | RoleSelect | BusinessDetails | Onboarding

  /** The form. Every field is text as typed, except the vehicle type (a
      select whose options are the three types) and the business type,
      which is empty (None) until a business card is picked. */
  datatype Form = Form(
    name: string,
    email: string,
    password: string,
    vehicleType: VehicleType,
    brand: string,
    model: string,
    batteryCapacity: string,
    businessName: string,
    businessType: Option<BusinessType>,
    plugCount: string,
    technicianCount: string)

  const InitialForm: Form := Form("", "", "", FourWheeler, "", "", "75", "", None, "4", "2")

  /** The text inputs, by their `name` attribute. */
  datatype Field = Name | Email | Password | Brand | Model | BatteryCapacity | BusinessName | PlugCount | TechnicianCount

  /** `handleChange`: the named field takes the typed text. */
  function SetField(f: Form, field: Field, value: string): Form {
    match field
    case Name => f.(name := value)
    case Email => f.(email := value)
    case Password => f.(password := value)
    case Brand => f.(brand := value)
    case Model => f.(model := value)
    case BatteryCapacity => f.(batteryCapacity := value)
    case BusinessName => f.(businessName := value)
    case PlugCount => f.(plugCount := value)
    case TechnicianCount => f.(technicianCount := value)
  }

  function FieldValue(f: Form, field: Field): string {
    match field
    case Name => f.name
    case Email => f.email
    case Password => f.password
    case Brand => f.brand
    case Model => f.model
    case BatteryCapacity => f.batteryCapacity
    case BusinessName => f.businessName
    case PlugCount => f.plugCount
    case TechnicianCount => f.technicianCount
  }

  /** An edit sets its own field and no other, and never touches the
      vehicle type or the business type. */
  lemma {:induction false} SetFieldFrame(f: Form, field: Field, other: Field, value: string)
    ensures FieldValue(SetField(f, field, value), field) == value
    ensures other != field ==> FieldValue(SetField(f, field, value), other) == FieldValue(f, other)
    ensures SetField(f, field, value).vehicleType == f.vehicleType
    ensures SetField(f, field, value).businessType == f.businessType
  {
  }

  /** `parseInt` of a count field: NaN when there is no digit. */
  function ParseCount(s: string): (c: CountField)
    ensures c != Unset
    ensures c.NaN? <==> ParseInt(s).None?
  {
    match ParseInt(s)
    case None => NaN
    case Some(n) => Count(n)
  }

  predicate Staffed(t: Option<BusinessType>) {
    t == Some(EVMechanic) || t == Some(NormalInstaller)
  }

  /** The user `handleSubmit` builds. */
  function NewUser(role: UserRole, f: Form, id: string): (u: User)
    ensures u.id == id && u.role == role && u.email == f.email && u.isPro
    ensures u.name == if role == Provider then f.businessName else f.name
    ensures role == Driver ==> u.businessType == None && u.plugCount == Unset && u.technicianCount == Unset
    ensures role == Provider ==> u.businessType == Some(f.businessType.GetOr(FastCharging))
    ensures u.plugCount != Unset <==> role == Provider && f.businessType == Some(FastCharging)
    ensures u.technicianCount != Unset <==> role == Provider && Staffed(f.businessType)
    ensures u.plugCount != Unset ==> u.plugCount == ParseCount(f.plugCount)
    ensures u.technicianCount != Unset ==> u.technicianCount == ParseCount(f.technicianCount)
  {
    User(id,
         if role == Provider then f.businessName else f.name,
         f.email,
         true,
         Avatar(role, f),
         role,
         if role == Provider then Some(f.businessType.GetOr(FastCharging)) else None,
         if role == Provider && f.businessType == Some(FastCharging) then ParseCount(f.plugCount) else Unset,
         if role == Provider && Staffed(f.businessType) then ParseCount(f.technicianCount) else Unset)
  }

  /** The avatar address: robots for providers, faces for drivers, seeded
      by the personal name or, when that is empty, the business name. */
  function Avatar(role: UserRole, f: Form): string {
    "https://api.dicebear.com/7.x/" + (if role == Provider then "bottts" else "avataaars")
    + "/svg?seed=" + (if f.name != "" then f.name else f.businessName)
  }

  /** `parseFloat(capacity) || 75`: NaN and 0 both give 75. */
  function Capacity(text: string): (c: real)
    ensures c != 0.0
    ensures ParseFloat(text).Some? && ParseFloat(text).value != 0.0 ==> c == ParseFloat(text).value
    ensures ParseFloat(text).None? || ParseFloat(text) == Some(0.0) ==> c == 75.0
  {
    match ParseFloat(text)
    case Some(x) => if x != 0.0 then x else 75.0
    case None => 75.0
  }

  /** The vehicle `handleSubmit` builds. */
  function NewVehicle(f: Form, id: string): (v: Vehicle)
    ensures v.id == id && v.vehicleType == f.vehicleType && v.brand == f.brand && v.model == f.model
    ensures v.batteryCapacity == Capacity(f.batteryCapacity)
    ensures v.batteryLevel == 65.0 && !v.isCharging
  {
    Vehicle(id, f.vehicleType, f.brand, f.model, Capacity(f.batteryCapacity), 65.0, false)
  }

  /** A capacity typed as a positive whole number is taken as typed; the
      untouched field gives 75, and so does text with no number in it. */
  lemma {:induction false} CapacityExamples(n: nat)
    requires n > 0
    ensures Capacity(NatText(n)) == n as real
    ensures Capacity(InitialForm.batteryCapacity) == 75.0
    ensures Capacity("kWh") == 75.0
  {
    WholeCapacity(n);
    UntouchedCapacity();
    NoNumberCapacity();
  }

  lemma {:induction false} WholeCapacity(n: nat)
    requires n > 0
    ensures Capacity(NatText(n)) == n as real
  {
    NatTextThenStop(n, []);
    assert NatText(n) + [] == NatText(n);
  }

  lemma UntouchedCapacity()
    ensures Capacity(InitialForm.batteryCapacity) == 75.0
  {
    var t := InitialForm.batteryCapacity;
    assert t == NatText(75) + [] by {
      assert NatText(7) == "7";
    }
    NatTextThenStop(75, []);
  }

  lemma NoNumberCapacity()
    ensures Capacity("kWh") == 75.0
  {
    var t := "kWh";
    assert Unsigned(t) == t;
    assert !StartsNumber(t);
  }

  /** A count typed as a whole number is stored as that number. */
  lemma {:induction false} CountRoundTrip(n: nat)
    ensures ParseCount(NatText(n)) == Count(n)
  {
    ParseIntNatText(n);
  }

  /** A provider whose business type was never picked becomes a Fast
      Charging provider without a plug count, so the dashboard falls back
      to 4 plugs; a picked Fast Charging type keeps the typed count. */
  lemma {:induction false} DefaultedBusinessType(f: Form, id: string, n: nat)
    ensures f.businessType == None ==>
              NewUser(Provider, f, id).businessType == Some(FastCharging)
              && NewUser(Provider, f, id).plugCount == Unset
              && ResourceCount(NewUser(Provider, f, id)) == 4
    ensures f.businessType == Some(FastCharging) && f.plugCount == NatText(n) && n != 0 ==>
              ResourceCount(NewUser(Provider, f, id)) == n
  {
    ParseIntNatText(n);
  }

  /** Which form the wizard shows. */
  datatype Panel = CredentialsPanel | BusinessPanel | OnboardingPanel

  /** The sign-up wizard's state. */
  class Wizard {
    var step: Step
    var role: UserRole
    var form: Form

    /** The steps the buttons can reach: never role_select, business
        details only for a provider, and a provider reaches onboarding
        only by picking a business type. */
    predicate Valid()
      reads this
    {
      && step != RoleSelect
      && (step == BusinessDetails ==> role == Provider)
      && (step == Onboarding && role == Provider ==> form.businessType.Some?)
    }

    /** The render: the credentials form on that step, the business cards
        on business details for a provider, the onboarding form otherwise. */
    function Shown(): (p: Panel)
      reads this
      ensures Valid() ==> (p == CredentialsPanel <==> step == Credentials)
      ensures Valid() ==> (p == BusinessPanel <==> step == BusinessDetails)
      ensures Valid() ==> (p == OnboardingPanel <==> step == Onboarding)
    {
      if step == Credentials then CredentialsPanel
      else if step == BusinessDetails && role == Provider then BusinessPanel
      else OnboardingPanel
    }

    constructor ()
      ensures Valid()
      ensures step == Credentials && role == Driver && form == InitialForm
    {
      step := Credentials;
      role := Driver;
      form := InitialForm;
    }

    /** The Driver and Provider buttons, shown on the credentials step. */
    method ChooseRole(r: UserRole)
      requires Valid() && step == Credentials
      modifies this
      ensures Valid()
      ensures role == r && step == Credentials && form == old(form)
    {
      role := r;
    }

    /** `handleChange` on a text input. */
    method Edit(field: Field, value: string)
      requires Valid()
      modifies this
      ensures Valid()
      ensures form == SetField(old(form), field, value)
      ensures step == old(step) && role == old(role)
    {
      form := SetField(form, field, value);
    }

    /** `handleChange` on the vehicle type select. */
    method ChooseVehicleType(t: VehicleType)
      requires Valid()
      modifies this
      ensures Valid()
      ensures form == old(form).(vehicleType := t)
      ensures step == old(step) && role == old(role)
    {
      form := form.(vehicleType := t);
    }

    /** `handleNext`: providers go on to the business details, drivers to
        onboarding. */
    method Continue()
      requires Valid() && step == Credentials
      modifies this
      ensures Valid()
      ensures step == if role == Provider then BusinessDetails else Onboarding
      ensures role == old(role) && form == old(form)
    {
      step := if role == Provider then BusinessDetails else Onboarding;
    }

    /** A business card: record the type and go on to onboarding. */
    method PickBusinessType(t: BusinessType)
      requires Valid() && step == BusinessDetails
      modifies this
      ensures Valid()
      ensures step == Onboarding && form == old(form).(businessType := Some(t))
      ensures role == old(role)
    {
      form := form.(businessType := Some(t));
      step := Onboarding;
    }

    /** Back from the business details. */
    method BackToCredentials()
      requires Valid() && step == BusinessDetails
      modifies this
      ensures Valid()
      ensures step == Credentials && role == old(role) && form == old(form)
    {
      step := Credentials;
    }

    /** Back from onboarding: to the business details for a provider, to
        the credentials for a driver. */
    method BackFromOnboarding()
      requires Valid() && step == Onboarding
      modifies this
      ensures Valid()
      ensures step == if role == Provider then BusinessDetails else Credentials
      ensures role == old(role) && form == old(form)
    {
      step := if role == Provider then BusinessDetails else Credentials;
    }

    /** `handleSubmit`: sign in with the user and vehicle built from the
        form. A provider always has a picked business type here, so the
        Fast Charging default is never used from the wizard. */
    method Submit(session: Session, userId: string, vehicleId: string)
      requires Valid() && step == Onboarding
      requires session.Valid()
      modifies session
      ensures session.Valid()
      ensures session.user == Some(NewUser(role, form, userId))
      ensures session.vehicle == NewVehicle(form, vehicleId)
      ensures session.currentView == RoleHome(role)
      ensures role == Provider ==> session.user.value.businessType == form.businessType
      ensures session.bookings == old(session.bookings) && session.stationFilter == old(session.stationFilter)
      ensures session.store == old(session.store).(user := session.user, vehicle := Some(session.vehicle))
    {
      session.Login(NewUser(role, form, userId), NewVehicle(form, vehicleId));
    }
  }
}
