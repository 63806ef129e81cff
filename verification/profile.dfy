/** The profile screen: two forms copied from the user and the vehicle
    when the screen opens, and the saves that write them back whole. */
module Profile {
  import opened Types
  import opened App

  /** The vehicle card, with its inputs and save button, is shown to
      drivers only. */
  predicate VehicleCardShown(role: UserRole) {
    role == Driver
  }

  /** The profile view is one a user of either role may stay on, so the
      redirect after a user save leaves the screen open. */
  lemma {:induction false} ProfileStays(role: UserRole)
    ensures Permitted(role, Profile) && Reconcile(role, Profile) == Profile
  {
    ProviderPrefixedViews(Profile);
  }

  /** The profile screen's state. The two forms are snapshots taken when
      the screen opened; `mountedUser` and `mountedVehicle` remember those
      snapshots for the specification. */
  class ProfileEditor {
    var uForm: User
    var vForm: Vehicle
    var uSaved: bool
    var vSaved: bool
    ghost var mountedUser: User
    ghost var mountedVehicle: Vehicle

    /** Only the name and e-mail of the user form, and the brand and
        model of the vehicle form, can differ from the snapshots. */
    ghost predicate Valid()
      reads this
    {
      && uForm == mountedUser.(name := uForm.name, email := uForm.email)
      && vForm == mountedVehicle.(brand := vForm.brand, model := vForm.model)
    }

    /** Opening the screen: `useState(user)` and `useState(vehicle)`. */
    constructor (session: Session)
      requires session.user.Some?
      ensures Valid()
      ensures uForm == session.user.value && vForm == session.vehicle
      ensures mountedUser == uForm && mountedVehicle == vForm
      ensures !uSaved && !vSaved
    {
      uForm := session.user.value;
      vForm := session.vehicle;
      mountedUser := session.user.value;
      mountedVehicle := session.vehicle;
      uSaved := false;
      vSaved := false;
    }

    method EditName(name: string)
      requires Valid()
      modifies this
      ensures Valid()
      ensures uForm == old(uForm).(name := name)
      ensures vForm == old(vForm) && mountedUser == old(mountedUser) && mountedVehicle == old(mountedVehicle)
      ensures uSaved == old(uSaved) && vSaved == old(vSaved)
    {
      uForm := uForm.(name := name);
    }

    method EditEmail(email: string)
      requires Valid()
      modifies this
      ensures Valid()
      ensures uForm == old(uForm).(email := email)
      ensures vForm == old(vForm) && mountedUser == old(mountedUser) && mountedVehicle == old(mountedVehicle)
      ensures uSaved == old(uSaved) && vSaved == old(vSaved)
    {
      uForm := uForm.(email := email);
    }

    method EditBrand(brand: string)
      requires Valid() && VehicleCardShown(uForm.role)
      modifies this
      ensures Valid()
      ensures vForm == old(vForm).(brand := brand)
      ensures uForm == old(uForm) && mountedUser == old(mountedUser) && mountedVehicle == old(mountedVehicle)
      ensures uSaved == old(uSaved) && vSaved == old(vSaved)
    {
      vForm := vForm.(brand := brand);
    }

    method EditModel(model: string)
      requires Valid() && VehicleCardShown(uForm.role)
      modifies this
      ensures Valid()
      ensures vForm == old(vForm).(model := model)
      ensures uForm == old(uForm) && mountedUser == old(mountedUser) && mountedVehicle == old(mountedVehicle)
      ensures uSaved == old(uSaved) && vSaved == old(vSaved)
    {
      vForm := vForm.(model := model);
    }

    /** `handleSaveVehicle`: the vehicle becomes the form, whole. The
        battery level and the charging flag go back to what they were when
        the screen opened, however far charging has gone since. */
    method SaveVehicle(session: Session)
      requires Valid() && VehicleCardShown(uForm.role)
      requires session.Valid()
      modifies this, session
      ensures Valid() && session.Valid()
      ensures session.vehicle == old(vForm) && vSaved
      ensures session.vehicle.batteryLevel == mountedVehicle.batteryLevel
      ensures session.vehicle.isCharging == mountedVehicle.isCharging
      ensures session.vehicle.id == mountedVehicle.id && session.vehicle.batteryCapacity == mountedVehicle.batteryCapacity
      ensures session.user == old(session.user) && session.currentView == old(session.currentView)
      ensures session.bookings == old(session.bookings) && session.stationFilter == old(session.stationFilter)
      ensures session.store == old(session.store).(vehicle := Some(session.vehicle))
      ensures uForm == old(uForm) && vForm == old(vForm) && uSaved == old(uSaved)
      ensures mountedUser == old(mountedUser) && mountedVehicle == old(mountedVehicle)
    {
      session.SetVehicle(vForm);
      vSaved := true;
    }

    /** `handleSaveUser`: the user becomes the form, whole; only the name
        and e-mail can have changed since the screen opened, and the screen
        stays open. */
    method SaveUser(session: Session)
      requires Valid()
      requires session.Valid()
      modifies this, session
      ensures Valid() && session.Valid()
      ensures session.user == Some(old(uForm)) && uSaved
      ensures session.user.value.role == mountedUser.role && session.user.value.id == mountedUser.id
      ensures session.user.value.businessType == mountedUser.businessType
      ensures old(session.currentView) == Profile ==> session.currentView == Profile
      ensures session.vehicle == old(session.vehicle) && session.bookings == old(session.bookings)
      ensures session.stationFilter == old(session.stationFilter)
      ensures session.store == old(session.store).(user := session.user)
      ensures uForm == old(uForm) && vForm == old(vForm) && vSaved == old(vSaved)
      ensures mountedUser == old(mountedUser) && mountedVehicle == old(mountedVehicle)
    {
      ProfileStays(uForm.role);
      session.SetUser(uForm);
      uSaved := true;
    }
  }
}
