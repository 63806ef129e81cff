/** The mechanic services screen: the booking a service yields and the
    screen's local state (selected service, booking modal). */
module Mechanics {
  import opened Types
  import opened Text
  import opened Numbers
  import opened Pricing
  import opened App

  /** A service is a charger installation when its lower-cased title
      contains "installation". */
  predicate IsInstallation(title: string) {
    Contains(Lower(title), "installation")
  }

  /** The installation test is a plain substring test on the lower-cased
      title, so the capitalisation of the title does not matter. */
  lemma {:induction false} InstallationMeansOccurrence(title: string)
    ensures IsInstallation(title) <==> exists i :: OccursAt(Lower(title), "installation", i)
    ensures IsInstallation(title) <==> IsInstallation(Lower(title))
  {
    ContainsIff(Lower(title), "installation");
    LowerIdempotent(title);
  }

  lemma {:induction false} LowerIdempotent(s: string)
    ensures Lower(Lower(s)) == Lower(s)
  {
  }

  /** The price text of a service booking: the service price as
      `String(price)` prints it. */
  function ServicePrice(svc: MechanicService): string {
    [Rupee] + NumberText(svc.priceCents)
  }

  /** The price text reads back as the service price. */
  lemma {:induction false} ServicePriceValue(svc: MechanicService)
    ensures PriceValue(ServicePrice(svc)) == Some(svc.priceCents as real / 100.0)
  {
    PriceOfNumberText(svc.priceCents);
  }

  /** The booking `confirmBooking` builds for a service. */
  function BookingFromService(svc: MechanicService, payment: PaymentMethod, id: string, vehicleId: string): (b: Booking)
    ensures b.kind == Installation <==> IsInstallation(svc.title)
    ensures b.kind != Charging
    ensures b.location == (if b.kind == Installation then "Your Residence" else "powerNest Service Center")
    ensures b.status == Confirmed && b.date == "Oct 25, 2024" && b.time == "09:00"
    ensures b.id == id && b.title == svc.title
    ensures b.vehicleId == vehicleId && b.paymentMethod == payment
    ensures PriceValue(b.price) == Some(svc.priceCents as real / 100.0)
  {
    ServicePriceValue(svc);
    var installation := IsInstallation(svc.title);
    Booking(id, if installation then Installation else MechanicVisit, svc.title,
            "Oct 25, 2024", "09:00", Confirmed, ServicePrice(svc), payment,
            if installation then "Your Residence" else "powerNest Service Center",
            vehicleId, None, None)
  }

  /** The modal's price: with no service selected the template prints
      "undefined" after the rupee sign. */
  function ModalPrice(sel: Option<MechanicService>): string {
    if sel.Some? then ServicePrice(sel.value) else [Rupee] + "undefined"
  }

  /** The modal's type label. */
  predicate ModalSaysInstallation(sel: Option<MechanicService>) {
    sel.Some? && IsInstallation(sel.value.title)
  }

  /** For a selected service the modal shows the booking's price and calls
      it an installation exactly when the booking is one; with nothing
      selected the price shown reads as NaN. */
  lemma {:induction false} ModalAgreesWithBooking(svc: MechanicService, payment: PaymentMethod, id: string, vehicleId: string)
    ensures ModalPrice(Some(svc)) == BookingFromService(svc, payment, id, vehicleId).price
    ensures ModalSaysInstallation(Some(svc)) <==> BookingFromService(svc, payment, id, vehicleId).kind == Installation
    ensures PriceValue(ModalPrice(None)) == None
  {
    NoNumberIsNaN("undefined");
  }

  /** The services screen's own state. */
  class MechanicScreen {
    var selected: Option<MechanicService>
    var modalOpen: bool

    constructor ()
      ensures selected == None && !modalOpen
    {
      selected := None;
      modalOpen := false;
    }

    /** `handleBook`: select the service and open the modal. */
    method Book(svc: MechanicService)
      modifies this
      ensures selected == Some(svc) && modalOpen
    {
      selected := Some(svc);
      modalOpen := true;
    }

    method CloseModal()
      modifies this
      ensures !modalOpen && selected == old(selected)
    {
      modalOpen := false;
    }

    /** `confirmBooking`: with no service selected nothing happens; else
        the service's booking goes to the shell and the modal closes. The
        vehicle and the view never change, as these bookings are never
        charging ones. */
    method Confirm(session: Session, payment: PaymentMethod, id: string)
      requires session.Valid()
      modifies this, session
      ensures session.Valid()
      ensures old(selected).None? ==>
                session.bookings == old(session.bookings) && session.store == old(session.store)
                && modalOpen == old(modalOpen)
      ensures old(selected).Some? ==>
                session.bookings == [BookingFromService(old(selected).value, payment, id, old(session.vehicle).id)] + old(session.bookings)
                && session.store == old(session.store).(bookings := Some(session.bookings))
                && !modalOpen
      ensures session.vehicle == old(session.vehicle) && session.currentView == old(session.currentView)
      ensures session.user == old(session.user) && session.stationFilter == old(session.stationFilter)
      ensures selected == old(selected)
    {
      if selected.None? {
        return;
      }
      var b := BookingFromService(selected.value, payment, id, session.vehicle.id);
      session.AddBooking(b);
      modalOpen := false;
    }
  }
}
