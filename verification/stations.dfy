/** The station list: the search and type filter over the stations, the
    booking a station yields, and the screen's local state (search text,
    selected station, booking modal). */
module StationSearch {
  import opened Types
  import opened Text
  import opened Numbers
  import opened Collections
  import opened Pricing
  import opened Fixtures
  import opened App

  /** The type filter: Fast and Hyper each let both fast kinds through,
      Standard and Mechanic only their own type, All every type. */
  predicate MatchesType(f: StationFilter, t: StationType) {
    match f
    case AllTypes => true
    case OfType(Fast) => t == Hyper || t == Fast
    case OfType(Hyper) => t == Hyper || t == Fast
    case OfType(Standard) => t == Standard
    case OfType(Mechanic) => t == Mechanic
  }

  /** Every filter lets its own type through, Fast and Hyper are the same
      filter, and the other two filters admit their own type only. */
  lemma {:induction false} TypeFilterTable(f: StationType, t: StationType)
    ensures MatchesType(AllTypes, t) && MatchesType(OfType(f), f)
    ensures MatchesType(OfType(Fast), t) == MatchesType(OfType(Hyper), t)
    ensures f == Standard || f == Mechanic ==> (MatchesType(OfType(f), t) <==> t == f)
    ensures MatchesType(OfType(Fast), t) <==> t in {Fast, Hyper}
  {
  }

  /** The search: the lower-cased term occurs in the lower-cased name or
      the lower-cased address. */
  predicate MatchesSearch(s: Station, term: string) {
    Contains(Lower(s.name), Lower(term)) || Contains(Lower(s.address), Lower(term))
  }

  predicate Shown(s: Station, f: StationFilter, term: string) {
    MatchesSearch(s, term) && MatchesType(f, s.stationType)
  }

  /** `filteredStations` */
  function FilteredStations(ss: seq<Station>, f: StationFilter, term: string): seq<Station> {
    Filter(ss, s => Shown(s, f, term))
  }

  /** A station is listed exactly when it passes both tests, the list keeps
      the stations' order, and an empty search under All lists every
      station. */
  lemma {:induction false} FilteredStationsSpec(ss: seq<Station>, f: StationFilter, term: string, a: seq<Station>, b: seq<Station>)
    ensures forall s :: s in FilteredStations(ss, f, term) <==> s in ss && Shown(s, f, term)
    ensures FilteredStations(a + b, f, term) == FilteredStations(a, f, term) + FilteredStations(b, f, term)
    ensures f == AllTypes && term == "" ==> FilteredStations(ss, f, term) == ss
  {
    var p := s => Shown(s, f, term);
    forall s | s in ss && Shown(s, f, term) ensures s in FilteredStations(ss, f, term) {
      var i :| 0 <= i < |ss| && ss[i] == s;
    }
    FilterAppend(a, b, p);
    if f == AllTypes && term == "" {
      forall i | 0 <= i < |ss| ensures p(ss[i]) {
        ContainsEmpty(Lower(ss[i].name));
      }
      FilterKeepsAll(ss, p);
    }
  }

  /** `availableSlots?.[0] || '14:30'`: the first slot, unless there is no
      slot list, it is empty, or its first entry is empty text. */
  function FirstSlot(s: Station): (t: string)
    ensures t != ""
    ensures t == "14:30" || (s.availableSlots.Some? && |s.availableSlots.value| > 0 && t == s.availableSlots.value[0])
    ensures s.availableSlots.Some? && |s.availableSlots.value| > 0 && s.availableSlots.value[0] != "" ==>
              t == s.availableSlots.value[0]
    ensures !(s.availableSlots.Some? && |s.availableSlots.value| > 0 && s.availableSlots.value[0] != "") ==>
              t == "14:30"
  {
    match s.availableSlots
    case Some(slots) => if |slots| > 0 && slots[0] != "" then slots[0] else "14:30"
    case None => "14:30"
  }

  /** The price text of a station booking: the service price for a
      mechanic, thirty units of charge to two decimals for a charger. */
  function StationPrice(s: Station): string {
    if s.stationType == Mechanic then [Rupee] + NumberText(s.priceCents)
    else [Rupee] + Fixed2(s.priceCents * 30)
  }

  /** The station's price reads back from the booking's price text. */
  lemma {:induction false} StationPriceValue(s: Station)
    ensures PriceValue(StationPrice(s)) == Some(
      if s.stationType == Mechanic then s.priceCents as real / 100.0
      else (s.priceCents * 30) as real / 100.0)
  {
    if s.stationType == Mechanic {
      MechanicStationPrice(s);
    } else {
      ChargerStationPrice(s);
    }
  }

  lemma {:induction false} MechanicStationPrice(s: Station)
    requires s.stationType == Mechanic
    ensures PriceValue(StationPrice(s)) == Some(s.priceCents as real / 100.0)
  {
    PriceOfNumberText(s.priceCents);
  }

  lemma {:induction false} ChargerStationPrice(s: Station)
    requires s.stationType != Mechanic
    ensures PriceValue(StationPrice(s)) == Some((s.priceCents * 30) as real / 100.0)
  {
    PriceOfFixed2(s.priceCents * 30);
  }

  /** The booking `confirmBooking` builds for a station. */
  function BookingFromStation(s: Station, payment: PaymentMethod, id: string, vehicleId: string): (b: Booking)
    ensures b.kind == Charging <==> s.stationType != Mechanic
    ensures b.kind != Installation
    ensures b.status == Confirmed && b.date == "Oct 24, 2024"
    ensures b.id == id && b.title == s.name && b.location == s.address
    ensures b.vehicleId == vehicleId && b.paymentMethod == payment
    ensures b.time == FirstSlot(s)
    ensures PriceValue(b.price) == Some(
      if s.stationType == Mechanic then s.priceCents as real / 100.0
      else (s.priceCents * 30) as real / 100.0)
  {
    StationPriceValue(s);
    Booking(id, if s.stationType == Mechanic then MechanicVisit else Charging, s.name,
            "Oct 24, 2024", FirstSlot(s), Confirmed, StationPrice(s), payment, s.address,
            vehicleId, None, None)
  }

  /** The price the booking modal shows: with no station, or a station
      priced 0, a charger's figure is worked out from a price of 15. */
  function ModalPrice(sel: Option<Station>): string {
    if sel.Some? && sel.value.stationType == Mechanic then [Rupee] + NumberText(sel.value.priceCents)
    else [Rupee] + Fixed2((if sel.Some? && sel.value.priceCents != 0 then sel.value.priceCents else 1500) * 30)
  }

  /** The modal's 'Service' label. */
  predicate ModalSaysService(sel: Option<Station>) {
    sel.Some? && sel.value.stationType == Mechanic
  }

  /** For a station the modal shows the price the booking will carry,
      except for a charger priced 0, where the booking says 0.00; and it
      says 'Service' exactly for the bookings that are not charging. */
  lemma {:induction false} ModalAgreesWithBooking(s: Station, payment: PaymentMethod, id: string, vehicleId: string)
    ensures s.stationType == Mechanic || s.priceCents != 0 ==>
              ModalPrice(Some(s)) == BookingFromStation(s, payment, id, vehicleId).price
    ensures ModalSaysService(Some(s)) <==> BookingFromStation(s, payment, id, vehicleId).kind != Charging
  {
    assert BookingFromStation(s, payment, id, vehicleId).price == StationPrice(s);
  }

  /** A charger priced 0, and the modal with nothing selected, show the
      price of thirty units at 15. */
  lemma {:induction false} ModalFallbackPrice(s: Station)
    requires s.stationType != Mechanic && s.priceCents == 0
    ensures ModalPrice(Some(s)) == ModalPrice(None)
    ensures PriceValue(ModalPrice(None)) == Some(450.0)
  {
    PriceOfFixed2(45000);
  }

  /** The station list's own state. `filter` is the type filter as the
      screen last saw it from the shell. */
  class StationScreen {
    var searchTerm: string
    var selected: Option<Station>
    var modalOpen: bool
    var filter: StationFilter

    /** The stations the list and the map show. */
    function Listed(): (r: seq<Station>)
      reads this
      ensures forall i :: 0 <= i < |r| ==> r[i] in MockStations && Shown(r[i], filter, searchTerm)
      ensures forall s :: s in MockStations && Shown(s, filter, searchTerm) ==> s in r
    {
      FilteredStationsSpec(MockStations, filter, searchTerm, [], []);
      FilteredStations(MockStations, filter, searchTerm)
    }

    constructor (session: Session)
      ensures searchTerm == "" && selected == None && !modalOpen
      ensures filter == session.stationFilter
    {
      searchTerm := "";
      selected := None;
      modalOpen := false;
      filter := session.stationFilter;
    }

    method Search(term: string)
      modifies this
      ensures searchTerm == term
      ensures selected == old(selected) && modalOpen == old(modalOpen) && filter == old(filter)
    {
      searchTerm := term;
    }

    /** A filter button: the shell's filter changes, and the screen's
        effect clears the selection when the filter is a different one. */
    method ChangeFilter(session: Session, f: StationFilter)
      requires session.Valid()
      modifies this, session
      ensures session.Valid()
      ensures session.stationFilter == f && filter == f
      ensures selected == if f != old(filter) then None else old(selected)
      ensures session.user == old(session.user) && session.currentView == old(session.currentView)
      ensures session.vehicle == old(session.vehicle) && session.bookings == old(session.bookings)
      ensures session.store == old(session.store)
      ensures searchTerm == old(searchTerm) && modalOpen == old(modalOpen)
    {
      session.SetStationFilter(f);
      if f != filter {
        selected := None;
      }
      filter := f;
    }

    /** `handleStationClick` */
    method Select(s: Station)
      modifies this
      ensures selected == Some(s)
      ensures searchTerm == old(searchTerm) && modalOpen == old(modalOpen) && filter == old(filter)
    {
      selected := Some(s);
    }

    /** The Book Slot button: select the station and open the modal. */
    method OpenBooking(s: Station)
      modifies this
      ensures selected == Some(s) && modalOpen
      ensures searchTerm == old(searchTerm) && filter == old(filter)
    {
      selected := Some(s);
      modalOpen := true;
    }

    method CloseModal()
      modifies this
      ensures !modalOpen
      ensures searchTerm == old(searchTerm) && selected == old(selected) && filter == old(filter)
    {
      modalOpen := false;
    }

    /** `confirmBooking`: with no station selected nothing happens; else
        the station's booking goes to the shell and the modal closes. */
    method Confirm(session: Session, payment: PaymentMethod, id: string)
      requires session.Valid()
      modifies this, session
      ensures session.Valid()
      ensures old(selected).None? ==>
                session.bookings == old(session.bookings) && session.vehicle == old(session.vehicle)
                && session.currentView == old(session.currentView) && session.store == old(session.store)
                && modalOpen == old(modalOpen)
      ensures old(selected).Some? ==>
                session.bookings == [BookingFromStation(old(selected).value, payment, id, old(session.vehicle).id)] + old(session.bookings)
                && !modalOpen
      ensures old(selected).Some? && old(selected).value.stationType != Mechanic ==>
                session.store == Storage(old(session.store).user, Some(session.vehicle), Some(session.bookings))
      ensures old(selected).Some? && old(selected).value.stationType == Mechanic ==>
                session.store == old(session.store).(bookings := Some(session.bookings))
      ensures old(selected).Some? && old(selected).value.stationType != Mechanic ==>
                session.vehicle == old(session.vehicle).(isCharging := true)
                && session.currentView == Settle(session.user, Dashboard)
      ensures old(selected).Some? && old(selected).value.stationType == Mechanic ==>
                session.vehicle == old(session.vehicle) && session.currentView == old(session.currentView)
      ensures session.user == old(session.user) && session.stationFilter == old(session.stationFilter)
      ensures selected == old(selected) && searchTerm == old(searchTerm) && filter == old(filter)
    {
      if selected.None? {
        return;
      }
      var b := BookingFromStation(selected.value, payment, id, session.vehicle.id);
      session.AddBooking(b);
      modalOpen := false;
    }
  }
}
