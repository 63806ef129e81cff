/** The driver's bookings screen and the provider's customer queue, as the
    handlers that hand a new booking list to the shell. */
module BookingScreens {
  import opened Types
  import opened BookingList
  import opened App

  /** `cancelBooking`: every booking with the id becomes Cancelled,
      whatever its status was. */
  method CancelBooking(session: Session, id: string)
    requires session.Valid()
    modifies session
    ensures session.Valid()
    ensures session.bookings == SetStatus(old(session.bookings), id, Cancelled)
    ensures session.store == old(session.store).(bookings := Some(session.bookings))
    ensures session.user == old(session.user) && session.currentView == old(session.currentView)
    ensures session.vehicle == old(session.vehicle) && session.stationFilter == old(session.stationFilter)
  {
    session.SetBookings(SetStatus(session.bookings, id, Cancelled));
  }

  /** The cancel button on the booking at `i`, shown only while it is
      neither Cancelled nor Completed: that booking takes a legal step. */
  method PressCancel(session: Session, i: int)
    requires session.Valid()
    requires 0 <= i < |session.bookings| && CancelOffered(session.bookings[i])
    modifies session
    ensures session.Valid()
    ensures session.bookings == SetStatus(old(session.bookings), old(session.bookings)[i].id, Cancelled)
    ensures |session.bookings| == |old(session.bookings)|
    ensures session.bookings[i] == old(session.bookings)[i].(status := Cancelled)
    ensures LegalTransition(old(session.bookings)[i].status, session.bookings[i].status)
    ensures session.store == old(session.store).(bookings := Some(session.bookings))
    ensures session.user == old(session.user) && session.currentView == old(session.currentView)
    ensures session.vehicle == old(session.vehicle) && session.stationFilter == old(session.stationFilter)
  {
    CancelBooking(session, session.bookings[i].id);
  }

  /** The customer queue's state: the selected status tab. */
  class ProviderQueue {
    var activeTab: StatusTab

    /** The selected tab is one of the offered ones, so never Pending. */
    predicate Valid()
      reads this
    {
      activeTab in OfferedTabs
    }

    /** `filtered`: the bookings the selected tab lists. */
    function Listed(bs: seq<Booking>): (r: seq<Booking>)
      reads this
      ensures activeTab == AllTab ==> r == bs
      ensures forall i :: 0 <= i < |r| ==> r[i] in bs && InTab(activeTab, r[i])
      ensures forall b :: b in bs && InTab(activeTab, b) ==> b in r
    {
      TabFilterSpec(bs, activeTab);
      TabFilter(bs, activeTab)
    }

    constructor ()
      ensures Valid() && activeTab == AllTab
    {
      activeTab := AllTab;
    }

    method SelectTab(t: StatusTab)
      requires t in OfferedTabs
      modifies this
      ensures Valid() && activeTab == t
    {
      activeTab := t;
    }

    /** `updateStatus`: every booking with the id takes the new status,
        whatever its status was. */
    method UpdateStatus(session: Session, id: string, status: BookingStatus)
      requires session.Valid()
      modifies session
      ensures session.Valid()
      ensures session.bookings == SetStatus(old(session.bookings), id, status)
      ensures session.store == old(session.store).(bookings := Some(session.bookings))
      ensures session.user == old(session.user) && session.currentView == old(session.currentView)
      ensures session.vehicle == old(session.vehicle) && session.stationFilter == old(session.stationFilter)
    {
      session.SetBookings(SetStatus(session.bookings, id, status));
    }

    /** An action button on the booking at `i`: only the buttons its status
        shows can be pressed, and each makes a legal step. */
    method PressAction(session: Session, i: int, to: BookingStatus)
      requires session.Valid()
      requires 0 <= i < |session.bookings| && to in OfferedTransitions(session.bookings[i].status)
      modifies session
      ensures session.Valid()
      ensures session.bookings == SetStatus(old(session.bookings), old(session.bookings)[i].id, to)
      ensures |session.bookings| == |old(session.bookings)|
      ensures session.bookings[i] == old(session.bookings)[i].(status := to)
      ensures LegalTransition(old(session.bookings)[i].status, session.bookings[i].status)
      ensures Stage(old(session.bookings)[i].status) < Stage(session.bookings[i].status)
      ensures session.store == old(session.store).(bookings := Some(session.bookings))
      ensures session.user == old(session.user) && session.currentView == old(session.currentView)
      ensures session.vehicle == old(session.vehicle) && session.stationFilter == old(session.stationFilter)
    {
      OfferedActionsAreLegal(session.bookings[i], to);
      UpdateStatus(session, session.bookings[i].id, to);
    }
  }
}
