/**
 * The client's "My bookings" page: the appointments split into active, past
 * and cancelled tabs, and the cancellation of a pending or confirmed one.
 * `at` is the instant `new Date(appointment_datetime)` reads, None for an
 * Invalid Date.
 */
module MyBookings {
  import opened Text
  import opened Domain
  import opened Chronology

  datatype Tab = ActiveTab | PastTab | CancelledTab

  /** Whether an appointment belongs on a tab at instant `now`. */
  predicate InTab(tab: Tab, now: Instant, a: Appointment)
  {
    match tab
    case ActiveTab => IsOpen(a.status) && a.at.Some? && a.at.value >= now
    case PastTab =>
      a.status == Completed || a.status == NoShow ||
      (IsOpen(a.status) && a.at.Some? && a.at.value < now)
    case CancelledTab => IsCancelled(a.status)
  }

  /** The active tab lists the soonest first; the other two the latest first. */
  function TabOrder(tab: Tab): Direction
  {
    if tab == ActiveTab then Ascending else Descending
  }

  /** `filteredAppointments`. */
  function TabList(tab: Tab, now: Instant, appointments: seq<Appointment>): (r: seq<Appointment>)
    ensures forall a :: a in r <==> a in appointments && InTab(tab, now, a)
    ensures Sorted(TabOrder(tab), r)
    ensures forall a :: multiset(r)[a] == if InTab(tab, now, a) then multiset(appointments)[a] else 0
  {
    var kept := Filter(appointments, a => InTab(tab, now, a));
    var r := Sort(TabOrder(tab), kept);
    SortMembers(TabOrder(tab), kept);
    r
  }

  /**
   * An appointment with a known status and a readable time is on exactly one
   * tab.
   */
  lemma TabsPartition(now: Instant, a: Appointment)
    requires IsKnown(a.status) && a.at.Some?
    ensures InTab(ActiveTab, now, a) || InTab(PastTab, now, a) || InTab(CancelledTab, now, a)
    ensures !(InTab(ActiveTab, now, a) && InTab(PastTab, now, a))
    ensures !(InTab(ActiveTab, now, a) && InTab(CancelledTab, now, a))
    ensures !(InTab(PastTab, now, a) && InTab(CancelledTab, now, a))
  {
  }

  /**
   * A pending or confirmed appointment whose time cannot be read is on no
   * tab at all.
   */
  lemma UnreadableOpenAppointmentIsOnNoTab(now: Instant, a: Appointment)
    requires IsOpen(a.status) && a.at.None?
    ensures !InTab(ActiveTab, now, a) && !InTab(PastTab, now, a) && !InTab(CancelledTab, now, a)
  {
  }

  function Count(b: bool): nat
  {
    if b then 1 else 0
  }

  /**
   * Across the three tabs every appointment with a known status and a
   * readable time is listed exactly once.
   */
  lemma TabListsPartition(now: Instant, appointments: seq<Appointment>, a: Appointment)
    requires a in appointments && IsKnown(a.status) && a.at.Some?
    ensures Count(a in TabList(ActiveTab, now, appointments)) +
            Count(a in TabList(PastTab, now, appointments)) +
            Count(a in TabList(CancelledTab, now, appointments)) == 1
  {
    TabsPartition(now, a);
  }

  class BookingsPage {
    var appointments: seq<Appointment>
    var tab: Tab
    var toCancel: Option<Appointment>
    var confirmOpen: bool

    constructor ()
      ensures appointments == [] && tab == ActiveTab && toCancel.None? && !confirmOpen
    {
      appointments, tab, toCancel, confirmOpen := [], ActiveTab, None, false;
    }

    /** `fetchAppointments` resolved: a null answer counts as no appointments. */
    method Loaded(data: Option<seq<Appointment>>)
      modifies this`appointments
      ensures appointments == if data.Some? then data.value else []
    {
      appointments := if data.Some? then data.value else [];
    }

    method ChooseTab(t: Tab)
      modifies this`tab
      ensures tab == t
    {
      tab := t;
    }

    /** `openCancelDialog`: only a pending or confirmed appointment opens the dialog. */
    method OpenCancelDialog(a: Appointment) returns (warned: bool)
      modifies this
      ensures warned <==> !IsOpen(a.status)
      ensures !warned ==> toCancel == Some(a) && confirmOpen
      ensures warned ==> toCancel == old(toCancel) && confirmOpen == old(confirmOpen)
      ensures appointments == old(appointments) && tab == old(tab)
    {
      if IsOpen(a.status) {
        toCancel := Some(a);
        confirmOpen := true;
        return false;
      }
      return true;
    }

    /** The dialog's close button: it hides the dialog but keeps the selection. */
    method CloseDialog()
      modifies this`confirmOpen
      ensures !confirmOpen
    {
      confirmOpen := false;
    }

    /**
     * `handleCancelAppointment`: with a selection, the request sets only the
     * status to cancelled-by-client; whatever the answer, the dialog closes
     * and the selection is dropped. `reload` says whether the list is fetched
     * again (on success).
     */
    method CancelAppointment(succeeds: bool) returns (request: Option<(Id, Status)>, reload: bool)
      modifies this
      ensures request.None? <==> old(toCancel).None?
      ensures request.Some? ==> request.value == (old(toCancel).value.id, CancelledByClient)
      ensures reload <==> request.Some? && succeeds
      ensures request.Some? ==> toCancel.None? && !confirmOpen
      ensures request.None? ==> toCancel == old(toCancel) && confirmOpen == old(confirmOpen)
      ensures appointments == old(appointments) && tab == old(tab)
    {
      if toCancel.None? {
        return None, false;
      }
      request := Some((toCancel.value.id, CancelledByClient));
      reload := succeeds;
      confirmOpen := false;
      toCancel := None;
    }
  }
}
