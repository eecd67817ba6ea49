/**
 * The booking calendar: the date range it loads, how navigation moves that
 * range, how slots and appointments become calendar events, and how clicks
 * are routed. Dates of the range are local calendar days; event times are
 * instants.
 */
module AppointmentCalendar {
  import opened Text
  import opened Domain
  import opened CalendarDates
  import opened SlotResponse
  import Chronology

  datatype View = MonthView | WeekView | DayView | AgendaView

  /** The loaded period, both ends inclusive. */
  datatype Range = Range(start: Date, end: Date)

  predicate ValidRange(r: Range)
  {
    Valid(r.start) && Valid(r.end) && DayNumber(r.start) <= DayNumber(r.end)
  }

  /** Whether day `d` lies inside range `r`. */
  predicate Covers(r: Range, d: Date)
    requires ValidRange(r) && Valid(d)
  {
    DayNumber(r.start) <= DayNumber(d) <= DayNumber(r.end)
  }

  /**
   * The range on mount: from the Monday of the preselected day (or of today)
   * to 41 days later in month view and 6 days later otherwise.
   */
  function InitialRange(preselected: Option<Date>, today: Date, view: View): (r: Range)
    requires Valid(today) && (preselected.Some? ==> Valid(preselected.value))
    ensures ValidRange(r) && Weekday(r.start) == 0
    ensures var anchor := if preselected.Some? then preselected.value else today;
      DayNumber(anchor) - 6 <= DayNumber(r.start) <= DayNumber(anchor)
    ensures DayNumber(r.end) - DayNumber(r.start) == if view == MonthView then 41 else 6
  {
    var start := StartOfWeek(if preselected.Some? then preselected.value else today);
    Range(start, AddDays(start, if view == MonthView then 41 else 6))
  }

  /**
   * `handleNavigate` as written: every view starts from the Monday of the
   * week holding `newDate`; month view then takes the month of that Monday,
   * and day view keeps the Monday itself.
   */
  function NavigateRangeAsWritten(newDate: Date, view: View): (r: Range)
    requires Valid(newDate)
    ensures ValidRange(r)
  {
    var weekStart := StartOfWeek(newDate);
    match view
    case MonthView =>
      var start := StartOfWeek(FirstOfMonth(weekStart));
      Range(start, AddDays(start, 41))
    case WeekView => Range(weekStart, AddDays(weekStart, 6))
    case _ => Range(weekStart, weekStart)
  }

  /**
   * The range navigation is meant to load: month view covers the six-week
   * grid of `newDate`'s own month, week view its Monday-to-Sunday week, day
   * view the day itself. The agenda view keeps the range of the code as written.
   */
  function NavigateRange(newDate: Date, view: View): (r: Range)
    requires Valid(newDate)
    ensures ValidRange(r)
  {
    match view
    case MonthView =>
      var start := StartOfWeek(FirstOfMonth(newDate));
      Range(start, AddDays(start, 41))
    case DayView => Range(newDate, newDate)
    case _ => NavigateRangeAsWritten(newDate, view)
  }

  /** Week navigation loads the Monday-to-Sunday week that holds the navigated day. */
  lemma WeekNavigation(d: Date)
    requires Valid(d)
    ensures NavigateRange(d, WeekView) == NavigateRangeAsWritten(d, WeekView)
    ensures Weekday(NavigateRange(d, WeekView).start) == 0
    ensures DayNumber(NavigateRange(d, WeekView).end) - DayNumber(NavigateRange(d, WeekView).start) == 6
    ensures Covers(NavigateRange(d, WeekView), d)
  {
  }

  /** The last day of `d`'s month. */
  function LastOfMonth(d: Date): (r: Date)
    requires Valid(d)
    ensures Valid(r) && r.year == d.year && r.month == d.month
    ensures DayNumber(r) == DayNumber(FirstOfMonth(d)) + DaysInMonth(d.year, d.month) - 1
  {
    Date(d.year, d.month, DaysInMonth(d.year, d.month))
  }

  /** Month navigation loads a 42-day range from a Monday that covers the whole navigated month. */
  lemma MonthNavigationCoversMonth(d: Date, x: Date)
    requires Valid(d) && Valid(x) && x.year == d.year && x.month == d.month
    ensures Weekday(NavigateRange(d, MonthView).start) == 0
    ensures DayNumber(NavigateRange(d, MonthView).end) - DayNumber(NavigateRange(d, MonthView).start) == 41
    ensures Covers(NavigateRange(d, MonthView), x)
  {
    var first := FirstOfMonth(d);
    assert DayNumber(x) - DayNumber(first) == x.day - 1;
  }

  /** Day navigation loads exactly the navigated day. */
  lemma DayNavigation(d: Date, x: Date)
    requires Valid(d) && Valid(x)
    ensures Covers(NavigateRange(d, DayView), x) <==> x == d
  {
    if DayNumber(x) == DayNumber(d) {
      DayNumberInjective(x, d);
    }
  }

  /** A day whose number falls inside a month's span belongs to that month. */
  lemma InMonthSpan(x: Date, y: int, m: int)
    requires Valid(x) && 1 <= m <= 12
    requires DayNumber(Date(y, m, 1)) <= DayNumber(x) < DayNumber(Date(y, m, 1)) + DaysInMonth(y, m)
    ensures x.year == y && x.month == m
  {
    var z := Date(y, m, DayNumber(x) - DayNumber(Date(y, m, 1)) + 1);
    DayNumberInjective(x, z);
  }

  /** The first day of the month before `d`'s month. */
  function FirstOfPreviousMonth(d: Date): (r: Date)
    requires Valid(d)
    ensures Valid(r) && r.day == 1
    ensures DayNumber(r) + DaysInMonth(r.year, r.month) == DayNumber(FirstOfMonth(d))
  {
    var last := PrevDay(FirstOfMonth(d));
    Date(last.year, last.month, 1)
  }

  /**
   * As written, navigating the month view to a day whose Monday lies in the
   * previous month (Saturday 1 June 2024, say) loads that previous month's
   * grid, which stops at least two weeks before the navigated month ends.
   */
  lemma MonthNavigationAsWrittenMissesMonthEnd(d: Date)
    requires Valid(d) && StartOfWeek(d).month != d.month
    ensures !Covers(NavigateRangeAsWritten(d, MonthView), LastOfMonth(d))
    ensures DayNumber(LastOfMonth(d)) - DayNumber(NavigateRangeAsWritten(d, MonthView).end) >= 14
    ensures Covers(NavigateRange(d, MonthView), LastOfMonth(d))
  {
    var ws := StartOfWeek(d);
    var first := FirstOfMonth(d);
    var prev := FirstOfPreviousMonth(d);
    if DayNumber(ws) >= DayNumber(first) {
      InMonthSpan(ws, d.year, d.month);
    }
    assert DayNumber(ws) < DayNumber(first);
    InMonthSpan(ws, prev.year, prev.month);
    assert FirstOfMonth(ws) == prev;
    MonthNavigationCoversMonth(d, LastOfMonth(d));
  }

  /**
   * As written, navigating the day view to any day but a Monday (Wednesday
   * 8 May 2024, say) loads only the Monday before it, not the day shown.
   */
  lemma DayNavigationAsWrittenMissesDay(d: Date)
    requires Valid(d) && Weekday(d) != 0
    ensures !Covers(NavigateRangeAsWritten(d, DayView), d)
    ensures Covers(NavigateRange(d, DayView), d)
  {
  }

  // ---------------------------------------------------------------------------
  // Events

  datatype EventKind = SlotEvent | AppointmentEvent(appointment: Appointment)

  datatype Event = Event(start: Instant, end: Instant, kind: EventKind)

  /** Each valid slot start becomes a 'slot' event lasting the service duration; the rest are dropped. */
  function SlotEvents(items: seq<Option<Instant>>, duration: int): (r: seq<Event>)
    ensures |r| == |ValidOnly(items)|
    ensures forall i :: 0 <= i < |r| ==>
      r[i].start == ValidOnly(items)[i] && r[i].end == AddMinutes(r[i].start, duration) && r[i].kind == SlotEvent
  {
    if items == [] then []
    else
      var rest := SlotEvents(items[1..], duration);
      match items[0]
      case Some(t) => [Event(t, AddMinutes(t, duration), SlotEvent)] + rest
      case None => rest
  }

  /** An appointment whose time `new Date(...)` reads as a valid date. */
  predicate HasTime(a: Appointment)
  {
    a.at.Some?
  }

  /** The 'appointment' event of one appointment: from its instant, lasting its own duration. */
  function EventOf(a: Appointment): Event
    requires HasTime(a)
  {
    Event(a.at.value, AddMinutes(a.at.value, a.durationMinutes), AppointmentEvent(a))
  }

  /** The appointments with a valid time, in order, repeats kept. */
  function Timed(apps: seq<Appointment>): (r: seq<Appointment>)
    ensures forall a :: a in r <==> a in apps && HasTime(a)
  {
    if apps == [] then []
    else
      assert apps == [apps[0]] + apps[1..];
      (if HasTime(apps[0]) then [apps[0]] else []) + Timed(apps[1..])
  }

  /** `Timed` is the appointments filter specialised to a valid time. */
  lemma {:induction false} TimedIsFilter(apps: seq<Appointment>)
    ensures Timed(apps) == Chronology.Filter(apps, HasTime)
  {
    if apps != [] {
      TimedIsFilter(apps[1..]);
    }
  }

  /**
   * `map` then `filter(Boolean)`: one event per appointment with a valid
   * time, in the appointments' order, repeats kept; the rest are dropped.
   */
  function AppointmentEvents(apps: seq<Appointment>): (r: seq<Event>)
    ensures |r| == |Timed(apps)|
    ensures forall i :: 0 <= i < |r| ==> HasTime(Timed(apps)[i]) && r[i] == EventOf(Timed(apps)[i])
  {
    if apps == [] then []
    else
      var a := apps[0];
      assert Timed(apps) == (if HasTime(a) then [a] else []) + Timed(apps[1..]);
      (if HasTime(a) then [EventOf(a)] else []) + AppointmentEvents(apps[1..])
  }

  /**
   * Every event is an input appointment's, from its instant and lasting its
   * duration, and every appointment with a valid time has its event.
   */
  lemma AppointmentEventsMembers(apps: seq<Appointment>)
    ensures forall e :: e in AppointmentEvents(apps) ==>
      e.kind.AppointmentEvent? && e.kind.appointment in apps && e.kind.appointment.at == Some(e.start) &&
      e.end == AddMinutes(e.start, e.kind.appointment.durationMinutes)
    ensures forall a :: a in apps && HasTime(a) ==> EventOf(a) in AppointmentEvents(apps)
  {
    var r, t := AppointmentEvents(apps), Timed(apps);
    forall a | a in apps && HasTime(a)
      ensures EventOf(a) in r
    {
      var k :| 0 <= k < |t| && t[k] == a;
      assert r[k] == EventOf(a);
    }
  }

  // ---------------------------------------------------------------------------
  // Clicks

  /**
   * `handleSelectSlotInternal`: a client with a slot callback, a service and
   * a duration picks a slot that has not started yet, reported with its end.
   */
  function SelectSlot(role: Role, hasSlotCallback: bool, serviceId: Option<Id>, duration: int,
                      start: Instant, now: Instant): (r: Option<(Instant, Instant)>)
    ensures r.Some? <==>
      role == Client && hasSlotCallback && serviceId.Some? && duration != 0 && start >= now
    ensures r.Some? ==> r.value.0 == start && r.value.1 - start == duration * MillisPerMinute
  {
    if role == Client && hasSlotCallback && serviceId.Some? && duration != 0 then
      if start < now then None else Some((start, AddMinutes(start, duration)))
    else None
  }

  datatype Selection = OpenAppointment(appointment: Appointment) | PickSlot(start: Instant, end: Instant) | NoSelection

  /** `handleSelectEventInternal`: appointments go to the event callback, slot events to slot selection. */
  function SelectEvent(hasEventCallback: bool, hasSlotCallback: bool, e: Event, role: Role,
                       serviceId: Option<Id>, duration: int, now: Instant): (r: Selection)
    ensures r.OpenAppointment? <==> hasEventCallback && e.kind.AppointmentEvent?
    ensures r.OpenAppointment? ==> r.appointment == e.kind.appointment
    ensures r.PickSlot? ==>
              e.kind.SlotEvent? && hasSlotCallback && role == Client && serviceId.Some? && duration != 0 &&
              e.start >= now && r.start == e.start && r.end == AddMinutes(e.start, duration)
    ensures e.kind.SlotEvent? && hasSlotCallback ==>
              (r.PickSlot? <==> role == Client && serviceId.Some? && duration != 0 && e.start >= now)
  {
    if hasEventCallback && e.kind.AppointmentEvent? then OpenAppointment(e.kind.appointment)
    else if hasSlotCallback && e.kind.SlotEvent? then
      match SelectSlot(role, hasSlotCallback, serviceId, duration, e.start, now)
      case Some(p) => PickSlot(p.0, p.1)
      case None => NoSelection
    else NoSelection
  }

  // ---------------------------------------------------------------------------
  // Component state

  datatype Remote<T> = Delivered(value: T) | Failed

  datatype CalendarError = ChooseServiceFirst | LoadFailed

  /** What `fetchCalendarData` asks the server for. */
  datatype Query = NoQuery | SlotQuery | AppointmentQuery

  /** The guard of `fetchCalendarData`: a client without service or duration is not served. */
  predicate ClientBlocked(role: Role, serviceId: Option<Id>, duration: int)
  {
    role == Client && (serviceId.None? || duration == 0)
  }

  /** Admins and specialists are never held back by the client guard. */
  lemma StaffNeverBlocked(role: Role, serviceId: Option<Id>, duration: int)
    requires role == Admin || role == Specialist
    ensures !ClientBlocked(role, serviceId, duration)
  {
  }

  class Calendar {
    var range: Range
    var currentDate: Date
    var events: seq<Event>
    var error: Option<CalendarError>

    ghost predicate Valid()
      reads this
    {
      ValidRange(range) && CalendarDates.Valid(currentDate)
    }

    constructor (preselected: Option<Date>, today: Date, view: View)
      requires CalendarDates.Valid(today)
      requires preselected.Some? ==> CalendarDates.Valid(preselected.value)
      ensures Valid()
      ensures range == InitialRange(preselected, today, view)
      ensures currentDate == (if preselected.Some? then preselected.value else today)
      ensures events == [] && error.None?
    {
      range := InitialRange(preselected, today, view);
      currentDate := if preselected.Some? then preselected.value else today;
      events := [];
      error := None;
    }

    /**
     * `handleNavigate`, storing the range navigation is meant to load
     * (`NavigateRange`); the range the code computes as written is
     * `NavigateRangeAsWritten`, and the two differ in month and day view.
     */
    method Navigate(newDate: Date, view: View)
      requires CalendarDates.Valid(newDate)
      modifies this`range, this`currentDate
      ensures Valid()
      ensures currentDate == newDate && range == NavigateRange(newDate, view)
    {
      currentDate := newDate;
      range := NavigateRange(newDate, view);
    }

    /**
     * `fetchCalendarData` for the current range: `slotAnswer` and
     * `appointmentAnswer` are what the two endpoints would return.
     */
    method Fetch(role: Role, serviceId: Option<Id>, duration: int, specialistId: Option<Id>,
                 slotAnswer: Remote<Response>, appointmentAnswer: Remote<seq<Appointment>>)
      returns (query: Query)
      modifies this`events, this`error
      ensures ClientBlocked(role, serviceId, duration) ==>
        query == NoQuery && events == [] && error == Some(ChooseServiceFirst)
      ensures !ClientBlocked(role, serviceId, duration) && role == Client ==>
                query == SlotQuery &&
                match slotAnswer
                case Delivered(resp) => events == SlotEvents(Candidates(resp, specialistId), duration) && error.None?
                case Failed => events == old(events) && error == Some(LoadFailed)
      ensures role == Admin || role == Specialist ==>
                query == AppointmentQuery &&
                match appointmentAnswer
                case Delivered(apps) => events == AppointmentEvents(apps) && error.None?
                case Failed => events == old(events) && error == Some(LoadFailed)
      ensures role.OtherRole? ==> query == NoQuery && events == [] && error.None?
    {
      if ClientBlocked(role, serviceId, duration) {
        events := [];
        error := Some(ChooseServiceFirst);
        return NoQuery;
      }
      error := None;
      if role == Client {
        query := SlotQuery;
        match slotAnswer
        case Delivered(resp) =>
          events := SlotEvents(Candidates(resp, specialistId), duration);
        case Failed =>
          error := Some(LoadFailed);
      } else if role == Admin || role == Specialist {
        query := AppointmentQuery;
        match appointmentAnswer
        case Delivered(apps) =>
          events := AppointmentEvents(apps);
        case Failed =>
          error := Some(LoadFailed);
      } else {
        query := NoQuery;
        events := [];
      }
    }
  }
}
