/**
 * The specialist's dashboard: today's open appointments and the next three
 * after today. `midnight` is the local start of the current day and `at` is
 * the instant `new Date(appointment_datetime)` reads.
 */
module SpecialistDashboard {
  import opened Text
  import opened Domain
  import opened Chronology

  /** How many upcoming appointments the dashboard shows. */
  const UpcomingCount: nat := 3

  /** `setHours(23, 59, 59, 999)`: the last millisecond of the day that starts at `midnight`. */
  function DayEnd(midnight: Instant): (r: Instant)
    ensures r - midnight == MillisPerDay - 1
  {
    midnight + MillisPerDay - 1
  }

  predicate Today(midnight: Instant, a: Appointment)
  {
    a.at.Some? && midnight <= a.at.value <= DayEnd(midnight) && IsOpen(a.status)
  }

  predicate AfterToday(midnight: Instant, a: Appointment)
  {
    a.at.Some? && a.at.value > DayEnd(midnight) && IsOpen(a.status)
  }

  /** `todays`: today's pending or confirmed appointments, earliest first. */
  function TodayList(midnight: Instant, data: seq<Appointment>): (r: seq<Appointment>)
    ensures forall a :: a in r <==> a in data && Today(midnight, a)
    ensures forall a :: multiset(r)[a] == if Today(midnight, a) then multiset(data)[a] else 0
    ensures Sorted(Ascending, r)
  {
    var kept := Filter(data, a => Today(midnight, a));
    SortMembers(Ascending, kept);
    Sort(Ascending, kept)
  }

  /** The pending or confirmed appointments after today, earliest first. */
  function LaterSorted(midnight: Instant, data: seq<Appointment>): (r: seq<Appointment>)
    ensures forall a :: a in r <==> a in data && AfterToday(midnight, a)
    ensures forall a :: multiset(r)[a] == if AfterToday(midnight, a) then multiset(data)[a] else 0
    ensures Sorted(Ascending, r)
  {
    var kept := Filter(data, a => AfterToday(midnight, a));
    SortMembers(Ascending, kept);
    Sort(Ascending, kept)
  }

  /** `upcoming`: the first three of them. */
  function UpcomingList(midnight: Instant, data: seq<Appointment>): (r: seq<Appointment>)
    ensures |r| <= UpcomingCount
    ensures |r| <= |LaterSorted(midnight, data)| && r == LaterSorted(midnight, data)[..|r|]
  {
    Take(LaterSorted(midnight, data), UpcomingCount)
  }

  /**
   * The two lists never share an appointment, and neither holds a cancelled,
   * completed or no-show one.
   */
  lemma ListsDisjointAndOpen(midnight: Instant, data: seq<Appointment>, a: Appointment)
    ensures !(a in TodayList(midnight, data) && a in UpcomingList(midnight, data))
    ensures a in TodayList(midnight, data) ==> IsOpen(a.status)
    ensures a in UpcomingList(midnight, data) ==> IsOpen(a.status) && a.at.value > DayEnd(midnight)
  {
    var later := LaterSorted(midnight, data);
    var up := UpcomingList(midnight, data);
    if a in up {
      var k :| 0 <= k < |up| && up[k] == a;
      assert later[k] == a;
    }
  }

  /**
   * The upcoming list holds the earliest appointments after today: one left
   * out is no earlier than any shown.
   */
  lemma UpcomingAreEarliest(midnight: Instant, data: seq<Appointment>, shown: Appointment, other: Appointment)
    requires shown in UpcomingList(midnight, data)
    requires other in data && AfterToday(midnight, other) && other !in UpcomingList(midnight, data)
    ensures shown.at.Some? && other.at.Some? && shown.at.value <= other.at.value
  {
    var kept := Filter(data, a => AfterToday(midnight, a));
    var later := LaterSorted(midnight, data);
    assert later == Sort(Ascending, kept);
    var r := UpcomingList(midnight, data);
    assert r == Take(later, UpcomingCount);
    TakeKeepsMembersAndOrder(Ascending, later, UpcomingCount);
    assert shown in later;
    var i :| 0 <= i < |r| && r[i] == shown;
    var j :| 0 <= j < |kept| && kept[j] == other;
    TakeOfSortedIsEarliest(kept, UpcomingCount, i, j);
  }

  class Dashboard {
    var todays: seq<Appointment>
    var upcoming: seq<Appointment>

    constructor ()
      ensures todays == [] && upcoming == []
    {
      todays, upcoming := [], [];
    }

    /**
     * The loading effect. Only a signed-in specialist fetches; `data` is the
     * answer (None for null) and the lists are replaced by its partition.
     */
    method Load(role: Option<Role>, data: Option<seq<Appointment>>, midnight: Instant) returns (fetched: bool)
      modifies this
      ensures fetched <==> role == Some(Specialist)
      ensures !fetched ==> todays == old(todays) && upcoming == old(upcoming)
      ensures fetched ==>
        var all := if data.Some? then data.value else [];
        todays == TodayList(midnight, all) && upcoming == UpcomingList(midnight, all)
    {
      if role != Some(Specialist) {
        return false;
      }
      var all := if data.Some? then data.value else [];
      todays := TodayList(midnight, all);
      upcoming := UpcomingList(midnight, all);
      return true;
    }
  }
}
