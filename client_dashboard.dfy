/**
 * The client's dashboard: the next three pending or confirmed appointments.
 * `at` is the instant `new Date(appointment_datetime)` reads.
 */
module ClientDashboard {
  import opened Text
  import opened Domain
  import opened Chronology

  /** How many upcoming appointments the dashboard shows. */
  const ShownCount: nat := 3

  /** Pending or confirmed, and not earlier than `now`. */
  predicate Upcoming(now: Instant, a: Appointment)
  {
    a.at.Some? && a.at.value >= now && IsOpen(a.status)
  }

  /** The qualifying appointments, soonest first. */
  function UpcomingSorted(now: Instant, data: Option<seq<Appointment>>): (r: seq<Appointment>)
    ensures forall a :: a in r <==> data.Some? && a in data.value && Upcoming(now, a)
    ensures data.Some? ==> forall a :: multiset(r)[a] == if Upcoming(now, a) then multiset(data.value)[a] else 0
    ensures data.None? ==> r == []
    ensures Sorted(Ascending, r)
  {
    var all := if data.Some? then data.value else [];
    var kept := Filter(all, a => Upcoming(now, a));
    SortMembers(Ascending, kept);
    Sort(Ascending, kept)
  }

  /** `futureAndConfirmed`: the first three of them; a null answer counts as none. */
  function Shown(now: Instant, data: Option<seq<Appointment>>): (r: seq<Appointment>)
    ensures |r| <= ShownCount
    ensures |r| <= |UpcomingSorted(now, data)| && r == UpcomingSorted(now, data)[..|r|]
  {
    Take(UpcomingSorted(now, data), ShownCount)
  }

  /**
   * What the dashboard shows: only upcoming pending or confirmed
   * appointments, soonest first, at most three, and as many as there are up
   * to three.
   */
  lemma ShownProperties(now: Instant, data: Option<seq<Appointment>>)
    ensures forall a :: a in Shown(now, data) ==> data.Some? && a in data.value && Upcoming(now, a)
    ensures Sorted(Ascending, Shown(now, data))
    ensures |Shown(now, data)| == if |UpcomingSorted(now, data)| < ShownCount then |UpcomingSorted(now, data)| else ShownCount
    ensures data.None? ==> Shown(now, data) == []
  {
    var s := UpcomingSorted(now, data);
    assert Shown(now, data) == Take(s, ShownCount);
    TakeKeepsMembersAndOrder(Ascending, s, ShownCount);
  }

  /**
   * The shown appointments are the earliest: an upcoming appointment that is
   * not shown is no earlier than any shown one.
   */
  lemma ShownAreEarliest(now: Instant, data: Option<seq<Appointment>>, shown: Appointment, other: Appointment)
    requires shown in Shown(now, data)
    requires data.Some? && other in data.value && Upcoming(now, other)
    requires other !in Shown(now, data)
    ensures shown.at.Some? && other.at.Some? && shown.at.value <= other.at.value
  {
    var kept := Filter(data.value, a => Upcoming(now, a));
    var r := Shown(now, data);
    assert r == Take(Sort(Ascending, kept), ShownCount);
    ShownProperties(now, data);
    var i :| 0 <= i < |r| && r[i] == shown;
    var j :| 0 <= j < |kept| && kept[j] == other;
    TakeOfSortedIsEarliest(kept, ShownCount, i, j);
  }
}
