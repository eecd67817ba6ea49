/**
 * `list.sort((a, b) => new Date(a.appointment_datetime) - new Date(b.appointment_datetime))`
 * and its descending twin, as used by the booking lists and dashboards, and
 * `slice(0, n)`. The model is an insertion sort on the parsed instant that
 * puts each appointment before the first one it may precede.
 */
module Chronology {
  import opened Text
  import opened Domain

  datatype Direction = Ascending | Descending

  /**
   * Whether instant `x` may stand before `y` in a list sorted in direction
   * `d`. An unparseable instant (None) is placed before every valid one when
   * ascending and after every valid one when descending.
   */
  predicate InOrder(d: Direction, x: Option<Instant>, y: Option<Instant>)
  {
    match d
    case Ascending => x.None? || (y.Some? && x.value <= y.value)
    case Descending => y.None? || (x.Some? && x.value >= y.value)
  }

  lemma InOrderTotal(d: Direction, x: Option<Instant>, y: Option<Instant>)
    ensures InOrder(d, x, y) || InOrder(d, y, x)
  {
  }

  predicate Sorted(d: Direction, s: seq<Appointment>)
  {
    forall i, j :: 0 <= i < j < |s| ==> InOrder(d, s[i].at, s[j].at)
  }

  /** Puts `x` before the first element it may precede, keeping the rest in place. */
  function Insert(d: Direction, x: Appointment, s: seq<Appointment>): (r: seq<Appointment>)
    requires Sorted(d, s)
    ensures Sorted(d, r)
    ensures multiset(r) == multiset(s) + multiset{x}
  {
    if s == [] then [x]
    else if InOrder(d, x.at, s[0].at) then [x] + s
    else
      var rest := Insert(d, x, s[1..]);
      assert multiset(s) == multiset{s[0]} + multiset(s[1..]) by {
        assert s == [s[0]] + s[1..];
      }
      HeadBoundsInsert(d, x, s, rest);
      [s[0]] + rest
  }

  /** When `x` goes after the head, the head may still precede `x` and the rest of `s`. */
  lemma HeadBoundsInsert(d: Direction, x: Appointment, s: seq<Appointment>, rest: seq<Appointment>)
    requires Sorted(d, s) && s != [] && !InOrder(d, x.at, s[0].at)
    requires multiset(rest) == multiset(s[1..]) + multiset{x}
    ensures forall k :: 0 <= k < |rest| ==> InOrder(d, s[0].at, rest[k].at)
  {
    forall k | 0 <= k < |rest| ensures InOrder(d, s[0].at, rest[k].at) {
      assert rest[k] in multiset(rest);
      assert rest[k] == x || rest[k] in multiset(s[1..]);
      if rest[k] != x {
        var j :| 0 <= j < |s[1..]| && s[1..][j] == rest[k];
        assert s[j + 1] == rest[k];
      }
    }
  }

  /** The list ordered by appointment time in direction `d`. */
  function Sort(d: Direction, s: seq<Appointment>): (r: seq<Appointment>)
    ensures Sorted(d, r)
    ensures multiset(r) == multiset(s)
  {
    if s == [] then []
    else
      assert s == [s[0]] + s[1..];
      Insert(d, s[0], Sort(d, s[1..]))
  }

  /** Sorting keeps exactly the members it was given. */
  lemma SortMembers(d: Direction, s: seq<Appointment>)
    ensures forall a :: a in Sort(d, s) <==> a in s
  {
    var r := Sort(d, s);
    forall a
      ensures a in r <==> a in s
    {
      assert a in r <==> a in multiset(r);
      assert a in s <==> a in multiset(s);
    }
  }

  /** `s.filter(keep)`: the members that pass, in their order. */
  function Filter(s: seq<Appointment>, keep: Appointment -> bool): (r: seq<Appointment>)
    ensures forall a :: a in r <==> a in s && keep(a)
    ensures forall a :: multiset(r)[a] == if keep(a) then multiset(s)[a] else 0
    ensures |r| <= |s|
  {
    if s == [] then []
    else
      assert s == [s[0]] + s[1..];
      (if keep(s[0]) then [s[0]] else []) + Filter(s[1..], keep)
  }

  /** Filtering a concatenation filters each part in place, so the kept members keep their order. */
  lemma {:induction false} FilterAppend(s: seq<Appointment>, t: seq<Appointment>, keep: Appointment -> bool)
    ensures Filter(s + t, keep) == Filter(s, keep) + Filter(t, keep)
  {
    if s == [] {
      assert s + t == t;
    } else {
      var head := if keep(s[0]) then [s[0]] else [];
      assert (s + t)[0] == s[0] && (s + t)[1..] == s[1..] + t;
      assert Filter(s + t, keep) == head + Filter(s[1..] + t, keep);
      assert Filter(s, keep) == head + Filter(s[1..], keep);
      FilterAppend(s[1..], t, keep);
      ConcatAssoc(head, Filter(s[1..], keep), Filter(t, keep));
    }
  }

  lemma ConcatAssoc(x: seq<Appointment>, y: seq<Appointment>, z: seq<Appointment>)
    ensures x + (y + z) == (x + y) + z
  {
  }

  /** `s.slice(0, n)`. */
  function Take(s: seq<Appointment>, n: nat): (r: seq<Appointment>)
    ensures |r| == if |s| < n then |s| else n
    ensures r == s[..|r|]
  {
    if |s| <= n then s else s[..n]
  }

  /** The first `n` of a list are members of it, in the list's order. */
  lemma TakeKeepsMembersAndOrder(d: Direction, s: seq<Appointment>, n: nat)
    ensures forall a :: a in Take(s, n) ==> a in s
    ensures Sorted(d, s) ==> Sorted(d, Take(s, n))
  {
    var r := Take(s, n);
    forall a | a in r
      ensures a in s
    {
      var k :| 0 <= k < |r| && r[k] == a;
      assert s[k] == a;
    }
  }

  /**
   * The first `n` of a list sorted ascending are its earliest members: no
   * member left out comes strictly before any member shown.
   */
  lemma TakeOfSortedIsEarliest(s: seq<Appointment>, n: nat, i: int, j: int)
    requires 0 <= i < |Take(Sort(Ascending, s), n)|
    requires 0 <= j < |s|
    requires s[j] !in Take(Sort(Ascending, s), n)
    ensures InOrder(Ascending, Take(Sort(Ascending, s), n)[i].at, s[j].at)
  {
    var sorted := Sort(Ascending, s);
    var shown := Take(sorted, n);
    assert s[j] in multiset(s);
    assert s[j] in multiset(sorted);
    var k :| 0 <= k < |sorted| && sorted[k] == s[j];
    assert shown[i] == sorted[i];
    assert sorted[k] !in sorted[..|shown|];
    assert k >= |shown|;
  }
}
