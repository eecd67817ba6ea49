/**
 * The body of `GET /appointments/availability` as the booking form and the
 * calendar read it. The server answers with a flat array of ISO start times,
 * with an object keyed by specialist id whose values are such arrays, or with
 * anything else. Each item is shown here already passed through `parseISO`:
 * `Some(t)` for a valid instant, `None` for an unparseable string or a value
 * that is not a string.
 */
module SlotResponse {
  import opened Text
  import opened Domain

  /** One value of the keyed object: an array of items, or a single non-array value. */
  datatype Entry = ListEntry(items: seq<Option<Instant>>) | ScalarEntry(item: Option<Instant>)

  datatype Response =
    | FlatList(items: seq<Option<Instant>>)
    | Keyed(entries: seq<(string, Entry)>)
    | OtherShape

  /** `obj[key]`: the value stored under `key`, if any (JSON object keys are unique). */
  function Lookup(entries: seq<(string, Entry)>, key: string): (r: Option<Entry>)
    ensures r.Some? <==> exists i :: 0 <= i < |entries| && entries[i].0 == key
    ensures r.Some? ==> exists i :: 0 <= i < |entries| && entries[i] == (key, r.value)
  {
    if entries == [] then None
    else if entries[0].0 == key then Some(entries[0].1)
    else
      var r := Lookup(entries[1..], key);
      assert forall i :: 0 <= i < |entries[1..]| ==> entries[1..][i] == entries[i + 1];
      assert r.Some? ==> exists i :: 0 <= i < |entries[1..]| && entries[1..][i] == (key, r.value);
      r
  }

  /** The items one value contributes to `Object.values(obj).flat()`. */
  function EntryItems(e: Entry): seq<Option<Instant>>
  {
    match e
    case ListEntry(items) => items
    case ScalarEntry(item) => [item]
  }

  /** `Object.values(obj).flat()`: array values are spliced in, other values kept as one item. */
  function Flatten(entries: seq<(string, Entry)>): (r: seq<Option<Instant>>)
    ensures forall x :: x in r <==> exists i :: 0 <= i < |entries| && x in EntryItems(entries[i].1)
  {
    if entries == [] then []
    else
      var rest := Flatten(entries[1..]);
      assert forall i :: 0 <= i < |entries[1..]| ==> entries[1..][i] == entries[i + 1];
      EntryItems(entries[0].1) + rest
  }

  /** The property key of a specialist id: `String(id)`. */
  function SpecialistKey(id: Id): string
  {
    NatToString(id)
  }

  /**
   * The items the client keeps before validity filtering: a flat array as is;
   * for a keyed object, the pinned specialist's array when it is one, all
   * values flattened when no specialist is pinned, and nothing otherwise.
   */
  function Candidates(resp: Response, pinned: Option<Id>): seq<Option<Instant>>
  {
    match resp
    case FlatList(items) => items
    case Keyed(entries) =>
      if pinned.Some? then
        match Lookup(entries, SpecialistKey(pinned.value))
        case Some(ListEntry(items)) => items
        case _ => []
      else Flatten(entries)
    case OtherShape => []
  }

  /** `.filter(isValidDate)` after `parseISO`: the valid instants in their original order. */
  function ValidOnly(xs: seq<Option<Instant>>): (r: seq<Instant>)
    ensures |r| <= |xs|
    ensures forall t :: t in r <==> Some(t) in xs
  {
    if xs == [] then []
    else
      var rest := ValidOnly(xs[1..]);
      assert forall x :: x in xs <==> x == xs[0] || x in xs[1..] by {
        assert xs == [xs[0]] + xs[1..];
      }
      match xs[0]
      case Some(t) => [t] + rest
      case None => rest
  }

  lemma {:induction false} ValidOnlyAppend(xs: seq<Option<Instant>>, ys: seq<Option<Instant>>)
    ensures ValidOnly(xs + ys) == ValidOnly(xs) + ValidOnly(ys)
  {
    if xs != [] {
      assert (xs + ys)[1..] == xs[1..] + ys;
      ValidOnlyAppend(xs[1..], ys);
    } else {
      assert xs + ys == ys;
    }
  }

  /** Filtering keeps order: ValidOnly maps an in-order pair of valid items to an in-order pair. */
  lemma {:induction false} ValidOnlyKeepsOrder(xs: seq<Option<Instant>>, i: int, j: int)
    requires 0 <= i < j < |xs| && xs[i].Some? && xs[j].Some?
    ensures exists a, b ::
              0 <= a < b < |ValidOnly(xs)| && ValidOnly(xs)[a] == xs[i].value && ValidOnly(xs)[b] == xs[j].value
  {
    var front, back := xs[..j], xs[j..];
    assert xs == front + back;
    ValidOnlyAppend(front, back);
    assert back == [xs[j]] + back[1..];
    assert ValidOnly(back)[0] == xs[j].value;
    assert xs[i] == front[i];
    assert xs[i].value in ValidOnly(front);
    var a :| 0 <= a < |ValidOnly(front)| && ValidOnly(front)[a] == xs[i].value;
    var b := |ValidOnly(front)|;
    assert ValidOnly(xs)[a] == xs[i].value;
    assert ValidOnly(xs)[b] == xs[j].value;
  }
}
