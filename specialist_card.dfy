/**
 * The specialist card of the catalogue: the shortened texts, the full name
 * and the service chips shown for one specialist.
 */
module SpecialistCard {
  import opened Text

  /** A string with no white space at either end is its own trimmed form. */
  lemma TrimOfTrimmed(s: string)
    requires s == [] || (!IsWhitespace(s[0]) && !IsWhitespace(s[|s| - 1]))
    ensures Trim(s) == s
  {
    assert TrimStart(s) == s;
    assert TrimEnd(s) == s;
  }

  /**
   * `truncateLocalString`: the empty string stays empty, a string within the
   * limit is kept, and a longer one is cut to its first `max` characters,
   * trimmed, with "..." after it.
   */
  function Truncate(s: string, max: nat): (r: string)
    ensures |s| <= max ==> r == s
    ensures |r| <= max + 3
    ensures |s| > max ==> |r| >= 3 && r[|r| - 3..] == "..."
  {
    if s == "" then ""
    else if |s| <= max then s
    else
      var kept := Trim(s[..max]);
      assert (kept + "...")[|kept|..] == "...";
      kept + "..."
  }

  /**
   * What a cut keeps: the first `max` characters, trimmed, then "...";
   * the kept text is a run of the original found after leading white space
   * and followed only by white space up to the cut.
   */
  lemma TruncateDropsOnlyWhitespace(s: string, max: nat)
    requires |s| > max
    ensures Truncate(s, max) == Trim(s[..max]) + "..."
    ensures var kept, a := Trim(s[..max]), TrimOffset(s[..max]);
      a + |kept| <= max && kept == s[a..a + |kept|] &&
      AllWhitespace(s[..a]) && AllWhitespace(s[a + |kept|..max])
  {
    var p := s[..max];
    SlicesOfPrefix(s, max, TrimOffset(p), TrimOffset(p) + |Trim(p)|);
  }

  /** Slices of the first `max` characters are the same slices of the whole. */
  lemma SlicesOfPrefix(s: string, max: nat, i: nat, j: nat)
    requires i <= j <= max <= |s|
    ensures s[..max][..i] == s[..i] && s[..max][i..j] == s[i..j] && s[..max][j..] == s[j..max]
  {
  }

  /** A shortened text is within the budget of a second shortening, which keeps it. */
  lemma TruncateIdempotent(s: string, max: nat)
    ensures Truncate(Truncate(s, max), max + 3) == Truncate(s, max)
  {
  }

  /** `${first_name || ''} ${last_name || ''}`.trim(). */
  function FullName(first: Option<string>, last: Option<string>): (r: string)
    ensures r == [] || (!IsWhitespace(r[0]) && !IsWhitespace(r[|r| - 1]))
  {
    Trim(OrEmpty(first) + " " + OrEmpty(last))
  }

  /** Two names given without surrounding spaces are joined by one space. */
  lemma FullNameOfBothParts(first: string, last: string)
    requires first != [] && !IsWhitespace(first[0]) && !IsWhitespace(first[|first| - 1])
    requires last != [] && !IsWhitespace(last[0]) && !IsWhitespace(last[|last| - 1])
    ensures FullName(Some(first), Some(last)) == first + " " + last
  {
    var s := first + " " + last;
    assert s[0] == first[0] && s[|s| - 1] == last[|last| - 1];
    TrimOfTrimmed(s);
  }

  lemma TrimStartSkipsSpace(name: string)
    ensures TrimStart([' '] + name) == TrimStart(name)
  {
    assert ([' '] + name)[1..] == name;
  }

  lemma TrimEndSkipsSpace(name: string)
    ensures TrimEnd(name + [' ']) == TrimEnd(name)
  {
    assert (name + [' '])[..|name|] == name;
  }

  /** With the first name missing, the name is the last name without the joining space. */
  lemma FullNameOfLastOnly(name: string)
    requires name == [] || (!IsWhitespace(name[0]) && !IsWhitespace(name[|name| - 1]))
    ensures FullName(None, Some(name)) == name
  {
    var t := OrEmpty(None) + " " + OrEmpty(Some(name));
    assert t == [' '] + name;
    TrimStartSkipsSpace(name);
    assert TrimStart(name) == name;
    assert TrimStart(t) == name;
    assert TrimEnd(name) == name;
    assert Trim(t) == TrimEnd(TrimStart(t));
  }

  /** With the last name missing, the name is the first name without the joining space. */
  lemma FullNameOfFirstOnly(name: string)
    requires name == [] || (!IsWhitespace(name[0]) && !IsWhitespace(name[|name| - 1]))
    ensures FullName(Some(name), None) == name
  {
    var t := OrEmpty(Some(name)) + " " + OrEmpty(None);
    assert t == name + [' '];
    if name == [] {
      assert TrimStart(t) == TrimStart([]) == [];
    } else {
      assert t[0] == name[0];
      assert TrimStart(t) == t;
      TrimEndSkipsSpace(name);
      assert TrimEnd(name) == name;
    }
  }

  /** The chips under a card: at most two service names and a "more" chip. */
  datatype Chips = Chips(labels: seq<string>, more: bool)

  /** The longest label a service chip shows before it is cut. */
  const ChipLabelLength: nat := 20

  /**
   * The chips for a `services_provided` text: none for a missing or empty
   * text; otherwise the first two comma-separated entries, trimmed and
   * shortened, and a "more" chip exactly when there are further entries.
   */
  function ServiceChips(services: Option<string>): (r: Option<Chips>)
    ensures r.None? <==> services.None? || services.value == ""
    ensures r.Some? ==> 1 <= |r.value.labels| <= 2
    ensures r.Some? ==> forall i :: 0 <= i < |r.value.labels| ==> |r.value.labels[i]| <= ChipLabelLength + 3
    ensures r.Some? ==> (r.value.more <==> CountChar(services.value, ',') >= 2)
    ensures r.Some? ==> (|r.value.labels| == 2 <==> CountChar(services.value, ',') >= 1)
  {
    if services.None? || services.value == "" then None
    else
      var pieces := Split(services.value, ',');
      SplitCount(services.value, ',');
      Some(Chips(FirstLabels(pieces), |pieces| > 2))
  }

  /** `slice(0, 2)` of the entries, each as its chip label. */
  function FirstLabels(pieces: seq<string>): (r: seq<string>)
    requires |pieces| >= 1
    ensures 1 <= |r| <= 2 && (|r| == 2 <==> |pieces| >= 2)
    ensures |r[0]| <= ChipLabelLength + 3 && (|r| == 2 ==> |r[1]| <= ChipLabelLength + 3)
  {
    if |pieces| >= 2 then [ChipLabel(pieces[0]), ChipLabel(pieces[1])] else [ChipLabel(pieces[0])]
  }

  /** The label of one chip: the entry trimmed and shortened. */
  function ChipLabel(entry: string): (r: string)
    ensures |r| <= ChipLabelLength + 3
    ensures |Trim(entry)| <= ChipLabelLength ==> r == Trim(entry)
  {
    Truncate(Trim(entry), ChipLabelLength)
  }

  /** Each label is the trimmed entry itself when the entry is short enough. */
  lemma ShortEntriesShownWhole(services: string)
    requires services != ""
    requires forall i :: 0 <= i < |Split(services, ',')| ==> |Trim(Split(services, ',')[i])| <= ChipLabelLength
    ensures var pieces := Split(services, ',');
      ServiceChips(Some(services)).value.labels ==
        (if |pieces| >= 2 then [Trim(pieces[0]), Trim(pieces[1])] else [Trim(pieces[0])])
  {
    var pieces := Split(services, ',');
    assert ChipLabel(pieces[0]) == Trim(pieces[0]);
    if |pieces| >= 2 {
      assert ChipLabel(pieces[1]) == Trim(pieces[1]);
    }
  }

  /** One specialist as the catalogue sends it; missing fields are None. */
  datatype Specialist = Specialist(
    firstName: Option<string>,
    lastName: Option<string>,
    specialization: Option<string>,
    bioShort: Option<string>,
    servicesProvided: Option<string>)

  /** What the card shows. */
  datatype CardView = CardView(title: string, specialization: string, bio: string, chips: Option<Chips>)

  const NoName := "Ім'я не вказано"
  const NoSpecialization := "Спеціалізація не вказана"
  const NoBio := "Короткий опис відсутній."

  /** `x || fallback` for an optional text. */
  function OrDefault(s: Option<string>, fallback: string): (r: string)
    ensures s.Some? && s.value != "" ==> r == s.value
    ensures s.None? || s.value == "" ==> r == fallback
  {
    if s.Some? && s.value != "" then s.value else fallback
  }

  /**
   * The card for a specialist, nothing for a missing one: the name or a
   * placeholder, the specialization within 50 characters and the short bio
   * within 100 (each with its "..."), and the service chips.
   */
  function Card(s: Option<Specialist>): (r: Option<CardView>)
    ensures r.None? <==> s.None?
    ensures r.Some? ==> r.value.title != ""
    ensures r.Some? ==> |r.value.specialization| <= 53 && |r.value.bio| <= 103
    ensures r.Some? ==> r.value.chips == ServiceChips(s.value.servicesProvided)
  {
    if s.None? then None
    else
      var p := s.value;
      var name := FullName(p.firstName, p.lastName);
      Some(CardView(
        if name != "" then name else NoName,
        Truncate(OrDefault(p.specialization, NoSpecialization), 50),
        Truncate(OrDefault(p.bioShort, NoBio), 100),
        ServiceChips(p.servicesProvided)))
  }

  /** A specialist without a specialization or a bio shows the placeholders in full. */
  lemma PlaceholdersShownWhole(first: Option<string>, last: Option<string>, services: Option<string>)
    ensures var v := Card(Some(Specialist(first, last, None, None, services))).value;
      v.specialization == NoSpecialization && v.bio == NoBio
  {
  }
}
