/**
 * The specialist's appointments page: clicking an appointment in the
 * calendar opens a dialog where the specialist moves it along its lifecycle
 * and writes notes for the administrator.
 */
module SpecialistAppointments {
  import opened Text
  import opened Domain

  /** The empty selection of the status menu (`''`). */
  const NoStatus := OtherStatus("")

  /** One entry of the page's status list; `hidden` marks the entries shown only as the current status. */
  datatype StatusOption = StatusOption(value: Status, hidden: bool)

  /** The status list in the page's order. */
  const StatusList: seq<StatusOption> := [
    StatusOption(Confirmed, false),
    StatusOption(Completed, false),
    StatusOption(NoShow, false),
    StatusOption(Pending, true),
    StatusOption(CancelledByClient, true),
    StatusOption(CancelledByAdmin, true)
  ]

  /** Whether an entry survives both filters for an appointment in status `current`. */
  predicate Offers(o: StatusOption, current: Status)
  {
    (!o.hidden || o.value == current) &&
    (o.value == current ||
     (current == Pending && o.value == Confirmed) ||
     (current == Confirmed && (o.value == Completed || o.value == NoShow)))
  }

  /** The entries of `os` offered for `current`, in order. */
  function OfferedFrom(os: seq<StatusOption>, current: Status): (r: seq<Status>)
    ensures |r| <= |os|
  {
    if os == [] then []
    else Pick(os[0], current) + OfferedFrom(os[1..], current)
  }

  /** One entry's contribution to the menu: its status when offered, nothing otherwise. */
  function Pick(o: StatusOption, current: Status): seq<Status>
  {
    if Offers(o, current) then [o.value] else []
  }

  /** The offered statuses are exactly those of the entries that pass both filters. */
  lemma {:induction false} OfferedFromMembers(os: seq<StatusOption>, current: Status)
    ensures forall s :: s in OfferedFrom(os, current) <==> exists o :: o in os && o.value == s && Offers(o, current)
  {
    if os != [] {
      OfferedFromMembers(os[1..], current);
      forall s
        ensures s in OfferedFrom(os, current) <==> exists o :: o in os && o.value == s && Offers(o, current)
      {
        if s in OfferedFrom(os[1..], current) {
          var o :| o in os[1..] && o.value == s && Offers(o, current);
          assert o in os;
        }
      }
    }
  }

  /** The statuses the menu offers for an appointment in status `current`. */
  function StatusMenu(current: Status): (r: seq<Status>)
    ensures forall s :: s in r ==> s == current || s == Confirmed || s == Completed || s == NoShow
  {
    OfferedFromMembers(StatusList, current);
    OfferedFrom(StatusList, current)
  }

  /**
   * The menu for each status: pending offers confirmed and itself, confirmed
   * offers itself, completed and no-show, every other known status only
   * itself, and an unknown status nothing.
   */
  lemma StatusMenuByStatus(current: Status)
    ensures current == Pending ==> StatusMenu(current) == [Confirmed, Pending]
    ensures current == Confirmed ==> StatusMenu(current) == [Confirmed, Completed, NoShow]
    ensures current in {Completed, NoShow, CancelledByClient, CancelledByAdmin} ==>
      StatusMenu(current) == [current]
    ensures current.OtherStatus? ==> StatusMenu(current) == []
  {
    MenuSteps(current);
  }

  /** The menu unfolded one entry at a time along the status list. */
  lemma MenuSteps(current: Status)
    ensures StatusMenu(current) == Pick(StatusList[0], current) + OfferedFrom(StatusList[1..], current)
    ensures OfferedFrom(StatusList[1..], current) == Pick(StatusList[1], current) + OfferedFrom(StatusList[2..], current)
    ensures OfferedFrom(StatusList[2..], current) == Pick(StatusList[2], current) + OfferedFrom(StatusList[3..], current)
    ensures OfferedFrom(StatusList[3..], current) == Pick(StatusList[3], current) + OfferedFrom(StatusList[4..], current)
    ensures OfferedFrom(StatusList[4..], current) == Pick(StatusList[4], current) + OfferedFrom(StatusList[5..], current)
    ensures OfferedFrom(StatusList[5..], current) == Pick(StatusList[5], current)
  {
    var l := StatusList;
    assert l[1..][1..] == l[2..];
    assert l[2..][1..] == l[3..];
    assert l[3..][1..] == l[4..];
    assert l[4..][1..] == l[5..];
    assert l[5..][1..] == [];
  }

  /** The menu item for the current status is greyed out unless it is completed, no-show or confirmed. */
  predicate ItemDisabled(value: Status, current: Status)
  {
    value == current && value != Completed && value != NoShow && value != Confirmed
  }

  /** The Save button: a status is chosen and it differs from the current one. */
  predicate SaveEnabled(newStatus: Status, current: Status)
  {
    newStatus != NoStatus && newStatus != current
  }

  /**
   * The only moves a specialist can save are pending to confirmed and
   * confirmed to completed or no-show.
   */
  lemma SavableMoves(current: Status, choice: Status)
    requires choice in StatusMenu(current) && !ItemDisabled(choice, current)
    ensures SaveEnabled(choice, current) <==>
      (current == Pending && choice == Confirmed) ||
      (current == Confirmed && (choice == Completed || choice == NoShow))
  {
    StatusMenuByStatus(current);
  }

  /**
   * The `admin_notes` part of the update: absent (None), null (Some(None))
   * or the trimmed text. Notes are sent when they are non-blank or differ
   * from the stored ones.
   */
  function NotesUpdate(stored: Option<string>, notes: string): (r: Option<Option<string>>)
    ensures r.None? <==> IsBlank(notes) && stored == Some(notes)
    ensures r == Some(None) <==> IsBlank(notes) && stored != Some(notes)
    ensures r.Some? && r.value.Some? ==> r.value.value == Trim(notes) && !IsBlank(notes)
  {
    if !IsBlank(notes) || stored != Some(notes) then
      Some(if IsBlank(notes) then None else Some(Trim(notes)))
    else None
  }

  /** The body of `updateAppointment`: always the status, sometimes the notes. */
  datatype Update = Update(status: Status, adminNotes: Option<Option<string>>)

  datatype SaveOutcome = NothingChosen | Saved(id: Id, update: Update, succeeded: bool)

  class EditDialog {
    var open: bool
    var editing: Option<Appointment>
    var newStatus: Status
    var notes: string
    /** `refreshCalendarTrigger`, the calendar's key: each increment reloads it. */
    var refresh: nat

    ghost predicate Valid()
      reads this
    {
      open <==> editing.Some?
    }

    predicate Closed()
      reads this
    {
      !open && editing.None? && newStatus == NoStatus && notes == ""
    }

    constructor ()
      ensures Closed() && refresh == 0 && Valid()
    {
      open, editing, newStatus, notes, refresh := false, None, NoStatus, "", 0;
    }

    /** `handleSelectEventFromCalendar`: the dialog opens pre-filled from the appointment. */
    method Select(a: Appointment)
      modifies this
      ensures open && editing == Some(a) && Valid()
      ensures newStatus == a.status
      ensures notes == if a.adminNotes.Some? then a.adminNotes.value else ""
      ensures refresh == old(refresh)
    {
      editing := Some(a);
      newStatus := a.status;
      notes := if a.adminNotes.Some? then a.adminNotes.value else "";
      open := true;
    }

    /** `handleCloseEditDialog`. */
    method Close()
      modifies this
      ensures Closed() && Valid() && refresh == old(refresh)
    {
      open, editing, newStatus, notes := false, None, NoStatus, "";
    }

    /** Picking an entry of the status menu. */
    method ChooseStatus(s: Status)
      modifies this`newStatus
      ensures newStatus == s
    {
      newStatus := s;
    }

    method EditNotes(v: string)
      modifies this`notes
      ensures notes == v
    {
      notes := v;
    }

    /**
     * `handleSaveChanges`; `succeeds` is the server's answer. A saved change
     * closes the dialog and reloads the calendar; a failed one keeps the
     * dialog as it was.
     */
    method Save(succeeds: bool) returns (outcome: SaveOutcome)
      modifies this
      ensures outcome.NothingChosen? <==> old(editing).None? || old(newStatus) == NoStatus
      ensures outcome.Saved? ==>
        outcome.id == old(editing).value.id &&
        outcome.update == Update(old(newStatus), NotesUpdate(old(editing).value.adminNotes, old(notes))) &&
        outcome.succeeded == succeeds
      ensures outcome.Saved? && succeeds ==> Closed() && refresh == old(refresh) + 1
      ensures !(outcome.Saved? && succeeds) ==>
        open == old(open) && editing == old(editing) && newStatus == old(newStatus) &&
        notes == old(notes) && refresh == old(refresh)
      ensures old(Valid()) ==> Valid()
    {
      if editing.None? || newStatus == NoStatus {
        return NothingChosen;
      }
      var a := editing.value;
      outcome := Saved(a.id, Update(newStatus, NotesUpdate(a.adminNotes, notes)), succeeds);
      if succeeds {
        open, editing, newStatus, notes := false, None, NoStatus, "";
        refresh := refresh + 1;
      }
    }
  }
}
