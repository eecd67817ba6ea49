/**
 * The card that shows one appointment in the client's and the specialist's
 * lists: the status chip, which fields the viewer may see, and the edit and
 * cancel buttons.
 */
module AppointmentCard {
  import opened Text
  import opened Domain

  /** The colours of the status chip. */
  datatype ChipColor = Success | Warning | Error | PrimaryColor | DefaultColor

  /** `getStatusChipColor`. */
  function StatusColor(s: Status): ChipColor
  {
    match s
    case Confirmed => Success
    case Pending => Warning
    case CancelledByClient => Error
    case CancelledByAdmin => Error
    case Completed => PrimaryColor
    case NoShow => DefaultColor
    case OtherStatus(_) => DefaultColor
  }

  /** Each colour names one class of statuses, and every status has a colour. */
  lemma StatusColorClasses(s: Status)
    ensures StatusColor(s) == Success <==> s == Confirmed
    ensures StatusColor(s) == Warning <==> s == Pending
    ensures StatusColor(s) == Error <==> IsCancelled(s)
    ensures StatusColor(s) == PrimaryColor <==> s == Completed
    ensures StatusColor(s) == DefaultColor <==> s == NoShow || !IsKnown(s)
  {
  }

  /** The chip's text: the status with spaces for underscores, or the unknown-status text. */
  datatype Label = StatusText(text: string) | UnknownStatusText

  function StatusLabel(s: Status): (l: Label)
    ensures l.UnknownStatusText? <==> StatusName(s) == ""
    ensures l.StatusText? ==> |l.text| == |StatusName(s)| && '_' !in l.text
  {
    if StatusName(s) == "" then UnknownStatusText else StatusText(ReplaceChar(StatusName(s), '_', ' '))
  }

  lemma {:induction false} ReplaceCharBack(s: string, x: char, y: char)
    requires y !in s
    ensures ReplaceChar(ReplaceChar(s, x, y), y, x) == s
  {
    var r := ReplaceChar(ReplaceChar(s, x, y), y, x);
    assert |r| == |s|;
    forall i | 0 <= i < |s|
      ensures r[i] == s[i]
    {
      assert s[i] != y;
    }
  }

  /**
   * For the six known statuses the label can be read back: putting the
   * underscores back gives the status name, which parses to the status.
   */
  lemma KnownStatusLabelRoundTrip(s: Status)
    requires IsKnown(s)
    ensures StatusLabel(s).StatusText?
    ensures ReplaceChar(StatusLabel(s).text, ' ', '_') == StatusName(s)
    ensures ParseStatus(StatusName(s)) == s
  {
    var n := StatusName(s);
    KnownNameHasNoSpace(s);
    assert n != "";
    assert StatusLabel(s) == StatusText(ReplaceChar(n, '_', ' '));
    ReplaceCharBack(n, '_', ' ');
    ParseStatusOfName(s);
  }

  lemma KnownNameHasNoSpace(s: Status)
    requires IsKnown(s)
    ensures StatusName(s) != "" && ' ' !in StatusName(s)
  {
    match s
    case Pending =>
    case Confirmed =>
    case CancelledByClient =>
    case CancelledByAdmin =>
    case Completed =>
    case NoShow =>
  }

  lemma ParseStatusOfName(s: Status)
    requires IsKnown(s)
    ensures ParseStatus(StatusName(s)) == s
  {
    match s
    case Pending => assert ParseStatus("pending") == Pending;
    case Confirmed => assert ParseStatus("confirmed") == Confirmed;
    case CancelledByClient => assert ParseStatus("cancelled_by_client") == CancelledByClient;
    case CancelledByAdmin => assert ParseStatus("cancelled_by_admin") == CancelledByAdmin;
    case Completed => assert ParseStatus("completed") == Completed;
    case NoShow => assert ParseStatus("no_show") == NoShow;
  }

  /** A JavaScript value compared with `===`: undefined, null or an id. */
  datatype JsRef = Undefined | Null | IdRef(id: Id)

  /**
   * `specialist_id` as the list endpoints return it: an id or null. A missing
   * field would read as undefined, which `canEdit` could only match against
   * an undefined profile id in `currentUserData`; no page passes that prop,
   * so a missing specialist is taken as null.
   */
  function SpecialistRef(a: Appointment): (r: JsRef)
    ensures r != Undefined
    ensures r.IdRef? <==> a.specialistId.Some?
  {
    if a.specialistId.Some? then IdRef(a.specialistId.value) else Null
  }

  /** `currentUserData`: the viewer's specialist profile id, possibly undefined or null. */
  datatype Viewer = Viewer(specialistProfileId: JsRef)

  /** `canEdit`: admins always, a specialist when the appointment's specialist id is the viewer's. */
  predicate CanEdit(role: Role, viewer: Option<Viewer>, a: Appointment)
  {
    role == Admin ||
    (role == Specialist && viewer.Some? && SpecialistRef(a) == viewer.value.specialistProfileId)
  }

  /**
   * A specialist whose profile id is known edits exactly the appointments
   * assigned to that id; without `currentUserData`, or with an undefined
   * profile id, a specialist edits nothing. Clients never edit.
   */
  lemma WhoCanEdit(role: Role, viewer: Option<Viewer>, a: Appointment)
    ensures role == Client ==> !CanEdit(role, viewer, a)
    ensures role == Specialist && viewer.Some? && viewer.value.specialistProfileId.IdRef? ==>
      (CanEdit(role, viewer, a) <==> a.specialistId == Some(viewer.value.specialistProfileId.id))
    ensures role == Specialist && (viewer.None? || viewer.value.specialistProfileId.Undefined?) ==>
      !CanEdit(role, viewer, a)
  {
  }

  /** `canClientCancel`: a client, and the appointment is pending or confirmed. */
  predicate CanClientCancel(role: Role, s: Status)
  {
    role == Client && IsOpen(s)
  }

  /** What the card shows; None renders nothing. */
  datatype CardView = CardView(
    chipLabel: Label,
    chipColor: ChipColor,
    showsClientName: bool,
    showsClientNotes: bool,
    showsAdminNotes: bool,
    editButton: bool,
    cancelButton: bool)

  predicate IsStaff(role: Role)
  {
    role == Admin || role == Specialist
  }

  /** A missing `admin_notes`, like an empty one, is falsy. */
  predicate HasAdminNotes(a: Appointment)
  {
    a.adminNotes.Some? && a.adminNotes.value != ""
  }

  /** The card for an appointment, or nothing for a null one. */
  function Card(appointment: Option<Appointment>, role: Role, viewer: Option<Viewer>,
                hasOnEdit: bool, hasOnCancel: bool): (v: Option<CardView>)
    ensures v.None? <==> appointment.None?
    ensures v.Some? ==> v.value.chipLabel == StatusLabel(appointment.value.status)
    ensures v.Some? ==> v.value.chipColor == StatusColor(appointment.value.status)
  {
    match appointment
    case None => None
    case Some(a) =>
      var staff := IsStaff(role);
      Some(CardView(
        StatusLabel(a.status),
        StatusColor(a.status),
        staff && a.clientFirstName != "",
        a.clientNotes != "",
        staff && HasAdminNotes(a),
        CanEdit(role, viewer, a) && hasOnEdit,
        CanClientCancel(role, a.status) && hasOnCancel))
  }

  /**
   * A client never sees the client's name or the staff notes, and never gets
   * an edit button; staff never get a cancel button. The cancel button
   * appears exactly for a client on a pending or confirmed appointment when
   * the page handles cancelling: ownership and the time are not checked.
   */
  lemma CardVisibility(a: Appointment, role: Role, viewer: Option<Viewer>, hasOnEdit: bool, hasOnCancel: bool)
    ensures var v := Card(Some(a), role, viewer, hasOnEdit, hasOnCancel).value;
      (!IsStaff(role) ==> !v.showsClientName && !v.showsAdminNotes) &&
      (role == Client ==> !v.editButton) &&
      (IsStaff(role) ==> !v.cancelButton) &&
      (v.cancelButton ==> IsOpen(a.status) && hasOnCancel) &&
      (v.editButton ==> hasOnEdit) &&
      !(v.editButton && v.cancelButton)
    ensures var v := Card(Some(a), role, viewer, hasOnEdit, hasOnCancel).value;
      IsStaff(role) ==> (v.showsAdminNotes <==> HasAdminNotes(a)) && (v.showsClientName <==> a.clientFirstName != "")
    ensures var v := Card(Some(a), role, viewer, hasOnEdit, hasOnCancel).value;
      v.cancelButton <==> role == Client && (a.status == Pending || a.status == Confirmed) && hasOnCancel
  {
  }
}
