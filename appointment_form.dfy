/**
 * The booking form: how it turns the availability answer into the list of
 * bookable instants, the chain of checks `handleSubmit` runs before it builds
 * the request, the request itself, and the field resets of the change
 * handlers. The same form serves the public booking page (plain client form),
 * the first step of the booking wizard (step mode) and the admin dialog
 * (admin form).
 */
module AppointmentForm {
  import opened Text
  import opened Domain
  import opened SlotResponse

  // ---------------------------------------------------------------------------
  // Slot normalisation

  predicate StrictlyIncreasing(s: seq<Instant>)
  {
    forall i, j :: 0 <= i < j < |s| ==> s[i] < s[j]
  }

  /** Adds `x` to a strictly increasing list unless it is already there. */
  function InsertUnique(x: Instant, s: seq<Instant>): (r: seq<Instant>)
    requires StrictlyIncreasing(s)
    ensures StrictlyIncreasing(r)
    ensures forall t :: t in r <==> t == x || t in s
  {
    if s == [] then [x]
    else if x < s[0] then [x] + s
    else if x == s[0] then s
    else
      var rest := InsertUnique(x, s[1..]);
      assert forall t :: t in s <==> t == s[0] || t in s[1..] by {
        assert s == [s[0]] + s[1..];
      }
      assert forall k :: 0 <= k < |rest| ==> s[0] < rest[k] by {
        forall k | 0 <= k < |rest| ensures s[0] < rest[k] {
          assert rest[k] in rest;
          if rest[k] != x {
            var j :| 0 <= j < |s[1..]| && s[1..][j] == rest[k];
            assert s[j + 1] == rest[k];
          }
        }
      }
      [s[0]] + rest
  }

  /**
   * `[...new Set(times)].map(t => new Date(t)).sort((a, b) => a - b)`: every
   * instant once, in ascending order.
   */
  function DedupeSort(xs: seq<Instant>): (r: seq<Instant>)
    ensures StrictlyIncreasing(r)
    ensures forall t :: t in r <==> t in xs
  {
    if xs == [] then []
    else
      assert forall t :: t in xs <==> t == xs[0] || t in xs[1..] by {
        assert xs == [xs[0]] + xs[1..];
      }
      InsertUnique(xs[0], DedupeSort(xs[1..]))
  }

  /** The slot list `fetchSlots` stores for an answer, given the pinned specialist. */
  function NormaliseSlots(resp: Response, pinned: Option<Id>): (r: seq<Instant>)
    ensures resp.FlatList? ==> |r| <= |resp.items|
    ensures resp.Keyed? && pinned.None? ==> StrictlyIncreasing(r)
    ensures resp.OtherShape? ==> r == []
  {
    match resp
    case FlatList(items) => ValidOnly(items)
    case Keyed(entries) =>
      if pinned.Some? then ValidOnly(Candidates(resp, pinned))
      else DedupeSort(ValidOnly(Flatten(entries)))
    case OtherShape => []
  }

  /** A flat array yields exactly its valid instants, each where the array had it. */
  lemma FlatListSlots(items: seq<Option<Instant>>, pinned: Option<Id>)
    ensures NormaliseSlots(FlatList(items), pinned) == ValidOnly(items)
    ensures forall t :: t in NormaliseSlots(FlatList(items), pinned) <==> Some(t) in items
  {
  }

  /**
   * With a specialist pinned, a keyed answer yields the valid instants of
   * that specialist's array, or nothing when the entry is missing or not an array.
   */
  lemma PinnedSlots(entries: seq<(string, Entry)>, id: Id)
    ensures forall t :: t in NormaliseSlots(Keyed(entries), Some(id)) <==>
      exists items :: Lookup(entries, SpecialistKey(id)) == Some(ListEntry(items)) && Some(t) in items
  {
    match Lookup(entries, SpecialistKey(id))
    case Some(ListEntry(items)) =>
    case _ =>
  }

  /**
   * With no specialist pinned, a keyed answer yields the union of all the
   * specialists' valid instants, strictly ascending, so without duplicates.
   */
  lemma UnpinnedSlots(entries: seq<(string, Entry)>)
    ensures StrictlyIncreasing(NormaliseSlots(Keyed(entries), None))
    ensures forall t :: t in NormaliseSlots(Keyed(entries), None) <==>
      exists i :: 0 <= i < |entries| && Some(t) in EntryItems(entries[i].1)
  {
  }

  lemma OtherShapeSlots(pinned: Option<Id>)
    ensures NormaliseSlots(OtherShape, pinned) == []
  {
  }

  // ---------------------------------------------------------------------------
  // Form state

  /** A date-picker value: empty, an Invalid Date, or a valid instant. */
  datatype Picked = NotPicked | InvalidPick | PickedAt(at: Instant)

  /** The appointment an admin edits (`existingAppointmentData`). */
  datatype Existing = Existing(
    id: Option<Id>,
    serviceId: Option<Id>,
    specialistId: Option<Id>,
    userId: Option<Id>,
    at: Picked,
    clientNotes: string,
    adminNotes: string,
    status: string)

  /** The props the form is mounted with. */
  datatype Props = Props(
    isAdminForm: bool,
    isStepMode: bool,
    fixedDateTime: Picked,
    userIdForAdmin: Option<Id>,
    existing: Option<Existing>,
    initialServiceId: Option<Id>,
    initialSpecialistId: Option<Id>)

  datatype FormError =
    | ChooseClient
    | ChooseService
    | ChooseDateTime
    | PastTime
    | TimeUnavailable
    | SlotsFailed
    | ClientNotChosen
    | RequestFailed

  /** The form's fields as one value. */
  datatype FormState = FormState(
    service: Option<Id>,
    specialist: Option<Id>,
    client: Option<Id>,
    dateTime: Picked,
    clientNotes: string,
    adminNotes: string,
    status: string,
    slots: seq<Instant>)

  /** The public booking form: not admin, not a wizard step, no fixed time. */
  predicate PlainClientForm(p: Props)
  {
    !p.isAdminForm && !p.isStepMode && p.fixedDateTime.NotPicked?
  }

  /** The admin dialog outside the wizard, which also edits client, status and notes. */
  predicate AdminDialog(p: Props)
  {
    p.isAdminForm && !p.isStepMode
  }

  /** Some source names the client: the selection, the prop, or the edited appointment. */
  predicate ClientKnown(p: Props, s: FormState)
  {
    s.client.Some? || p.userIdForAdmin.Some? || (p.existing.Some? && p.existing.value.userId.Some?)
  }

  /** The state the mount effect leaves. */
  function InitialState(p: Props): (s: FormState)
    ensures s.slots == []
    ensures s.dateTime.InvalidPick? ==> p.isAdminForm && p.existing.Some?
  {
    if p.isAdminForm && p.existing.Some? then
      var e := p.existing.value;
      FormState(e.serviceId, e.specialistId, e.userId, e.at, e.clientNotes, e.adminNotes,
                if e.status == "" then "pending" else e.status, [])
    else
      FormState(p.initialServiceId, p.initialSpecialistId, p.userIdForAdmin,
                if p.fixedDateTime.PickedAt? then p.fixedDateTime else NotPicked, "", "", "pending", [])
  }

  /** The first check of `handleSubmit` that fails, or None when all pass. */
  function FirstFailedCheck(p: Props, s: FormState, now: Instant): (r: Option<FormError>)
    ensures r.None? ==> s.service.Some? && s.dateTime.PickedAt?
    ensures r == Some(PastTime) ==> PlainClientForm(p) && s.dateTime.PickedAt? && s.dateTime.at < now
    ensures r == Some(TimeUnavailable) ==> PlainClientForm(p) && s.dateTime.PickedAt? && s.dateTime.at !in s.slots
  {
    if AdminDialog(p) && !ClientKnown(p, s) then Some(ChooseClient)
    else if s.service.None? then Some(ChooseService)
    else if !s.dateTime.PickedAt? then Some(ChooseDateTime)
    else if PlainClientForm(p) && s.dateTime.at < now then Some(PastTime)
    else if PlainClientForm(p) && |s.slots| > 0 && s.dateTime.at !in s.slots then Some(TimeUnavailable)
    else None
  }

  /** The form passes its checks exactly when these conditions hold together. */
  lemma ChecksPassIff(p: Props, s: FormState, now: Instant)
    ensures FirstFailedCheck(p, s, now).None? <==>
      (AdminDialog(p) ==> ClientKnown(p, s)) && s.service.Some? && s.dateTime.PickedAt? &&
      (PlainClientForm(p) ==> s.dateTime.at >= now && (s.slots == [] || s.dateTime.at in s.slots))
  {
  }

  /** Outside the plain client form neither the past-time nor the slot check ever fires. */
  lemma StepAndFixedModesSkipTimeChecks(p: Props, s: FormState, now: Instant)
    requires !PlainClientForm(p)
    ensures FirstFailedCheck(p, s, now) != Some(PastTime)
    ensures FirstFailedCheck(p, s, now) != Some(TimeUnavailable)
  {
  }

  /** Admin fields of the draft: `user_id`, `status`, `admin_notes`. */
  datatype AdminFields = AdminFields(userId: Option<Id>, status: string, adminNotes: string)

  /** `currentFormData`: what step mode hands to the wizard, and the base of the request. */
  datatype FormData = FormData(
    serviceId: Option<Id>,
    specialistId: Option<Id>,
    at: Instant,
    clientNotes: string,
    admin: Option<AdminFields>)

  /** The client the admin dialog names: the selection, else the prop, else the edited appointment's. */
  function AdminClient(p: Props, s: FormState): (r: Option<Id>)
    ensures r.Some? <==> ClientKnown(p, s)
  {
    if s.client.Some? then s.client
    else if p.userIdForAdmin.Some? then p.userIdForAdmin
    else if p.existing.Some? then p.existing.value.userId
    else None
  }

  function BuildFormData(p: Props, s: FormState): (d: FormData)
    requires s.dateTime.PickedAt?
    ensures d.admin.Some? <==> AdminDialog(p)
    ensures d.serviceId == s.service && d.specialistId == s.specialist && d.at == s.dateTime.at
    ensures d.admin.Some? ==> (d.admin.value.userId.Some? <==> ClientKnown(p, s))
  {
    FormData(s.service, s.specialist, s.dateTime.at, s.clientNotes,
             if AdminDialog(p) then Some(AdminFields(AdminClient(p, s), s.status, s.adminNotes)) else None)
  }

  /** The body sent to the server; a `None` field is one the request leaves out. */
  datatype Payload = Payload(
    serviceId: Option<Id>,
    specialistId: Option<Id>,
    at: Instant,
    clientNotes: string,
    userId: Option<Id>,
    admin: Option<(string, string)>)

  datatype Request = Create(body: Payload) | Update(id: Id, body: Payload)

  /**
   * The request `handleSubmit` sends for a draft, or None where it throws
   * "client not chosen" (an admin creating an appointment with no client).
   */
  function RequestFor(p: Props, d: FormData): (r: Option<Request>)
    ensures r.Some? && r.value.body.specialistId.Some? ==> r.value.body.specialistId == d.specialistId
    ensures r.Some? ==> r.value.body.serviceId == d.serviceId && r.value.body.at == d.at
  {
    var base := Payload(d.serviceId, d.specialistId, d.at, d.clientNotes, None, None);
    if p.isAdminForm then
      var userId := if d.admin.Some? then d.admin.value.userId else None;
      var fields := if d.admin.Some? then Some((d.admin.value.status, d.admin.value.adminNotes)) else None;
      var body := base.(userId := userId, admin := fields);
      if p.existing.Some? && p.existing.value.id.Some? then Some(Update(p.existing.value.id.value, body))
      else if userId.None? && p.userIdForAdmin.None? then None
      else if userId.None? then Some(Create(body.(userId := p.userIdForAdmin)))
      else Some(Create(body))
    else
      Some(Create(base.(userId := p.userIdForAdmin)))
  }

  /**
   * The "client not chosen" exception of the admin create path cannot happen:
   * the first check already demands a client.
   */
  lemma AdminCreateAlwaysHasClient(p: Props, s: FormState, now: Instant)
    requires FirstFailedCheck(p, s, now).None? && !p.isStepMode
    ensures s.dateTime.PickedAt?
    ensures RequestFor(p, BuildFormData(p, s)).Some?
    ensures p.isAdminForm ==> RequestFor(p, BuildFormData(p, s)).value.body.userId.Some?
  {
  }

  /**
   * The admin dialog updates the edited appointment when it has an id and
   * creates one otherwise; either body names the client the dialog knows and
   * carries the chosen status and admin notes. A create without any known
   * client is the thrown "client not chosen".
   */
  lemma AdminRequest(p: Props, s: FormState)
    requires s.dateTime.PickedAt? && AdminDialog(p)
    ensures var body := Payload(s.service, s.specialist, s.dateTime.at, s.clientNotes,
                                AdminClient(p, s), Some((s.status, s.adminNotes)));
      if p.existing.Some? && p.existing.value.id.Some? then
        RequestFor(p, BuildFormData(p, s)) == Some(Update(p.existing.value.id.value, body))
      else if ClientKnown(p, s) then
        RequestFor(p, BuildFormData(p, s)) == Some(Create(body))
      else
        RequestFor(p, BuildFormData(p, s)).None?
  {
  }

  /** Outside the admin dialog the request never carries status or admin notes. */
  lemma ClientRequestHasNoAdminFields(p: Props, s: FormState)
    requires s.dateTime.PickedAt? && !p.isAdminForm
    ensures RequestFor(p, BuildFormData(p, s)) == Some(Create(Payload(
      s.service, s.specialist, s.dateTime.at, s.clientNotes, p.userIdForAdmin, None)))
  {
  }

  /** A step-mode draft has no `user_id`, `status` or `admin_notes`. */
  lemma StepDraftHasNoAdminFields(p: Props, s: FormState)
    requires s.dateTime.PickedAt? && p.isStepMode
    ensures BuildFormData(p, s).admin.None?
  {
  }

  datatype SlotFetch = Answered(resp: Response) | FetchFailed

  datatype SubmitOutcome =
    | Rejected(error: FormError)
    | Drafted(draft: FormData)
    | Sent(request: Request, succeeded: bool)
    | Thrown

  class Form {
    const props: Props
    var service: Option<Id>
    var specialist: Option<Id>
    var client: Option<Id>
    var dateTime: Picked
    var clientNotes: string
    var adminNotes: string
    var status: string
    var slots: seq<Instant>
    var error: Option<FormError>

    function State(): FormState
      reads this
    {
      FormState(service, specialist, client, dateTime, clientNotes, adminNotes, status, slots)
    }

    /** Mounting the form, including the effect that seeds the fields from the props. */
    constructor (p: Props)
      ensures props == p && State() == InitialState(p) && error.None?
    {
      props := p;
      var s := InitialState(p);
      service, specialist, client, dateTime := s.service, s.specialist, s.client, s.dateTime;
      clientNotes, adminNotes, status, slots := s.clientNotes, s.adminNotes, s.status, [];
      error := None;
    }

    /** Whether the effect at the date picker asks for slots. */
    predicate WantsSlots()
      reads this
    {
      dateTime.PickedAt? && props.fixedDateTime.NotPicked? &&
      (!props.isAdminForm || props.isStepMode) && service.Some?
    }

    /** Choosing a service; the client and wizard forms also clear what depends on it. */
    method ChangeService(v: Option<Id>)
      modifies this
      ensures service == v && client == old(client) && status == old(status)
      ensures clientNotes == old(clientNotes) && adminNotes == old(adminNotes) && error == old(error)
      ensures if !props.isAdminForm || props.isStepMode
              then specialist.None? && dateTime.NotPicked? && slots == []
              else specialist == old(specialist) && dateTime == old(dateTime) && slots == old(slots)
    {
      service := v;
      if !props.isAdminForm || props.isStepMode {
        specialist := None;
        dateTime := NotPicked;
        slots := [];
      }
    }

    /** Choosing a specialist; the client and wizard forms also clear the time and slots. */
    method ChangeSpecialist(v: Option<Id>)
      modifies this
      ensures specialist == v && service == old(service) && client == old(client)
      ensures clientNotes == old(clientNotes) && adminNotes == old(adminNotes)
      ensures status == old(status) && error == old(error)
      ensures if !props.isAdminForm || props.isStepMode
              then dateTime.NotPicked? && slots == []
              else dateTime == old(dateTime) && slots == old(slots)
    {
      specialist := v;
      if !props.isAdminForm || props.isStepMode {
        dateTime := NotPicked;
        slots := [];
      }
    }

    method ChangeDateTime(v: Picked)
      modifies this`dateTime
      ensures dateTime == v
    {
      dateTime := v;
    }

    /**
     * `fetchSlots(date)`: with no service or no valid date the list is
     * cleared and nothing is requested; otherwise the answer (or failure)
     * decides the new list.
     */
    method FetchSlots(date: Picked, fetch: SlotFetch) returns (requested: bool)
      modifies this`slots, this`error
      ensures requested <==> service.Some? && date.PickedAt?
      ensures !requested ==> slots == [] && error == old(error)
      ensures requested && fetch.FetchFailed? ==> slots == [] && error == Some(SlotsFailed)
      ensures requested && fetch.Answered? ==>
        slots == NormaliseSlots(fetch.resp, specialist) && error.None?
    {
      if service.None? || !date.PickedAt? {
        slots := [];
        return false;
      }
      requested := true;
      error := None;
      match fetch
      case FetchFailed =>
        error := Some(SlotsFailed);
        slots := [];
      case Answered(resp) =>
        slots := NormaliseSlots(resp, specialist);
    }

    /**
     * The effect at the date picker: when it wants slots it fetches them for
     * the picked day (the request's date is not modelled, the answer is
     * `fetch`); otherwise slots and error stay as they are.
     */
    method SlotEffect(fetch: SlotFetch) returns (requested: bool)
      modifies this`slots, this`error
      ensures requested <==> WantsSlots()
      ensures !requested ==> slots == old(slots) && error == old(error)
      ensures requested && fetch.FetchFailed? ==> slots == [] && error == Some(SlotsFailed)
      ensures requested && fetch.Answered? ==>
        slots == NormaliseSlots(fetch.resp, specialist) && error.None?
    {
      if WantsSlots() {
        requested := FetchSlots(dateTime, fetch);
      } else {
        requested := false;
      }
    }

    /**
     * `handleSubmit`: the checks in order, then the step-mode hand-off or the
     * request; `requestSucceeds` is the server's verdict.
     */
    method Submit(now: Instant, requestSucceeds: bool) returns (outcome: SubmitOutcome)
      modifies this
      ensures outcome.Rejected? <==> FirstFailedCheck(props, old(State()), now).Some?
      ensures outcome.Rejected? ==>
        Some(outcome.error) == FirstFailedCheck(props, old(State()), now) &&
        error == Some(outcome.error) && State() == old(State())
      ensures outcome.Drafted? <==> FirstFailedCheck(props, old(State()), now).None? && props.isStepMode
      ensures outcome.Drafted? ==>
        outcome.draft == BuildFormData(props, old(State())) && State() == old(State()) && error.None?
      ensures outcome.Sent? || outcome.Thrown? ==>
        FirstFailedCheck(props, old(State()), now).None? && !props.isStepMode
      ensures outcome.Thrown? <==>
        FirstFailedCheck(props, old(State()), now).None? && !props.isStepMode &&
        RequestFor(props, BuildFormData(props, old(State()))).None?
      ensures outcome.Thrown? ==> State() == old(State()) && error == Some(ClientNotChosen)
      ensures outcome.Sent? ==>
        Some(outcome.request) == RequestFor(props, BuildFormData(props, old(State()))) &&
        outcome.succeeded == requestSucceeds
      ensures outcome.Sent? && !requestSucceeds ==> State() == old(State()) && error == Some(RequestFailed)
      ensures outcome.Sent? && requestSucceeds && props.existing.Some? ==>
        State() == old(State()) && error.None?
      ensures outcome.Sent? && requestSucceeds && props.existing.None? ==>
        service == props.initialServiceId && specialist == props.initialSpecialistId &&
        dateTime == InitialState(props).dateTime && clientNotes == "" && slots == [] &&
        client == old(client) && adminNotes == old(adminNotes) && status == old(status) && error.None?
    {
      error := None;
      if AdminDialog(props) && !ClientKnown(props, State()) {
        error := Some(ChooseClient);
        return Rejected(ChooseClient);
      }
      if service.None? {
        error := Some(ChooseService);
        return Rejected(ChooseService);
      }
      if !dateTime.PickedAt? {
        error := Some(ChooseDateTime);
        return Rejected(ChooseDateTime);
      }
      if PlainClientForm(props) && dateTime.at < now {
        error := Some(PastTime);
        return Rejected(PastTime);
      }
      if PlainClientForm(props) && |slots| > 0 && dateTime.at !in slots {
        error := Some(TimeUnavailable);
        return Rejected(TimeUnavailable);
      }
      var draft := BuildFormData(props, State());
      if props.isStepMode {
        return Drafted(draft);
      }
      var request := RequestFor(props, draft);
      if request.None? {
        error := Some(ClientNotChosen);
        return Thrown;
      }
      outcome := Sent(request.value, requestSucceeds);
      if !requestSucceeds {
        error := Some(RequestFailed);
        return;
      }
      if props.existing.None? {
        service := props.initialServiceId;
        specialist := props.initialSpecialistId;
        dateTime := if props.fixedDateTime.PickedAt? then props.fixedDateTime else NotPicked;
        clientNotes := "";
        slots := [];
      }
    }
  }
}
