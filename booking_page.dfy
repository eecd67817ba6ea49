/**
 * The public booking wizard: three steps (service and time, the client's
 * contact data, confirmation) over one draft that accumulates the choices.
 * Step 3 (`steps.length`) is the done state shown after a successful booking.
 */
module BookingPage {
  import opened Text
  import opened Domain
  import AppointmentForm

  /** The number of wizard steps; reaching it means the booking was made. */
  const StepCount: nat := 3

  /** The contact fields of the draft; a missing value is the empty string. */
  datatype ClientData = ClientData(firstName: string, lastName: string, email: string, phone: string)

  /** The signed-in user's profile fields (a missing one is the empty string). */
  datatype UserInfo = UserInfo(firstName: string, lastName: string, email: string, phone: string)

  /**
   * `bookingDetails`: service and specialist are the strings the URL or the
   * first step supplied ('' for none), `at` is the chosen instant.
   */
  datatype Draft = Draft(
    serviceId: string,
    specialistId: string,
    at: Option<Instant>,
    clientNotes: string,
    clientData: ClientData)

  const NoClientData := ClientData("", "", "", "")

  function ClientDataOf(u: UserInfo): ClientData
  {
    ClientData(u.firstName, u.lastName, u.email, u.phone)
  }

  /** The contact data seeded from the session: the user's only when signed in with a user. */
  function SeedClientData(isAuthenticated: bool, user: Option<UserInfo>): (c: ClientData)
    ensures isAuthenticated && user.Some? ==> c == ClientDataOf(user.value)
    ensures !isAuthenticated || user.None? ==> c == NoClientData
  {
    if isAuthenticated && user.Some? then ClientDataOf(user.value) else NoClientData
  }

  /** The draft the page starts with. */
  function InitialDraft(urlService: Option<string>, urlSpecialist: Option<string>,
                        isAuthenticated: bool, user: Option<UserInfo>): (d: Draft)
    ensures d.serviceId == OrEmpty(urlService) && d.specialistId == OrEmpty(urlSpecialist)
    ensures d.at.None? && d.clientNotes == ""
    ensures d.clientData == SeedClientData(isAuthenticated, user)
  {
    Draft(OrEmpty(urlService), OrEmpty(urlSpecialist), None, "",
          SeedClientData(isAuthenticated, user))
  }

  /** `String(id)` of an optional id, '' for none. */
  function IdString(id: Option<Id>): (r: string)
    ensures id.None? <==> r == ""
  {
    if id.Some? then NatToString(id.value) else ""
  }

  /** The id a select shows for a string value: a positive number as `Number` reads it, otherwise nothing. */
  function IdFromString(s: string): (r: Option<Id>)
    ensures r.Some? ==> Number(s) == Some(r.value)
    ensures Number(s).Some? && Number(s).value > 0 ==> r.Some?
  {
    match Number(s)
    case Some(n) => if n > 0 then Some(n) else None
    case None => None
  }

  lemma IdStringRoundTrip(id: Option<Id>)
    ensures IdFromString(IdString(id)) == id
  {
    if id.Some? {
      NumberOfNatToString(id.value);
    } else {
      assert Number("") == Some(0);
    }
  }

  /** The draft after step 0 hands over the form's data; the contact data stays. */
  function AfterStep0(dr: Draft, d: AppointmentForm.FormData): (r: Draft)
    ensures r.clientData == dr.clientData
    ensures IdFromString(r.serviceId) == d.serviceId
    ensures IdFromString(r.specialistId) == d.specialistId
    ensures r.at == Some(d.at) && r.clientNotes == d.clientNotes
  {
    IdStringRoundTrip(d.serviceId);
    IdStringRoundTrip(d.specialistId);
    dr.(serviceId := IdString(d.serviceId), specialistId := IdString(d.specialistId),
        at := Some(d.at), clientNotes := d.clientNotes)
  }

  /** The props the first step's form is mounted with, re-seeded from the draft. */
  function Step0Props(dr: Draft): (p: AppointmentForm.Props)
    ensures p.isStepMode && !p.isAdminForm && p.existing.None? && p.userIdForAdmin.None?
    ensures p.initialServiceId == IdFromString(dr.serviceId)
    ensures p.initialSpecialistId == IdFromString(dr.specialistId)
    ensures p.fixedDateTime == (if dr.at.Some? then AppointmentForm.PickedAt(dr.at.value) else AppointmentForm.NotPicked)
  {
    AppointmentForm.Props(false, true,
      if dr.at.Some? then AppointmentForm.PickedAt(dr.at.value) else AppointmentForm.NotPicked,
      None, None, IdFromString(dr.serviceId), IdFromString(dr.specialistId))
  }

  /**
   * Going back to the first step re-mounts the form with the earlier choices:
   * the service, specialist and time picked there come back unchanged.
   */
  lemma ReseedKeepsChoices(dr: Draft, d: AppointmentForm.FormData)
    ensures AppointmentForm.InitialState(Step0Props(AfterStep0(dr, d))).service == d.serviceId
    ensures AppointmentForm.InitialState(Step0Props(AfterStep0(dr, d))).specialist == d.specialistId
    ensures AppointmentForm.InitialState(Step0Props(AfterStep0(dr, d))).dateTime == AppointmentForm.PickedAt(d.at)
  {
  }

  /** Why the contact step refused to advance. */
  datatype ContactProblem = MissingNameOrEmail | MalformedEmail

  /** The contact step's checks, which apply to guests only. */
  function ContactCheck(isAuthenticated: bool, c: ClientData): (r: Option<ContactProblem>)
    ensures isAuthenticated ==> r.None?
    ensures r == Some(MissingNameOrEmail) <==> !isAuthenticated && (IsBlank(c.firstName) || IsBlank(c.email))
    ensures r == Some(MalformedEmail) ==> !IsBlank(c.email) && !EmailPattern(c.email)
  {
    if !isAuthenticated && (IsBlank(c.firstName) || IsBlank(c.email)) then Some(MissingNameOrEmail)
    else if !isAuthenticated && !IsBlank(c.email) && !EmailPattern(c.email) then Some(MalformedEmail)
    else None
  }

  /** A signed-in client always passes; a guest needs a first name and a well-formed email. */
  lemma ContactCheckPassesIff(isAuthenticated: bool, c: ClientData)
    ensures ContactCheck(isAuthenticated, c).None? <==>
      isAuthenticated || (!IsBlank(c.firstName) && EmailPattern(c.email))
  {
    if EmailPattern(c.email) {
      EmailNeedsFiveCharacters(c.email);
    }
  }

  /** A number as `Number` gives it: a value or NaN. */
  datatype JsNumber = Num(value: int) | NaN

  function NumberValue(s: string): (r: JsNumber)
    ensures r.Num? <==> Number(s).Some?
  {
    match Number(s)
    case Some(n) => Num(n)
    case None => NaN
  }

  /** The body of the final `createAppointment`; a `None` specialist is sent as null. */
  datatype BookingPayload = BookingPayload(
    serviceId: JsNumber,
    specialistId: Option<JsNumber>,
    at: Instant,
    clientNotes: string)

  /** The final request for a draft, or None when the service or the time is missing. */
  function FinalPayload(dr: Draft): (r: Option<BookingPayload>)
    ensures r.Some? <==> dr.serviceId != "" && dr.at.Some?
    ensures r.Some? ==> r.value.at == dr.at.value && r.value.clientNotes == dr.clientNotes
    ensures r.Some? ==> (r.value.specialistId.None? <==> dr.specialistId == "")
  {
    if dr.serviceId == "" || dr.at.None? then None
    else Some(BookingPayload(
      NumberValue(dr.serviceId),
      if dr.specialistId == "" then None else Some(NumberValue(dr.specialistId)),
      dr.at.value,
      dr.clientNotes))
  }

  /**
   * What the first step chose is what the final request carries: the numeric
   * service id, the specialist id or null, the instant and the notes.
   */
  lemma FinalPayloadCarriesStep0Choices(dr: Draft, d: AppointmentForm.FormData)
    requires d.serviceId.Some?
    ensures FinalPayload(AfterStep0(dr, d)) == Some(BookingPayload(
      Num(d.serviceId.value),
      if d.specialistId.Some? then Some(Num(d.specialistId.value)) else None,
      d.at,
      d.clientNotes))
  {
    NumberOfNatToString(d.serviceId.value);
    if d.specialistId.Some? {
      NumberOfNatToString(d.specialistId.value);
    }
  }

  datatype ContactField = FirstName | LastName | Email | Phone

  datatype FinalOutcome = Incomplete | Submitted(payload: BookingPayload, succeeded: bool)

  class BookingWizard {
    var step: nat
    var draft: Draft

    ghost predicate Valid()
      reads this
    {
      step <= StepCount
    }

    /** Mounting the page with the URL's `service` and `specialist` parameters. */
    constructor (urlService: Option<string>, urlSpecialist: Option<string>,
                 isAuthenticated: bool, user: Option<UserInfo>)
      ensures Valid() && step == 0
      ensures draft == InitialDraft(urlService, urlSpecialist, isAuthenticated, user)
    {
      step := 0;
      draft := InitialDraft(urlService, urlSpecialist, isAuthenticated, user);
    }

    /** The effect run on a login or user change: only the contact data is replaced. */
    method UserChanged(isAuthenticated: bool, user: Option<UserInfo>)
      modifies this
      ensures step == old(step)
      ensures isAuthenticated && user.Some? ==>
        draft == old(draft).(clientData := ClientDataOf(user.value))
      ensures !isAuthenticated || user.None? ==> draft == old(draft)
    {
      if isAuthenticated && user.Some? {
        draft := draft.(clientData := ClientDataOf(user.value));
      }
    }

    /** `handleStep0Success`: the form's draft is taken over and the wizard moves on. */
    method Step0Success(d: AppointmentForm.FormData)
      modifies this
      ensures step == 1 && Valid()
      ensures draft == AfterStep0(old(draft), d)
    {
      draft := AfterStep0(draft, d);
      step := 1;
    }

    /** `handleClientDataChange`: one contact field takes the typed value. */
    method ChangeContact(field: ContactField, value: string)
      modifies this
      ensures step == old(step)
      ensures draft.serviceId == old(draft.serviceId) && draft.specialistId == old(draft.specialistId)
      ensures draft.at == old(draft.at) && draft.clientNotes == old(draft.clientNotes)
      ensures draft.clientData.firstName == if field == FirstName then value else old(draft.clientData.firstName)
      ensures draft.clientData.lastName == if field == LastName then value else old(draft.clientData.lastName)
      ensures draft.clientData.email == if field == Email then value else old(draft.clientData.email)
      ensures draft.clientData.phone == if field == Phone then value else old(draft.clientData.phone)
    {
      var c := draft.clientData;
      c := match field
        case FirstName => c.(firstName := value)
        case LastName => c.(lastName := value)
        case Email => c.(email := value)
        case Phone => c.(phone := value);
      draft := draft.(clientData := c);
    }

    /** `handleStep1Submit`: the contact checks, then the confirmation step. */
    method Step1Submit(isAuthenticated: bool) returns (problem: Option<ContactProblem>)
      modifies this
      ensures problem == ContactCheck(isAuthenticated, old(draft).clientData)
      ensures draft == old(draft)
      ensures step == if problem.None? then 2 else old(step)
      ensures old(Valid()) ==> Valid()
    {
      problem := ContactCheck(isAuthenticated, draft.clientData);
      if problem.None? {
        step := 2;
      }
    }

    /**
     * `handleFinalSubmit`: with service and time present the request is sent
     * and `requestSucceeds` is the server's answer; success finishes the
     * wizard, failure leaves the step where it was.
     */
    method FinalSubmit(requestSucceeds: bool) returns (outcome: FinalOutcome)
      modifies this
      ensures draft == old(draft)
      ensures outcome.Incomplete? <==> FinalPayload(old(draft)).None?
      ensures outcome.Submitted? ==>
        Some(outcome.payload) == FinalPayload(old(draft)) && outcome.succeeded == requestSucceeds
      ensures step == if outcome.Submitted? && requestSucceeds then StepCount else old(step)
      ensures old(Valid()) ==> Valid()
    {
      var payload := FinalPayload(draft);
      if payload.None? {
        return Incomplete;
      }
      outcome := Submitted(payload.value, requestSucceeds);
      if requestSucceeds {
        step := StepCount;
      }
    }

    /** `handleBack`, behind the Back button that is disabled on the first step. */
    method Back()
      modifies this
      ensures draft == old(draft)
      ensures step == if old(step) == 0 then 0 else old(step) - 1
      ensures old(Valid()) ==> Valid()
    {
      if step > 0 {
        step := step - 1;
      }
    }
  }
}
