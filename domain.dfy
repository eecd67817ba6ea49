/**
 * The records the booking pages exchange with the server, as the client code
 * reads them. Instants are milliseconds on one time line; an ISO string that
 * does not parse is `None`, which behaves like JavaScript's Invalid Date
 * (every comparison with it is false).
 */
module Domain {
  import opened Text

  /** A database id: the server hands out positive integers. */
  type Id = n: int | n > 0 witness 1

  /** Milliseconds since the epoch. */
  type Instant = int

  const MillisPerMinute: int := 60000
  const MillisPerDay: int := 86400000

  /** `addMinutes(t, m)`. */
  function AddMinutes(t: Instant, minutes: int): (r: Instant)
    ensures minutes >= 0 ==> r >= t
    ensures minutes > 0 ==> r > t
    ensures r - t == minutes * MillisPerMinute
  {
    t + minutes * MillisPerMinute
  }

  /**
   * A user's `role` field; `OtherRole("")` stands for a missing role. Only
   * canonical values (`CanonicalRole`) come from the server.
   */
  datatype Role = Client | Specialist | Admin | OtherRole(name: string)

  function RoleName(r: Role): string
  {
    match r
    case Client => "client"
    case Specialist => "specialist"
    case Admin => "admin"
    case OtherRole(name) => name
  }

  /** Reads the `role` string the server sends. */
  function ParseRole(s: string): (r: Role)
    ensures RoleName(r) == s
    ensures r.OtherRole? ==> s !in {"client", "specialist", "admin"}
  {
    if s == "client" then Client
    else if s == "specialist" then Specialist
    else if s == "admin" then Admin
    else OtherRole(s)
  }

  /**
   * A role as the server can send it: `OtherRole` never carries one of the
   * three known names. Lemmas quantified over all roles also cover the other
   * values, which no parsed role takes.
   */
  predicate CanonicalRole(r: Role)
  {
    r.OtherRole? ==> r.name !in {"client", "specialist", "admin"}
  }

  /** Every parsed role is canonical, and a canonical role is what its own name parses to. */
  lemma ParseRoleRoundTrip(s: string, r: Role)
    ensures CanonicalRole(ParseRole(s))
    ensures CanonicalRole(r) ==> ParseRole(RoleName(r)) == r
  {
  }

  /** A role value is truthy unless it is the empty string (or missing). */
  predicate HasRole(r: Role)
  {
    r != OtherRole("")
  }

  /**
   * An appointment's `status`; `OtherStatus("")` stands for a missing status.
   * Only canonical values (`CanonicalStatus`) come from the server.
   */
  datatype Status =
    | Pending
    | Confirmed
    | CancelledByClient
    | CancelledByAdmin
    | Completed
    | NoShow
    | OtherStatus(name: string)

  const KnownStatusNames: set<string> :=
    {"pending", "confirmed", "cancelled_by_client", "cancelled_by_admin", "completed", "no_show"}

  function StatusName(s: Status): string
  {
    match s
    case Pending => "pending"
    case Confirmed => "confirmed"
    case CancelledByClient => "cancelled_by_client"
    case CancelledByAdmin => "cancelled_by_admin"
    case Completed => "completed"
    case NoShow => "no_show"
    case OtherStatus(name) => name
  }

  /** Reads the `status` string the server sends. */
  function ParseStatus(s: string): (r: Status)
    ensures StatusName(r) == s
    ensures r.OtherStatus? <==> s !in KnownStatusNames
  {
    if s == "pending" then Pending
    else if s == "confirmed" then Confirmed
    else if s == "cancelled_by_client" then CancelledByClient
    else if s == "cancelled_by_admin" then CancelledByAdmin
    else if s == "completed" then Completed
    else if s == "no_show" then NoShow
    else OtherStatus(s)
  }

  /**
   * A status as the server can send it: `OtherStatus` never carries one of
   * the six known names. Lemmas quantified over all statuses also cover the
   * other values, which no parsed status takes.
   */
  predicate CanonicalStatus(s: Status)
  {
    s.OtherStatus? ==> s.name !in KnownStatusNames
  }

  /** Every parsed status is canonical, and a canonical status is what its own name parses to. */
  lemma ParseStatusRoundTrip(t: string, s: Status)
    ensures CanonicalStatus(ParseStatus(t))
    ensures CanonicalStatus(s) ==> ParseStatus(StatusName(s)) == s
  {
  }

  predicate IsKnown(s: Status)
  {
    !s.OtherStatus?
  }

  /** The statuses of a booking that has not happened yet: pending or confirmed. */
  predicate IsOpen(s: Status)
  {
    s == Pending || s == Confirmed
  }

  predicate IsCancelled(s: Status)
  {
    s == CancelledByClient || s == CancelledByAdmin
  }

  /**
   * One appointment as the list endpoints return it. `at` is the parsed
   * `appointment_datetime`; `specialistId` is `specialist_id`, which may be
   * missing; names and notes are the joined display fields.
   */
  datatype Appointment = Appointment(
    id: Id,
    at: Option<Instant>,
    durationMinutes: int,
    status: Status,
    specialistId: Option<Id>,
    clientFirstName: string,
    clientLastName: string,
    clientNotes: string,
    adminNotes: Option<string>)
}
