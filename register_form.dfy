/**
 * The sign-up form: six fields, a `validate` step that records one error per
 * failing field, and the request that creates a client account.
 */
module RegisterForm {
  import opened Text
  import opened Domain
  import opened FormRules

  datatype Field = FirstName | LastName | EmailField | PhoneField | PasswordField | ConfirmField

  /** The six inputs as typed. */
  datatype Values = Values(
    firstName: string,
    lastName: string,
    email: string,
    phone: string,
    password: string,
    confirm: string)

  /** The error `validate` records for one field, or None when the field passes. */
  function FieldCheck(f: Field, v: Values): Option<FieldError>
  {
    match f
    case FirstName => if IsBlank(v.firstName) then Some(Required) else None
    case LastName => if IsBlank(v.lastName) then Some(Required) else None
    case EmailField => EmailError(v.email)
    case PhoneField => if v.phone != "" && !PhonePattern(v.phone) then Some(BadFormat) else None
    case PasswordField => PasswordError(v.password)
    case ConfirmField =>
      if v.confirm == "" then Some(Required)
      else if v.password != v.confirm then Some(Mismatch)
      else None
  }

  /** The order in which `validate` checks the fields. */
  const Order: seq<Field> := [FirstName, LastName, EmailField, PhoneField, PasswordField, ConfirmField]

  lemma EveryFieldChecked(f: Field)
    ensures f in Order
  {
    match f {
      case FirstName => assert Order[0] == f;
      case LastName => assert Order[1] == f;
      case EmailField => assert Order[2] == f;
      case PhoneField => assert Order[3] == f;
      case PasswordField => assert Order[4] == f;
      case ConfirmField => assert Order[5] == f;
    }
  }

  function Checks(v: Values): Field -> Option<FieldError>
  {
    f => FieldCheck(f, v)
  }

  /** The map of the six checks in order holds exactly the failed fields, each with its error. */
  lemma RecordedErrors(v: Values)
    ensures forall f :: f in NoteAll(Order, Checks(v), map[]) <==> FieldCheck(f, v).Some?
    ensures forall f :: f in NoteAll(Order, Checks(v), map[]) ==>
      FieldCheck(f, v) == Some(NoteAll(Order, Checks(v), map[])[f])
  {
    var c := Checks(v);
    NoteAllRecords(Order, c, map[]);
    forall f ensures f in Order && c(f) == FieldCheck(f, v) {
      EveryFieldChecked(f);
    }
  }

  predicate AllPass(v: Values)
  {
    forall f :: FieldCheck(f, v).None?
  }

  /**
   * The form passes exactly when both names are given, the address matches,
   * the phone is empty or a Ukrainian number, the password has six
   * characters and the confirmation repeats it.
   */
  lemma AllPassIff(v: Values)
    ensures AllPass(v) <==>
      !IsBlank(v.firstName) && !IsBlank(v.lastName) && EmailPattern(v.email) &&
      (v.phone == "" || PhonePattern(v.phone)) &&
      |v.password| >= MinPasswordLength && v.confirm == v.password
  {
    if AllPass(v) {
      assert FieldCheck(FirstName, v).None?;
      assert FieldCheck(LastName, v).None?;
      assert FieldCheck(EmailField, v).None?;
      assert FieldCheck(PhoneField, v).None?;
      assert FieldCheck(PasswordField, v).None?;
      assert FieldCheck(ConfirmField, v).None?;
    }
  }

  /** A blank phone field is still checked: only the empty string skips the pattern. */
  lemma BlankPhoneIsRejected()
    ensures FieldCheck(PhoneField, Values("", "", "", " ", "", "")) == Some(BadFormat)
  {
  }

  /** The body of `registerUser`. */
  datatype Payload = Payload(
    firstName: string,
    lastName: string,
    email: string,
    phone: Option<string>,
    password: string,
    role: Role)

  /** Every sign-up asks for a client account; an empty phone is sent as null. */
  function PayloadOf(v: Values): (r: Payload)
    ensures r.role == Client
    ensures r.phone.None? <==> v.phone == ""
    ensures r.phone.Some? ==> r.phone.value == v.phone
    ensures r.firstName == v.firstName && r.lastName == v.lastName
    ensures r.email == v.email && r.password == v.password
  {
    Payload(v.firstName, v.lastName, v.email, if v.phone == "" then None else Some(v.phone), v.password, Client)
  }

  /** Where the form goes after signing up: to the parent's callback, or to a path. */
  datatype Next = Callback | Navigate(path: string)

  /** A new specialist goes to the profile page, anyone else to the client dashboard. */
  function NextAfterSignUp(hasCallback: bool, role: Role): (r: Next)
    ensures hasCallback <==> r.Callback?
    ensures r.Navigate? ==> (r.path == "/specialist/profile" <==> role == Specialist)
    ensures r.Navigate? ==> r.path == "/specialist/profile" || r.path == "/client/dashboard"
  {
    if hasCallback then Callback
    else if role == Specialist then Navigate("/specialist/profile")
    else Navigate("/client/dashboard")
  }

  /**
   * What a submission did: nothing (invalid), a refused request, or an
   * account created, whose data is handed to the session's `login`.
   */
  datatype Outcome = Invalid | Refused(sent: Payload) | Registered(sent: Payload, role: Role, next: Next)

  class Form {
    var firstName: string
    var lastName: string
    var email: string
    var phone: string
    var password: string
    var confirm: string
    var errors: map<Field, FieldError>
    var serverError: bool

    function Current(): Values
      reads this
    {
      Values(firstName, lastName, email, phone, password, confirm)
    }

    constructor ()
      ensures Current() == Values("", "", "", "", "", "")
      ensures errors == map[] && !serverError
    {
      firstName, lastName, email, phone, password, confirm := "", "", "", "", "", "";
      errors, serverError := map[], false;
    }

    /** A change handler: the field takes the typed value and nothing else changes. */
    method Edit(f: Field, value: string)
      modifies this
      ensures Get(f) == value
      ensures forall g :: g != f ==> Get(g) == old(Get(g))
      ensures errors == old(errors) && serverError == old(serverError)
    {
      match f {
        case FirstName => firstName := value;
        case LastName => lastName := value;
        case EmailField => email := value;
        case PhoneField => phone := value;
        case PasswordField => password := value;
        case ConfirmField => confirm := value;
      }
    }

    function Get(f: Field): string
      reads this
    {
      match f
      case FirstName => firstName
      case LastName => lastName
      case EmailField => email
      case PhoneField => phone
      case PasswordField => password
      case ConfirmField => confirm
    }

    /**
     * `validate`: fills the error map field by field; the form is valid when
     * the map stays empty.
     */
    method Validate() returns (valid: bool)
      modifies this`errors
      ensures forall f :: f in errors <==> FieldCheck(f, Current()).Some?
      ensures forall f :: f in errors ==> FieldCheck(f, Current()) == Some(errors[f])
      ensures valid <==> errors == map[]
      ensures valid <==> AllPass(Current())
    {
      var v := Current();
      var c := Checks(v);
      ghost var all := NoteAll(Order, c, map[]);
      var temp: map<Field, FieldError> := map[];
      temp := Note(temp, FirstName, FieldCheck(FirstName, v));
      assert all == NoteAll(Order[1..], c, temp);
      temp := Note(temp, LastName, FieldCheck(LastName, v));
      assert all == NoteAll(Order[2..], c, temp);
      temp := Note(temp, EmailField, FieldCheck(EmailField, v));
      assert all == NoteAll(Order[3..], c, temp);
      temp := Note(temp, PhoneField, FieldCheck(PhoneField, v));
      assert all == NoteAll(Order[4..], c, temp);
      temp := Note(temp, PasswordField, FieldCheck(PasswordField, v));
      assert all == NoteAll(Order[5..], c, temp);
      temp := Note(temp, ConfirmField, FieldCheck(ConfirmField, v));
      assert all == NoteAll(Order[6..], c, temp) == temp;
      RecordedErrors(v);
      errors := temp;
      valid := |temp| == 0;
      if !valid {
        var k :| k in temp;
        assert FieldCheck(k, v).Some?;
      }
      assert Current() == v;
    }

    /**
     * `handleSubmit`; `answer` is the server's reply, None when the request
     * fails, else the new account's role. An invalid form sends nothing.
     */
    method Submit(answer: Option<Role>, hasCallback: bool) returns (outcome: Outcome)
      modifies this`errors, this`serverError
      ensures forall f :: f in errors <==> FieldCheck(f, Current()).Some?
      ensures forall f :: f in errors ==> FieldCheck(f, Current()) == Some(errors[f])
      ensures outcome.Invalid? <==> !AllPass(Current())
      ensures outcome.Refused? <==> AllPass(Current()) && answer.None?
      ensures !outcome.Invalid? ==> outcome.sent == PayloadOf(Current())
      ensures outcome.Registered? ==>
        outcome.role == answer.value && outcome.next == NextAfterSignUp(hasCallback, answer.value)
      ensures serverError <==> outcome.Refused?
    {
      serverError := false;
      var valid := Validate();
      if !valid {
        return Invalid;
      }
      var payload := PayloadOf(Current());
      if answer.None? {
        serverError := true;
        return Refused(payload);
      }
      outcome := Registered(payload, answer.value, NextAfterSignUp(hasCallback, answer.value));
    }
  }
}
