/**
 * The sign-in form: an address and a password, checked before the request,
 * and the page the user is sent to once signed in.
 */
module LoginForm {
  import opened Text
  import opened Domain
  import opened FormRules

  datatype Field = EmailField | PasswordField

  /** The error `validate` records for one field, or None when the field passes. */
  function FieldCheck(f: Field, email: string, password: string): Option<FieldError>
  {
    match f
    case EmailField => EmailError(email)
    case PasswordField => PasswordError(password)
  }

  function Checks(email: string, password: string): Field -> Option<FieldError>
  {
    f => FieldCheck(f, email, password)
  }

  /** The order in which `validate` checks the fields. */
  const Order: seq<Field> := [EmailField, PasswordField]

  /** The map of both checks in order holds exactly the failed fields, each with its error. */
  lemma RecordedErrors(email: string, password: string)
    ensures forall f :: f in NoteAll(Order, Checks(email, password), map[]) <==>
      FieldCheck(f, email, password).Some?
    ensures forall f :: f in NoteAll(Order, Checks(email, password), map[]) ==>
      FieldCheck(f, email, password) == Some(NoteAll(Order, Checks(email, password), map[])[f])
  {
    var c := Checks(email, password);
    NoteAllRecords(Order, c, map[]);
    forall f ensures f in Order && c(f) == FieldCheck(f, email, password) {
      match f {
        case EmailField => assert Order[0] == f;
        case PasswordField => assert Order[1] == f;
      }
    }
  }

  /** The form passes exactly when the address matches and the password has six characters. */
  lemma AllPassIff(email: string, password: string)
    ensures (forall f :: FieldCheck(f, email, password).None?) <==>
      EmailPattern(email) && |password| >= MinPasswordLength
  {
    if forall f :: FieldCheck(f, email, password).None? {
      assert FieldCheck(EmailField, email, password).None?;
      assert FieldCheck(PasswordField, email, password).None?;
    }
  }

  /**
   * Where a signed-in user goes: admins and specialists to their dashboards,
   * anyone else back to the page they came from (the home page by default),
   * except that coming from the sign-in or sign-up page leads to the client
   * dashboard.
   */
  function AfterLoginPath(role: Role, from: Option<string>): (r: string)
    ensures role == Admin ==> r == "/admin/dashboard"
    ensures role == Specialist ==> r == "/specialist/dashboard"
    ensures r != "/login" && r != "/register"
    ensures role != Admin && role != Specialist ==> r == ReturnPath(from) || r == "/client/dashboard"
  {
    var back := ReturnPath(from);
    if role == Admin then "/admin/dashboard"
    else if role == Specialist then "/specialist/dashboard"
    else if back == "/login" || back == "/register" then "/client/dashboard"
    else back
  }

  /** `location.state?.from?.pathname || "/"`. */
  function ReturnPath(from: Option<string>): (r: string)
    ensures r != ""
    ensures from.Some? && from.value != "" ==> r == from.value
  {
    if from.Some? && from.value != "" then from.value else "/"
  }

  /** A client coming from any page other than the two sign-in pages is returned to it. */
  lemma ClientReturnsToOrigin(role: Role, from: string)
    requires role != Admin && role != Specialist
    requires from != "" && from != "/login" && from != "/register"
    ensures AfterLoginPath(role, Some(from)) == from
  {
  }

  datatype Next = Callback | Navigate(path: string)

  /** What a submission did: nothing (invalid), a refused request, or a signed-in user of some role. */
  datatype Outcome = Invalid | Refused | SignedIn(role: Role, next: Next)

  class Form {
    var email: string
    var password: string
    var errors: map<Field, FieldError>
    var serverError: bool

    constructor ()
      ensures email == "" && password == "" && errors == map[] && !serverError
    {
      email, password, errors, serverError := "", "", map[], false;
    }

    method EditEmail(value: string)
      modifies this`email
      ensures email == value
    {
      email := value;
    }

    method EditPassword(value: string)
      modifies this`password
      ensures password == value
    {
      password := value;
    }

    /** `validate`: fills the error map field by field; the form is valid when it stays empty. */
    method Validate() returns (valid: bool)
      modifies this`errors
      ensures forall f :: f in errors <==> FieldCheck(f, email, password).Some?
      ensures forall f :: f in errors ==> FieldCheck(f, email, password) == Some(errors[f])
      ensures valid <==> errors == map[]
      ensures valid <==> EmailPattern(email) && |password| >= MinPasswordLength
    {
      var c := Checks(email, password);
      ghost var all := NoteAll(Order, c, map[]);
      var temp: map<Field, FieldError> := map[];
      temp := Note(temp, EmailField, EmailError(email));
      assert all == NoteAll(Order[1..], c, temp);
      temp := Note(temp, PasswordField, PasswordError(password));
      assert all == NoteAll(Order[2..], c, temp) == temp;
      RecordedErrors(email, password);
      AllPassIff(email, password);
      errors := temp;
      valid := |temp| == 0;
      if !valid {
        var k :| k in temp;
        assert FieldCheck(k, email, password).Some?;
      }
    }

    /**
     * `handleSubmit`; `answer` is the server's reply, None when the request
     * fails, else the signed-in user's role; the user data goes to the
     * session's `login`. An invalid form sends nothing.
     */
    method Submit(answer: Option<Role>, hasCallback: bool, from: Option<string>) returns (outcome: Outcome)
      modifies this`errors, this`serverError
      ensures forall f :: f in errors <==> FieldCheck(f, email, password).Some?
      ensures outcome.Invalid? <==> !(EmailPattern(email) && |password| >= MinPasswordLength)
      ensures outcome.Refused? <==> !outcome.Invalid? && answer.None?
      ensures outcome.SignedIn? ==>
        outcome.role == answer.value &&
        outcome.next == if hasCallback then Callback else Navigate(AfterLoginPath(answer.value, from))
      ensures serverError <==> outcome.Refused?
    {
      serverError := false;
      var valid := Validate();
      if !valid {
        return Invalid;
      }
      if answer.None? {
        serverError := true;
        return Refused;
      }
      var next := if hasCallback then Callback else Navigate(AfterLoginPath(answer.value, from));
      outcome := SignedIn(answer.value, next);
    }
  }
}
