/**
 * The contact form: five fields, a validator that records an error per
 * failing field, error clearing as the user types, and the reset after a
 * message is sent.
 */
module ContactPage {
  import opened Text
  import opened FormRules

  datatype Field = Name | EmailField | Phone | Subject | Message

  /** The form's data, which is also the body of `createContactMessage`. */
  datatype ContactMessage = ContactMessage(name: string, email: string, phone: string, subject: string, message: string)

  const EmptyMessage := ContactMessage("", "", "", "", "")

  /** The error `validateForm` records for one field; the subject is never checked. */
  function FieldCheck(f: Field, m: ContactMessage): Option<FieldError>
  {
    match f
    case Name => if IsBlank(m.name) then Some(Required) else None
    case EmailField => EmailError(m.email)
    case Message => if IsBlank(m.message) then Some(Required) else None
    case Phone => if !IsBlank(m.phone) && !PhonePattern(m.phone) then Some(BadFormat) else None
    case Subject => None
  }

  function Checks(m: ContactMessage): Field -> Option<FieldError>
  {
    f => FieldCheck(f, m)
  }

  /** The order in which `validateForm` checks the fields. */
  const Order: seq<Field> := [Name, EmailField, Message, Phone]

  /** The map of the four checks in order holds exactly the failed fields, each with its error. */
  lemma RecordedErrors(m: ContactMessage)
    ensures forall f :: f in NoteAll(Order, Checks(m), map[]) <==> FieldCheck(f, m).Some?
    ensures forall f :: f in NoteAll(Order, Checks(m), map[]) ==>
      FieldCheck(f, m) == Some(NoteAll(Order, Checks(m), map[])[f])
  {
    var c := Checks(m);
    NoteAllRecords(Order, c, map[]);
    forall f ensures (f in Order || c(f).None?) && c(f) == FieldCheck(f, m) {
      match f {
        case Name => assert Order[0] == f;
        case EmailField => assert Order[1] == f;
        case Message => assert Order[2] == f;
        case Phone => assert Order[3] == f;
        case Subject =>
      }
    }
  }

  predicate AllPass(m: ContactMessage)
  {
    forall f :: FieldCheck(f, m).None?
  }

  /**
   * A message can be sent exactly when it has a name, a matching address and
   * a text, and its phone is blank or a Ukrainian number, whatever its subject.
   */
  lemma AllPassIff(m: ContactMessage)
    ensures AllPass(m) <==>
      !IsBlank(m.name) && EmailPattern(m.email) && !IsBlank(m.message) &&
      (IsBlank(m.phone) || PhonePattern(m.phone))
  {
    if AllPass(m) {
      assert FieldCheck(Name, m).None?;
      assert FieldCheck(EmailField, m).None?;
      assert FieldCheck(Message, m).None?;
      assert FieldCheck(Phone, m).None?;
    }
  }

  /** The banner above the form. */
  datatype Notice = NoNotice | SuccessNotice | ErrorNotice

  datatype Outcome = Invalid | Sent(message: ContactMessage, succeeded: bool)

  class Form {
    var data: ContactMessage
    var errors: map<Field, FieldError>
    var notice: Notice

    constructor ()
      ensures data == EmptyMessage && errors == map[] && notice == NoNotice
    {
      data, errors, notice := EmptyMessage, map[], NoNotice;
    }

    /** Whether the field shows an error (a cleared one is the empty, falsy message). */
    predicate Flagged(f: Field)
      reads this
    {
      f in errors && errors[f] != Cleared
    }

    /**
     * `handleChange`: the field takes the typed value; its error, if shown,
     * is cleared, and every other field and error stays as it was.
     */
    method Change(f: Field, value: string)
      modifies this`data, this`errors
      ensures Get(data, f) == value
      ensures forall g :: g != f ==> Get(data, g) == Get(old(data), g)
      ensures !Flagged(f)
      ensures forall g :: g != f ==> (g in errors <==> g in old(errors)) && (g in errors ==> errors[g] == old(errors)[g])
      ensures f in errors <==> f in old(errors)
    {
      data := match f
        case Name => data.(name := value)
        case EmailField => data.(email := value)
        case Phone => data.(phone := value)
        case Subject => data.(subject := value)
        case Message => data.(message := value);
      if f in errors && errors[f] != Cleared {
        errors := errors[f := Cleared];
      }
    }

    /** `validateForm`: fills the error map field by field; the form is valid when it stays empty. */
    method Validate() returns (valid: bool)
      modifies this`errors
      ensures forall f :: f in errors <==> FieldCheck(f, data).Some?
      ensures forall f :: f in errors ==> FieldCheck(f, data) == Some(errors[f])
      ensures valid <==> errors == map[]
      ensures valid <==> AllPass(data)
    {
      var m := data;
      var c := Checks(m);
      ghost var all := NoteAll(Order, c, map[]);
      var temp: map<Field, FieldError> := map[];
      temp := Note(temp, Name, FieldCheck(Name, m));
      assert all == NoteAll(Order[1..], c, temp);
      temp := Note(temp, EmailField, FieldCheck(EmailField, m));
      assert all == NoteAll(Order[2..], c, temp);
      temp := Note(temp, Message, FieldCheck(Message, m));
      assert all == NoteAll(Order[3..], c, temp);
      temp := Note(temp, Phone, FieldCheck(Phone, m));
      assert all == NoteAll(Order[4..], c, temp) == temp;
      RecordedErrors(m);
      errors := temp;
      valid := |temp| == 0;
      if !valid {
        var k :| k in temp;
        assert FieldCheck(k, m).Some?;
      }
    }

    /**
     * `handleSubmit`; `succeeds` is the server's answer. A sent message
     * empties all five fields; a refused one keeps them and shows the error.
     */
    method Submit(succeeds: bool) returns (outcome: Outcome)
      modifies this
      ensures outcome.Invalid? <==> !AllPass(old(data))
      ensures outcome.Sent? ==> outcome.message == old(data) && outcome.succeeded == succeeds
      ensures forall f :: f in errors <==> FieldCheck(f, old(data)).Some?
      ensures outcome.Sent? && succeeds ==> data == EmptyMessage && notice == SuccessNotice
      ensures outcome.Sent? && !succeeds ==> data == old(data) && notice == ErrorNotice
      ensures outcome.Invalid? ==> data == old(data) && notice == NoNotice
    {
      notice := NoNotice;
      var valid := Validate();
      if !valid {
        return Invalid;
      }
      outcome := Sent(data, succeeds);
      if succeeds {
        notice := SuccessNotice;
        data := EmptyMessage;
      } else {
        notice := ErrorNotice;
      }
    }
  }

  function Get(m: ContactMessage, f: Field): string
  {
    match f
    case Name => m.name
    case EmailField => m.email
    case Phone => m.phone
    case Subject => m.subject
    case Message => m.message
  }
}
