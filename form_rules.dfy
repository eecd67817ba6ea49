/**
 * The field rules the sign-up, sign-in and contact forms share: a required
 * e-mail address that must match `\S+@\S+\.\S+`, and a required password of
 * at least six characters.
 */
module FormRules {
  import opened Text

  /**
   * The messages a form shows under a field. `Cleared` is the empty message a
   * field's error is overwritten with when the user edits it.
   */
  datatype FieldError = Required | BadFormat | TooShort | Mismatch | Cleared

  const MinPasswordLength: nat := 6

  /** A blank address is missing; a non-blank one must match the pattern. */
  function EmailError(email: string): (r: Option<FieldError>)
    ensures r.None? <==> EmailPattern(email)
    ensures r == Some(Required) <==> IsBlank(email)
    ensures r.Some? ==> r.value == Required || r.value == BadFormat
  {
    BlankFailsEmail(email);
    if IsBlank(email) then Some(Required)
    else if !EmailPattern(email) then Some(BadFormat)
    else None
  }

  lemma BlankFailsEmail(email: string)
    ensures IsBlank(email) ==> !EmailPattern(email)
  {
    if EmailPattern(email) {
      EmailNeedsFiveCharacters(email);
    }
  }

  /** An empty password is missing; a shorter one than six characters is too short. */
  function PasswordError(password: string): (r: Option<FieldError>)
    ensures r.None? <==> |password| >= MinPasswordLength
    ensures r == Some(Required) <==> password == ""
    ensures r.Some? ==> r.value == Required || r.value == TooShort
  {
    if password == "" then Some(Required)
    else if |password| < MinPasswordLength then Some(TooShort)
    else None
  }

  /** `tempErrors[field] = message` when the field's check failed. */
  function Note<F>(temp: map<F, FieldError>, f: F, e: Option<FieldError>): (r: map<F, FieldError>)
    ensures e.None? ==> r == temp
    ensures e.Some? ==> r == temp[f := e.value]
  {
    if e.Some? then temp[f := e.value] else temp
  }

  /** The map a validator builds from `temp` by noting the checks `c` of `order`, one field after another. */
  function NoteAll<F>(order: seq<F>, c: F -> Option<FieldError>, temp: map<F, FieldError>): map<F, FieldError>
  {
    if order == [] then temp else NoteAll(order[1..], c, Note(temp, order[0], c(order[0])))
  }

  /**
   * Noting the fields of `order` records exactly the failed checks among
   * them, each with its own message, and keeps every other entry of `temp`.
   */
  lemma {:induction false} NoteAllRecords<F>(order: seq<F>, c: F -> Option<FieldError>, temp: map<F, FieldError>)
    ensures forall f :: f in NoteAll(order, c, temp) <==> f in temp || (f in order && c(f).Some?)
    ensures forall f :: f in NoteAll(order, c, temp) ==>
      NoteAll(order, c, temp)[f] == if f in order && c(f).Some? then c(f).value else temp[f]
  {
    if order != [] {
      var next := Note(temp, order[0], c(order[0]));
      NoteAllRecords(order[1..], c, next);
      forall f ensures f in order <==> f == order[0] || f in order[1..] {
        assert order == [order[0]] + order[1..];
      }
    }
  }
}
