/**
 * The session store shared by the whole client: the token kept in the
 * browser's storage and in memory, the signed-in user's record and the
 * signed-in flag, with sign-in, sign-out, record updates and the start-up
 * check of a stored token.
 */
module AuthContext {
  import opened Text

  /** A user record as the server sends it: field names to values. */
  type UserRecord = map<string, string>

  const TokenKey := "token"

  /** `userData && userData.token`: a record whose token field is a non-empty string. */
  predicate CarriesToken(data: Option<UserRecord>)
  {
    data.Some? && TokenKey in data.value && data.value[TokenKey] != ""
  }

  /** What storage holds after `setToken(t)`: the token when it is truthy, nothing otherwise. */
  function Stored(t: Option<string>): (r: Option<string>)
    ensures r.Some? <==> t.Some? && t.value != ""
    ensures r.Some? ==> r == t
  {
    if t.Some? && t.value != "" then t else None
  }

  /** `{ ...previous, ...fields }`: the given fields over the previous record, a missing record spreading as empty. */
  function Merge(previous: Option<UserRecord>, fields: UserRecord): (r: UserRecord)
    ensures forall k :: k in fields ==> k in r && r[k] == fields[k]
    ensures previous.Some? ==> forall k :: k in previous.value && k !in fields ==> k in r && r[k] == previous.value[k]
    ensures forall k :: k in r ==> k in fields || (previous.Some? && k in previous.value)
  {
    (if previous.Some? then previous.value else map[]) + fields
  }

  /** Applying the same update twice is applying it once. */
  lemma MergeIdempotent(previous: Option<UserRecord>, fields: UserRecord)
    ensures Merge(Some(Merge(previous, fields)), fields) == Merge(previous, fields)
  {
    var once := Merge(previous, fields);
    var twice := Merge(Some(once), fields);
    assert twice.Keys == once.Keys;
  }

  /** An empty update leaves an existing record as it was. */
  lemma MergeOfEmpty(previous: UserRecord)
    ensures Merge(Some(previous), map[]) == previous
  {
  }

  class Session {
    /** The browser's storage entry for the token. */
    var storage: Option<string>
    var token: Option<string>
    var user: Option<UserRecord>
    var isAuthenticated: bool
    var isLoading: bool

    /** A signed-in session has a user record, and storage mirrors the token in memory. */
    ghost predicate Valid()
      reads this
    {
      (isAuthenticated ==> user.Some?) && storage == Stored(token)
    }

    /** The provider mounts: the token is read from storage and the start-up check is pending. */
    constructor (stored: Option<string>)
      ensures storage == stored && token == stored
      ensures user.None? && !isAuthenticated && isLoading
      ensures stored.None? || stored.value != "" ==> Valid()
    {
      storage, token := stored, stored;
      user, isAuthenticated, isLoading := None, false, true;
    }

    /** `setToken`: a truthy token is stored, anything else removes the stored one. */
    method SetToken(t: Option<string>)
      modifies this`storage, this`token
      ensures token == t && storage == Stored(t)
    {
      if t.Some? && t.value != "" {
        storage := t;
      } else {
        storage := None;
      }
      token := t;
    }

    /**
     * `checkLoggedIn`: with a token in storage, `me` is the answer of the
     * profile request (None when it fails). A good answer signs the user in;
     * a failed one drops the token. Loading ends either way.
     */
    method CheckLoggedIn(me: Option<UserRecord>)
      modifies this
      ensures !isLoading
      ensures old(storage).None? || old(storage).value == "" ==>
        storage == old(storage) && token == old(token) && user == old(user) &&
        isAuthenticated == old(isAuthenticated)
      ensures old(storage).Some? && old(storage).value != "" && me.Some? ==>
        token == old(storage) && storage == old(storage) && user == me && isAuthenticated
      ensures old(storage).Some? && old(storage).value != "" && me.None? ==>
        token.None? && storage.None? && user.None? && !isAuthenticated
      ensures old(Valid()) ==> Valid()
    {
      var stored := storage;
      if stored.Some? && stored.value != "" {
        token := stored;
        if me.Some? {
          user := me;
          isAuthenticated := true;
        } else {
          SetToken(None);
          user := None;
          isAuthenticated := false;
        }
      }
      isLoading := false;
    }

    /**
     * `login`: data carrying a token signs the user in with the record minus
     * its token; anything else changes nothing.
     */
    method Login(data: Option<UserRecord>)
      modifies this
      ensures CarriesToken(data) ==>
        token == Some(data.value[TokenKey]) && storage == token &&
        user == Some(data.value - {TokenKey}) && isAuthenticated
      ensures !CarriesToken(data) ==>
        token == old(token) && storage == old(storage) && user == old(user) &&
        isAuthenticated == old(isAuthenticated)
      ensures isLoading == old(isLoading)
      ensures CarriesToken(data) ==> Valid()
      ensures old(Valid()) ==> Valid()
    {
      if CarriesToken(data) {
        SetToken(Some(data.value[TokenKey]));
        user := Some(data.value - {TokenKey});
        isAuthenticated := true;
      }
    }

    /** `logout`: token, record and flag are all cleared. */
    method Logout()
      modifies this
      ensures token.None? && storage.None? && user.None? && !isAuthenticated
      ensures isLoading == old(isLoading)
      ensures Valid()
    {
      SetToken(None);
      user := None;
      isAuthenticated := false;
    }

    /**
     * `updateUserContext`: the given fields are laid over the current record
     * (over an empty one when there is none); the rest of the record stays.
     */
    method UpdateUser(fields: UserRecord)
      modifies this`user
      ensures user == Some(Merge(old(user), fields))
    {
      var previous := if user.Some? then user.value else map[];
      user := Some(previous + fields);
    }
  }
}
