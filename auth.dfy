/**
 * The app's pseudo-authentication: a single user record kept in the store
 * under `user` as the JSON text of `{ email, password }`, and a `userToken`
 * whose presence means "logged in".
 */
module Auth {
  import opened Wrappers
  import opened Text
  import Json
  import Storage

  const UserKey := "user"
  const TokenKey := "userToken"
  /** The token the login screen writes. */
  const LoggedInToken := "logged_in"
  /** The token the signup screen writes. */
  const SignedUpToken := "signed_up"

  datatype User = User(email: string, password: string)

  /** The JSON text up to the email's value, and between the email's value and the password's. */
  const EmailOpen := "{\"email\":\""
  const PasswordOpen := ",\"password\":\""

  /** `JSON.stringify({ email, password })`. */
  function EncodeUser(u: User): string {
    "{\"email\":" + Json.Quote(u.email) + ",\"password\":" + Json.Quote(u.password) + "}"
  }

  /**
   * `JSON.parse` of a stored user record, for the object layout
   * `EncodeUser` writes; any other text yields nothing.
   */
  function DecodeUser(s: string): Option<User> {
    if !StartsWith(s, EmailOpen) then None
    else
      var e := Json.ReadString(s[|EmailOpen|..]);
      if e.None? || !StartsWith(e.value.1, PasswordOpen) then None
      else
        var p := Json.ReadString(e.value.1[|PasswordOpen|..]);
        if p.None? || p.value.1 != "}" then None
        else Some(User(e.value.0, p.value.0))
  }

  /** Concatenation regrouped around the two quoted values. */
  lemma Regroup(open1: string, quote: string, x: string, open2: string, y: string, close: string)
    ensures open1 + (quote + x + quote) + open2 + (quote + y + quote) + close
      == (open1 + quote) + (x + quote + ((open2 + quote) + (y + quote + close)))
  {
  }

  /** The stored record is the email's escaped value and the password's between fixed pieces. */
  lemma EncodeUserPieces(u: User)
    ensures EncodeUser(u) == EmailOpen + (Json.Escape(u.email) + "\"" + (PasswordOpen + (Json.Escape(u.password) + "\"" + "}")))
  {
    Regroup("{\"email\":", "\"", Json.Escape(u.email), ",\"password\":", Json.Escape(u.password), "}");
    assert "{\"email\":" + "\"" == EmailOpen;
    assert ",\"password\":" + "\"" == PasswordOpen;
  }

  /** The user record reads back as the user it was written for. */
  lemma DecodeEncodeUser(u: User)
    ensures DecodeUser(EncodeUser(u)) == Some(u)
  {
    var tail := PasswordOpen + (Json.Escape(u.password) + "\"" + "}");
    var s := EncodeUser(u);
    EncodeUserPieces(u);
    assert s[..|EmailOpen|] == EmailOpen;
    assert s[|EmailOpen|..] == Json.Escape(u.email) + "\"" + tail;
    Json.ReadEscaped(u.email, tail);
    assert tail[..|PasswordOpen|] == PasswordOpen;
    assert tail[|PasswordOpen|..] == Json.Escape(u.password) + "\"" + "}";
    Json.ReadEscaped(u.password, "}");
  }

  /** Distinct users are stored as distinct records. */
  lemma EncodeUserInjective(u: User, v: User)
    requires EncodeUser(u) == EncodeUser(v)
    ensures u == v
  {
    DecodeEncodeUser(u);
    DecodeEncodeUser(v);
  }

  /** How a login attempt ends, one case for each branch of the handler. */
  datatype LoginOutcome =
    | MissingFields   // an empty email or password: the store is not consulted
    | NoUser          // no stored user record
    | Unreadable      // the record is not a user record: `JSON.parse` throws
    | Mismatch        // the stored email or password differs
    | Accepted        // both match: the token is written

  /** The decision `handleLogin` takes from the fields and the stored `user` value. */
  function CheckLogin(stored: Option<string>, email: string, password: string): LoginOutcome {
    if email == "" || password == "" then MissingFields
    else if !Truthy(stored) then NoUser
    else
      var u := DecodeUser(stored.value);
      if u.None? then Unreadable
      else if u.value.email == email && u.value.password == password then Accepted
      else Mismatch
  }

  /** A login is accepted exactly when both fields are filled in and equal the stored record's. */
  lemma AcceptedIff(stored: Option<string>, email: string, password: string)
    ensures CheckLogin(stored, email, password) == Accepted <==>
      email != "" && password != "" && stored.Some? && DecodeUser(stored.value) == Some(User(email, password))
  {
  }

  /**
   * After signing up with `email` and `password`, a login is accepted
   * exactly for those two values: any other email or password is refused.
   */
  lemma SignupThenLogin(email: string, password: string, email2: string, password2: string)
    requires email != "" && password != ""
    ensures CheckLogin(Some(EncodeUser(User(email, password))), email2, password2) == Accepted
      <==> email2 == email && password2 == password
    ensures CheckLogin(Some(EncodeUser(User(email, password))), email2, password2) != Accepted && email2 != "" && password2 != ""
      ==> CheckLogin(Some(EncodeUser(User(email, password))), email2, password2) == Mismatch
  {
    var s := EncodeUser(User(email, password));
    assert s[0] == '{';
    DecodeEncodeUser(User(email, password));
  }

  /** The navigator's rule: logged in exactly when `userToken` is stored and non-empty. */
  predicate LoggedIn(entries: map<string, string>) {
    Truthy(Storage.Get(entries, TokenKey))
  }

  /** Either token the screens write counts as logged in, and removing the token logs out. */
  lemma TokensLogIn(entries: map<string, string>)
    ensures LoggedIn(entries[TokenKey := LoggedInToken]) && LoggedIn(entries[TokenKey := SignedUpToken])
    ensures !LoggedIn(entries - {TokenKey})
  {
  }
}
