/**
 * The login screen: the email and password typed in are checked against
 * the single stored user record, and a match writes the `logged_in` token
 * and tells the navigator to re-check the login state.
 */
module LoginScreen {
  import opened Wrappers
  import Storage
  import opened Auth

  class Screen {
    var email: string
    var password: string

    /** The screen as first rendered: both fields empty. */
    constructor ()
      ensures email == "" && password == ""
    {
      email, password := "", "";
    }

    /** Typing into the two fields. */
    method Edit(email: string, password: string)
      modifies this
      ensures this.email == email && this.password == password
    {
      this.email, this.password := email, password;
    }

    /**
     * `handleLogin`. With an empty field the store is not read. Otherwise the
     * stored `user` is read and checked; only an accepted login writes
     * `userToken` (as `logged_in`, which counts as logged in) and calls the
     * auth callback. Every other outcome leaves the store as it was.
     */
    method HandleLogin(store: Storage.Store) returns (outcome: LoginOutcome, readStore: bool, notified: bool)
      modifies store`entries
      ensures readStore <==> email != "" && password != ""
      ensures outcome == CheckLogin(Storage.Get(old(store.entries), UserKey), email, password)
      ensures store.entries == if outcome == Accepted then old(store.entries)[TokenKey := LoggedInToken]
        else old(store.entries)
      ensures notified <==> outcome == Accepted
      ensures notified ==> LoggedIn(store.entries)
    {
      readStore, notified := false, false;
      if email == "" || password == "" {
        return MissingFields, readStore, notified;
      }
      readStore := true;
      var userData := store.GetData(UserKey);
      if userData.None? || userData.value == "" {
        return NoUser, readStore, notified;
      }
      var user := DecodeUser(userData.value);
      if user.None? {
        return Unreadable, readStore, notified;
      }
      if user.value.email == email && user.value.password == password {
        store.StoreData(TokenKey, LoggedInToken);
        TokensLogIn(old(store.entries));
        notified := true;
        outcome := Accepted;
      } else {
        outcome := Mismatch;
      }
    }
  }

  /** A store without a user record refuses every login and is left unchanged. */
  method NoUserRefused(entries: map<string, string>, email: string, password: string)
    returns (outcome: LoginOutcome, after: map<string, string>)
    requires UserKey !in entries && email != "" && password != ""
    ensures outcome == NoUser && after == entries
  {
    var store := new Storage.Store(entries);
    var screen := new Screen();
    screen.Edit(email, password);
    var readStore, notified;
    outcome, readStore, notified := screen.HandleLogin(store);
    after := store.entries;
  }
}
