/**
 * The signup screen: the email and password typed in become the single
 * stored user record, replacing any earlier one, and the `signed_up` token
 * is written so that the new user counts as logged in.
 */
module SignupScreen {
  import opened Wrappers
  import Storage
  import opened Auth
  import LoginScreen

  class Screen {
    var email: string
    var password: string

    /** The screen as first rendered: both fields empty. */
    constructor ()
      ensures email == "" && password == ""
    {
      email, password := "", "";
    }

    /** Typing into the two fields. */
    method Edit(email: string, password: string)
      modifies this
      ensures this.email == email && this.password == password
    {
      this.email, this.password := email, password;
    }

    /**
     * `handleSignup`. With an empty field nothing is written. Otherwise the
     * user record is written with exactly the two fields, then the
     * `signed_up` token, and the screen goes back to login and calls the
     * auth callback.
     */
    method HandleSignup(store: Storage.Store) returns (toLogin: bool, notified: bool)
      modifies store`entries
      ensures email == "" || password == "" ==> store.entries == old(store.entries) && !toLogin && !notified
      ensures email != "" && password != "" ==>
        store.entries == old(store.entries)[UserKey := EncodeUser(User(email, password))][TokenKey := SignedUpToken]
        && toLogin && notified
      ensures notified ==> LoggedIn(store.entries)
    {
      toLogin, notified := false, false;
      if email == "" || password == "" {
        return;
      }
      store.StoreData(UserKey, EncodeUser(User(email, password)));
      store.StoreData(TokenKey, SignedUpToken);
      TokensLogIn(old(store.entries)[UserKey := EncodeUser(User(email, password))]);
      toLogin := true;
      notified := true;
    }
  }

  /**
   * Signing up and then logging in on the same store: the login is
   * accepted exactly when both fields equal the ones signed up with, and
   * the user is logged in afterwards in either case.
   */
  method SignupThenLoginSession(email: string, password: string, email2: string, password2: string)
    returns (outcome: LoginOutcome, loggedIn: bool)
    requires email != "" && password != ""
    ensures outcome == Accepted <==> email2 == email && password2 == password
    ensures email2 != "" && password2 != "" && outcome != Accepted ==> outcome == Mismatch
    ensures loggedIn
  {
    var store := new Storage.Store(map[]);
    var signup := new Screen();
    signup.Edit(email, password);
    var toLogin, notified := signup.HandleSignup(store);
    var login := new LoginScreen.Screen();
    login.Edit(email2, password2);
    var readStore, accepted;
    outcome, readStore, accepted := login.HandleLogin(store);
    Auth.SignupThenLogin(email, password, email2, password2);
    loggedIn := LoggedIn(store.entries);
  }

  /** A second signup replaces the first user: the first password no longer logs in. */
  method SecondSignupReplaces(first: User, second: User) returns (outcome: LoginOutcome)
    requires first.email != "" && first.password != "" && second.email != "" && second.password != ""
    requires first.password != second.password
    ensures outcome == Mismatch
  {
    var store := new Storage.Store(map[]);
    var signup := new Screen();
    signup.Edit(first.email, first.password);
    var toLogin, notified := signup.HandleSignup(store);
    signup.Edit(second.email, second.password);
    toLogin, notified := signup.HandleSignup(store);
    var login := new LoginScreen.Screen();
    login.Edit(first.email, first.password);
    var readStore, accepted;
    outcome, readStore, accepted := login.HandleLogin(store);
    Auth.SignupThenLogin(second.email, second.password, first.email, first.password);
  }
}
