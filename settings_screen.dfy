/**
 * The settings screen: the server URL typed in is normalised and saved
 * under `serverUrl`, the saved URL is shown, and logging out (after the
 * user confirms) removes the login token.
 *
 * The other screens read the saved URL back from the store exactly as it
 * was saved (`getData('serverUrl')`), so `Storage.Get` is that reading.
 */
module SettingsScreen {
  import opened Wrappers
  import opened Text
  import Storage
  import opened Auth
  import ServerUrl

  const ServerUrlKey := "serverUrl"

  class Screen {
    /** The text in the URL field. */
    var serverUrl: string
    /** The URL shown as saved. */
    var savedUrl: Option<string>

    /** The screen as first rendered: an empty field and nothing shown as saved. */
    constructor ()
      ensures serverUrl == "" && savedUrl.None?
    {
      serverUrl, savedUrl := "", None;
    }

    /** The mount effect `loadUrl`: a stored, non-empty URL is shown as saved. */
    method LoadUrl(store: Storage.Store)
      modifies this`savedUrl
      ensures savedUrl == if Truthy(Storage.Get(store.entries, ServerUrlKey))
        then Storage.Get(store.entries, ServerUrlKey) else old(savedUrl)
    {
      var url := store.GetData(ServerUrlKey);
      if Truthy(url) {
        savedUrl := url;
      }
    }

    /** Typing into the URL field. */
    method EditUrl(text: string)
      modifies this`serverUrl
      ensures serverUrl == text
    {
      serverUrl := text;
    }

    /**
     * `handleSaveUrl`. Text that is blank after trimming is refused: nothing
     * is stored and the saved URL is unchanged. Otherwise the normalised URL
     * is stored under `serverUrl`, every other key is kept, and it is shown
     * as saved; it contains `:8000`, so the port helper leaves it alone.
     */
    method HandleSaveUrl(store: Storage.Store) returns (refused: bool)
      modifies this`savedUrl, store`entries
      ensures refused <==> AllWhitespace(serverUrl)
      ensures refused ==> store.entries == old(store.entries) && savedUrl == old(savedUrl)
      ensures !refused ==> savedUrl == ServerUrl.Normalize(serverUrl) && savedUrl.Some?
      ensures !refused && savedUrl.Some? ==> store.entries == old(store.entries)[ServerUrlKey := savedUrl.value]
      ensures !refused && savedUrl.Some? ==> Contains(savedUrl.value, ServerUrl.Port)
      ensures !refused && savedUrl.Some? ==> ServerUrl.WithPort(savedUrl.value) == savedUrl.value
    {
      ServerUrl.NormalizeRefusesBlank(serverUrl);
      var formatted := ServerUrl.Normalize(serverUrl);
      if formatted.None? {
        return true;
      }
      ServerUrl.NormalizeHasPort(serverUrl);
      store.StoreData(ServerUrlKey, formatted.value);
      savedUrl := formatted;
      refused := false;
    }

    /**
     * `handleLogout`, with the user's answer to the confirmation as input:
     * on confirmation only `userToken` is removed, which logs out, and the
     * auth callback runs; on cancel nothing happens.
     */
    method HandleLogout(store: Storage.Store, confirmed: bool) returns (notified: bool)
      modifies store`entries
      ensures store.entries == if confirmed then old(store.entries) - {TokenKey} else old(store.entries)
      ensures notified == confirmed
      ensures confirmed ==> !LoggedIn(store.entries)
    {
      notified := false;
      if confirmed {
        store.RemoveData(TokenKey);
        TokensLogIn(old(store.entries));
        notified := true;
      }
    }
  }

  // ----- sessions of the screen -----

  /**
   * Saving a URL and reading it back as the other screens do: they get the
   * normalised URL, the port helper leaves it unchanged, and it has a
   * scheme unless the text was a bare scheme.
   */
  method SaveThenRead(entries: map<string, string>, text: string) returns (seen: Option<string>)
    requires !AllWhitespace(text)
    ensures seen == ServerUrl.Normalize(text) && seen.Some?
    ensures ServerUrl.WithPort(seen.value) == seen.value
    ensures !ServerUrl.IsBareScheme(Trim(text)) ==> ServerUrl.HasScheme(seen.value)
  {
    var store := new Storage.Store(entries);
    var screen := new Screen();
    screen.EditUrl(text);
    var refused := screen.HandleSaveUrl(store);
    seen := store.GetData(ServerUrlKey);
    ServerUrl.NormalizeRefusesBlank(text);
    if !ServerUrl.IsBareScheme(Trim(text)) {
      ServerUrl.NormalizeHasScheme(text);
    }
  }

  /** Blank text saves nothing: the store and the shown URL stay as loaded. */
  method BlankUrlRefused(entries: map<string, string>, text: string)
    returns (after: map<string, string>, shown: Option<string>)
    requires AllWhitespace(text)
    ensures after == entries
    ensures shown == (if Truthy(Storage.Get(entries, ServerUrlKey)) then Storage.Get(entries, ServerUrlKey) else None)
  {
    var store := new Storage.Store(entries);
    var screen := new Screen();
    screen.LoadUrl(store);
    screen.EditUrl(text);
    var refused := screen.HandleSaveUrl(store);
    after, shown := store.entries, screen.savedUrl;
  }

  /** Logging out keeps the user record and the saved URL, so the same user can log in again. */
  method LogoutKeepsUser(entries: map<string, string>, confirmed: bool)
    returns (after: map<string, string>)
    ensures after == (if confirmed then entries - {TokenKey} else entries)
    ensures Storage.Get(after, UserKey) == Storage.Get(entries, UserKey)
    ensures Storage.Get(after, ServerUrlKey) == Storage.Get(entries, ServerUrlKey)
    ensures confirmed ==> !LoggedIn(after)
  {
    var store := new Storage.Store(entries);
    var screen := new Screen();
    var notified := screen.HandleLogout(store, confirmed);
    after := store.entries;
  }
}
