/**
 * The older session variant: a React context provider holding one
 * `isAuthenticated` flag derived from the stored token.
 */
module AuthContext {
  import opened Common
  import opened Browser

  /** Message of the error `useAuth` throws outside a provider. */
  const MissingProvider := "useAuth must be used within an AuthProvider"

  /** The mount check `!!localStorage.getItem("token")`. */
  predicate TokenPresent(items: map<string, Stored>)
  {
    TokenKey in items && Truthy(items[TokenKey])
  }

  /** Storage after the provider's `login(token)`: only the token key changes. */
  function SetToken(items: map<string, Stored>, token: string): (r: map<string, Stored>)
    ensures r.Keys == items.Keys + {TokenKey}
    ensures r[TokenKey] == Text(token)
    ensures forall k :: k in items && k != TokenKey ==> r[k] == items[k]
  {
    items[TokenKey := Text(token)]
  }

  /** Storage after the provider's `logout()`: only the token key is removed. */
  function RemoveToken(items: map<string, Stored>): (r: map<string, Stored>)
    ensures r.Keys == items.Keys - {TokenKey}
    ensures forall k :: k in r ==> r[k] == items[k]
  {
    items - {TokenKey}
  }

  /**
   * After `login(token)` the flag is true, but a fresh mount over the same
   * storage agrees only when the token is non-empty; after `logout` both say false.
   */
  lemma MountAfterLoginAndLogout(items: map<string, Stored>, token: string)
    ensures TokenPresent(SetToken(items, token)) <==> token != ""
    ensures !TokenPresent(RemoveToken(items))
  {
  }

  class AuthProvider {
    var isAuthenticated: bool
    /** The browser whose `localStorage` and location the provider uses. */
    const browser: Window

    /** `useState<boolean>(false)`: not authenticated before the mount effect. */
    constructor (browser: Window)
      ensures !isAuthenticated && this.browser == browser
    {
      isAuthenticated := false;
      this.browser := browser;
    }

    /** The mount effect: authenticated exactly when a non-empty token is stored. */
    method Mount()
      modifies this`isAuthenticated
      ensures isAuthenticated == TokenPresent(browser.items)
    {
      isAuthenticated := TokenPresent(browser.items);
    }

    /** `login(token)`: token stored, flag set, navigation to the main view. */
    method Login(token: string)
      modifies this`isAuthenticated, browser
      ensures browser.items == SetToken(old(browser.items), token)
      ensures isAuthenticated
      ensures browser.location == HomePath
    {
      browser.items := browser.items[TokenKey := Text(token)];
      isAuthenticated := true;
      browser.location := HomePath;
    }

    /** `logout()`: token removed, flag cleared, navigation to the login view. */
    method Logout()
      modifies this`isAuthenticated, browser
      ensures browser.items == RemoveToken(old(browser.items))
      ensures !isAuthenticated
      ensures browser.location == LoginPath
    {
      browser.items := browser.items - {TokenKey};
      isAuthenticated := false;
      browser.location := LoginPath;
    }
  }

  /** `useAuth()`: the enclosing provider, or the error thrown when there is none. */
  function UseAuth(provider: AuthProvider?): (r: Result<AuthProvider>)
    ensures r.Ok? <==> provider != null
    ensures r.Ok? ==> r.value == provider
    ensures r.Err? ==> r.message == MissingProvider
  {
    if provider == null then Err(MissingProvider) else Ok(provider)
  }
}
