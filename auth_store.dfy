/**
 * The global session store: user name, token and the authenticated flag, with
 * `login` and `logout` mirroring the pair into `localStorage`.
 */
module AuthStore {
  import opened Common
  import opened Browser

  /** Storage after `login`: the token, then the user name, written under their keys. */
  function LoginItems(items: map<string, Stored>, username: string, token: string): (r: map<string, Stored>)
    ensures r.Keys == items.Keys + {TokenKey, UsernameKey}
    ensures r[TokenKey] == Text(token) && r[UsernameKey] == Text(username)
    ensures forall k :: k in items && k != TokenKey && k != UsernameKey ==> r[k] == items[k]
  {
    items[TokenKey := Text(token)][UsernameKey := Text(username)]
  }

  /** Storage after `logout`: the token and the user name removed, in that order. */
  function LogoutItems(items: map<string, Stored>): (r: map<string, Stored>)
    ensures r.Keys == items.Keys - {TokenKey, UsernameKey}
    ensures forall k :: k in r ==> r[k] == items[k]
  {
    items - {TokenKey} - {UsernameKey}
  }

  /** A second `logout` finds nothing more to remove. */
  lemma LogoutItemsIdempotent(items: map<string, Stored>)
    ensures LogoutItems(LogoutItems(items)) == LogoutItems(items)
  {
  }

  /** The later of two logins decides what is stored. */
  lemma LoginItemsLastWins(items: map<string, Stored>, u1: string, t1: string, u2: string, t2: string)
    ensures LoginItems(LoginItems(items, u1, t1), u2, t2) == LoginItems(items, u2, t2)
  {
  }

  /** Logging in and then out leaves storage as a logout alone would. */
  lemma LogoutUndoesLogin(items: map<string, Stored>, username: string, token: string)
    ensures LogoutItems(LoginItems(items, username, token)) == LogoutItems(items)
  {
  }

  class Store {
    var username: Option<string>
    var token: Option<string>
    var isAuthenticated: bool
    /** The browser whose `localStorage` and location the store writes. */
    const browser: Window

    /** The flag holds exactly when a token is held, and token and user name come as a pair. */
    ghost predicate Valid()
      reads this
    {
      && (isAuthenticated <==> token.Some?)
      && (token.Some? <==> username.Some?)
    }

    /** The store's initial state; it does not read what storage already holds. */
    constructor (browser: Window)
      ensures Valid()
      ensures username == None && token == None && !isAuthenticated
      ensures this.browser == browser
    {
      username := None;
      token := None;
      isAuthenticated := false;
      this.browser := browser;
    }

    /** `login(username, token)`. */
    method Login(username: string, token: string)
      modifies this, browser`items
      ensures Valid()
      ensures this.username == Some(username) && this.token == Some(token) && isAuthenticated
      ensures browser.items == LoginItems(old(browser.items), username, token)
    {
      this.username, this.token, isAuthenticated := Some(username), Some(token), true;
      browser.items := browser.items[TokenKey := Text(token)];
      browser.items := browser.items[UsernameKey := Text(username)];
    }

    /** `logout()`: the session cleared, the pair removed from storage, the login page loaded. */
    method Logout()
      modifies this, browser
      ensures Valid()
      ensures username == None && token == None && !isAuthenticated
      ensures browser.items == LogoutItems(old(browser.items))
      ensures browser.location == LoginPath
    {
      username, token, isAuthenticated := None, None, false;
      browser.items := browser.items - {TokenKey};
      browser.items := browser.items - {UsernameKey};
      browser.location := LoginPath;
    }
  }

  /** Two logouts in a row give the same session, storage and location as one. */
  method LogoutTwice(store: Store)
    modifies store, store.browser
    ensures store.Valid()
    ensures store.username == None && store.token == None && !store.isAuthenticated
    ensures store.browser.items == LogoutItems(old(store.browser.items))
    ensures store.browser.location == LoginPath
  {
    store.Logout();
    store.Logout();
    LogoutItemsIdempotent(old(store.browser.items));
  }

  /** Of two logins in a row, the last one wins in the session and in storage. */
  method LoginTwice(store: Store, u1: string, t1: string, u2: string, t2: string)
    modifies store, store.browser`items
    ensures store.Valid()
    ensures store.username == Some(u2) && store.token == Some(t2) && store.isAuthenticated
    ensures store.browser.items == LoginItems(old(store.browser.items), u2, t2)
  {
    store.Login(u1, t1);
    store.Login(u2, t2);
    LoginItemsLastWins(old(store.browser.items), u1, t1, u2, t2);
  }
}
