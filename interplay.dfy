/**
 * Properties that span components sharing the same `localStorage`: the session
 * transitions and the Memo page's card snapshot, and the two session variants
 * reading the same token key.
 */
module Interplay {
  import opened Browser
  import AuthStore
  import AuthContext
  import Memo

  /** No session transition of either variant disturbs the remembered card snapshot. */
  lemma SessionKeepsSnapshot(items: map<string, Stored>, username: string, token: string)
    ensures Memo.ReadSnapshot(AuthStore.LoginItems(items, username, token)) == Memo.ReadSnapshot(items)
    ensures Memo.ReadSnapshot(AuthStore.LogoutItems(items)) == Memo.ReadSnapshot(items)
    ensures Memo.ReadSnapshot(AuthContext.SetToken(items, token)) == Memo.ReadSnapshot(items)
    ensures Memo.ReadSnapshot(AuthContext.RemoveToken(items)) == Memo.ReadSnapshot(items)
  {
  }

  /**
   * A provider mounted after the store's `login` reports authenticated only for a
   * non-empty token, and after the store's `logout` never.
   */
  lemma ProviderSeesStoreSession(items: map<string, Stored>, username: string, token: string)
    ensures AuthContext.TokenPresent(AuthStore.LoginItems(items, username, token)) <==> token != ""
    ensures !AuthContext.TokenPresent(AuthStore.LogoutItems(items))
  {
  }

  /**
   * Storage that the store's `login` has written, read by a provider mounted on
   * the same browser.
   */
  method LoginThenMountProvider(store: AuthStore.Store, username: string, token: string)
    returns (provider: AuthContext.AuthProvider)
    modifies store, store.browser`items
    ensures fresh(provider) && provider.browser == store.browser
    ensures provider.isAuthenticated <==> token != ""
    ensures store.isAuthenticated
  {
    store.Login(username, token);
    provider := new AuthContext.AuthProvider(store.browser);
    provider.Mount();
  }
}
