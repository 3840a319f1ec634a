/**
 * The browser environment the components share: the `localStorage` key-value
 * store and the current location path.
 */
module Browser {
  import opened Cards

  /** Storage key of the session token, written by both session variants. */
  const TokenKey := "token"
  /** Storage key of the signed-in user's name. */
  const UsernameKey := "username"
  /** Storage key of the card snapshot saved by "Remember". */
  const RememberedKey := "rememberedCards"
  /** Path of the login view. */
  const LoginPath := "/login"
  /** Path of the main view. */
  const HomePath := "/"

  /**
   * A stored string. `CardList(cs)` is the text `JSON.stringify(cs)`; `Text(s)`
   * is a plain string such as a token or a user name. By convention the entry
   * under `RememberedKey` holds a serialised card list only as `CardList`, never
   * as `Text`, so reading a `Text` entry there as a snapshot fails unless it is
   * empty. Other keys are never read as snapshots and may hold any `Text`.
   */
  datatype Stored = Text(s: string) | CardList(cards: seq<Card>)

  /** JavaScript truthiness of a stored string: only the empty string is falsy. */
  predicate Truthy(v: Stored)
  {
    v != Text("")
  }

  /** The shared browser: `localStorage` and `window.location`. */
  class Window {
    var items: map<string, Stored>
    var location: string

    constructor (items: map<string, Stored>, location: string)
      ensures this.items == items && this.location == location
    {
      this.items := items;
      this.location := location;
    }
  }
}
