# somemo flashcards: card collection and session state

This project models the state logic of the somemo flashcard web application in Dafny.
Users log in, study flip cards on the Memo page, tick the cards they know, add new cards and
"remember" the collection in browser storage. Three pieces of sequential state are modelled:

- **The Memo page** (`src/pages/Memo/Memo.tsx`), the class `Memo.MemoPage`. It holds an ordered
  list of cards, a `loading` flag, an `error` message that may be absent, and the new-card form
  buffer. Each handler is a method:
  - `LoadCards` runs on mount and either restores the stored snapshot or fetches;
  - `FetchCards` and `AddCard` each apply one backend completion;
  - `HandleCheckChange` sets one card's flag;
  - `HandleRemember` writes the snapshot;
  - `HandleFrontInput` and `HandleBackInput` edit the form.

  Each network completion is one atomic step that takes its outcome (`Memo.Reply`) as a
  parameter. The list updates it applies are pure sequence functions in module `Cards`.
- **The session store** (`src/store/authStore.ts`), the class `AuthStore.Store`. It holds the
  user name, the token and the authenticated flag. `Login` and `Logout` mirror the pair into
  storage, and `Logout` also sends the browser to `/login`.
- **The session context** (`src/context/AuthContext.tsx`), the class
  `AuthContext.AuthProvider`. This older variant keeps a single flag derived from the stored
  token. `UseAuth` models the hook that fails outside a provider.

All three classes share one `Browser.Window` object. It stands for the global `localStorage`
(a `map<string, Stored>`) and the current location path. `Stored.CardList(cs)` stands for the
text `JSON.stringify(cs)`, so the JSON round trip is the identity. Any other stored string is
`Stored.Text`.

Every state-changing method is proved against its contract, which states the whole new state.
Those contracts are written with `old(...)`. The properties that relate several operations are
lemmas about the pure functions the contracts use. Examples: idempotence, last write wins, the
save/load round trip and "only the named storage keys change".

## Model

| member | source | states |
|---|---|---|
| `Cards.CheckAt` | src/pages/Memo/Memo.tsx:81-85 | the list keeps its length; the card at `index` keeps front, back and id and gets `isChecked` set to the new value; every other card is unchanged |
| `Cards.CheckAtOutOfRange` | src/pages/Memo/Memo.tsx:83 | an index below 0 or at least the length matches no card, so the list is unchanged |
| `Cards.CheckAtIdempotent` | src/pages/Memo/Memo.tsx:83 | applying the same check change twice equals applying it once |
| `Cards.CheckAtLastWins` | src/pages/Memo/Memo.tsx:81-85 | of two check changes at the same index, the later value decides |
| `Cards.CheckAtRestores` | src/pages/Memo/Memo.tsx:81-85 | ticking a card and then unticking it, as the card view's toggle forwards, gives back the original list when the flag was defined |
| `Cards.CheckAtKeepsStamped` | src/pages/Memo/Memo.tsx:83 | if every card had `isChecked` defined before a check change, every card still does after it |
| `Cards.Unchecked` | src/pages/Memo/Memo.tsx:40-45 | the fetched list keeps its order and length; each card keeps front, back and id, with `isChecked` false |
| `Cards.UncheckedIdempotent` | src/pages/Memo/Memo.tsx:40-45 | marking an already-unchecked list unchecked again changes nothing |
| `Memo.ReadSnapshot` | src/pages/Memo/Memo.tsx:14-16 | the parse of the stored entry (a missing or empty entry read as "[]") fails exactly when the entry is non-empty text other than a card list; a non-empty result is the card list stored under the key |
| `Memo.UsesSnapshot` | src/pages/Memo/Memo.tsx:17 | the `length > 0` test passes exactly when storage holds a non-empty card list under "rememberedCards"; a missing, empty or unparsable entry leads to the backend |
| `Memo.SnapshotRoundTrip` | src/pages/Memo/Memo.tsx:14-19 | a list written under "rememberedCards" reads back as that same list whatever else is stored, and it is used exactly when it is non-empty |
| `Memo.MemoPage.constructor` | src/pages/Memo/Memo.tsx:5-10 | the initial state: no cards, an empty form, loading true and no error |
| `Memo.MemoPage.FetchCards` | src/pages/Memo/Memo.tsx:31-55 | on success, cards are the fetched list marked unchecked and the error is untouched; on a non-OK status, the error is "Failed to fetch cards"; on a rejection, the error is the thrown message; on failure the cards are untouched; loading is false on every path; the form is unchanged; an existing error stays |
| `Memo.MemoPage.LoadCards` | src/pages/Memo/Memo.tsx:12-29 | a non-empty snapshot is used as is, without fetching, and leaves the error and form alone; otherwise the fetch completion applies; loading is false on every path |
| `Memo.MemoPage.AddCard` | src/pages/Memo/Memo.tsx:57-79 | on success, the old list plus the returned card marked unchecked, and the form reset to empty front and back; on failure, cards and form are unchanged and the error is "Failed to add card" or the thrown message; loading is untouched; an existing error stays |
| `Memo.MemoPage.HandleCheckChange` | src/pages/Memo/Memo.tsx:81-85 | the cards become `CheckAt(old cards, index, value)`; nothing else on the page changes |
| `Memo.MemoPage.HandleRemember` | src/pages/Memo/Memo.tsx:87-96 | the whole list is written under "rememberedCards" and no other key changes; a write the browser refuses leaves storage as it was |
| `Memo.MemoPage.HandleFrontInput` | src/pages/Memo/Memo.tsx:135 | the form's front text is replaced and its back text kept |
| `Memo.MemoPage.HandleBackInput` | src/pages/Memo/Memo.tsx:147 | the form's back text is replaced and its front text kept |
| `Memo.RememberThenRemount` | src/pages/Memo/Memo.tsx:87-89 | after "Remember" on a non-empty list, a page mounted on the same browser restores exactly that list from storage, without fetching, with no error and the grid shown |
| `Memo.ErrorIsSticky` | src/pages/Memo/Memo.tsx:75-78 | once an error is set, a run of every handler and completion (load, add, check change, remember, fetch, both form inputs) still leaves an error; each method's own contract or frame states this for that method |
| `Memo.ErrorViewIsSticky` | src/pages/Memo/Memo.tsx:102-108 | once the error text is shown, it is still shown after every handler and completion (load, add, check change, remember, fetch, both form inputs), provided no later failure carries an empty message |
| `Memo.EmptyMessageShowsGrid` | src/pages/Memo/Memo.tsx:102-108 | the exception: a fetch failure whose message is "" stores that falsy message, and the page shows the card grid again |
| `AuthStore.LoginItems` | src/store/authStore.ts:21-22 | storage gains "token" = token and "username" = user name; every other key keeps its value |
| `AuthStore.LogoutItems` | src/store/authStore.ts:30-31 | "token" and "username" are removed; every other key keeps its value |
| `AuthStore.LogoutItemsIdempotent` | src/store/authStore.ts:30-31 | removing the pair a second time changes nothing |
| `AuthStore.LoginItemsLastWins` | src/store/authStore.ts:15-23 | two logins in a row leave the same storage as the second login alone |
| `AuthStore.LogoutUndoesLogin` | src/store/authStore.ts:15-32 | a login followed by a logout leaves the same storage as the logout alone |
| `AuthStore.Store.constructor` | src/store/authStore.ts:12-14 | the initial state: user name and token null, not authenticated, so the invariant holds |
| `AuthStore.Store.Login` | src/store/authStore.ts:15-23 | user name, token and flag are set; storage changes only in the two keys; the invariant "authenticated iff a token is held iff a user name is held" holds |
| `AuthStore.Store.Logout` | src/store/authStore.ts:24-32 | all three fields are cleared; the two keys are removed; the location is "/login"; the invariant holds |
| `AuthStore.LogoutTwice` | src/store/authStore.ts:24-32 | two logouts give the same session, storage and location as one |
| `AuthStore.LoginTwice` | src/store/authStore.ts:15-23 | two logins give the same session and storage as the second login alone |
| `AuthContext.SetToken` | src/context/AuthContext.tsx:24 | storage gains "token" = token; every other key keeps its value |
| `AuthContext.RemoveToken` | src/context/AuthContext.tsx:30 | "token" is removed; every other key keeps its value |
| `AuthContext.MountAfterLoginAndLogout` | src/context/AuthContext.tsx:20-25 | after `login(t)` a fresh mount check reports authenticated only when t is non-empty, although `login` itself sets the flag; after `logout` the mount check reports false |
| `AuthContext.AuthProvider.constructor` | src/context/AuthContext.tsx:15 | the flag is false before the mount effect runs |
| `AuthContext.AuthProvider.Mount` | src/context/AuthContext.tsx:18-21 | the flag becomes the mount check `TokenPresent` of the current storage, which `MountAfterLoginAndLogout` and `Interplay.ProviderSeesStoreSession` relate to each login and logout |
| `AuthContext.AuthProvider.Login` | src/context/AuthContext.tsx:23-27 | the token is stored, only the "token" key changes, the flag is true and the location is "/" |
| `AuthContext.AuthProvider.Logout` | src/context/AuthContext.tsx:29-33 | "token" is removed and only that key changes; the flag is false and the location is "/login" |
| `AuthContext.UseAuth` | src/context/AuthContext.tsx:42-48 | returns the provider exactly when one encloses the caller; otherwise fails with "useAuth must be used within an AuthProvider" |
| `Interplay.SessionKeepsSnapshot` | src/store/authStore.ts:21-31 | no login or logout of either session variant changes what the Memo page reads from "rememberedCards" |
| `Interplay.ProviderSeesStoreSession` | src/context/AuthContext.tsx:18-21 | a provider mounted after the store's login reports authenticated exactly for a non-empty token; after the store's logout it never does |
| `Interplay.LoginThenMountProvider` | src/context/AuthContext.tsx:18-21 | after the store's login, a provider mounted on the same browser is authenticated exactly when the token is non-empty, while the store itself is authenticated |

## Left out

- Rendering is not modelled: JSX, styling, the card grid layout and `key` props. `Memo.MemoPage.View` only records which of the spinner, the error text or the grid the page shows.
- The error view is not unconditionally sticky. A failure whose `err.message` is the empty string stores "" in `error`, which is falsy, so the card grid shows again (`Memo.EmptyMessageShowsGrid`). `Memo.ErrorViewIsSticky` therefore assumes every later failure message is non-empty.
- The code sends no authorisation header, has no handling of a 401 status, does not check the form before posting, and has no endpoint that saves only the checked cards; none of these is modelled.
- `console.log`, `console.error` and `alert` are not modelled. They have no effect on state.
- The HTTP requests are not modelled: their URLs, methods, headers and the JSON body built from the form. Only each response's outcome enters the model, as a `Memo.Reply` parameter.
- A response whose list body lacks `cards` is not modelled separately. It throws inside the `.then` handler and reaches the same `.catch`, so it is a `Rejected(message)` reply.
- Asynchrony is not modelled. Each `.then` chain is one atomic step. Interleaved in-flight requests, out-of-order completions, updates after unmount and React's batching and stale closures are outside the model.
- The browser's `required` check on the two form inputs is not modelled. `Memo.MemoPage.AddCard` accepts whatever reply the backend gives, and the handler itself checks nothing.
- JSON is not modelled. `Stored.CardList` stands for a serialised card list. By convention the "rememberedCards" entry never holds a serialised card list as `Stored.Text`; nothing in the types enforces this, and other keys may hold any text. A stored `Text` other than the empty string under "rememberedCards" counts as unparsable. Text that parses to a JSON value other than a card list (for example a JSON string, which has a length) is not distinguished.
- Exceptions from `localStorage.getItem` in `loadCards` are not modelled. Neither are exceptions from `setItem` and `removeItem` in the two session variants, which nothing catches. A failed write in `handleRemember` is the `accepted = false` parameter of `Memo.MemoPage.HandleRemember`.
- `window.location.href` and React Router's `navigate` both become an assignment to `Browser.Window.location`. A full page reload, which would reset the in-memory session store, is not modelled.
- src/App.tsx, src/components/Card.tsx, src/components/FlippableCard.tsx and src/components/Login.tsx are not part of this model. They are routing, presentation and the login form. The card view's check box is any boolean passed to `HandleCheckChange`. The login form is whatever environment calls `AuthStore.Store.Login`.
