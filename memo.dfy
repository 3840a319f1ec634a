/**
 * The Memo page: its card collection, loading flag, error message and the
 * new-card form, with the handlers that update them. Each network or storage
 * completion is one atomic step that receives its outcome as a parameter.
 */
module Memo {
  import opened Common
  import opened Cards
  import opened Browser

  /** The new-card form buffer `{ front, back }`. */
  datatype Draft = Draft(front: string, back: string)

  /** How a request to the card backend ended. */
  datatype Reply<T> =
    | Received(body: T)         // response OK and body parsed; for a list fetch, `body` is `data.cards`
    | NotOk                     // response arrived with `response.ok` false
    | Rejected(message: string) // `fetch` or the body parse threw an error with this message

  /** Where `loadCards` took the cards from. */
  datatype Source = FromStorage | FromBackend

  /** What the page renders. */
  datatype Screen = Spinner | ErrorText(message: string) | CardGrid(cards: seq<Card>)

  /** Message thrown when the list request answers with a non-OK status. */
  const FetchFailed := "Failed to fetch cards"
  /** Message thrown when the create request answers with a non-OK status. */
  const AddFailed := "Failed to add card"

  /** The message the `.catch` handler stores for a failed request. */
  function FailureMessage<T>(reply: Reply<T>, notOk: string): string
    requires !reply.Received?
  {
    if reply.NotOk? then notOk else reply.message
  }

  /**
   * `JSON.parse(localStorage.getItem("rememberedCards") || "[]")`: a missing or
   * empty entry reads as the empty list, a stored card list reads back as
   * itself, and any other text is a parse failure (None).
   */
  function ReadSnapshot(items: map<string, Stored>): (r: Option<seq<Card>>)
    ensures r.None? <==> RememberedKey in items && items[RememberedKey].Text? && items[RememberedKey] != Text("")
    ensures r.Some? && r.value != [] ==> RememberedKey in items && items[RememberedKey] == CardList(r.value)
  {
    if RememberedKey !in items then Some([])
    else match items[RememberedKey]
      case Text(s) => if s == "" then Some([]) else None
      case CardList(cs) => Some(cs)
  }

  /**
   * `loadCards` takes the snapshot only when it parses to a non-empty list,
   * which is exactly when a non-empty card list is stored under the key.
   */
  predicate UsesSnapshot(items: map<string, Stored>)
    ensures UsesSnapshot(items) <==>
      RememberedKey in items && items[RememberedKey].CardList? && |items[RememberedKey].cards| > 0
  {
    var r := ReadSnapshot(items);
    r.Some? && |r.value| > 0
  }

  /** What "Remember" stores reads back unchanged, whatever else is in storage. */
  lemma SnapshotRoundTrip(items: map<string, Stored>, cards: seq<Card>)
    ensures ReadSnapshot(items[RememberedKey := CardList(cards)]) == Some(cards)
    ensures UsesSnapshot(items[RememberedKey := CardList(cards)]) <==> |cards| > 0
  {
  }

  class MemoPage {
    var cards: seq<Card>
    var newCard: Draft
    var loading: bool
    var error: Option<string>
    /** The browser whose `localStorage` the page reads and writes. */
    const browser: Window

    /** The state before the mount effect runs. */
    constructor (browser: Window)
      ensures cards == [] && newCard == Draft("", "") && loading && error == None
      ensures this.browser == browser
    {
      cards := [];
      newCard := Draft("", "");
      loading := true;
      error := None;
      this.browser := browser;
    }

    /** What the page shows: the spinner while loading, then a non-empty error, then the grid. */
    function View(): Screen
      reads this
    {
      if loading then Spinner
      else if error.Some? && error.value != "" then ErrorText(error.value)
      else CardGrid(cards)
    }

    /** The state a completed list request leaves behind. */
    twostate predicate FetchApplied(reply: Reply<seq<Card>>)
      reads this
    {
      && !loading
      && newCard == old(newCard)
      && (reply.Received? ==> cards == Unchecked(reply.body) && error == old(error))
      && (!reply.Received? ==> cards == old(cards) && error == Some(FailureMessage(reply, FetchFailed)))
    }

    /** Completion of `fetchCards`: the fetched cards marked unchecked, or the error. */
    method FetchCards(reply: Reply<seq<Card>>)
      modifies this
      ensures FetchApplied(reply)
      ensures Stamped(cards) || cards == old(cards)
      ensures old(error).Some? ==> error.Some?
    {
      match reply
      case Received(body) =>
        cards := Unchecked(body);
        loading := false;
      case _ =>
        error := Some(FailureMessage(reply, FetchFailed));
        loading := false;
    }

    /**
     * The mount effect `loadCards`: the stored snapshot when it is a non-empty
     * list, otherwise (empty, missing or unparsable) the backend.
     */
    method LoadCards(reply: Reply<seq<Card>>) returns (source: Source)
      modifies this
      ensures source == (if UsesSnapshot(browser.items) then FromStorage else FromBackend)
      ensures source == FromStorage ==>
        && cards == ReadSnapshot(browser.items).value
        && !loading && error == old(error) && newCard == old(newCard)
      ensures source == FromBackend ==> FetchApplied(reply)
      ensures !loading
      ensures old(error).Some? ==> error.Some?
    {
      if UsesSnapshot(browser.items) {
        cards := ReadSnapshot(browser.items).value;
        loading := false;
        source := FromStorage;
      } else {
        FetchCards(reply);
        source := FromBackend;
      }
    }

    /**
     * Completion of `addCard`: the created card appended unchecked and the form
     * cleared, or the error set with the list and form left alone.
     */
    method AddCard(reply: Reply<Card>)
      modifies this
      ensures loading == old(loading)
      ensures reply.Received? ==>
        && cards == old(cards) + [Fresh(reply.body)]
        && newCard == Draft("", "") && error == old(error)
      ensures !reply.Received? ==>
        && cards == old(cards) && newCard == old(newCard)
        && error == Some(FailureMessage(reply, AddFailed))
      ensures Stamped(old(cards)) ==> Stamped(cards)
      ensures old(error).Some? ==> error.Some?
    {
      match reply
      case Received(card) =>
        cards := cards + [Fresh(card)];
        newCard := Draft("", "");
      case _ =>
        error := Some(FailureMessage(reply, AddFailed));
    }

    /** `handleCheckChange(index, isChecked)`, forwarded by a card's check box. */
    method HandleCheckChange(index: int, isChecked: bool)
      modifies this`cards
      ensures cards == CheckAt(old(cards), index, isChecked)
      ensures Stamped(old(cards)) ==> Stamped(cards)
    {
      cards := CheckAt(cards, index, isChecked);
    }

    /**
     * `handleRemember`: the whole list written under "rememberedCards". When
     * the browser refuses the write, storage is left as it was.
     */
    method HandleRemember(accepted: bool)
      modifies browser`items
      ensures browser.items ==
        if accepted then old(browser.items)[RememberedKey := CardList(cards)] else old(browser.items)
    {
      if accepted {
        browser.items := browser.items[RememberedKey := CardList(cards)];
      }
    }

    /** Typing into the "Front" input. */
    method HandleFrontInput(value: string)
      modifies this`newCard
      ensures newCard == Draft(value, old(newCard).back)
    {
      newCard := newCard.(front := value);
    }

    /** Typing into the "Back" input. */
    method HandleBackInput(value: string)
      modifies this`newCard
      ensures newCard == Draft(old(newCard).front, value)
    {
      newCard := newCard.(back := value);
    }
  }

  /**
   * Saving a non-empty list and mounting the page again restores exactly that
   * list from storage without going to the backend.
   */
  method RememberThenRemount(page: MemoPage, reply: Reply<seq<Card>>) returns (next: MemoPage, source: Source)
    requires |page.cards| > 0
    modifies page.browser`items
    ensures fresh(next) && next.browser == page.browser
    ensures source == FromStorage
    ensures next.cards == page.cards && !next.loading && next.error == None
    ensures next.View() == CardGrid(page.cards)
  {
    page.HandleRemember(true);
    SnapshotRoundTrip(old(page.browser.items), page.cards);
    next := new MemoPage(page.browser);
    source := next.LoadCards(reply);
  }

  /**
   * Once an error is set, every handler and completion of the page keeps one in
   * place: nothing resets it to null. Each method's contract or frame states this
   * for that method alone; this client runs all of them in one order to show
   * that the facts compose.
   */
  method ErrorIsSticky(page: MemoPage, added: Reply<Card>, fetched: Reply<seq<Card>>, index: int, isChecked: bool)
    requires page.error.Some?
    modifies page, page.browser`items
    ensures page.error.Some?
  {
    var source := page.LoadCards(fetched);
    page.AddCard(added);
    page.HandleCheckChange(index, isChecked);
    page.HandleRemember(true);
    page.FetchCards(fetched);
    page.HandleFrontInput("");
    page.HandleBackInput("");
  }

  /**
   * Once the error text is on screen it stays there through every handler and
   * completion, provided no later failure carries an empty message.
   */
  method ErrorViewIsSticky(page: MemoPage, added: Reply<Card>, fetched: Reply<seq<Card>>, index: int, isChecked: bool)
    requires page.View().ErrorText?
    requires added.Rejected? ==> added.message != ""
    requires fetched.Rejected? ==> fetched.message != ""
    modifies page, page.browser`items
    ensures page.View().ErrorText?
  {
    var source := page.LoadCards(fetched);
    page.AddCard(added);
    page.HandleCheckChange(index, isChecked);
    page.HandleRemember(true);
    page.FetchCards(fetched);
    page.HandleFrontInput("");
    page.HandleBackInput("");
  }

  /**
   * The exception: a failure whose message is the empty string replaces the
   * error with a falsy value, and the page shows the card grid again.
   */
  method EmptyMessageShowsGrid(page: MemoPage)
    requires page.View().ErrorText?
    modifies page
    ensures page.View() == CardGrid(page.cards)
    ensures page.error == Some("")
  {
    page.FetchCards(Rejected(""));
  }
}
