/**
 * The flashcards shown on the Memo page and the pure list updates that the page
 * hands to its `setCards` state setter.
 */
module Cards {
  import opened Common

  /**
   * One flashcard. `id` stands for the fields the backend adds to a card, which
   * the object spreads `{ ...card, isChecked }` carry along; `isChecked` is the
   * optional `isChecked?: boolean` property.
   */
  datatype Card = Card(front: string, back: string, id: Option<int>, isChecked: Option<bool>)

  /** Every card has its `isChecked` property defined. */
  predicate Stamped(cards: seq<Card>)
  {
    forall j :: 0 <= j < |cards| ==> cards[j].isChecked.Some?
  }

  /**
   * `prevCards.map((card, i) => i === index ? { ...card, isChecked } : card)`:
   * the card at position `index` gets the new flag, every other card is kept.
   * An index outside the list matches no position.
   */
  function CheckAt(cards: seq<Card>, index: int, isChecked: bool): (r: seq<Card>)
    ensures |r| == |cards|
    ensures forall j :: 0 <= j < |cards| && j != index ==> r[j] == cards[j]
    ensures 0 <= index < |cards| ==>
      && r[index].front == cards[index].front
      && r[index].back == cards[index].back
      && r[index].id == cards[index].id
      && r[index].isChecked == Some(isChecked)
    decreases |cards|
  {
    if cards == [] then []
    else
      var head := if index == 0 then cards[0].(isChecked := Some(isChecked)) else cards[0];
      [head] + CheckAt(cards[1..], index - 1, isChecked)
  }

  /**
   * `data.cards.map(card => ({ ...card, isChecked: false }))`: the fetched list
   * in the same order, every card kept except that it is marked unchecked.
   */
  function Unchecked(cards: seq<Card>): (r: seq<Card>)
    ensures |r| == |cards|
    ensures forall j :: 0 <= j < |cards| ==>
      && r[j].front == cards[j].front
      && r[j].back == cards[j].back
      && r[j].id == cards[j].id
      && r[j].isChecked == Some(false)
    decreases |cards|
  {
    if cards == [] then [] else [cards[0].(isChecked := Some(false))] + Unchecked(cards[1..])
  }

  /** `{ ...card, isChecked: false }` for a card the backend has just created. */
  function Fresh(card: Card): Card
  {
    card.(isChecked := Some(false))
  }

  /** An index outside `[0, |cards|)` leaves the list as it was. */
  lemma CheckAtOutOfRange(cards: seq<Card>, index: int, isChecked: bool)
    requires index < 0 || index >= |cards|
    ensures CheckAt(cards, index, isChecked) == cards
  {
  }

  /** Setting the same flag at the same index twice is the same as setting it once. */
  lemma CheckAtIdempotent(cards: seq<Card>, index: int, isChecked: bool)
    ensures CheckAt(CheckAt(cards, index, isChecked), index, isChecked) == CheckAt(cards, index, isChecked)
  {
  }

  /** Of two updates at the same index, the later one decides the flag. */
  lemma CheckAtLastWins(cards: seq<Card>, index: int, first: bool, second: bool)
    ensures CheckAt(CheckAt(cards, index, first), index, second) == CheckAt(cards, index, second)
  {
  }

  /**
   * Ticking a card and then unticking it (the two clicks the card view forwards)
   * restores the list when the card's flag was defined before.
   */
  lemma CheckAtRestores(cards: seq<Card>, index: int)
    requires 0 <= index < |cards| && cards[index].isChecked.Some?
    ensures CheckAt(CheckAt(cards, index, !cards[index].isChecked.value), index, cards[index].isChecked.value) == cards
  {
  }

  /** Updating a flag keeps every flag defined that was defined before. */
  lemma CheckAtKeepsStamped(cards: seq<Card>, index: int, isChecked: bool)
    requires Stamped(cards)
    ensures Stamped(CheckAt(cards, index, isChecked))
  {
  }

  /** Marking a fetched list unchecked a second time changes nothing. */
  lemma UncheckedIdempotent(cards: seq<Card>)
    ensures Unchecked(Unchecked(cards)) == Unchecked(cards)
  {
  }
}
