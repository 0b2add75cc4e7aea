/** The records kept by the fake wallet card API, and the functions and lemmas
    over a sequence of them that specify the store's operations. */
module WalletCardModel {

  /** A stored card. The balance is carried along and never computed with. */
  datatype WalletCard = WalletCard(id: int, cardName: string, cardNumber: string, balance: real)

  /** The fields a caller supplies when adding a card: a card without its id. */
  datatype CardFields = CardFields(cardName: string, cardNumber: string, balance: real)

  /** The one error the store raises, `Error('Card not found')`. */
  datatype ApiError = CardNotFound

  /** The outcome of an operation that returns a value or is rejected. */
  datatype Result<T> = Ok(value: T) | Err(error: ApiError)

  /** The outcome of an operation that resolves with no value or is rejected. */
  datatype Outcome = Done | Failed(error: ApiError)

  /** The card built from the caller's fields and the id the store assigns. */
  function WithId(id: int, fields: CardFields): WalletCard
  {
    WalletCard(id, fields.cardName, fields.cardNumber, fields.balance)
  }

  /** The three cards the store holds when the module is loaded. */
  function Seed(): seq<WalletCard>
  {
    [ WalletCard(1, "Visa", "**** **** **** 1234", 1200.50),
      WalletCard(2, "MasterCard", "**** **** **** 5678", 750.00),
      WalletCard(3, "Amex", "**** **** **** 9012", 3000.00) ]
  }

  /** The ids of the cards, in store order (`cards.map(c => c.id)`). */
  function Ids(cards: seq<WalletCard>): seq<int>
  {
    seq(|cards|, i requires 0 <= i < |cards| => cards[i].id)
  }

  predicate HasId(cards: seq<WalletCard>, id: int)
  {
    exists i :: 0 <= i < |cards| && cards[i].id == id
  }

  /** No two cards share an id. */
  predicate UniqueIds(cards: seq<WalletCard>)
  {
    forall i, j :: 0 <= i < |cards| && 0 <= j < |cards| && i != j ==> cards[i].id != cards[j].id
  }

  /** The store's invariant: every id is positive and ids grow strictly in store order. */
  predicate IdsAscending(cards: seq<WalletCard>)
  {
    && (forall i :: 0 <= i < |cards| ==> cards[i].id >= 1)
    && (forall i, j :: 0 <= i < j < |cards| ==> cards[i].id < cards[j].id)
  }

  /** The largest of a non-empty list of numbers (`Math.max(...xs)`). */
  function Max(xs: seq<int>): (m: int)
    requires |xs| > 0
    ensures forall i :: 0 <= i < |xs| ==> xs[i] <= m
    ensures exists i :: 0 <= i < |xs| && xs[i] == m
  {
    if |xs| == 1 then xs[0]
    else
      var rest := Max(xs[1..]);
      if xs[0] >= rest then xs[0] else rest
  }

  /** The id a newly added card receives: one more than the largest present id,
      and 1 when the store is empty. */
  function NextId(cards: seq<WalletCard>): (id: int)
    ensures forall i :: 0 <= i < |cards| ==> cards[i].id < id
    ensures |cards| > 0 ==> exists i :: 0 <= i < |cards| && cards[i].id == id - 1
    ensures cards == [] ==> id == 1
  {
    if cards == [] then 1
    else
      var ids := Ids(cards);
      var m := Max(ids);
      assert forall i :: 0 <= i < |cards| ==> cards[i].id == ids[i];
      m + 1
  }

  /** The position of the first card with the given id, or -1 when there is none
      (`cards.findIndex(c => c.id === id)`). */
  function FindIndex(cards: seq<WalletCard>, id: int): (index: int)
    ensures -1 <= index < |cards|
    ensures index == -1 <==> !HasId(cards, id)
    ensures index != -1 ==> cards[index].id == id
    ensures index != -1 ==> forall j :: 0 <= j < index ==> cards[j].id != id
  {
    if cards == [] then -1
    else if cards[0].id == id then 0
    else
      var rest := FindIndex(cards[1..], id);
      if rest == -1 then -1 else rest + 1
  }

  lemma AscendingIsUnique(cards: seq<WalletCard>)
    requires IdsAscending(cards)
    ensures UniqueIds(cards)
  {
  }

  /** With unique ids, looking a card's id up finds that very card. */
  lemma FindIndexOfPresentId(cards: seq<WalletCard>, k: int)
    requires UniqueIds(cards)
    requires 0 <= k < |cards|
    ensures FindIndex(cards, cards[k].id) == k
  {
  }

  lemma SeedIsAscending()
    ensures IdsAscending(Seed())
    ensures Ids(Seed()) == [1, 2, 3]
  {
  }

  /** Appending a card whose id is larger than every present one keeps the invariant. */
  lemma AppendKeepsAscending(cards: seq<WalletCard>, card: WalletCard)
    requires IdsAscending(cards)
    requires card.id >= 1
    requires forall i :: 0 <= i < |cards| ==> cards[i].id < card.id
    ensures IdsAscending(cards + [card])
    ensures Ids(cards + [card]) == Ids(cards) + [card.id]
  {
  }

  /** Replacing a card by one with the same id keeps the invariant and the ids. */
  lemma ReplaceKeepsAscending(cards: seq<WalletCard>, k: int, card: WalletCard)
    requires IdsAscending(cards)
    requires 0 <= k < |cards| && cards[k].id == card.id
    ensures IdsAscending(cards[k := card])
    ensures Ids(cards[k := card]) == Ids(cards)
  {
  }

  /** Removing one card keeps the invariant, and its id is then absent. */
  lemma RemoveKeepsAscending(cards: seq<WalletCard>, k: int)
    requires IdsAscending(cards)
    requires 0 <= k < |cards|
    ensures IdsAscending(cards[..k] + cards[k + 1..])
    ensures !HasId(cards[..k] + cards[k + 1..], cards[k].id)
  {
  }
}
