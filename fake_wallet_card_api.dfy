/** The in-memory card store behind the fake wallet card API. Each operation
    runs synchronously; the artificial delay before it runs is not modelled. */
module FakeWalletCardApi {
  import opened WalletCardModel

  /** The module-level `walletCards` array, as an object owning its contents. */
  class WalletCardStore {
    var cards: seq<WalletCard>

    /** Ids are positive and strictly increasing in store order, hence unique. */
    ghost predicate Valid()
      reads this
    {
      IdsAscending(cards)
    }

    /** The store as the module is loaded: the three seeded cards. */
    constructor ()
      ensures Valid()
      ensures cards == Seed()
    {
      cards := Seed();
      SeedIsAscending();
    }

    /** `getWalletCards`: a copy of every card, in store order. */
    method GetWalletCards() returns (snapshot: seq<WalletCard>)
      ensures snapshot == cards
      ensures |snapshot| == |cards| && Ids(snapshot) == Ids(cards)
    {
      snapshot := cards;
    }

    /** `addWalletCard`: gives the card the next id and appends it. */
    method AddWalletCard(fields: CardFields) returns (card: WalletCard)
      requires Valid()
      modifies this
      ensures Valid()
      ensures card == WithId(NextId(old(cards)), fields)
      ensures card.cardName == fields.cardName && card.cardNumber == fields.cardNumber
      ensures card.balance == fields.balance
      ensures forall i :: 0 <= i < |old(cards)| ==> old(cards)[i].id < card.id
      ensures cards == old(cards) + [card]
      ensures Ids(cards) == Ids(old(cards)) + [card.id]
    {
      var newId := NextId(cards);
      card := WithId(newId, fields);
      AppendKeepsAscending(cards, card);
      cards := cards + [card];
    }

    /** `updateWalletCard`: replaces the card with the same id, or is rejected
        with "Card not found" and changes nothing. */
    method UpdateWalletCard(updated: WalletCard) returns (r: Result<WalletCard>)
      requires Valid()
      modifies this
      ensures Valid()
      ensures r.Ok? <==> HasId(old(cards), updated.id)
      ensures r.Ok? ==> r.value == updated
      ensures r.Ok? ==> cards == old(cards)[FindIndex(old(cards), updated.id) := updated]
      ensures r.Ok? ==> old(cards)[FindIndex(old(cards), updated.id)].id == updated.id
      ensures Ids(cards) == Ids(old(cards))
      ensures r.Err? ==> r.error == CardNotFound && cards == old(cards)
    {
      var index := FindIndex(cards, updated.id);
      if index != -1 {
        ReplaceKeepsAscending(cards, index, updated);
        cards := cards[index := updated];
        r := Ok(updated);
      } else {
        r := Err(CardNotFound);
      }
    }

    /** `deleteWalletCard`: removes the card with the given id, or is rejected
        with "Card not found" and changes nothing. */
    method DeleteWalletCard(id: int) returns (r: Outcome)
      requires Valid()
      modifies this
      ensures Valid()
      ensures r.Done? <==> HasId(old(cards), id)
      ensures r.Done? ==> cards == old(cards)[..FindIndex(old(cards), id)] + old(cards)[FindIndex(old(cards), id) + 1..]
      ensures r.Done? ==> |cards| == |old(cards)| - 1 && !HasId(cards, id)
      ensures r.Failed? ==> r.error == CardNotFound && cards == old(cards)
    {
      var index := FindIndex(cards, id);
      if index != -1 {
        RemoveKeepsAscending(cards, index);
        cards := cards[..index] + cards[index + 1..];
        r := Done;
      } else {
        r := Failed(CardNotFound);
      }
    }
  }

  /** Adding a card to the seeded store assigns id 4 and lists four cards. */
  method AddToSeed() returns (card: WalletCard, listed: seq<WalletCard>)
    ensures card == WalletCard(4, "Discover", "**** 0000", 10.0)
    ensures |listed| == 4 && listed[..3] == Seed() && listed[3] == card
  {
    var store := new WalletCardStore();
    card := store.AddWalletCard(CardFields("Discover", "**** 0000", 10.0));
    listed := store.GetWalletCards();
  }

  /** Deleting id 2 from the seeded store leaves the cards with ids 1 and 3. */
  method DeleteFromSeed() returns (r: Outcome, listed: seq<WalletCard>)
    ensures r == Done
    ensures listed == [Seed()[0], Seed()[2]] && Ids(listed) == [1, 3]
  {
    var store := new WalletCardStore();
    assert store.cards[1].id == 2;
    r := store.DeleteWalletCard(2);
    listed := store.GetWalletCards();
  }

  /** Updating an id the seeded store lacks is rejected and leaves the seed. */
  method UpdateMissingInSeed() returns (r: Result<WalletCard>, listed: seq<WalletCard>)
    ensures r == Err(CardNotFound)
    ensures listed == Seed()
  {
    var store := new WalletCardStore();
    r := store.UpdateWalletCard(WalletCard(99, "Ghost", "**** 9999", 0.0));
    listed := store.GetWalletCards();
  }

  /** Deleting ids 1, 2 and 3 empties the seeded store; two adds then receive
      ids 1 and 2 (where the source as written gives both -Infinity). */
  method EmptySeedThenAddTwice(first: CardFields, second: CardFields)
    returns (emptied: seq<WalletCard>, refilled: seq<WalletCard>)
    ensures emptied == []
    ensures refilled == [WithId(1, first), WithId(2, second)]
    ensures Ids(refilled) == [1, 2]
  {
    var store := new WalletCardStore();
    assert store.cards[0].id == 1;
    var r := store.DeleteWalletCard(1);
    assert store.cards[0].id == 2;
    r := store.DeleteWalletCard(2);
    assert store.cards[0].id == 3;
    r := store.DeleteWalletCard(3);
    emptied := store.GetWalletCards();
    var a := store.AddWalletCard(first);
    var b := store.AddWalletCard(second);
    refilled := store.GetWalletCards();
  }

  /** Two successive adds receive strictly increasing ids, both fresh. */
  method AddTwice(store: WalletCardStore, first: CardFields, second: CardFields)
    returns (a: WalletCard, b: WalletCard)
    requires store.Valid()
    modifies store
    ensures store.Valid()
    ensures a.id < b.id
    ensures !HasId(old(store.cards), a.id) && !HasId(old(store.cards), b.id)
    ensures store.cards == old(store.cards) + [a, b]
  {
    a := store.AddWalletCard(first);
    assert store.cards[|store.cards| - 1] == a;
    b := store.AddWalletCard(second);
  }
}
