# Wallet card store

This models the in-memory card store of a React Native wallet app. The store
lives in `src/api/FakeWalletCardApi.ts` and is a module-level array of wallet
cards, seeded with three cards whose ids are 1, 2 and 3. Four operations act on it:

- `getWalletCards` returns a copy of every card, in store order.
- `addWalletCard` gives the new card the id `max(ids) + 1` and appends it.
- `updateWalletCard` replaces the first card with the same id. If no card has that id, it is rejected with "Card not found".
- `deleteWalletCard` removes the first card with the given id. If no card has that id, it is rejected with "Card not found".

The Dafny project has three modules:

- `WalletCardModel` (`wallet_card.dfy`) holds the pure layer:
  - the card record (`WalletCard`) and the fields a caller passes to add (`CardFields`);
  - the error `CardNotFound`, with the `Result` and `Outcome` types that carry it;
  - the seed;
  - `Math.max` over the ids (`Max`), the id to assign next (`NextId`) and `findIndex` (`FindIndex`);
  - the store invariant `IdsAscending`: every id is positive and ids strictly increase in store order, so they are unique;
  - lemmas proving that appending, replacing and removing keep that invariant.
- `FakeWalletCardApi` (`fake_wallet_card_api.dfy`) holds the class `WalletCardStore`:
  - its field `cards: seq<WalletCard>` stands for the module-level array;
  - it has one method per operation; each one states its whole new state in terms of the old one, on the success path and on the failure path;
  - it also holds the concrete scenarios on the seeded store, as methods with contracts.
- `AsWrittenIds` (`as_written_ids.dfy`) computes ids exactly as the source does, including when the store is empty (see Findings).

The store object starts from the seed and keeps `Valid()` (the invariant above) across every operation.

## Model

| member | source | states |
|---|---|---|
| WalletCardModel.Seed | src/api/FakeWalletCardApi.ts:3-7 | the three seeded cards with ids 1, 2, 3, their names, masked numbers and balances |
| WalletCardModel.WithId | src/api/FakeWalletCardApi.ts:22 | the card `{ id: newId, ...card }`: the given id with the caller's name, number and balance |
| WalletCardModel.Ids | src/api/FakeWalletCardApi.ts:20 | `walletCards.map(c => c.id)`: the ids of the cards in store order |
| WalletCardModel.Max | src/api/FakeWalletCardApi.ts:20 | the result is at least every id given and is one of them (`Math.max` over a non-empty list) |
| WalletCardModel.NextId | src/api/FakeWalletCardApi.ts:20 | the new id is larger than every present id and equals one more than some present id; on an empty store it is 1 (corrected, see Findings) |
| WalletCardModel.FindIndex | src/api/FakeWalletCardApi.ts:31 | the result is -1 exactly when no card has the id; otherwise the card at the result has the id and no earlier card does (`findIndex`, also used at line 45) |
| WalletCardModel.AscendingIsUnique | src/api/FakeWalletCardApi.ts:3-7 | the store invariant implies that no two cards share an id |
| WalletCardModel.FindIndexOfPresentId | src/api/FakeWalletCardApi.ts:31 | with unique ids, looking up the id of the card at position k finds position k |
| WalletCardModel.SeedIsAscending | src/api/FakeWalletCardApi.ts:3-7 | the seed satisfies the invariant and its ids are 1, 2, 3 |
| WalletCardModel.AppendKeepsAscending | src/api/FakeWalletCardApi.ts:20-23 | appending a card whose positive id is larger than every present id keeps the invariant and extends the ids by exactly that id |
| WalletCardModel.ReplaceKeepsAscending | src/api/FakeWalletCardApi.ts:31-34 | replacing a card by one with the same id keeps the invariant and leaves the id list unchanged |
| WalletCardModel.RemoveKeepsAscending | src/api/FakeWalletCardApi.ts:45-47 | removing one card keeps the invariant, and no card with the removed id remains |
| FakeWalletCardApi.WalletCardStore.constructor | src/api/FakeWalletCardApi.ts:3-7 | the store starts out holding the seed, and the invariant holds |
| FakeWalletCardApi.WalletCardStore.GetWalletCards | src/api/FakeWalletCardApi.ts:11-14 | the result equals the store contents in the same order, and nothing is modified |
| FakeWalletCardApi.WalletCardStore.AddWalletCard | src/api/FakeWalletCardApi.ts:16-26 | the returned card carries the caller's name, number and balance and the next id, which is larger than every earlier id; the store is the old store with exactly that card appended; the invariant is kept |
| FakeWalletCardApi.WalletCardStore.UpdateWalletCard | src/api/FakeWalletCardApi.ts:28-40 | succeeds exactly when the id is present; then returns the argument, and the store is the old store with the argument at the matching index and nothing else changed; otherwise rejects with CardNotFound and leaves the store unchanged; ids and the invariant are kept either way |
| FakeWalletCardApi.WalletCardStore.DeleteWalletCard | src/api/FakeWalletCardApi.ts:42-53 | succeeds exactly when the id is present; then the store is the old store with the matching card cut out, the rest in the same order, one shorter, and no card with that id remains; otherwise rejects with CardNotFound and leaves the store unchanged |
| FakeWalletCardApi.AddToSeed | src/api/FakeWalletCardApi.ts:16-26 | adding "Discover" to the seeded store returns id 4, and the list then has four cards: the seed followed by the new card |
| FakeWalletCardApi.DeleteFromSeed | src/api/FakeWalletCardApi.ts:42-53 | deleting id 2 from the seeded store succeeds, and the list then holds the cards with ids 1 and 3 |
| FakeWalletCardApi.UpdateMissingInSeed | src/api/FakeWalletCardApi.ts:28-40 | updating id 99 on the seeded store rejects with CardNotFound, and the list is still the seed |
| FakeWalletCardApi.EmptySeedThenAddTwice | src/api/FakeWalletCardApi.ts:16-53 | deleting ids 1, 2 and 3 from the seeded store leaves it empty, and two adds then list cards with ids 1 and 2 carrying the callers' fields (the input of the finding below, on the corrected model) |
| FakeWalletCardApi.AddTwice | src/api/FakeWalletCardApi.ts:20-23 | two successive adds get strictly increasing ids that were both absent before, appended in order |
| AsWrittenIds.JsMax | src/api/FakeWalletCardApi.ts:20 | `Math.max` over ids that may be -Infinity: it is at least every argument and is one of them or -Infinity; with no arguments it is -Infinity |
| AsWrittenIds.PlusOne | src/api/FakeWalletCardApi.ts:20 | `x + 1` on the source's numbers: an integer grows by one, -Infinity stays -Infinity |
| AsWrittenIds.AsWrittenNextId | src/api/FakeWalletCardApi.ts:20 | `Math.max(...ids) + 1` exactly as written, -Infinity on an empty store |
| AsWrittenIds.AsWrittenAdd | src/api/FakeWalletCardApi.ts:20-23 | the store's ids after `push` of a card with the as-written new id |
| AsWrittenIds.MaxLifts | src/api/FakeWalletCardApi.ts:20 | over integer ids, `Math.max` agrees with Max |
| AsWrittenIds.AsWrittenAgreesWhenNonEmpty | src/api/FakeWalletCardApi.ts:20 | on a non-empty store, the source's id computation gives exactly the corrected NextId |
| AsWrittenIds.EmptiedStoreRepeatsId | src/api/FakeWalletCardApi.ts:20-23 | on an emptied store, two adds as written give both cards the id -Infinity |
| AsWrittenIds.CorrectedEmptiedStoreIds | src/api/FakeWalletCardApi.ts:20-23 | on an emptied store, the corrected ids are 1 and then 2, and the invariant holds |

## Left out

- The `setTimeout`/`Promise` wrapper and `FAKE_DELAY` (src/api/FakeWalletCardApi.ts:9): each operation completes at once and returns its result directly. A rejection becomes `Err(CardNotFound)` or `Failed(CardNotFound)`.
- Interleaving of in-flight operations is left out, including two pending adds that compute the same id. The model is sequential.
- FakeWalletCardApi.WalletCardStore.AddWalletCard: on an empty store it assigns id 1, where the source assigns -Infinity. The source's behaviour is modelled separately in `AsWrittenIds` (see Findings).
- `balance` is a `real` that is stored and returned but never computed with. IEEE double rounding, `toFixed` display and NaN are left out. The store keeps a NaN balance unchanged; one can arrive when the balance text is "." or "-", which passes the empty-field check (src/screens/CardDetailScreen.tsx:19) and parses to NaN (src/screens/CardDetailScreen.tsx:30, 37). No store behaviour depends on it.
- Ids are unbounded integers. JavaScript's loss of integer precision above 2^53 is left out.
- Cards are immutable values, so the store never shares a card object with a caller. The source shares them in three places. `getWalletCards` makes only a shallow copy (`[...walletCards]`). `addWalletCard` pushes the new object and resolves with that same object (src/api/FakeWalletCardApi.ts:23-24). `updateWalletCard` stores the caller's own object and resolves with it (src/api/FakeWalletCardApi.ts:34-35). A caller that later mutates any of these objects changes the stored card. That aliasing is left out.
- `CardFields` has no `id`. The source spreads the caller's object after `id: newId`, so an object carrying an extra `id` property would override the new id. The only caller passes just the three fields, so this case is left out.
- The screens (src/screens/CardListScreen.tsx, src/screens/CardDetailScreen.tsx) and App.tsx are left out. They hold only React state, navigation, alerts, `parseFloat` of the balance, and the empty-field check, which never reaches the store.

## Findings

| source | as written | input that shows it | evidently intended | confidence | as-written member | corrected member |
|---|---|---|---|---|---|---|
| src/api/FakeWalletCardApi.ts:20 | `Math.max(...ids) + 1` with no case for an empty store; `Math.max()` is -Infinity | delete ids 1, 2 and 3 from the seeded store (FakeWalletCardApi.EmptySeedThenAddTwice shows this empties it), then add two cards: both get id -Infinity, so ids are no longer unique | a fresh positive id even when the store is empty (start at 1), so that ids stay unique positive integers | medium, not executed | AsWrittenIds.EmptiedStoreRepeatsId | WalletCardModel.NextId |

`AsWrittenIds.AsWrittenAgreesWhenNonEmpty` proves that the corrected `NextId`
differs from the source only on the empty store.
