/** Id assignment exactly as `addWalletCard` computes it, `Math.max(...ids) + 1`,
    including the store with no cards, where `Math.max()` is -Infinity. */
module AsWrittenIds {
  import opened WalletCardModel

  /** The values ids take under the source's arithmetic when every seeded id is
      an integer: an integer, or -Infinity. */
  datatype JsNumber = Finite(value: int) | NegInfinity

  predicate AtMost(x: JsNumber, y: JsNumber)
  {
    x.NegInfinity? || (y.Finite? && x.value <= y.value)
  }

  /** `Math.max(...xs)`: -Infinity for no arguments. */
  function JsMax(xs: seq<JsNumber>): (m: JsNumber)
    ensures forall i :: 0 <= i < |xs| ==> AtMost(xs[i], m)
    ensures m == NegInfinity || exists i :: 0 <= i < |xs| && xs[i] == m
    ensures xs == [] ==> m == NegInfinity
  {
    if xs == [] then NegInfinity
    else
      var rest := JsMax(xs[1..]);
      if AtMost(rest, xs[0]) then xs[0] else rest
  }

  /** `x + 1`; -Infinity stays -Infinity. */
  function PlusOne(x: JsNumber): JsNumber
  {
    match x
    case Finite(n) => Finite(n + 1)
    case NegInfinity => NegInfinity
  }

  function AsWrittenNextId(ids: seq<JsNumber>): JsNumber
  {
    PlusOne(JsMax(ids))
  }

  /** The ids of the store after one `addWalletCard` as written. */
  function AsWrittenAdd(ids: seq<JsNumber>): seq<JsNumber>
  {
    ids + [AsWrittenNextId(ids)]
  }

  function Lift(ids: seq<int>): seq<JsNumber>
  {
    seq(|ids|, i requires 0 <= i < |ids| => Finite(ids[i]))
  }

  /** On a store that holds at least one card, the source's id and the
      corrected NextId are the same number. */
  lemma {:induction false} AsWrittenAgreesWhenNonEmpty(cards: seq<WalletCard>)
    requires |cards| > 0
    ensures AsWrittenNextId(Lift(Ids(cards))) == Finite(NextId(cards))
  {
    var ids := Ids(cards);
    MaxLifts(ids);
    assert forall i :: 0 <= i < |cards| ==> cards[i].id == ids[i];
  }

  lemma {:induction false} MaxLifts(ids: seq<int>)
    requires |ids| > 0
    ensures JsMax(Lift(ids)) == Finite(Max(ids))
  {
    if |ids| > 1 {
      assert Lift(ids)[1..] == Lift(ids[1..]);
      MaxLifts(ids[1..]);
    } else {
      assert Lift(ids)[1..] == [];
    }
  }

  /** Once every card has been deleted, two adds as written both assign
      -Infinity, so the store then holds two cards with the same id. */
  lemma EmptiedStoreRepeatsId()
    ensures AsWrittenAdd([]) == [NegInfinity]
    ensures AsWrittenAdd(AsWrittenAdd([])) == [NegInfinity, NegInfinity]
  {
  }

  /** The corrected assignment on the same run: ids 1 then 2, both fresh. */
  lemma CorrectedEmptiedStoreIds(a: CardFields, b: CardFields)
    ensures NextId([]) == 1
    ensures NextId([WithId(1, a)]) == 2
    ensures IdsAscending([WithId(1, a), WithId(2, b)])
  {
  }
}
