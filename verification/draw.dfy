/** The draw engine, `draw_cards` (main.py:306-328), with its randomness made
    explicit: `picks` is the list `random.sample` returns, given as indices
    into the deck, and `coins[i]` is what `random.choice([True, False])`
    returns for the i-th drawn card. */
module Draw {
  import opened Results
  import opened Deck

  /** One entry of `draw_cards`' result: the card, its orientation flag, the
      meaning that applies and the orientation label. */
  datatype DrawnCard = DrawnCard(card: Card, reversed: bool, meaning: string, orientation: string)

  /** An entry whose label and meaning agree with its orientation flag. */
  predicate Consistent(d: DrawnCard) {
    && (d.orientation == "Reversed" <==> d.reversed)
    && (d.orientation == "Upright" <==> !d.reversed)
    && d.meaning == (if d.reversed then d.card.meaningReversed else d.card.meaningUpright)
  }

  /** The entry built for one sampled card (main.py:321-326). */
  function Orient(card: Card, reversed: bool): (d: DrawnCard)
    ensures d.card == card && d.reversed == reversed
    ensures Consistent(d)
  {
    DrawnCard(
      card,
      reversed,
      if reversed then card.meaningReversed else card.meaningUpright,
      if reversed then "Reversed" else "Upright")
  }

  /** The possible results of `random.sample` over `size` items: distinct
      indices, each within the population. */
  predicate IsSample(picks: seq<nat>, size: nat) {
    && (forall i :: 0 <= i < |picks| ==> picks[i] < size)
    && (forall i, j :: 0 <= i < j < |picks| ==> picks[i] != picks[j])
  }

  /** The request after main.py:311-312: a count above the deck size is
      lowered to the deck size; any other count is kept. */
  function ClampCount(count: int, size: nat): (k: int)
    ensures k <= size && k <= count
    ensures k == count || k == size
  {
    if count > size then size else count
  }

  /** No two entries hold cards of the same name. */
  predicate DistinctDraws(ds: seq<DrawnCard>) {
    forall i, j :: 0 <= i < j < |ds| ==> ds[i].card.name != ds[j].card.name
  }

  /** `draw_cards(count, include_reversed)` over `deck`. A negative count makes
      `random.sample` raise; any other count is clamped to the deck size and
      that many distinct cards are drawn, each with an orientation that is
      upright unless reversals are allowed and its coin says reversed. */
  function DrawCards(deck: seq<Card>, count: int, includeReversed: bool,
                     picks: seq<nat>, coins: seq<bool>): (r: Result<seq<DrawnCard>, Error>)
    requires IsSample(picks, |deck|)
    requires count >= 0 ==> |picks| == ClampCount(count, |deck|)
    requires |coins| >= |picks|
    ensures r.Failure? <==> count < 0
    ensures r.Failure? ==> r.error == NegativeSampleSize(count)
    ensures r.Success? ==> |r.value| <= |deck| && |r.value| <= count
    ensures r.Success? ==> |r.value| == count || |r.value| == |deck|
    ensures r.Success? ==> forall i :: 0 <= i < |r.value| ==>
      && r.value[i].card == deck[picks[i]]
      && r.value[i].card in deck
      && r.value[i].reversed == (includeReversed && coins[i])
      && Consistent(r.value[i])
    ensures r.Success? && !includeReversed ==> forall i :: 0 <= i < |r.value| ==>
      && !r.value[i].reversed
      && r.value[i].orientation == "Upright"
      && r.value[i].meaning == r.value[i].card.meaningUpright
    ensures r.Success? && DistinctNames(deck) ==> DistinctDraws(r.value)
  {
    if count < 0 then
      Failure(NegativeSampleSize(count))
    else
      Success(seq(|picks|, i requires 0 <= i < |picks| => Orient(deck[picks[i]], includeReversed && coins[i])))
  }
}
