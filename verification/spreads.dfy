/** The spread catalogue `TAROT_SPREADS` (main.py:234-286): each registered
    spread id names a layout with one position label per card. */
module Spreads {
  import opened Results

  /** A spread layout (the `TarotSpread` record of main.py:51-55). */
  datatype Spread = Spread(name: string, positions: seq<string>, description: string, cardCount: int)

  /** A layout whose stated card count is the number of its positions. */
  predicate WellFormed(s: Spread) {
    s.cardCount == |s.positions|
  }

  const SingleCard: Spread := Spread(
    "Single Card",
    ["Guidance"],
    "Simple single-card draw for quick guidance",
    1)

  const ThreeCard: Spread := Spread(
    "Past, Present, Future",
    ["Past/Foundation", "Present/Challenge", "Future/Outcome"],
    "Simple three-card spread for quick insight",
    3)

  const CelticCross: Spread := Spread(
    "Celtic Cross",
    ["Present Situation", "Challenge/Cross", "Distant Past/Foundation",
     "Recent Past", "Crown/Possible Outcome", "Immediate Future",
     "Your Approach", "External Influences", "Hopes and Fears", "Final Outcome"],
    "The most comprehensive spread, exploring all aspects of your situation",
    10)

  const TreeOfLife: Spread := Spread(
    "Tree of Life",
    ["Kether (Crown)", "Chokmah (Wisdom)", "Binah (Understanding)",
     "Chesed (Mercy)", "Geburah (Severity)", "Tiphareth (Beauty)",
     "Netzach (Victory)", "Hod (Glory)", "Yesod (Foundation)", "Malkuth (Kingdom)"],
    "Based on the Kabbalistic Tree of Life, providing deep spiritual insight",
    10)

  const GoldenDawnTemple: Spread := Spread(
    "Golden Dawn Temple",
    ["Present Situation", "Hidden Influences", "Past Foundations",
     "Future Possibilities", "Higher Guidance", "Practical Action",
     "Inner Wisdom", "External Forces", "Final Outcome"],
    "Sacred 9-card Golden Dawn spread using all available cards",
    9)

  const SevenPointedStar: Spread := Spread(
    "Seven-Pointed Star",
    ["Self", "Past", "Future", "Hidden Influences",
     "External Forces", "Hopes/Fears", "Final Outcome"],
    "Mystical 7-card spread for deep spiritual insight",
    7)

  /** `TAROT_SPREADS`: spread id to layout. */
  const TarotSpreads: map<string, Spread> := map[
    "single_card" := SingleCard,
    "three_card" := ThreeCard,
    "celtic_cross" := CelticCross,
    "tree_of_life" := TreeOfLife,
    "golden_dawn" := GoldenDawnTemple,
    "seven_pointed_star" := SevenPointedStar
  ]

  /** The registered spread ids and their card counts. */
  lemma CatalogueShape()
    ensures TarotSpreads.Keys ==
      {"single_card", "three_card", "celtic_cross", "tree_of_life", "golden_dawn", "seven_pointed_star"}
    ensures TarotSpreads["single_card"].cardCount == 1
    ensures TarotSpreads["three_card"].cardCount == 3
    ensures TarotSpreads["celtic_cross"].cardCount == 10
    ensures TarotSpreads["tree_of_life"].cardCount == 10
    ensures TarotSpreads["golden_dawn"].cardCount == 9
    ensures TarotSpreads["seven_pointed_star"].cardCount == 7
  {
  }

  /** Every registered spread lists one position per card, and asks for
      between 1 and 10 cards. */
  lemma CatalogueWellFormed(id: string)
    requires id in TarotSpreads
    ensures WellFormed(TarotSpreads[id])
    ensures 1 <= TarotSpreads[id].cardCount <= 10
  {
  }

  /** Lookup of a spread id, failing on an id that is not registered
      (create_reading's check at main.py:472-475). */
  function Resolve(id: string): (r: Result<Spread, Error>)
    ensures r.Success? <==> id in TarotSpreads
    ensures r.Success? ==> WellFormed(r.value) && 1 <= r.value.cardCount <= 10
    ensures r.Success? ==> r.value == TarotSpreads[id]
    ensures r.Failure? ==> r.error == UnknownSpread("Unknown spread type: " + id)
  {
    if id in TarotSpreads then
      CatalogueWellFormed(id);
      Success(TarotSpreads[id])
    else
      Failure(UnknownSpread("Unknown spread type: " + id))
  }
}
