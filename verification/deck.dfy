/** The card catalogue: the card record, the categories of the Golden Dawn
    deck as main.py:74-231 defines them (13 major arcana and the four aces;
    the remaining cards are placeholders in comments there), and
    `get_all_cards`, which lays the categories end to end. */
module Deck {
  import opened Results

  /** A tarot card (the `TarotCard` record of main.py:39-49). */
  datatype Card = Card(
    name: string,
    number: Option<int>,
    suit: Option<string>,
    element: Option<string>,
    meaningUpright: string,
    meaningReversed: string,
    goldenDawnCorrespondence: string,
    hebrewLetter: Option<string>,
    astrologicalCorrespondence: Option<string>,
    treeOfLifePath: Option<int>)

  /** One entry of the deck dictionary: its key and its list of cards. */
  datatype Category = Category(key: string, cards: seq<Card>)

  /** Number of cards over all categories. */
  function TotalCards(deck: seq<Category>): nat
  {
    if |deck| == 0 then 0 else TotalCards(deck[..|deck| - 1]) + |deck[|deck| - 1].cards|
  }

  /** `get_all_cards`: the categories' card lists, one after the other, in
      dictionary order. */
  function AllCards(deck: seq<Category>): (all: seq<Card>)
    ensures |all| == TotalCards(deck)
  {
    if |deck| == 0 then [] else AllCards(deck[..|deck| - 1]) + deck[|deck| - 1].cards
  }

  /** Card `k` of category `j` is found in the flattened deck right after the
      cards of all earlier categories. */
  lemma {:induction false} AllCardsIndex(deck: seq<Category>, j: nat, k: nat)
    requires j < |deck| && k < |deck[j].cards|
    ensures TotalCards(deck[..j]) + k < |AllCards(deck)|
    ensures AllCards(deck)[TotalCards(deck[..j]) + k] == deck[j].cards[k]
  {
    var n := |deck| - 1;
    var init := deck[..n];
    if j < n {
      assert init[j] == deck[j] && init[..j] == deck[..j];
      AllCardsIndex(init, j, k);
    } else {
      assert deck[..j] == init;
    }
  }

  /** A card is in the flattened deck exactly when some category holds it. */
  lemma {:induction false} AllCardsMembership(deck: seq<Category>, c: Card)
    ensures c in AllCards(deck) <==> exists j :: 0 <= j < |deck| && c in deck[j].cards
  {
    if |deck| > 0 {
      var n := |deck| - 1;
      var init := deck[..n];
      AllCardsMembership(init, c);
      if c in AllCards(deck) {
        if c in AllCards(init) {
          var j :| 0 <= j < |init| && c in init[j].cards;
          assert deck[j] == init[j];
        } else {
          assert c in deck[n].cards;
        }
      }
      if exists j :: 0 <= j < |deck| && c in deck[j].cards {
        var j :| 0 <= j < |deck| && c in deck[j].cards;
        if j < n {
          assert init[j] == deck[j];
        }
      }
    }
  }

  /** No two cards share a name (and hence no card appears twice). */
  predicate DistinctNames(cards: seq<Card>) {
    forall i, j :: 0 <= i < j < |cards| ==> cards[i].name != cards[j].name
  }

  // ---------------------------------------------------------------------------
  // GOLDEN_DAWN_DECK
  // ---------------------------------------------------------------------------

  const TheFool := Card(
    name := "The Fool", number := Some(0), suit := None, element := Some("Air"),
    meaningUpright := "New beginnings, innocence, spontaneity, free spirit",
    meaningReversed := "Recklessness, taken advantage of, inconsistency, foolishness",
    goldenDawnCorrespondence := "Path of Aleph, Air element, Uranus",
    hebrewLetter := Some("Aleph"), astrologicalCorrespondence := Some("Uranus"), treeOfLifePath := Some(11))

  const TheMagician := Card(
    name := "The Magician", number := Some(1), suit := None, element := Some("Air"),
    meaningUpright := "Manifestation, resourcefulness, power, inspired action",
    meaningReversed := "Manipulation, poor planning, untapped talents",
    goldenDawnCorrespondence := "Path of Beth, Mercury, Magus of Power",
    hebrewLetter := Some("Beth"), astrologicalCorrespondence := Some("Mercury"), treeOfLifePath := Some(12))

  const TheHighPriestess := Card(
    name := "The High Priestess", number := Some(2), suit := None, element := Some("Water"),
    meaningUpright := "Intuition, sacred knowledge, divine feminine, subconscious mind",
    meaningReversed := "Secrets, disconnected from intuition, withdrawal",
    goldenDawnCorrespondence := "Path of Gimel, Moon, Priestess of Silver Star",
    hebrewLetter := Some("Gimel"), astrologicalCorrespondence := Some("Moon"), treeOfLifePath := Some(13))

  const TheEmpress := Card(
    name := "The Empress", number := Some(3), suit := None, element := Some("Earth"),
    meaningUpright := "Femininity, beauty, nature, nurturing, abundance",
    meaningReversed := "Creative block, dependence on others, smothering",
    goldenDawnCorrespondence := "Path of Daleth, Venus, Daughter of Mighty Ones",
    hebrewLetter := Some("Daleth"), astrologicalCorrespondence := Some("Venus"), treeOfLifePath := Some(14))

  const TheEmperor := Card(
    name := "The Emperor", number := Some(4), suit := None, element := Some("Fire"),
    meaningUpright := "Authority, establishment, structure, father figure",
    meaningReversed := "Domination, excessive control, lack of discipline",
    goldenDawnCorrespondence := "Path of Heh, Aries, Son of Morning",
    hebrewLetter := Some("Heh"), astrologicalCorrespondence := Some("Aries"), treeOfLifePath := Some(15))

  const TheHierophant := Card(
    name := "The Hierophant", number := Some(5), suit := None, element := Some("Earth"),
    meaningUpright := "Spiritual wisdom, religious beliefs, conformity, tradition",
    meaningReversed := "Personal beliefs, freedom, challenging the status quo",
    goldenDawnCorrespondence := "Path of Vav, Taurus, Magus of Eternal",
    hebrewLetter := Some("Vav"), astrologicalCorrespondence := Some("Taurus"), treeOfLifePath := Some(16))

  const TheLovers := Card(
    name := "The Lovers", number := Some(6), suit := None, element := Some("Air"),
    meaningUpright := "Love, harmony, relationships, values alignment",
    meaningReversed := "Disharmony, imbalance, misaligned values",
    goldenDawnCorrespondence := "Path of Zayin, Gemini, Children of Voice",
    hebrewLetter := Some("Zayin"), astrologicalCorrespondence := Some("Gemini"), treeOfLifePath := Some(17))

  const TheChariot := Card(
    name := "The Chariot", number := Some(7), suit := None, element := Some("Water"),
    meaningUpright := "Control, willpower, success, determination",
    meaningReversed := "Self-discipline, opposition, lack of direction",
    goldenDawnCorrespondence := "Path of Cheth, Cancer, Child of Powers of Waters",
    hebrewLetter := Some("Cheth"), astrologicalCorrespondence := Some("Cancer"), treeOfLifePath := Some(18))

  const Strength := Card(
    name := "Strength", number := Some(8), suit := None, element := Some("Fire"),
    meaningUpright := "Strength, courage, persuasion, influence, compassion",
    meaningReversed := "Self-doubt, low energy, raw emotion",
    goldenDawnCorrespondence := "Path of Teth, Leo, Daughter of Flaming Sword",
    hebrewLetter := Some("Teth"), astrologicalCorrespondence := Some("Leo"), treeOfLifePath := Some(19))

  const TheHermit := Card(
    name := "The Hermit", number := Some(9), suit := None, element := Some("Earth"),
    meaningUpright := "Soul searching, introspection, inner guidance",
    meaningReversed := "Isolation, loneliness, withdrawal",
    goldenDawnCorrespondence := "Path of Yod, Virgo, Magus of Voice of Light",
    hebrewLetter := Some("Yod"), astrologicalCorrespondence := Some("Virgo"), treeOfLifePath := Some(20))

  const WheelOfFortune := Card(
    name := "Wheel of Fortune", number := Some(10), suit := None, element := Some("Fire"),
    meaningUpright := "Good luck, karma, life cycles, destiny, turning point",
    meaningReversed := "Bad luck, lack of control, clinging to control",
    goldenDawnCorrespondence := "Path of Kaph, Jupiter, Lord of Forces of Life",
    hebrewLetter := Some("Kaph"), astrologicalCorrespondence := Some("Jupiter"), treeOfLifePath := Some(21))

  const Justice := Card(
    name := "Justice", number := Some(11), suit := None, element := Some("Air"),
    meaningUpright := "Justice, fairness, truth, cause and effect, law",
    meaningReversed := "Unfairness, lack of accountability, dishonesty",
    goldenDawnCorrespondence := "Path of Lamed, Libra, Daughter of Lords of Truth",
    hebrewLetter := Some("Lamed"), astrologicalCorrespondence := Some("Libra"), treeOfLifePath := Some(22))

  const TheHangedMan := Card(
    name := "The Hanged Man", number := Some(12), suit := None, element := Some("Water"),
    meaningUpright := "Suspension, restriction, letting go, sacrifice",
    meaningReversed := "Martyrdom, indecision, delay",
    goldenDawnCorrespondence := "Path of Mem, Water, Spirit of Mighty Waters",
    hebrewLetter := Some("Mem"), astrologicalCorrespondence := Some("Neptune"), treeOfLifePath := Some(23))

  const AceOfWands := Card(
    name := "Ace of Wands", number := Some(1), suit := Some("Wands"), element := Some("Fire"),
    meaningUpright := "Inspiration, new opportunities, growth",
    meaningReversed := "Lack of energy, lack of passion, boredom",
    goldenDawnCorrespondence := "Root of Fire, Kether in Fire",
    hebrewLetter := None, astrologicalCorrespondence := None, treeOfLifePath := Some(1))

  const AceOfCups := Card(
    name := "Ace of Cups", number := Some(1), suit := Some("Cups"), element := Some("Water"),
    meaningUpright := "Love, new relationships, compassion, creativity",
    meaningReversed := "Self-love, intuition, repressed emotions",
    goldenDawnCorrespondence := "Root of Water, Kether in Water",
    hebrewLetter := None, astrologicalCorrespondence := None, treeOfLifePath := Some(1))

  const AceOfSwords := Card(
    name := "Ace of Swords", number := Some(1), suit := Some("Swords"), element := Some("Air"),
    meaningUpright := "New ideas, mental clarity, breakthrough",
    meaningReversed := "Inner clarity, re-thinking an idea, clouded judgment",
    goldenDawnCorrespondence := "Root of Air, Kether in Air",
    hebrewLetter := None, astrologicalCorrespondence := None, treeOfLifePath := Some(1))

  const AceOfPentacles := Card(
    name := "Ace of Pentacles", number := Some(1), suit := Some("Pentacles"), element := Some("Earth"),
    meaningUpright := "New financial opportunity, manifestation, abundance",
    meaningReversed := "Lost opportunity, lack of planning, poor financial decisions",
    goldenDawnCorrespondence := "Root of Earth, Kether in Earth",
    hebrewLetter := None, astrologicalCorrespondence := None, treeOfLifePath := Some(1))

  /** `GOLDEN_DAWN_DECK`, in definition order. */
  const GoldenDawnDeck: seq<Category> := [
    Category("major_arcana", [
      TheFool, TheMagician, TheHighPriestess, TheEmpress, TheEmperor, TheHierophant,
      TheLovers, TheChariot, Strength, TheHermit, WheelOfFortune, Justice, TheHangedMan]),
    Category("wands", [AceOfWands]),
    Category("cups", [AceOfCups]),
    Category("swords", [AceOfSwords]),
    Category("pentacles", [AceOfPentacles])
  ]

  /** The deck every draw samples from: `get_all_cards()` on `GOLDEN_DAWN_DECK`. */
  const FullDeck: seq<Card> := AllCards(GoldenDawnDeck)

  /** The cards of `GOLDEN_DAWN_DECK` in definition order. */
  const DeckList: seq<Card> := [
    TheFool, TheMagician, TheHighPriestess, TheEmpress, TheEmperor, TheHierophant,
    TheLovers, TheChariot, Strength, TheHermit, WheelOfFortune, Justice, TheHangedMan,
    AceOfWands, AceOfCups, AceOfSwords, AceOfPentacles]

  /** The flattened Golden Dawn deck: 13 major arcana then the four aces, 17 cards. */
  lemma FullDeckContents()
    ensures FullDeck == DeckList
    ensures |FullDeck| == 17
  {
    var d := GoldenDawnDeck;
    assert d[..4] == d[..5][..4] && d[..3] == d[..4][..3];
    assert d[..2] == d[..3][..2] && d[..1] == d[..2][..1] && d[..0] == d[..1][..0];
    assert AllCards(d[..1]) == d[0].cards;
    assert AllCards(d[..2]) == d[0].cards + d[1].cards;
    assert AllCards(d[..3]) == d[0].cards + d[1].cards + d[2].cards;
    assert AllCards(d[..4]) == d[0].cards + d[1].cards + d[2].cards + d[3].cards;
    assert d[..5] == d;
  }

  /** The Golden Dawn deck holds 17 cards. */
  lemma FullDeckSize()
    ensures |FullDeck| == 17
  {
    FullDeckContents();
  }

  /** No card name repeats in the Golden Dawn deck. */
  lemma FullDeckDistinct()
    ensures DistinctNames(FullDeck)
  {
    FullDeckContents();
  }
}
