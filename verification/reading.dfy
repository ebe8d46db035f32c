/** Reading creation, `create_reading` (main.py:467-513), without the HTTP
    layer and without saving the reading to disk: resolve the spread, draw
    its number of cards, render the interpretation, and name the reading. */
module Readings {
  import opened Results
  import opened Text
  import opened Deck
  import opened Spreads
  import opened Draw
  import opened Interpretation
  import opened ReadingIds

  /** The request fields that influence a reading (`ReadingRequest`,
      main.py:65-71); `deck_type`, `interpretation_style` and
      `user_birth_info` are accepted but never read. */
  datatype Request = Request(question: Option<string>, spreadType: string, includeReversed: bool)

  /** A completed reading (`TarotReading`, main.py:57-63). */
  datatype Reading = Reading(
    spreadType: string,
    question: Option<string>,
    cardsDrawn: seq<DrawnCard>,
    interpretation: string,
    timestamp: string,
    readingId: string)

  /** What one creation takes from the outside world: the sample and the coin
      flips of the draw, the local clock for the identifier, the UTC time in
      ISO-8601 form for the timestamp, and the random identifier suffix. */
  datatype Environment = Environment(
    picks: seq<nat>,
    coins: seq<bool>,
    clock: Stamp,
    utcTimestamp: string,
    suffix: nat)

  /** The outcomes the random sources and clocks can produce for `req`. */
  predicate Possible(req: Request, env: Environment) {
    && IsSample(env.picks, |FullDeck|)
    && (req.spreadType in TarotSpreads ==> |env.picks| == TarotSpreads[req.spreadType].cardCount)
    && |env.coins| >= |env.picks|
    && ValidStamp(env.clock)
    && ValidSuffix(env.suffix)
  }

  /** Drawing `card_count` cards for a registered spread never clamps and
      never fails: the deck holds more cards than any spread asks for. */
  lemma SpreadDrawExact(id: string, includeReversed: bool, picks: seq<nat>, coins: seq<bool>)
    requires id in TarotSpreads
    requires IsSample(picks, |FullDeck|)
    requires |picks| == TarotSpreads[id].cardCount
    requires |coins| >= |picks|
    ensures TarotSpreads[id].cardCount <= |FullDeck|
    ensures var r := DrawCards(FullDeck, TarotSpreads[id].cardCount, includeReversed, picks, coins);
      r.Success? && |r.value| == TarotSpreads[id].cardCount
  {
    CatalogueWellFormed(id);
    FullDeckSize();
  }

  /** `create_reading` up to the call to `save_reading`. An unregistered spread
      is rejected; a registered one yields a reading with exactly one distinct
      deck card per position of the spread, each consistently oriented
      (always upright when reversals are off), an interpretation that is the
      template rendered over the spread's positions, and the identifier made
      from the clock and the suffix. */
  function CreateReading(req: Request, env: Environment): (r: Result<Reading, Error>)
    requires Possible(req, env)
    ensures r.Failure? <==> req.spreadType !in TarotSpreads
    ensures r.Failure? ==> r.error == UnknownSpread("Unknown spread type: " + req.spreadType)
    ensures r.Success? ==>
      var spread := TarotSpreads[req.spreadType];
      var cards := r.value.cardsDrawn;
      && r.value.spreadType == req.spreadType
      && r.value.question == req.question
      && |cards| == spread.cardCount == |spread.positions|
      && DistinctDraws(cards)
      && (forall i :: 0 <= i < |cards| ==> cards[i].card in FullDeck && Consistent(cards[i]))
      && (!req.includeReversed ==> forall i :: 0 <= i < |cards| ==> cards[i].orientation == "Upright")
      && r.value.interpretation == Render(spread.positions, cards, req.question)
      && r.value.timestamp == env.utcTimestamp
      && r.value.readingId == ReadingId(env.clock, env.suffix)
  {
    var spread :- Resolve(req.spreadType);
    FullDeckSize();
    FullDeckDistinct();
    // A registered spread asks for between 1 and 17 cards, so the draw cannot
    // raise; with the spread registered, neither can the formatter.
    var cards := DrawCards(FullDeck, spread.cardCount, req.includeReversed, env.picks, env.coins).value;
    var text := AiInterpretation(cards, req.question, req.spreadType).value;
    Success(Reading(req.spreadType, req.question, cards, text,
                    env.utcTimestamp, ReadingId(env.clock, env.suffix)))
  }

  /** In a created reading, card `i` is described under its spread's `i`-th
      position name (the fallback label is never used): the text holds its
      block and names the card, its orientation, its meaning and its
      correspondence. */
  lemma ReadingDescribesCard(req: Request, env: Environment, i: nat)
    requires Possible(req, env)
    requires req.spreadType in TarotSpreads
    requires i < TarotSpreads[req.spreadType].cardCount
    ensures CreateReading(req, env).Success?
    ensures var reading := CreateReading(req, env).value;
      var positions := TarotSpreads[req.spreadType].positions;
      && i < |reading.cardsDrawn|
      && i < |positions|
      && PositionLabel(positions, i) == positions[i]
      && DescribesCard(reading.interpretation, positions, reading.cardsDrawn, req.question, i)
  {
    var reading := CreateReading(req, env).value;
    var positions := TarotSpreads[req.spreadType].positions;
    assert reading.interpretation == Render(positions, reading.cardsDrawn, req.question);
    RenderDescribesCard(positions, reading.cardsDrawn, req.question, i);
  }

  /** A created reading's text opens with "Reading for: " and the question,
      or the default subject when there is none. */
  lemma ReadingOpensWithSubject(req: Request, env: Environment)
    requires Possible(req, env)
    requires req.spreadType in TarotSpreads
    ensures CreateReading(req, env).Success?
    ensures OccursAt(CreateReading(req, env).value.interpretation,
                     "Reading for: " + Subject(req.question) + "\n\n", 0)
  {
    var reading := CreateReading(req, env).value;
    RenderFrame(TarotSpreads[req.spreadType].positions, reading.cardsDrawn, req.question);
  }

  /** A three-card reading without a question and without reversals: three
      upright cards, a text that opens with the default subject and names all
      three cards. */
  lemma ThreeCardUprightReading(env: Environment)
    requires Possible(Request(None, "three_card", false), env)
    ensures var r := CreateReading(Request(None, "three_card", false), env);
      && r.Success?
      && |r.value.cardsDrawn| == 3
      && (forall i :: 0 <= i < 3 ==> r.value.cardsDrawn[i].orientation == "Upright")
      && OccursAt(r.value.interpretation, "Reading for: General guidance\n\n", 0)
      && (forall i :: 0 <= i < 3 ==> Contains(r.value.interpretation, r.value.cardsDrawn[i].card.name))
  {
    var req := Request(None, "three_card", false);
    CatalogueShape();
    var reading := CreateReading(req, env).value;
    ReadingOpensWithSubject(req, env);
    DefaultHeader(None);
    forall i | 0 <= i < 3
      ensures Contains(reading.interpretation, reading.cardsDrawn[i].card.name)
    {
      ReadingDescribesCard(req, env, i);
    }
  }
}
