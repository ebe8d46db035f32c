/** The template interpretation: `_generate_basic_interpretation`
    (main.py:396-413) and the live path of `get_ai_interpretation`
    (main.py:330-334, 392-394), which returns the template's text. */
module Interpretation {
  import opened Results
  import opened Text
  import opened Spreads
  import opened Draw

  /** Python's `question or 'General guidance'`: a missing or empty question
      falls back to the default subject. */
  function Subject(question: Option<string>): string {
    if question.None? || question.value == "" then "General guidance" else question.value
  }

  /** The first line and the blank line after it. */
  function Header(question: Option<string>): string {
    "Reading for: " + Subject(question) + "\n\n"
  }

  /** The fixed closing paragraph appended after the last card. */
  const Closing: string :=
    "\nThis reading suggests a journey through the archetypes and energies represented by these sacred symbols. Consider how each card's energy applies to your current situation and the guidance it offers for your path forward."

  /** The label of card `i`: the spread's own position name when it has one,
      otherwise the synthesized "Position {i+1}". */
  function PositionLabel(positions: seq<string>, i: nat): (caption: string)
    ensures i < |positions| ==> caption == positions[i]
    ensures i >= |positions| ==>
      && |caption| > 9
      && caption[..9] == "Position "
      && AllDigits(caption[9..])
      && ParseDigits(caption[9..]) == i + 1
      && caption[9] != '0'
  {
    if i < |positions| then positions[i]
    else
      var caption := "Position " + NatToString(i + 1);
      assert caption[9..] == NatToString(i + 1);
      caption
  }

  /** The text one iteration of the loop appends for one card. */
  function Block(caption: string, d: DrawnCard): string {
    "\n" + caption + ": " + d.card.name + " (" + d.orientation + ")\n"
      + d.meaning + "\nGolden Dawn: " + d.card.goldenDawnCorrespondence + "\n\n"
  }

  /** The text the loop has appended once it has visited `cards`. */
  function Blocks(positions: seq<string>, cards: seq<DrawnCard>): string {
    if |cards| == 0 then ""
    else Blocks(positions, cards[..|cards| - 1])
         + Block(PositionLabel(positions, |cards| - 1), cards[|cards| - 1])
  }

  /** The text before the final `strip()`. */
  function Render(positions: seq<string>, cards: seq<DrawnCard>, question: Option<string>): string {
    Header(question) + Blocks(positions, cards) + Closing
  }

  /** The positions of a registered spread; `TAROT_SPREADS` is only consulted
      inside the loop, so an empty draw never looks the spread up. */
  function PositionsOf(spreadType: string): seq<string> {
    if spreadType in TarotSpreads then TarotSpreads[spreadType].positions else []
  }

  /** `_generate_basic_interpretation(cards, question, spread_type)`. Looking
      up an unregistered spread raises `KeyError`, which only happens when
      there is at least one card. Otherwise the text is the rendered template,
      and the final `strip()` leaves it as it is. */
  function BasicInterpretation(cards: seq<DrawnCard>, question: Option<string>, spreadType: string)
    : (r: Result<string, Error>)
    ensures r.Failure? <==> |cards| > 0 && spreadType !in TarotSpreads
    ensures r.Failure? ==> r.error == MissingSpread(spreadType)
    ensures r.Success? ==> r.value == Render(PositionsOf(spreadType), cards, question)
  {
    if |cards| > 0 && spreadType !in TarotSpreads then
      Failure(MissingSpread(spreadType))
    else
      var text := Render(PositionsOf(spreadType), cards, question);
      assert text[0] == 'R';
      assert text[|text| - 1] == Closing[|Closing| - 1] == '.';
      StripUnframed(text);
      Success(Strip(text))
  }

  /** `get_ai_interpretation` as it runs: it returns the template's text, and
      when the template raises, its `except` handler calls the template again,
      which raises the same error out of the handler. */
  function AiInterpretation(cards: seq<DrawnCard>, question: Option<string>, spreadType: string)
    : (r: Result<string, Error>)
    ensures r == BasicInterpretation(cards, question, spreadType)
    ensures r.Success? <==> |cards| == 0 || spreadType in TarotSpreads
  {
    match BasicInterpretation(cards, question, spreadType)
    case Success(text) => Success(text)
    case Failure(_) => BasicInterpretation(cards, question, spreadType)
  }

  // ---------------------------------------------------------------------------
  // Layout of the text
  // ---------------------------------------------------------------------------

  /** The blocks of the first `i` cards are a prefix of the blocks of all
      cards: later iterations only append. */
  lemma {:induction false} BlocksPrefix(positions: seq<string>, cards: seq<DrawnCard>, i: nat)
    requires i <= |cards|
    ensures Blocks(positions, cards[..i]) <= Blocks(positions, cards)
  {
    if i < |cards| {
      var init := cards[..|cards| - 1];
      assert init[..i] == cards[..i];
      BlocksPrefix(positions, init, i);
    } else {
      assert cards[..i] == cards;
    }
  }

  /** Card `i`'s block starts right after the blocks of the cards before it. */
  lemma BlockAt(positions: seq<string>, cards: seq<DrawnCard>, i: nat)
    requires i < |cards|
    ensures OccursAt(Blocks(positions, cards), Block(PositionLabel(positions, i), cards[i]),
                     |Blocks(positions, cards[..i])|)
  {
    var upto := cards[..i + 1];
    assert upto[..i] == cards[..i] && upto[i] == cards[i];
    BlocksPrefix(positions, cards, i + 1);
  }

  /** The rendered text opens with the header and ends with the closing
      paragraph, whatever the cards. */
  lemma RenderFrame(positions: seq<string>, cards: seq<DrawnCard>, question: Option<string>)
    ensures var text := Render(positions, cards, question);
      && OccursAt(text, Header(question), 0)
      && OccursAt(text, Closing, |text| - |Closing|)
  {
    var text := Render(positions, cards, question);
    assert text[..|Header(question)|] == Header(question);
    assert text[|text| - |Closing|..] == Closing;
  }

  /** Without a question, the header names the default subject. */
  lemma DefaultHeader(question: Option<string>)
    requires question.None? || question == Some("")
    ensures Header(question) == "Reading for: General guidance\n\n"
  {
  }

  /** In the rendered text, card `i`'s block comes right after the header
      and the blocks of the cards before it. */
  lemma RenderBlockAt(positions: seq<string>, cards: seq<DrawnCard>, question: Option<string>, i: nat)
    requires i < |cards|
    ensures OccursAt(Render(positions, cards, question), Block(PositionLabel(positions, i), cards[i]),
                     |Header(question)| + |Blocks(positions, cards[..i])|)
  {
    BlockAt(positions, cards, i);
    OccursAtWithin(Header(question), Blocks(positions, cards), Closing,
                   Block(PositionLabel(positions, i), cards[i]), |Blocks(positions, cards[..i])|);
  }

  /** The interpretation opens with "Reading for: " and the subject, then
      holds card `i`'s block (its label, name, orientation, meaning and
      correspondence) after the blocks of the cards before it, and ends with
      the closing paragraph. */
  lemma InterpretationLayout(cards: seq<DrawnCard>, question: Option<string>, spreadType: string, i: nat)
    requires spreadType in TarotSpreads
    requires i < |cards|
    ensures var text := BasicInterpretation(cards, question, spreadType).value;
      && OccursAt(text, "Reading for: " + Subject(question) + "\n\n", 0)
      && OccursAt(text, Block(PositionLabel(PositionsOf(spreadType), i), cards[i]),
                  |Header(question)| + |Blocks(PositionsOf(spreadType), cards[..i])|)
      && OccursAt(text, Closing, |text| - |Closing|)
  {
    RenderFrame(PositionsOf(spreadType), cards, question);
    RenderBlockAt(PositionsOf(spreadType), cards, question, i);
  }

  /** A block names its card. */
  lemma BlockMentionsName(caption: string, d: DrawnCard)
    ensures Contains(Block(caption, d), d.card.name)
  {
    var rest := " (" + d.orientation + ")\n" + d.meaning + "\nGolden Dawn: "
                + d.card.goldenDawnCorrespondence + "\n\n";
    assert Block(caption, d) == ("\n" + caption + ": ") + d.card.name + rest;
    OccursBetween("\n" + caption + ": ", d.card.name, rest);
  }

  /** A block states the card's orientation label. */
  lemma BlockMentionsOrientation(caption: string, d: DrawnCard)
    ensures Contains(Block(caption, d), d.orientation)
  {
    var rest := ")\n" + d.meaning + "\nGolden Dawn: " + d.card.goldenDawnCorrespondence + "\n\n";
    assert Block(caption, d) == ("\n" + caption + ": " + d.card.name + " (") + d.orientation + rest;
    OccursBetween("\n" + caption + ": " + d.card.name + " (", d.orientation, rest);
  }

  /** A block states the meaning that applies. */
  lemma BlockMentionsMeaning(caption: string, d: DrawnCard)
    ensures Contains(Block(caption, d), d.meaning)
  {
    var before := "\n" + caption + ": " + d.card.name + " (" + d.orientation + ")\n";
    var rest := "\nGolden Dawn: " + d.card.goldenDawnCorrespondence + "\n\n";
    assert Block(caption, d) == before + d.meaning + rest;
    OccursBetween(before, d.meaning, rest);
  }

  /** A block states the card's Golden Dawn correspondence. */
  lemma BlockMentionsCorrespondence(caption: string, d: DrawnCard)
    ensures Contains(Block(caption, d), "Golden Dawn: " + d.card.goldenDawnCorrespondence)
  {
    var before := "\n" + caption + ": " + d.card.name + " (" + d.orientation + ")\n" + d.meaning + "\n";
    var golden := "Golden Dawn: " + d.card.goldenDawnCorrespondence;
    assert Block(caption, d) == before + golden + "\n\n";
    OccursBetween(before, golden, "\n\n");
  }

  /** `text` names the card, its orientation label, its meaning and its
      correspondence. */
  predicate Mentions(text: string, d: DrawnCard) {
    && Contains(text, d.card.name)
    && Contains(text, d.orientation)
    && Contains(text, d.meaning)
    && Contains(text, "Golden Dawn: " + d.card.goldenDawnCorrespondence)
  }

  /** A block mentions everything about its card. */
  lemma BlockMentions(caption: string, d: DrawnCard)
    ensures Mentions(Block(caption, d), d)
  {
    BlockMentionsName(caption, d);
    BlockMentionsOrientation(caption, d);
    BlockMentionsMeaning(caption, d);
    BlockMentionsCorrespondence(caption, d);
  }

  /** What a piece of a text mentions, the text mentions. */
  lemma MentionsWithin(text: string, piece: string, at: nat, d: DrawnCard)
    requires OccursAt(text, piece, at)
    requires Mentions(piece, d)
    ensures Mentions(text, d)
  {
    ContainsWithin(text, piece, at, d.card.name);
    ContainsWithin(text, piece, at, d.orientation);
    ContainsWithin(text, piece, at, d.meaning);
    ContainsWithin(text, piece, at, "Golden Dawn: " + d.card.goldenDawnCorrespondence);
  }

  /** `text` holds card `i`'s block where the loop puts it, and mentions the card. */
  predicate DescribesCard(text: string, positions: seq<string>, cards: seq<DrawnCard>,
                          question: Option<string>, i: nat)
    requires i < |cards|
  {
    && OccursAt(text, Block(PositionLabel(positions, i), cards[i]),
                |Header(question)| + |Blocks(positions, cards[..i])|)
    && Mentions(text, cards[i])
  }

  /** The rendered text describes every drawn card. */
  lemma RenderDescribesCard(positions: seq<string>, cards: seq<DrawnCard>, question: Option<string>, i: nat)
    requires i < |cards|
    ensures DescribesCard(Render(positions, cards, question), positions, cards, question, i)
  {
    var caption := PositionLabel(positions, i);
    RenderBlockAt(positions, cards, question, i);
    BlockMentions(caption, cards[i]);
    MentionsWithin(Render(positions, cards, question), Block(caption, cards[i]),
                   |Header(question)| + |Blocks(positions, cards[..i])|, cards[i]);
  }

  /** Every drawn card's name, orientation label, meaning and correspondence
      appear in the interpretation. */
  lemma InterpretationMentionsCard(cards: seq<DrawnCard>, question: Option<string>, spreadType: string, i: nat)
    requires spreadType in TarotSpreads
    requires i < |cards|
    ensures Mentions(BasicInterpretation(cards, question, spreadType).value, cards[i])
  {
    RenderDescribesCard(PositionsOf(spreadType), cards, question, i);
  }
}
