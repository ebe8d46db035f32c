# Golden Dawn tarot readings — a Dafny model of the reading pipeline

The tarot service in `main.py` creates a reading in four steps:

1. It flattens the static card catalogue `GOLDEN_DAWN_DECK` into one list (`get_all_cards`).
2. It looks the requested layout up in the spread catalogue `TAROT_SPREADS`.
3. It draws that many distinct cards. Each card is upright or reversed (`draw_cards`).
4. It renders a fixed text template over the drawn cards (`_generate_basic_interpretation`). `get_ai_interpretation` returns this text on its live path.

The reading is then named `reading_<local time>_<random suffix>`.

This project models these steps as pure Dafny functions over immutable datatypes. It also proves what the code promises about them.

Randomness is passed in as parameters:

- the list `random.sample` returns is a sequence `picks` of distinct in-range deck indices;
- each `random.choice([True, False])` is an entry of `coins`;
- `random.randint(1000, 9999)` is a `suffix` in 1000..9999.

Clock values are parameters too: a `Stamp` for the local time and a string for the UTC ISO-8601 timestamp.

Modules, one per component:

- `results.dfy` (`Results`): `Option`, `Result` and the errors the code paths raise.
- `text.dfy` (`Text`): the Python string behaviour the template and the identifier rely on. That is `str.isspace`, `str.strip`, `str(n)`, zero-padded `strftime` fields, and substring occurrence.
- `deck.dfy` (`Deck`): `TarotCard`, the deck data (13 major arcana and four aces, 17 cards) and `get_all_cards`.
- `spreads.dfy` (`Spreads`): `TarotSpread` and the six registered spreads.
- `draw.dfy` (`Draw`): `draw_cards`.
- `interpretation.dfy` (`Interpretation`): the template formatter and `get_ai_interpretation`.
- `reading_id.dfy` (`ReadingIds`): the reading identifier and its parser.
- `reading.dfy` (`Readings`): `create_reading` up to the call to `save_reading`.

Some behaviour of the code differs from what the service's documentation says. The model follows the code:

- The deck's docstrings speak of 78 cards. The data defines 17.
- An unknown spread id is meant to be a client error (HTTP 400). The handler's catch-all `except Exception` (main.py:511-513) re-raises it as HTTP 500. A missing reading file is meant to give 404. Its `HTTPException` is caught the same way (main.py:531-533), so it also ends as 500. The model stops at the domain error `UnknownSpread` and claims no HTTP status.
- The formatter looks the spread up inside its loop. With no cards it therefore never fails, even for an unknown spread id. With cards and an unknown id it raises `KeyError`. `get_ai_interpretation` catches that and calls the formatter again, so the error still escapes.
- `random.sample` raises `ValueError` for a negative count. The model returns `NegativeSampleSize` for it.

## Model

| member | source | states |
|---|---|---|
| Deck.AllCards | main.py:298-304 | the flattened deck has as many cards as all categories together |
| Deck.AllCardsIndex | main.py:298-304 | card `k` of category `j` sits at index (cards of categories before `j`) + `k`, so categories keep definition order and cards keep their order within a category |
| Deck.AllCardsMembership | main.py:298-304 | a card is in the flattened deck if and only if some category holds it |
| Deck.FullDeckContents | main.py:74-231 | flattening `GOLDEN_DAWN_DECK` yields the 13 major arcana from The Fool to The Hanged Man, then the aces of wands, cups, swords and pentacles: 17 cards |
| Deck.FullDeckSize | main.py:74-231 | the deck every draw samples from holds 17 cards |
| Deck.FullDeckDistinct | main.py:74-231 | no two cards of the deck share a name |
| Spreads.CatalogueShape | main.py:234-286 | exactly the six spread ids are registered, with card counts 1, 3, 10, 10, 9 and 7 |
| Spreads.CatalogueWellFormed | main.py:234-286 | every registered spread lists one position per card and asks for 1 to 10 cards |
| Spreads.Resolve | main.py:472-475 | lookup succeeds exactly for registered ids and returns a well-formed spread; otherwise the error is "Unknown spread type: " followed by the id |
| Draw.ClampCount | main.py:310-313 | the clamped count is at most the deck size and at most the request, and equals one of them |
| Draw.Orient | main.py:319-326 | an entry keeps its card and flag; its label is "Reversed" exactly when reversed and "Upright" exactly when not; its meaning is the reversed meaning when reversed and the upright one otherwise |
| Draw.DrawCards | main.py:306-328 | a negative count fails and nothing else does; otherwise the draw has `min(count, deck size)` entries; entry `i` is the deck card the sample picked, so it is a card of the deck; its flag is `include_reversed` and coin `i`; its label and meaning agree with the flag; with reversals off every entry is upright with the upright meaning; over a deck with distinct names no card is drawn twice |
| Readings.SpreadDrawExact | main.py:475-478 | for every registered spread the card count fits in the deck, so the draw succeeds with exactly `card_count` cards |
| Interpretation.PositionLabel | main.py:402 | card `i` is labelled with the spread's `i`-th position when there is one; otherwise the label is "Position " followed by the canonical decimal spelling of `i+1`: digits without a leading zero that read back as `i+1` |
| Text.NatToString | main.py:402 | `str(n)` is a non-empty digit string without leading zero that reads back as `n` |
| Interpretation.BasicInterpretation | main.py:396-413 | the formatter fails exactly when there is a card and the spread id is not registered, with `KeyError` on that id; otherwise its result is the unstripped template text, because `strip()` has nothing to remove |
| Interpretation.AiInterpretation | main.py:330-394 | the live path returns exactly the formatter's result; it succeeds exactly when there are no cards or the spread is registered |
| Interpretation.BlocksPrefix | main.py:400-409 | the text for the first `i` cards is a prefix of the text for all cards: each iteration only appends |
| Interpretation.BlockAt | main.py:400-409 | card `i`'s block follows the blocks of the cards before it |
| Interpretation.RenderFrame | main.py:398-411 | the text starts with the "Reading for: " header and ends with the fixed closing paragraph, whatever the cards |
| Interpretation.DefaultHeader | main.py:398 | a missing or empty question gives the header "Reading for: General guidance" followed by a blank line |
| Interpretation.RenderBlockAt | main.py:398-409 | in the full text, card `i`'s block starts right after the header and the earlier cards' blocks |
| Interpretation.InterpretationLayout | main.py:396-413 | for a registered spread, the formatter's text opens with "Reading for: " and the question or default subject, holds card `i`'s block after the header and the earlier blocks, and ends with the closing paragraph |
| Interpretation.BlockMentions | main.py:404-409 | a card's block contains its name, its orientation label, its meaning and "Golden Dawn: " with its correspondence |
| Interpretation.RenderDescribesCard | main.py:400-409 | the text holds every card's block in place and mentions each card's name, orientation, meaning and correspondence |
| Interpretation.InterpretationMentionsCard | main.py:396-413 | for a registered spread, the formatter's text mentions each drawn card's name, orientation, meaning and correspondence |
| Text.Strip | main.py:413 | `strip()` returns the part of the text framed by whitespace margins; that part neither begins nor ends with whitespace |
| Text.FramedUnique | main.py:413 | a text frames only one non-empty core, so `Strip` is determined by its contract |
| Text.StripUnframed | main.py:413 | stripping a text whose first and last characters are not whitespace returns it unchanged |
| ReadingIds.StampText | main.py:488 | `%Y%m%d_%H%M%S` is 15 characters with the underscore at index 8 |
| ReadingIds.StampFields | main.py:488 | the year, month, day, hour, minute and second sit zero-padded at fixed offsets of the formatted time |
| ReadingIds.ReadingId | main.py:488 | an identifier is 28 characters: "reading_", the time, "_" and the suffix |
| ReadingIds.ReadingIdFields | main.py:488 | each field of an identifier sits at a fixed offset; the four-digit suffix prints without padding |
| ReadingIds.ParseReadingIdRoundTrip | main.py:488 | an identifier parses back to the time and suffix it was made from |
| ReadingIds.ReadingIdOfParse | main.py:488 | any string that parses is exactly the identifier of its parsed parts |
| ReadingIds.ReadingIdInjective | main.py:488 | two identifiers are equal exactly when they were made in the same second with the same suffix |
| Text.Fixed | main.py:488 | a zero-padded field has exactly its width in digits and reads back as its value |
| Text.FixedOfParse | main.py:488 | every digit string is the zero-padded spelling of its own value |
| Text.NatToStringFixed | main.py:488 | a number with exactly `w` significant digits prints the same as its `w`-digit zero-padded form |
| Readings.CreateReading | main.py:467-500 | creation fails exactly for an unregistered spread, with "Unknown spread type: " and the id. On success the reading keeps the spread id and the question, and it holds `card_count` cards, one per position. No card repeats. Every card is from the deck and consistently oriented, and all are upright when reversals are off. The interpretation is the template over the spread's positions, the timestamp is the UTC clock value, and the identifier is built from the local clock and the suffix |
| Readings.ReadingDescribesCard | main.py:475-485 | a request for a registered spread yields a reading in which every card is labelled with its spread's own position, never the fallback; the text holds the card's block and mentions its name, orientation, meaning and correspondence |
| Readings.ReadingOpensWithSubject | main.py:481-485 | a request for a registered spread yields a reading whose text opens with "Reading for: " and the question, or the default subject |
| Readings.ThreeCardUprightReading | main.py:467-497 | a three-card request with no question and no reversals yields exactly three upright cards; the text opens with "Reading for: General guidance" and names all three cards |

## Left out

- The FastAPI application, CORS, the static mount, the HTML root page and the `/health`, `/cards` and `/spreads` endpoints (main.py:20-36, 435-465). They are framework plumbing.
- `save_reading` and `GET /reading/{id}` (main.py:415-430, 515-533). They are file I/O and JSON (de)serialisation. No store round trip is modelled.
- The HTTP status mapping of errors. Both the 400 and the 404 end as 500 through the catch-all handlers (main.py:511-513, 531-533). The model stops at the domain error.
- The commented-out call to the language-model service (main.py:337-390). It is a string literal that never runs, and it is a network client.
- The algorithms behind `random.sample`, `random.choice` and `random.randint`. They are replaced by the `picks`, `coins` and `suffix` parameters, constrained to the values those functions can return. Their distributions are not modelled.
- `datetime.now()` and `datetime.now(timezone.utc).isoformat()`. They are the `Stamp` and `utcTimestamp` parameters. ISO-8601 formatting is not modelled.
- ReadingIds.ReadingId: years before 1000 are not modelled. `ValidStamp` asks for a four-digit year so that `%Y` has a fixed width.
- Logging, including the clamp warning at main.py:313. That warning prints the already clamped count where it means the requested one, but logging has no effect on results.
- Pydantic validation and `.dict()` serialisation. A drawn entry keeps the `Card` record where the code stores its dictionary form. The formatter reads only `name` and `golden_dawn_correspondence` from it.
- The request fields `deck_type`, `interpretation_style` and `user_birth_info`, and the configured service URLs. They are never read.
- `TarotAIService.__init__`, which creates the readings directory. It is file-system setup.
