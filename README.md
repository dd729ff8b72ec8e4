# pokeme `cards`: a verified model of the deck and the card renderers

This project models the `cards` library of pokeme. That library holds a deck of playing cards, the short Unicode form of a card, and two text renderers for a hand of cards:

- `Cards` (`cards.dfy`) models `libs/cards/src/lib.rs`:
  - the `Suit`, `Rank` and `Card` types, plus `Card::new` and `Card::is_joker`;
  - the `Deck` class, with `new`, `draw`, `len`, `is_empty` and `reset`.

  The `jokers` cargo feature is the `jokers` flag a deck is built with. With the flag off, no card of rank `Joker` is ever made.
- `Symbols` (`symbols.dfy`) models `libs/cards/src/display/mod.rs`: the `to_unicode` mapping of suits, ranks and cards.
- `SmallCards` (`small_cards.dfy`) models `to_small_cards` from `libs/cards/src/display/cards_display.rs`. It draws four rows of 5-character cells, one cell per card in each row.
- `LargeCards` (`large_cards.dfy`) models `to_large_cards` and `get_large_card_representation` from `libs/cards/src/display/large_cards_display.rs`:
  - each card becomes 12 rows of 13 characters;
  - the rows of all cards are concatenated line by line.
- `Text` (`text.dfy`) holds the string operations on Dafny strings:
  - `String::repeat` and `join` are what the renderers call (`Repeat`, `Join`), and `Tile` lays equal-width cells side by side;
  - `str::lines`, `matches(..).count()` and `chars().count()` are what the crate's tests use to state properties of the output (`Lines`, `Occurrences`, `Count`, and `|s|`).

Each renderer is an imperative method that appends to strings or to an array of lines, just as the Rust code does. Each method is proved equal to a pure specification function. The properties that the crate's tests check are then proved about that function as lemmas:

- row counts, row widths, borders and corners;
- the cell of card `i` within each row;
- how often suit glyphs, the joker glyph and the word `JOKER` appear.

The model adds read-back properties that no test checks:
- a card's short form, a rank cell and a suit cell each read back as the card's rank and suit;
- so two hands of well-formed cards that render the same in the compact form are the same hand.

In the large renderer, each `format!` line of a card is a template: literal text, plus slots for the rank label and the suit glyph. A card's 12 rows are that template table, filled in. Lemmas about the template table give the width of every row and the number of suit pips per rank.

## Model

| member | source | states |
|---|---|---|
| Cards.NewCard | libs/cards/src/lib.rs:49-56 | `Card::new` keeps rank and suit unchanged; the card is a joker exactly when its rank is `Joker` |
| Cards.BuildFullDeck | libs/cards/src/lib.rs:65-95 | the nested suit/rank loops followed by the two jokers build exactly `FullDeck(jokers)` |
| Cards.FullDeckSize | libs/cards/src/lib.rs:65-95 | a new deck has 52 cards, or 54 with jokers |
| Cards.FullDeckOrder | libs/cards/src/lib.rs:68-92 | position `k < 52` holds rank `k % 13` (Ace..King) of suit `k / 13` (Clubs, Diamonds, Hearts, Spades); any later position holds a suitless joker, and exists only with jokers |
| Cards.StandardCardsAt | libs/cards/src/lib.rs:68-86 | after `i` rounds of the outer loop, position `k` holds rank `k % 13` of suit `k / 13` |
| Cards.FullDeckHasEachCardOnce | libs/cards/src/lib.rs:65-95 | each suited card is in a new deck exactly once, at position `13 * suit + rank` |
| Cards.FullDeckWellFormed | libs/cards/src/lib.rs:84-92 | every card of a new deck has a suit exactly when it is not a joker, and a joker occurs only when jokers are enabled |
| Cards.Deck.constructor | libs/cards/src/lib.rs:65-95 | `Deck::new` holds the full deck in order |
| Cards.Deck.IsEmpty | libs/cards/src/lib.rs:112-118 | `is_empty()` holds exactly when `len() == 0` |
| Cards.Deck.Draw | libs/cards/src/lib.rs:108-110 | on a non-empty deck, returns the last card and leaves the rest unchanged; on an empty deck, returns `None` and leaves it empty; `len()` drops by one or stays 0 |
| Cards.Deck.Reset | libs/cards/src/lib.rs:120-122 | after `reset`, the deck holds exactly the cards of `Deck::new`, whatever was drawn before |
| Cards.DrawWholeDeck | libs/cards/src/lib.rs:108-118 | drawing `len()` times from a new deck yields `Some` every time, in reverse deck order, each card well formed, and ends with `is_empty()` |
| Symbols.SuitGlyph | libs/cards/src/display/mod.rs:10-19 | each suit's glyph is one character |
| Symbols.SuitGlyphRoundTrip | libs/cards/src/display/mod.rs:10-19 | each glyph reads back as its suit and is one of ♣ ♦ ♥ ♠ |
| Symbols.SuitGlyphOnto | libs/cards/src/display/mod.rs:10-19 | each of ♣ ♦ ♥ ♠ is the glyph of some suit |
| Symbols.SuitGlyphInjective | libs/cards/src/display/mod.rs:10-19 | two suits have the same glyph exactly when they are the same suit |
| Symbols.RankLabel | libs/cards/src/display/mod.rs:21-41 | a rank label has one character, except Ten's, which has two |
| Symbols.RankLabelRoundTrip | libs/cards/src/display/mod.rs:21-41 | each label reads back as its rank |
| Symbols.RankLabelInjective | libs/cards/src/display/mod.rs:23-38 | two ranks have the same label exactly when they are the same rank |
| Symbols.CardUnicode | libs/cards/src/display/mod.rs:43-54 | a card's short form is never empty and contains no whitespace character |
| Symbols.CardUnicodeRoundTrip | libs/cards/src/display/mod.rs:50-51 | the short form of a well-formed card (rank label, then suit glyph) reads back as that card |
| Symbols.CardUnicodeInjective | libs/cards/src/display/mod.rs:43-54 | two well-formed cards have the same short form exactly when they are equal |
| Symbols.CardUnicodeJoker | libs/cards/src/display/mod.rs:45-52 | the short form is the joker glyph exactly for jokers, whatever their suit field; a suitless non-joker shows `?`, which parses as no card |
| SmallCards.RankCell | libs/cards/src/display/cards_display.rs:54-67 | a rank cell has 5 characters framed by `│`: the joker glyph, `│10 │` for Ten, otherwise the label with a space on each side |
| SmallCards.SuitCell | libs/cards/src/display/cards_display.rs:71-83 | a suit cell has 5 characters framed by `│`: the suit glyph for a suited non-joker, otherwise the blank cell |
| SmallCards.ToSmallCards | libs/cards/src/display/cards_display.rs:42-90 | the method returns exactly `SmallCards(cards)`: `No cards` for an empty hand, otherwise the four rows joined by line breaks |
| SmallCards.AppendRankCells | libs/cards/src/display/cards_display.rs:54-67 | the rank loop appends exactly the rank cells of the cards, in order |
| SmallCards.AppendSuitCells | libs/cards/src/display/cards_display.rs:71-83 | the suit loop appends exactly the suit cells of the cards, in order |
| SmallCards.SmallCardsText | libs/cards/src/display/cards_display.rs:47-89 | a non-empty hand's output is the top border, rank row, suit row and bottom border, separated by `\n` |
| SmallCards.SmallCardsEmpty | libs/cards/src/display/cards_display.rs:43-45 | the output is `No cards` exactly when the hand is empty |
| SmallCards.SmallCardsLines | libs/cards/src/display/cards_display.rs:47-89 | a non-empty hand's output splits into exactly its four rows |
| SmallCards.SmallCardsCells | libs/cards/src/display/cards_display.rs:50-87 | each row has `5 * n` characters, and the `i`-th 5-character cell of each row is the top border, rank cell, suit cell or bottom border of card `i` |
| SmallCards.SmallCardsBorders | libs/cards/src/display/cards_display.rs:50-87 | `┌───┐` and `└───┘` each occur exactly `n` times in the output of `n` cards |
| SmallCards.SmallCardsJokers | libs/cards/src/display/cards_display.rs:55-58 | the output contains as many joker glyphs as the hand has jokers |
| SmallCards.RankRowJokers | libs/cards/src/display/cards_display.rs:54-67 | the rank row contains one joker glyph per joker |
| SmallCards.RankCellRoundTrip | libs/cards/src/display/cards_display.rs:54-67 | each rank cell reads back as its card's rank |
| SmallCards.SuitCellRoundTrip | libs/cards/src/display/cards_display.rs:71-83 | the suit cell of a well-formed card reads back as its suit field |
| SmallCards.SmallCardsInjective | libs/cards/src/display/cards_display.rs:42-90 | two hands of well-formed cards with the same output are the same hand |
| LargeCards.SuitSymbol | libs/cards/src/display/large_cards_display.rs:116-120 | the suit symbol is one character with no line break: the suit's glyph when the card has a suit, a space when it has none |
| LargeCards.LargeCard | libs/cards/src/display/large_cards_display.rs:89-292 | each card has exactly 12 rows |
| LargeCards.GetLargeCardRepresentation | libs/cards/src/display/large_cards_display.rs:89-292 | the pushes of the method produce exactly `LargeCard(card)`: the joker template, or the top border, two corner rows, the rank's six interior rows, two corner rows and the bottom border |
| LargeCards.HeadFilled | libs/cards/src/display/large_cards_display.rs:94-151 | the first three rows are the top border, the rank label left-aligned (one space less after `10`) and the suit symbol left-aligned |
| LargeCards.FootFilled | libs/cards/src/display/large_cards_display.rs:279-290 | the last three rows are the suit symbol right-aligned, the rank label right-aligned (one space less before `10`) and the bottom border |
| LargeCards.InteriorTable | libs/cards/src/display/large_cards_display.rs:154-276 | each rank's six interior rows fit the 13-character width (with a 2-character label for Ten) and are framed by `│`, and together they hold `PipCount(r)` suit slots |
| LargeCards.AceInterior | libs/cards/src/display/large_cards_display.rs:155-163 | the ace's interior fits, is framed, and holds one suit pip |
| LargeCards.LowPipInterior | libs/cards/src/display/large_cards_display.rs:164-199 | the Two to Five interiors fit, are framed, and hold as many pips as the rank's value |
| LargeCards.HighPipInterior | libs/cards/src/display/large_cards_display.rs:200-235 | the Six to Nine interiors fit, are framed, and hold as many pips as the rank's value |
| LargeCards.TenInterior | libs/cards/src/display/large_cards_display.rs:236-244 | the Ten interior fits, is framed, and holds ten pips |
| LargeCards.JackInterior | libs/cards/src/display/large_cards_display.rs:245-253 | the Jack art fits, is framed, and holds no suit pip |
| LargeCards.QueenInterior | libs/cards/src/display/large_cards_display.rs:254-262 | the Queen art fits, is framed, and holds no suit pip |
| LargeCards.KingInterior | libs/cards/src/display/large_cards_display.rs:263-271 | the King art fits, is framed, and holds no suit pip |
| LargeCards.HeadTable | libs/cards/src/display/large_cards_display.rs:143-151 | the top-left corner rows fit for a one-character label and for `10`, and hold one suit slot |
| LargeCards.FootTable | libs/cards/src/display/large_cards_display.rs:279-290 | the bottom-right corner rows fit for a one-character label and for `10`, and hold one suit slot |
| LargeCards.CardTable | libs/cards/src/display/large_cards_display.rs:94-290 | the whole 12-row template of a non-joker fits, has its rows 1 to 10 framed, and holds `PipCount(r) + 2` suit slots |
| LargeCards.JokerTable | libs/cards/src/display/large_cards_display.rs:124-141 | the joker's rows are all 13 characters wide, rows 1 to 10 are framed by `│`, and rows 2 to 9 contain no `J` |
| LargeCards.LargeCardShape | libs/cards/src/display/large_cards_display.rs:89-292 | each row of every card has 13 characters and no line break; row 0 is `╭───────────╮`, row 11 is `╰───────────╯`, and rows 1 to 10 start and end with `│` |
| LargeCards.SuitedBorders | libs/cards/src/display/large_cards_display.rs:94-290 | a non-joker's first row is the top border and its last row the bottom border |
| LargeCards.LargeCardRankCorners | libs/cards/src/display/large_cards_display.rs:143-287 | row 1 holds the rank label left-aligned, and row 10 holds it right-aligned, padded to 13 characters |
| LargeCards.LargeCardSuitCorners | libs/cards/src/display/large_cards_display.rs:150-280 | row 2 holds the suit symbol left-aligned, and row 9 holds it right-aligned |
| LargeCards.LargeCardTen | libs/cards/src/display/large_cards_display.rs:144-284 | a Ten's corners are `│10         │` and `│         10│` |
| LargeCards.LargeCardSuitCount | libs/cards/src/display/large_cards_display.rs:154-271 | a suited non-joker's 12 rows contain its suit glyph `PipCount(r) + 2` times: 3 for an ace, the value plus 2 for Two to Ten, 2 for a court card |
| LargeCards.LargeCardsSuitCount | libs/cards/src/display/large_cards_display.rs:49-85 | the rendered text of a one-card hand contains its suit glyph `PipCount(r) + 2` times |
| LargeCards.JokerCardWord | libs/cards/src/display/large_cards_display.rs:124-141 | `JOKER` occurs exactly twice in the joker's rows |
| LargeCards.JokerCardNoSuit | libs/cards/src/display/large_cards_display.rs:124-141 | no suit glyph occurs in the joker's rows |
| LargeCards.LargeCardsJoker | libs/cards/src/display/large_cards_display.rs:124-141 | the rendered text of a one-joker hand contains `JOKER` twice and no suit glyph |
| LargeCards.PadToHeight | libs/cards/src/display/large_cards_display.rs:64-73 | padding only appends, and leaves at least 12 rows; a row added at index 11 is the bottom border, and any row added earlier is the blank interior row |
| LargeCards.AppendCard | libs/cards/src/display/large_cards_display.rs:76-80 | row `k` of the result grows by the card's row `k`, for each of the first 12 card rows; no other row changes |
| LargeCards.ToLargeCards | libs/cards/src/display/large_cards_display.rs:49-85 | the method returns exactly `LargeCards(cards)`: `No cards` for an empty hand, otherwise the 12 rows, each concatenating that row of every card in order, joined by line breaks |
| LargeCards.LargeRowSnoc | libs/cards/src/display/large_cards_display.rs:60-81 | each turn of the card loop extends row `k` by the new card's row `k` |
| LargeCards.LargeCardsEmpty | libs/cards/src/display/large_cards_display.rs:50-52 | the output is `No cards` exactly when the hand is empty |
| LargeCards.LargeCardsLines | libs/cards/src/display/large_cards_display.rs:54-84 | a non-empty hand's output splits into exactly 12 lines, which are the concatenated rows |
| LargeCards.LargeCardsCells | libs/cards/src/display/large_cards_display.rs:57-84 | each output row has `13 * n` characters, and its `i`-th 13-character block is card `i`'s row |
| LargeCards.LargeRowsOne | libs/cards/src/display/large_cards_display.rs:57-84 | a one-card hand renders as that card's rows joined by line breaks |

## Left out

- `Deck::shuffle` and `Deck::new_shuffled` draw from a foreign random-number source, so they are not modelled.
- Deck.Len has no contract of its own. It is `|cards|`, and `IsEmpty` and `Draw` state their results through it.
- The example programs under `libs/cards/examples` only print. The `serde` derives and the `Debug`, `Hash` and `Ord` derives are not modelled.
- Strings are sequences of Unicode characters, not UTF-8 bytes. `rank.len() == 1` in the small renderer is a byte length. It agrees with the character length because every label it meets is ASCII; the joker returns before the test.
- `Joker` is always a constructor of `Rank`. The `#[cfg(feature = "jokers")]` branches are modelled as always present: without the feature no joker card exists, so those branches are never taken.
- The second rank-label table in `get_large_card_representation` (large_cards_display.rs:98-114) is the same mapping as `Rank::to_unicode`, so the model uses `RankLabel` for both.
- LargeCards.Interior: its `requires r != Joker` stands for the `unreachable!()` joker arm, which the early joker return makes dead.
- The row loops of `to_small_cards` are written as the methods `AppendRankCells` and `AppendSuitCells`, and the inner `push_str` loop of `to_large_cards` as `AppendCard`. Each loop is unchanged; only its place differs. `Vec<String>::join` and `String::repeat` are the functions `Join` and `Repeat`.
- LargeCards.PadToHeight: `get_large_card_representation` always returns 12 rows, so padding never adds a row in practice. The method is proved for any input length, not only for the renderer's.
