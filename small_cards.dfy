/** The compact renderer of libs/cards/src/display/cards_display.rs
    (`SmallCardsDisplay::to_small_cards`): four rows of 5-character cells,
    one cell per card in each row. */
module SmallCards {
  import opened Text
  import opened Cards
  import opened Symbols

  /** What an empty hand renders as. */
  const NoCards: string := "No cards"

  const TopCell: string := "┌───┐"
  const BottomCell: string := "└───┘"
  const BlankCell: string := "│   │"

  /** The rank-row cell of a card. */
  function RankCell(c: Card): (cell: string)
    ensures |cell| == 5 && cell[0] == '│' && cell[4] == '│'
    ensures c.rank == Joker ==> cell == "│ " + JokerGlyph + " │"
    ensures c.rank == Ten ==> cell == "│10 │"
    ensures c.rank != Joker && c.rank != Ten ==> cell == "│ " + RankLabel(c.rank) + " │"
  {
    if c.rank == Joker then "│ 🃏 │"
    else
      var rank := RankLabel(c.rank);
      if |rank| == 1 then "│ " + rank + " │" else "│" + rank + " │"
  }

  /** The suit-row cell of a card. */
  function SuitCell(c: Card): (cell: string)
    ensures |cell| == 5 && cell[0] == '│' && cell[4] == '│'
    ensures c.rank != Joker && c.suit.Some? ==> cell == "│ " + SuitGlyph(c.suit.value) + " │"
    ensures c.rank == Joker || c.suit.None? ==> cell == BlankCell
  {
    if c.rank == Joker then BlankCell
    else match c.suit
      case Some(s) => "│ " + SuitGlyph(s) + " │"
      case None => BlankCell
  }

  function TopCellOf(c: Card): string
  {
    TopCell
  }

  function BottomCellOf(c: Card): string
  {
    BottomCell
  }

  /** Top border, rank row, suit row, bottom border. */
  function SmallRows(cards: seq<Card>): seq<string>
  {
    [Repeat(TopCell, |cards|), Tile(cards, RankCell), Tile(cards, SuitCell), Repeat(BottomCell, |cards|)]
  }

  /** What `to_small_cards` returns. */
  function SmallCards(cards: seq<Card>): string
  {
    if cards == [] then NoCards else Join(SmallRows(cards), "\n")
  }

  /** `to_small_cards`: the top border, the rank row and the suit row, each
      built by a loop appending one cell per card, then the bottom border. */
  method ToSmallCards(cards: seq<Card>) returns (result: string)
    ensures result == SmallCards(cards)
  {
    if cards == [] {
      return "No cards";
    }
    var n := |cards|;
    ghost var top, bottom := TopCell + Repeat(TopCell, n - 1), BottomCell + Repeat(BottomCell, n - 1);
    result := "";
    result := result + (TopCell + Repeat(TopCell, n - 1));
    assert result == top;
    result := result + "\n";
    result := AppendRankCells(result, cards);
    result := result + "\n";
    result := AppendSuitCells(result, cards);
    result := result + "\n";
    result := result + (BottomCell + Repeat(BottomCell, n - 1));
    assert result == top + "\n" + Tile(cards, RankCell) + "\n" + Tile(cards, SuitCell) + "\n" + bottom;
    SmallCardsText(cards);
  }

  /** The rank-row loop of `to_small_cards`: a joker's glyph, a one-character
      label padded on both sides, `10` padded on the right. */
  method AppendRankCells(head: string, cards: seq<Card>) returns (result: string)
    ensures result == head + Tile(cards, RankCell)
  {
    result := head;
    for i := 0 to |cards|
      invariant result == head + Tile(cards[..i], RankCell)
    {
      AppendCell(head, cards, i, RankCell);
      var card := cards[i];
      if card.rank == Joker {
        result := result + "│ 🃏 │";
        continue;
      }
      var rank := RankLabel(card.rank);
      if |rank| == 1 {
        result := result + ("│ " + rank + " │");
      } else {
        result := result + ("│" + rank + " │");
      }
    }
    assert cards[..|cards|] == cards;
  }

  /** The suit-row loop of `to_small_cards`: the suit glyph, or a blank cell
      for a joker or a suitless card. */
  method AppendSuitCells(head: string, cards: seq<Card>) returns (result: string)
    ensures result == head + Tile(cards, SuitCell)
  {
    result := head;
    for i := 0 to |cards|
      invariant result == head + Tile(cards[..i], SuitCell)
    {
      AppendCell(head, cards, i, SuitCell);
      var card := cards[i];
      if card.rank == Joker {
        result := result + "│   │";
        continue;
      }
      match card.suit {
        case Some(suit) =>
          result := result + ("│ " + SuitGlyph(suit) + " │");
        case None =>
          result := result + "│   │";
      }
    }
    assert cards[..|cards|] == cards;
  }

  /** A non-empty hand renders as its four rows joined by line breaks. */
  lemma SmallCardsText(cards: seq<Card>)
    requires cards != []
    ensures SmallCards(cards)
         == (TopCell + Repeat(TopCell, |cards| - 1)) + "\n" + Tile(cards, RankCell) + "\n"
          + Tile(cards, SuitCell) + "\n" + (BottomCell + Repeat(BottomCell, |cards| - 1))
  {
    JoinFour(SmallRows(cards));
  }

  lemma JoinFour(rows: seq<string>)
    requires |rows| == 4
    ensures Join(rows, "\n") == rows[0] + "\n" + rows[1] + "\n" + rows[2] + "\n" + rows[3]
  {
    var r0, r1, r2, r3 := rows[0], rows[1], rows[2], rows[3];
    assert rows[1..][1..] == [r2, r3] && [r2, r3][1..] == [r3];
    assert Join([r3], "\n") == r3;
    var j2 := Join(rows[1..][1..], "\n");
    assert j2 == r2 + "\n" + r3;
    var j1 := Join(rows[1..], "\n");
    assert j1 == r1 + "\n" + j2;
    assert j1 == r1 + "\n" + r2 + "\n" + r3;
    assert Join(rows, "\n") == r0 + "\n" + j1;
  }

  /** The output is `"No cards"` exactly for an empty hand. */
  lemma SmallCardsEmpty(cards: seq<Card>)
    ensures SmallCards(cards) == NoCards <==> cards == []
  {
    if cards != [] {
      var rows := SmallRows(cards);
      JoinFour(rows);
      RepeatLength(TopCell, |cards|);
      assert |SmallCards(cards)| >= |rows[0]| >= 5;
      assert SmallCards(cards)[0] == '┌';
    }
  }

  /** No cell spans a line. */
  lemma CellsSingleLine(c: Card)
    ensures '\n' !in RankCell(c) && '\r' !in RankCell(c)
    ensures '\n' !in SuitCell(c) && '\r' !in SuitCell(c)
    ensures '\n' !in TopCellOf(c) && '\r' !in TopCellOf(c)
    ensures '\n' !in BottomCellOf(c) && '\r' !in BottomCellOf(c)
  {
  }

  lemma RowsSingleLine(cards: seq<Card>)
    ensures forall k :: 0 <= k < 4 ==> '\n' !in SmallRows(cards)[k] && '\r' !in SmallRows(cards)[k]
  {
    forall c ensures '\n' !in RankCell(c) && '\r' !in RankCell(c) && '\n' !in SuitCell(c) && '\r' !in SuitCell(c)
      && '\n' !in TopCellOf(c) && '\r' !in TopCellOf(c) && '\n' !in BottomCellOf(c) && '\r' !in BottomCellOf(c)
    {
      CellsSingleLine(c);
    }
    TileAvoids(cards, RankCell, '\n');
    TileAvoids(cards, RankCell, '\r');
    TileAvoids(cards, SuitCell, '\n');
    TileAvoids(cards, SuitCell, '\r');
    RepeatTile(cards, TopCellOf, TopCell);
    RepeatTile(cards, BottomCellOf, BottomCell);
    TileAvoids(cards, TopCellOf, '\n');
    TileAvoids(cards, TopCellOf, '\r');
    TileAvoids(cards, BottomCellOf, '\n');
    TileAvoids(cards, BottomCellOf, '\r');
  }

  /** A non-empty hand renders as exactly four lines: top border, ranks,
      suits, bottom border. */
  lemma {:induction false} SmallCardsLines(cards: seq<Card>)
    requires cards != []
    ensures Lines(SmallCards(cards)) == SmallRows(cards)
    ensures |Lines(SmallCards(cards))| == 4
  {
    RowsSingleLine(cards);
    RepeatLength(BottomCell, |cards|);
    LinesJoin(SmallRows(cards));
  }

  /** Every row holds 5 characters per card, and the `i`-th 5-character cell
      of each row belongs to the `i`-th card. */
  lemma SmallCardsCells(cards: seq<Card>, i: nat)
    requires i < |cards|
    ensures forall k :: 0 <= k < 4 ==> |SmallRows(cards)[k]| == 5 * |cards|
    ensures SmallRows(cards)[0][5 * i .. 5 * i + 5] == TopCell
    ensures SmallRows(cards)[1][5 * i .. 5 * i + 5] == RankCell(cards[i])
    ensures SmallRows(cards)[2][5 * i .. 5 * i + 5] == SuitCell(cards[i])
    ensures SmallRows(cards)[3][5 * i .. 5 * i + 5] == BottomCell
  {
    RepeatTile(cards, TopCellOf, TopCell);
    RepeatTile(cards, BottomCellOf, BottomCell);
    TileCell(cards, TopCellOf, 5, i);
    TileCell(cards, RankCell, 5, i);
    TileCell(cards, SuitCell, 5, i);
    TileCell(cards, BottomCellOf, 5, i);
  }

  /** Which border and joker characters each cell leaves out. */
  lemma CellsOmit(c: Card)
    ensures '┌' !in RankCell(c) && '┌' !in SuitCell(c) && '┌' !in BottomCellOf(c)
    ensures '└' !in RankCell(c) && '└' !in SuitCell(c) && '└' !in TopCellOf(c)
    ensures '🃏' !in SuitCell(c) && '🃏' !in TopCellOf(c) && '🃏' !in BottomCellOf(c)
  {
  }

  /** A row of cells none of which holds the first character of `w` holds
      no occurrence of `w`. */
  lemma TileOmits(cards: seq<Card>, cell: Card -> string, w: string)
    requires w != [] && forall c :: w[0] !in cell(c)
    ensures Occurrences(Tile(cards, cell), w) == 0
  {
    TileAvoids(cards, cell, w[0]);
    OccurrencesAbsent(Tile(cards, cell), w);
  }

  lemma OccurrencesAllFour(rows: seq<string>, w: string)
    requires |rows| == 4 && w != []
    ensures OccurrencesAll(rows, w)
         == Occurrences(rows[0], w) + Occurrences(rows[1], w) + Occurrences(rows[2], w) + Occurrences(rows[3], w)
  {
    assert rows[1..][1..][1..] == [rows[3]] && [rows[3]][1..] == [];
    assert OccurrencesAll([rows[3]], w) == Occurrences(rows[3], w);
    assert OccurrencesAll(rows[1..][1..], w) == Occurrences(rows[2], w) + Occurrences(rows[3], w);
  }

  lemma CountAllFour(rows: seq<string>, ch: char)
    requires |rows| == 4
    ensures CountAll(rows, ch) == Count(rows[0], ch) + Count(rows[1], ch) + Count(rows[2], ch) + Count(rows[3], ch)
  {
    assert rows[1..][1..][1..] == [rows[3]] && [rows[3]][1..] == [];
    assert CountAll([rows[3]], ch) == Count(rows[3], ch);
    assert CountAll(rows[1..][1..], ch) == Count(rows[2], ch) + Count(rows[3], ch);
  }

  /** The top border occurs once per card, and so does the bottom border. */
  lemma SmallCardsBorders(cards: seq<Card>)
    requires cards != []
    ensures Occurrences(SmallCards(cards), TopCell) == |cards|
    ensures Occurrences(SmallCards(cards), BottomCell) == |cards|
  {
    var rows := SmallRows(cards);
    forall c ensures '┌' !in RankCell(c) && '┌' !in SuitCell(c) && '┌' !in BottomCellOf(c)
      && '└' !in RankCell(c) && '└' !in SuitCell(c) && '└' !in TopCellOf(c)
    {
      CellsOmit(c);
    }
    RepeatTile(cards, TopCellOf, TopCell);
    RepeatTile(cards, BottomCellOf, BottomCell);

    OccurrencesJoin(rows, TopCell);
    OccurrencesAllFour(rows, TopCell);
    OccurrencesRepeat(TopCell, |cards|);
    TileOmits(cards, RankCell, TopCell);
    TileOmits(cards, SuitCell, TopCell);
    TileOmits(cards, BottomCellOf, TopCell);

    OccurrencesJoin(rows, BottomCell);
    OccurrencesAllFour(rows, BottomCell);
    OccurrencesRepeat(BottomCell, |cards|);
    TileOmits(cards, TopCellOf, BottomCell);
    TileOmits(cards, RankCell, BottomCell);
    TileOmits(cards, SuitCell, BottomCell);
  }

  /** The number of jokers in a hand, counted from the front. */
  function JokerCount(cards: seq<Card>): nat
  {
    if cards == [] then 0 else (if cards[0].IsJoker() then 1 else 0) + JokerCount(cards[1..])
  }

  lemma {:induction false} JokerCountSnoc(cards: seq<Card>, c: Card)
    ensures JokerCount(cards + [c]) == JokerCount(cards) + (if c.IsJoker() then 1 else 0)
  {
    if cards != [] {
      assert (cards + [c])[1..] == cards[1..] + [c];
      JokerCountSnoc(cards[1..], c);
    }
  }

  lemma {:induction false} RankRowJokers(cards: seq<Card>)
    ensures Count(Tile(cards, RankCell), '🃏') == JokerCount(cards)
  {
    if cards != [] {
      var init, last := cards[..|cards| - 1], cards[|cards| - 1];
      RankRowJokers(init);
      CountConcat(Tile(init, RankCell), RankCell(last), '🃏');
      assert init + [last] == cards;
      JokerCountSnoc(init, last);
      RankCellJokers(last);
    }
  }

  lemma RankCellJokers(c: Card)
    ensures Count(RankCell(c), '🃏') == if c.IsJoker() then 1 else 0
  {
    if c.IsJoker() {
      assert RankCell(c) == ['│', ' '] + ['🃏'] + [' ', '│'];
      CountConcat(['│', ' '], ['🃏'], '🃏');
      CountConcat(['│', ' '] + ['🃏'], [' ', '│'], '🃏');
    } else {
      CountZero(RankCell(c), '🃏');
    }
  }

  /** The output shows one joker glyph per joker of the hand. */
  lemma SmallCardsJokers(cards: seq<Card>)
    ensures Count(SmallCards(cards), '🃏') == JokerCount(cards)
  {
    if cards != [] {
      var rows := SmallRows(cards);
      CountJoin(rows, '🃏');
      RankRowJokers(cards);
      CountAllFour(rows, '🃏');
      forall c ensures '🃏' !in SuitCell(c) && '🃏' !in TopCellOf(c) && '🃏' !in BottomCellOf(c)
      {
        CellsOmit(c);
      }
      RepeatTile(cards, TopCellOf, TopCell);
      RepeatTile(cards, BottomCellOf, BottomCell);
      TileAvoids(cards, SuitCell, '🃏');
      TileAvoids(cards, TopCellOf, '🃏');
      TileAvoids(cards, BottomCellOf, '🃏');
      CountZero(rows[0], '🃏');
      CountZero(rows[2], '🃏');
      CountZero(rows[3], '🃏');
    }
  }

  /** Reads a rank cell back. */
  function CellRank(cell: string): Option<Rank>
  {
    if |cell| != 5 then None
    else if cell[1] == ' ' then LabelRank(cell[2..3])
    else LabelRank(cell[1..3])
  }

  /** Reads a suit cell back; the blank cell reads as no suit. */
  function CellSuit(cell: string): Option<Suit>
  {
    if |cell| != 5 then None else GlyphSuit(cell[2..3])
  }

  /** The rank cell shows the card's rank. */
  lemma RankCellRoundTrip(c: Card)
    ensures CellRank(RankCell(c)) == Some(c.rank)
  {
    RankLabelRoundTrip(c.rank);
    var cell := RankCell(c);
    if c.rank == Ten {
      assert cell[1..3] == "10";
    } else if c.rank == Joker {
      assert cell[2..3] == JokerGlyph;
    } else {
      assert cell[2..3] == RankLabel(c.rank);
    }
  }

  /** The suit cell of a well-formed card shows its suit, or none for a
      joker. */
  lemma SuitCellRoundTrip(c: Card)
    requires WellFormed(c)
    ensures CellSuit(SuitCell(c)) == c.suit
  {
    var cell := SuitCell(c);
    if c.rank != Joker {
      SuitGlyphRoundTrip(c.suit.value);
      assert cell[2..3] == SuitGlyph(c.suit.value);
    } else {
      assert cell[2..3] == " ";
    }
  }

  /** Distinct hands of well-formed cards render differently. */
  lemma SmallCardsInjective(a: seq<Card>, b: seq<Card>)
    requires forall i :: 0 <= i < |a| ==> WellFormed(a[i])
    requires forall i :: 0 <= i < |b| ==> WellFormed(b[i])
    requires SmallCards(a) == SmallCards(b)
    ensures a == b
  {
    SmallCardsEmpty(a);
    SmallCardsEmpty(b);
    if a != [] {
      SmallCardsLines(a);
      SmallCardsLines(b);
      assert SmallRows(a) == SmallRows(b);
      SmallCardsCells(a, 0);
      SmallCardsCells(b, 0);
      assert |a| == |b|;
      forall i | 0 <= i < |a|
        ensures a[i] == b[i]
      {
        SmallCardsCells(a, i);
        SmallCardsCells(b, i);
        RankCellRoundTrip(a[i]);
        RankCellRoundTrip(b[i]);
        SuitCellRoundTrip(a[i]);
        SuitCellRoundTrip(b[i]);
      }
    }
  }
}
