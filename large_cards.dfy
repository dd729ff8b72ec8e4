/** The large-format renderer of libs/cards/src/display/large_cards_display.rs
    (`LargeCardsDisplay::to_large_cards` and `get_large_card_representation`):
    every card is drawn as 12 rows of 13 characters, and the cards of a hand
    stand side by side. */
module LargeCards {
  import opened Text
  import opened Cards
  import opened Symbols

  /** What an empty hand renders as. */
  const NoCards: string := "No cards"

  const CardHeight: nat := 12
  const CardWidth: nat := 13

  const TopBorder: string := "╭───────────╮"
  const BottomBorder: string := "╰───────────╯"
  const BlankRow: string := "│           │"

  /** Characters no fixed part of a card may hold: the suit glyphs, which
      are counted, and the line breaks, which separate rows. */
  const Reserved: set<char> := {'♣', '♦', '♥', '♠', '\n', '\r'}

  /** `Reserved` is the suit glyphs of `Symbols` and the two line breaks. */
  lemma ReservedChars()
    ensures Reserved == SuitGlyphChars + {'\n', '\r'}
  {
  }

  /** A piece of a `format!` string: literal text, or a `{}` filled with the
      rank symbol or the suit symbol. */
  datatype Piece = Lit(text: string) | RankSlot | SuitSlot

  /** One row of a card, as its `format!` string. */
  type Template = seq<Piece>

  function PieceText(p: Piece, rank: string, suit: string): string
  {
    match p
    case Lit(x) => x
    case RankSlot => rank
    case SuitSlot => suit
  }

  /** The row a template formats to. */
  function Fill(t: Template, rank: string, suit: string): string
  {
    if t == [] then "" else PieceText(t[0], rank, suit) + Fill(t[1..], rank, suit)
  }

  /** Every row of a table, formatted. */
  function FillAll(ts: seq<Template>, rank: string, suit: string): (rows: seq<string>)
    ensures |rows| == |ts|
    ensures forall k :: 0 <= k < |ts| ==> rows[k] == Fill(ts[k], rank, suit)
  {
    seq(|ts|, k requires 0 <= k < |ts| => Fill(ts[k], rank, suit))
  }

  /** The width of a formatted row, given the widths of the two symbols. */
  function Width(t: Template, rankWidth: nat, suitWidth: nat): nat
  {
    if t == [] then 0
    else
      (match t[0] case Lit(x) => |x| case RankSlot => rankWidth case SuitSlot => suitWidth)
      + Width(t[1..], rankWidth, suitWidth)
  }

  /** How many `{}` of a template take the suit symbol. */
  function SuitSlots(t: Template): nat
  {
    if t == [] then 0 else (if t[0] == SuitSlot then 1 else 0) + SuitSlots(t[1..])
  }

  function SuitSlotsAll(ts: seq<Template>): nat
  {
    if |ts| == 0 then 0 else SuitSlots(ts[0]) + SuitSlotsAll(ts[1..])
  }

  /** A text holds no reserved character. */
  predicate Clean(x: string)
  {
    forall i :: 0 <= i < |x| ==> x[i] !in Reserved
  }

  /** The literal text of a template holds no reserved character. */
  predicate Plain(t: Template)
  {
    t == [] || ((t[0].Lit? ==> Clean(t[0].text)) && Plain(t[1..]))
  }

  /** A row is `CardWidth` wide for a rank symbol of width `rankWidth` and
      a one-character suit symbol, and is plain. */
  predicate RowFits(t: Template, rankWidth: nat)
  {
    Width(t, rankWidth, 1) == CardWidth && Plain(t)
  }

  /** Every row of a table fits. */
  predicate Fits(ts: seq<Template>, rankWidth: nat)
  {
    ts == [] || (RowFits(ts[0], rankWidth) && Fits(ts[1..], rankWidth))
  }

  /** A template opens and closes with a side border. */
  predicate Framed(t: Template)
  {
    t != [] && t[0].Lit? && t[0].text != [] && t[0].text[0] == '│'
    && t[|t| - 1].Lit? && t[|t| - 1].text != [] && t[|t| - 1].text[|t[|t| - 1].text| - 1] == '│'
  }

  predicate AllFramed(ts: seq<Template>)
  {
    ts == [] || (Framed(ts[0]) && AllFramed(ts[1..]))
  }

  /** The interior row shapes the pip layouts are made of. */
  const Blank: Template := [Lit(BlankRow)]
  const Center: Template := [Lit("│     "), SuitSlot, Lit("     │")]
  const Pair: Template := [Lit("│  "), SuitSlot, Lit("     "), SuitSlot, Lit("  │")]
  const Inner: Template := [Lit("│    "), SuitSlot, Lit(" "), SuitSlot, Lit("    │")]
  const AcePip: Template := [Lit("│  |  "), SuitSlot, Lit("  |  │")]
  const Triple: Template := [Lit("│  "), SuitSlot, Lit("  "), SuitSlot, Lit("  "), SuitSlot, Lit("  │")]

  /** The six middle rows per rank: a framed pip for the ace, the pips of a
      number card, the face art of a court card. */
  function Interior(r: Rank): (ts: seq<Template>)
    requires r != Joker
    ensures |ts| == 6
  {
    match r
    case Ace => [Blank, [Lit("│    ___    │")], [Lit("│   /   \\   │")],
                 AcePip, [Lit("│   \\___/   │")], Blank]
    case Two => [Blank, Center, Blank, Blank, Center, Blank]
    case Three => [Blank, Center, Blank, Center, Blank, Center]
    case Four => [Blank, Pair, Blank, Blank, Pair, Blank]
    case Five => [Blank, Pair, Blank, Center, Blank, Pair]
    case Six => [Blank, Pair, Blank, Pair, Blank, Pair]
    case Seven => [Blank, Pair, Blank, Triple, Blank, Pair]
    case Eight => [Blank, Pair, Pair, Blank, Pair, Pair]
    case Nine => [Blank, Inner, Pair, Center, Pair, Inner]
    case Ten => [Blank, Pair, Inner, Pair, Inner, Pair]
    case Jack => [Blank, [Lit("│   _____   │")], [Lit("│  |     |  │")],
                  [Lit("│  | J   |  │")], [Lit("│  |     |  │")], [Lit("│  |_____|  │")]]
    case Queen => [Blank, [Lit("│   _____   │")], [Lit("│  /     \\  │")],
                   [Lit("│  | Q   |  │")], [Lit("│  \\_____/  │")], [Lit("│    /_\\    │")]]
    case King => [Blank, [Lit("│   _____   │")], [Lit("│  |/|\\|\\|  │")],
                  [Lit("│  | K   |  │")], [Lit("│  |\\|\\|/|  │")], [Lit("│  |_____|  │")]]
  }

  /** Top border, rank then suit in the top-left corner. */
  function Head(rank: string): seq<Template>
  {
    [[Lit(TopBorder)],
     if rank == "10" then [Lit("│"), RankSlot, Lit("         │")] else [Lit("│"), RankSlot, Lit("          │")],
     [Lit("│"), SuitSlot, Lit("          │")]]
  }

  /** Suit then rank in the bottom-right corner, bottom border. */
  function Foot(rank: string): seq<Template>
  {
    [[Lit("│          "), SuitSlot, Lit("│")],
     if rank == "10" then [Lit("│         "), RankSlot, Lit("│")] else [Lit("│          "), RankSlot, Lit("│")],
     [Lit(BottomBorder)]]
  }

  /** The twelve rows of a non-joker card of rank `r`. */
  function Layout(r: Rank): (ts: seq<Template>)
    requires r != Joker
    ensures |ts| == CardHeight
  {
    Head(RankLabel(r)) + Interior(r) + Foot(RankLabel(r))
  }

  /** The joker card. */
  const JokerRows: seq<string> := [
    TopBorder,
    "│JOKER      │",
    BlankRow,
    BlankRow,
    "│    ___    │",
    "│   /   \\   │",
    "│  | o o |  │",
    "│  |  >  |  │",
    "│   \\_-_/   │",
    BlankRow,
    "│      JOKER│",
    BottomBorder]

  /** The suit symbol of a card: its glyph, or a space without a suit. */
  function SuitSymbol(suit: Option<Suit>): (sym: string)
    ensures |sym| == 1 && '\n' !in sym && '\r' !in sym
    ensures suit.Some? ==> sym == SuitGlyph(suit.value)
    ensures suit.None? ==> sym == " "
  {
    match suit
    case Some(s) => SuitGlyph(s)
    case None => " "
  }

  /** What `get_large_card_representation` returns. */
  function LargeCard(c: Card): (rows: seq<string>)
    ensures |rows| == CardHeight
  {
    if c.rank == Joker then JokerRows
    else FillAll(Layout(c.rank), RankLabel(c.rank), SuitSymbol(c.suit))
  }

  /** Number of pips in the middle of a card: one for the ace, the value of
      a number card, none on a court card. */
  function PipCount(r: Rank): nat
  {
    match r
    case Ace => 1
    case Two => 2
    case Three => 3
    case Four => 4
    case Five => 5
    case Six => 6
    case Seven => 7
    case Eight => 8
    case Nine => 9
    case Ten => 10
    case Jack => 0
    case Queen => 0
    case King => 0
    case Joker => 0
  }

  lemma {:induction false} TableConcat(a: seq<Template>, b: seq<Template>, rankWidth: nat)
    ensures Fits(a + b, rankWidth) <==> Fits(a, rankWidth) && Fits(b, rankWidth)
    ensures AllFramed(a + b) <==> AllFramed(a) && AllFramed(b)
    ensures SuitSlotsAll(a + b) == SuitSlotsAll(a) + SuitSlotsAll(b)
  {
    if a == [] {
      assert a + b == b;
    } else {
      assert (a + b)[1..] == a[1..] + b;
      TableConcat(a[1..], b, rankWidth);
    }
  }

  lemma TableOne(t: Template, rankWidth: nat)
    ensures Fits([t], rankWidth) <==> RowFits(t, rankWidth)
    ensures AllFramed([t]) <==> Framed(t)
    ensures SuitSlotsAll([t]) == SuitSlots(t)
  {
    assert [t][1..] == [];
  }

  lemma ThreeRows(a: Template, b: Template, c: Template, rankWidth: nat)
    ensures Fits([a, b, c], rankWidth) <==> RowFits(a, rankWidth) && RowFits(b, rankWidth) && RowFits(c, rankWidth)
    ensures AllFramed([a, b]) <==> Framed(a) && Framed(b)
    ensures AllFramed([b, c]) <==> Framed(b) && Framed(c)
    ensures SuitSlotsAll([a, b, c]) == SuitSlots(a) + SuitSlots(b) + SuitSlots(c)
  {
    TableOne(a, rankWidth);
    TableOne(b, rankWidth);
    TableOne(c, rankWidth);
    assert [a, b, c] == [a] + ([b] + [c]);
    assert [a, b] == [a] + [b] && [b, c] == [b] + [c];
    TableConcat([b], [c], rankWidth);
    TableConcat([a], [b, c], rankWidth);
    TableConcat([a], [b], rankWidth);
  }

  lemma SixRows(a: Template, b: Template, c: Template, d: Template, e: Template, f: Template, rankWidth: nat)
    requires RowFits(a, rankWidth) && RowFits(b, rankWidth) && RowFits(c, rankWidth)
    requires RowFits(d, rankWidth) && RowFits(e, rankWidth) && RowFits(f, rankWidth)
    requires Framed(a) && Framed(b) && Framed(c) && Framed(d) && Framed(e) && Framed(f)
    ensures Fits([a, b, c, d, e, f], rankWidth)
    ensures AllFramed([a, b, c, d, e, f])
    ensures SuitSlotsAll([a, b, c, d, e, f])
         == SuitSlots(a) + SuitSlots(b) + SuitSlots(c) + SuitSlots(d) + SuitSlots(e) + SuitSlots(f)
  {
    ThreeRows(a, b, c, rankWidth);
    ThreeRows(d, e, f, rankWidth);
    TableOne(c, rankWidth);
    TableOne(d, rankWidth);
    assert [a, b, c] == [a, b] + [c] && [d, e, f] == [d] + [e, f];
    TableConcat([a, b], [c], rankWidth);
    TableConcat([d], [e, f], rankWidth);
    assert [a, b, c, d, e, f] == [a, b, c] + [d, e, f];
    TableConcat([a, b, c], [d, e, f], rankWidth);
  }

  /** The row shapes fit and are framed; the pip shapes hold one, two or
      three suit symbols. */
  lemma BlankShape()
    ensures Clean(BlankRow) && ArtFacts(BlankRow)
  {
    ArtRow(BlankRow);
  }

  /** The literal text of each pip shape is clean. */
  lemma CenterPlain()
    ensures Plain(Center)
  {
  }

  lemma PairPlain()
    ensures Plain(Pair)
  {
  }

  lemma InnerPlain()
    ensures Plain(Inner)
  {
  }

  lemma AcePipPlain()
    ensures Plain(AcePip)
  {
  }

  lemma TriplePlain()
    ensures Plain(Triple)
  {
  }

  lemma CenterShape()
    ensures RowFits(Center, 1) && Framed(Center) && SuitSlots(Center) == 1
  {
    CenterPlain();
  }

  lemma PairShape()
    ensures RowFits(Pair, 1) && RowFits(Pair, 2) && Framed(Pair) && SuitSlots(Pair) == 2
  {
    PairPlain();
  }

  lemma InnerShape()
    ensures RowFits(Inner, 1) && RowFits(Inner, 2) && Framed(Inner) && SuitSlots(Inner) == 2
  {
    InnerPlain();
  }

  lemma AcePipShape()
    ensures RowFits(AcePip, 1) && Framed(AcePip) && SuitSlots(AcePip) == 1
  {
    AcePipPlain();
  }

  lemma TripleShape()
    ensures RowFits(Triple, 1) && Framed(Triple) && SuitSlots(Triple) == 3
  {
    TriplePlain();
  }

  /** A literal row 13 wide that holds no reserved character. */
  predicate LitFacts(x: string)
  {
    RowFits([Lit(x)], 1) && RowFits([Lit(x)], 2) && SuitSlots([Lit(x)]) == 0
  }

  /** A literal row of art: 13 wide, clean, framed, without a suit symbol. */
  predicate ArtFacts(x: string)
  {
    LitFacts(x) && Framed([Lit(x)])
  }

  lemma LitRow(x: string)
    requires |x| == CardWidth && Clean(x)
    ensures LitFacts(x)
  {
    assert [Lit(x)][1..] == [];
  }

  lemma ArtRow(x: string)
    requires |x| == CardWidth && Clean(x) && x[0] == '│' && x[|x| - 1] == '│'
    ensures ArtFacts(x)
  {
    LitRow(x);
  }

  lemma CrownArt()
    ensures ArtFacts("│   _____   │") && ArtFacts("│  |_____|  │")
  {
    ArtRow("│   _____   │");
    ArtRow("│  |_____|  │");
  }

  lemma AceArt()
    ensures ArtFacts("│    ___    │") && ArtFacts("│   /   \\   │")
  {
    ArtRow("│    ___    │");
    ArtRow("│   /   \\   │");
  }

  lemma AceChin()
    ensures ArtFacts("│   \\___/   │")
  {
    ArtRow("│   \\___/   │");
  }

  lemma JackArt()
    ensures ArtFacts("│  |     |  │") && ArtFacts("│  | J   |  │")
  {
    ArtRow("│  |     |  │");
    ArtRow("│  | J   |  │");
  }

  lemma QueenArt()
    ensures ArtFacts("│  /     \\  │") && ArtFacts("│  | Q   |  │")
  {
    ArtRow("│  /     \\  │");
    ArtRow("│  | Q   |  │");
  }

  lemma QueenChin()
    ensures ArtFacts("│  \\_____/  │") && ArtFacts("│    /_\\    │")
  {
    ArtRow("│  \\_____/  │");
    ArtRow("│    /_\\    │");
  }

  lemma KingArt()
    ensures ArtFacts("│  |/|\\|\\|  │") && ArtFacts("│  | K   |  │")
  {
    ArtRow("│  |/|\\|\\|  │");
    ArtRow("│  | K   |  │");
  }

  lemma KingChin()
    ensures ArtFacts("│  |\\|\\|/|  │")
  {
    ArtRow("│  |\\|\\|/|  │");
  }

  lemma AceInterior()
    ensures Fits(Interior(Ace), 1) && AllFramed(Interior(Ace)) && SuitSlotsAll(Interior(Ace)) == 1
  {
    BlankShape();
    AcePipShape();
    AceArt();
    AceChin();
    SixRows(Blank, [Lit("│    ___    │")], [Lit("│   /   \\   │")],
            AcePip, [Lit("│   \\___/   │")], Blank, 1);
  }

  lemma JackInterior()
    ensures Fits(Interior(Jack), 1) && AllFramed(Interior(Jack)) && SuitSlotsAll(Interior(Jack)) == 0
  {
    BlankShape();
    CrownArt();
    JackArt();
    SixRows(Blank, [Lit("│   _____   │")], [Lit("│  |     |  │")],
            [Lit("│  | J   |  │")], [Lit("│  |     |  │")], [Lit("│  |_____|  │")], 1);
  }

  lemma QueenInterior()
    ensures Fits(Interior(Queen), 1) && AllFramed(Interior(Queen)) && SuitSlotsAll(Interior(Queen)) == 0
  {
    BlankShape();
    CrownArt();
    QueenArt();
    QueenChin();
    SixRows(Blank, [Lit("│   _____   │")], [Lit("│  /     \\  │")],
            [Lit("│  | Q   |  │")], [Lit("│  \\_____/  │")], [Lit("│    /_\\    │")], 1);
  }

  lemma KingInterior()
    ensures Fits(Interior(King), 1) && AllFramed(Interior(King)) && SuitSlotsAll(Interior(King)) == 0
  {
    BlankShape();
    CrownArt();
    KingArt();
    KingChin();
    SixRows(Blank, [Lit("│   _____   │")], [Lit("│  |/|\\|\\|  │")],
            [Lit("│  | K   |  │")], [Lit("│  |\\|\\|/|  │")], [Lit("│  |_____|  │")], 1);
  }

  /** The middle rows of the two to the five. */
  lemma LowPipInterior(r: Rank)
    requires r == Two || r == Three || r == Four || r == Five
    ensures Fits(Interior(r), 1) && AllFramed(Interior(r)) && SuitSlotsAll(Interior(r)) == PipCount(r)
  {
    BlankShape();
    CenterShape();
    PairShape();
    match r {
      case Two => SixRows(Blank, Center, Blank, Blank, Center, Blank, 1);
      case Three => SixRows(Blank, Center, Blank, Center, Blank, Center, 1);
      case Four => SixRows(Blank, Pair, Blank, Blank, Pair, Blank, 1);
      case Five => SixRows(Blank, Pair, Blank, Center, Blank, Pair, 1);
    }
  }

  /** The middle rows of the six to the nine. */
  lemma HighPipInterior(r: Rank)
    requires r == Six || r == Seven || r == Eight || r == Nine
    ensures Fits(Interior(r), 1) && AllFramed(Interior(r)) && SuitSlotsAll(Interior(r)) == PipCount(r)
  {
    BlankShape();
    CenterShape();
    PairShape();
    InnerShape();
    TripleShape();
    match r {
      case Six => SixRows(Blank, Pair, Blank, Pair, Blank, Pair, 1);
      case Seven => SixRows(Blank, Pair, Blank, Triple, Blank, Pair, 1);
      case Eight => SixRows(Blank, Pair, Pair, Blank, Pair, Pair, 1);
      case Nine => SixRows(Blank, Inner, Pair, Center, Pair, Inner, 1);
    }
  }

  /** The middle rows of the ten, whose label is two characters wide. */
  lemma TenInterior()
    ensures Fits(Interior(Ten), 2) && AllFramed(Interior(Ten)) && SuitSlotsAll(Interior(Ten)) == 10
  {
    BlankShape();
    PairShape();
    InnerShape();
    SixRows(Blank, Pair, Inner, Pair, Inner, Pair, 2);
  }

  /** The per-rank middle rows: every row is 13 wide, plain and framed,
      and the suit symbol appears once per pip. */
  lemma InteriorTable(r: Rank)
    requires r != Joker
    ensures Fits(Interior(r), |RankLabel(r)|)
    ensures AllFramed(Interior(r))
    ensures SuitSlotsAll(Interior(r)) == PipCount(r)
  {
    match r {
      case Ace => AceInterior();
      case Two => LowPipInterior(r);
      case Three => LowPipInterior(r);
      case Four => LowPipInterior(r);
      case Five => LowPipInterior(r);
      case Six => HighPipInterior(r);
      case Seven => HighPipInterior(r);
      case Eight => HighPipInterior(r);
      case Nine => HighPipInterior(r);
      case Ten => TenInterior();
      case Jack => JackInterior();
      case Queen => QueenInterior();
      case King => KingInterior();
    }
  }

  /** The borders are clean and 13 wide. */
  lemma TopBorderRow()
    ensures Clean(TopBorder) && LitFacts(TopBorder)
  {
    LitRow(TopBorder);
  }

  lemma BottomBorderRow()
    ensures Clean(BottomBorder) && LitFacts(BottomBorder)
  {
    LitRow(BottomBorder);
  }

  /** A row with one `{}` between two literal texts. */
  lemma SlotRow(a: string, p: Piece, b: string, rankWidth: nat)
    requires !p.Lit? && Clean(a) && Clean(b) && a != [] && b != []
    ensures Width([Lit(a), p, Lit(b)], rankWidth, 1) == |a| + (if p == RankSlot then rankWidth else 1) + |b|
    ensures Plain([Lit(a), p, Lit(b)])
    ensures Framed([Lit(a), p, Lit(b)]) <==> a[0] == '│' && b[|b| - 1] == '│'
    ensures SuitSlots([Lit(a), p, Lit(b)]) == if p == SuitSlot then 1 else 0
  {
    var t := [Lit(a), p, Lit(b)];
    var t1, t2 := [p, Lit(b)], [Lit(b)];
    assert t[1..] == t1 && t1[1..] == t2 && t2[1..] == [];
    assert Width(t2[1..], rankWidth, 1) == 0 && Plain(t2[1..]) && SuitSlots(t2[1..]) == 0;
    assert Width(t2, rankWidth, 1) == |b| && Plain(t2) && SuitSlots(t2) == 0;
    assert Width(t1, rankWidth, 1) == (if p == RankSlot then rankWidth else 1) + |b|;
    assert Plain(t1) && SuitSlots(t1) == if p == SuitSlot then 1 else 0;
  }

  /** The literal texts around the corner symbols. */
  lemma LeftCornerText()
    ensures Clean("│") && Clean("          │") && Clean("         │")
    ensures |"          │"| == 11 && |"         │"| == 10
    ensures "          │"[10] == '│' && "         │"[9] == '│'
  {
  }

  lemma RightCornerText()
    ensures Clean("│") && Clean("│          ") && Clean("│         ")
    ensures |"│          "| == 11 && |"│         "| == 10
    ensures "│          "[0] == '│' && "│         "[0] == '│'
  {
  }

  /** Top border, then rank and suit left-aligned in the top-left corner. */
  lemma HeadTable(rank: string)
    requires rank == "10" || |rank| == 1
    ensures Fits(Head(rank), |rank|) && AllFramed(Head(rank)[1..]) && SuitSlotsAll(Head(rank)) == 1
  {
    TopBorderRow();
    LeftCornerText();
    var suitRow := [Lit("│"), SuitSlot, Lit("          │")];
    SlotRow("│", SuitSlot, "          │", |rank|);
    var rankRow := if rank == "10" then [Lit("│"), RankSlot, Lit("         │")] else [Lit("│"), RankSlot, Lit("          │")];
    if rank == "10" {
      SlotRow("│", RankSlot, "         │", 2);
    } else {
      SlotRow("│", RankSlot, "          │", 1);
    }
    assert Head(rank) == [[Lit(TopBorder)], rankRow, suitRow];
    ThreeRows([Lit(TopBorder)], rankRow, suitRow, |rank|);
    assert Head(rank)[1..] == [rankRow, suitRow];
  }

  /** The two bottom-right corner rows. */
  lemma FootCorners(rank: string)
    requires rank == "10" || |rank| == 1
    ensures var rankRow := if rank == "10" then [Lit("│         "), RankSlot, Lit("│")]
                           else [Lit("│          "), RankSlot, Lit("│")];
      && RowFits([Lit("│          "), SuitSlot, Lit("│")], |rank|) && Framed([Lit("│          "), SuitSlot, Lit("│")])
      && SuitSlots([Lit("│          "), SuitSlot, Lit("│")]) == 1
      && RowFits(rankRow, |rank|) && Framed(rankRow) && SuitSlots(rankRow) == 0
  {
    RightCornerText();
    SlotRow("│          ", SuitSlot, "│", |rank|);
    if rank == "10" {
      SlotRow("│         ", RankSlot, "│", 2);
    } else {
      SlotRow("│          ", RankSlot, "│", 1);
    }
  }

  /** Suit and rank right-aligned in the bottom-right corner, then the
      bottom border. */
  lemma FootTable(rank: string)
    requires rank == "10" || |rank| == 1
    ensures Fits(Foot(rank), |rank|) && AllFramed(Foot(rank)[..2]) && SuitSlotsAll(Foot(rank)) == 1
  {
    BottomBorderRow();
    FootCorners(rank);
    var suitRow := [Lit("│          "), SuitSlot, Lit("│")];
    var rankRow := if rank == "10" then [Lit("│         "), RankSlot, Lit("│")] else [Lit("│          "), RankSlot, Lit("│")];
    assert Foot(rank) == [suitRow, rankRow, [Lit(BottomBorder)]];
    ThreeRows(suitRow, rankRow, [Lit(BottomBorder)], |rank|);
    assert Foot(rank)[..2] == [suitRow, rankRow];
  }

  /** No rank label holds a reserved character. */
  lemma LabelClean(r: Rank)
    ensures Clean(RankLabel(r))
  {
  }

  /** Three corner rows, six middle rows and three corner rows stack into a
      table whose rows all fit and whose rows 1 to 10 are framed. */
  lemma Stack(head: seq<Template>, mid: seq<Template>, foot: seq<Template>, rankWidth: nat)
    requires |head| == 3 && |mid| == 6 && |foot| == 3
    requires Fits(head, rankWidth) && Fits(mid, rankWidth) && Fits(foot, rankWidth)
    requires AllFramed(head[1..]) && AllFramed(mid) && AllFramed(foot[..2])
    ensures Fits(head + mid + foot, rankWidth)
    ensures AllFramed((head + mid + foot)[1..11])
    ensures SuitSlotsAll(head + mid + foot) == SuitSlotsAll(head) + SuitSlotsAll(mid) + SuitSlotsAll(foot)
  {
    TableConcat(head, mid, rankWidth);
    TableConcat(head + mid, foot, rankWidth);
    assert (head + mid + foot)[1..11] == head[1..] + mid + foot[..2];
    TableConcat(head[1..], mid, rankWidth);
    TableConcat(head[1..] + mid, foot[..2], rankWidth);
  }

  /** The whole per-rank table: every row is 13 wide and plain, rows 1 to
      10 are framed, and the suit symbol appears in two corners plus once
      per pip. */
  lemma CardTable(r: Rank)
    requires r != Joker
    ensures Fits(Layout(r), |RankLabel(r)|)
    ensures AllFramed(Layout(r)[1..11])
    ensures SuitSlotsAll(Layout(r)) == PipCount(r) + 2
  {
    var rank := RankLabel(r);
    HeadTable(rank);
    InteriorTable(r);
    FootTable(rank);
    Stack(Head(rank), Interior(r), Foot(rank), |rank|);
  }

  lemma {:induction false} FitsAt(ts: seq<Template>, rankWidth: nat, k: nat)
    requires Fits(ts, rankWidth) && k < |ts|
    ensures RowFits(ts[k], rankWidth)
  {
    if k > 0 {
      FitsAt(ts[1..], rankWidth, k - 1);
    }
  }

  lemma {:induction false} AllFramedAt(ts: seq<Template>, k: nat)
    requires AllFramed(ts) && k < |ts|
    ensures Framed(ts[k])
  {
    if k > 0 {
      AllFramedAt(ts[1..], k - 1);
    }
  }

  /** A formatted row is as wide as its template says. */
  lemma {:induction false} FillWidth(t: Template, rank: string, suit: string)
    ensures |Fill(t, rank, suit)| == Width(t, |rank|, |suit|)
  {
    if t != [] {
      FillWidth(t[1..], rank, suit);
    }
  }

  /** A reserved character shows up in a formatted row only through the
      symbols. */
  lemma {:induction false} FillClean(t: Template, rank: string, suit: string, ch: char)
    requires Plain(t) && ch in Reserved && ch !in rank && ch !in suit
    ensures ch !in Fill(t, rank, suit)
  {
    if t != [] {
      FillClean(t[1..], rank, suit, ch);
    }
  }

  /** A one-character suit symbol shows up once per suit slot. */
  lemma {:induction false} FillCountSuit(t: Template, rank: string, ch: char)
    requires Plain(t) && ch in Reserved && ch !in rank
    ensures Count(Fill(t, rank, [ch]), ch) == SuitSlots(t)
  {
    if t != [] {
      FillCountSuit(t[1..], rank, ch);
      var head := PieceText(t[0], rank, [ch]);
      CountConcat(head, Fill(t[1..], rank, [ch]), ch);
      if t[0].Lit? {
        CountZero(head, ch);
      } else if t[0] == RankSlot {
        CountZero(rank, ch);
      }
    }
  }

  lemma {:induction false} FillAllCountSuit(ts: seq<Template>, rankWidth: nat, rank: string, ch: char)
    requires Fits(ts, rankWidth) && ch in Reserved && ch !in rank
    ensures CountAll(FillAll(ts, rank, [ch]), ch) == SuitSlotsAll(ts)
  {
    if ts != [] {
      FillAllCountSuit(ts[1..], rankWidth, rank, ch);
      FillCountSuit(ts[0], rank, ch);
      assert FillAll(ts, rank, [ch])[1..] == FillAll(ts[1..], rank, [ch]);
    }
  }

  /** A formatted row ends with the text of its last piece. */
  lemma {:induction false} FillEnds(t: Template, rank: string, suit: string)
    requires t != [] && t[|t| - 1].Lit? && t[|t| - 1].text != []
    ensures Fill(t, rank, suit) != []
    ensures Fill(t, rank, suit)[|Fill(t, rank, suit)| - 1] == t[|t| - 1].text[|t[|t| - 1].text| - 1]
  {
    if |t| > 1 {
      FillEnds(t[1..], rank, suit);
    }
  }

  lemma FillFramed(t: Template, rank: string, suit: string)
    requires Framed(t)
    ensures Fill(t, rank, suit) != []
    ensures Fill(t, rank, suit)[0] == '│' && Fill(t, rank, suit)[|Fill(t, rank, suit)| - 1] == '│'
  {
    FillEnds(t, rank, suit);
  }

  /** A row of three pieces. */
  lemma FillThree(a: string, p: Piece, b: string, rank: string, suit: string)
    ensures Fill([Lit(a), p, Lit(b)], rank, suit) == a + PieceText(p, rank, suit) + b
  {
    var t := [Lit(a), p, Lit(b)];
    assert t[1..] == [p, Lit(b)] && t[1..][1..] == [Lit(b)] && t[1..][1..][1..] == [];
    assert Fill([Lit(b)], rank, suit) == b + "" == b;
  }

  lemma JokerArt()
    ensures Clean("│JOKER      │") && Clean("│    ___    │")
  {
  }

  lemma JokerBrow()
    ensures Clean("│   /   \\   │")
  {
  }

  lemma JokerFace()
    ensures Clean("│  | o o |  │") && Clean("│  |  >  |  │")
  {
  }

  lemma JokerChin()
    ensures Clean("│   \\_-_/   │") && Clean("│      JOKER│")
  {
  }

  /** The joker card: 13 wide, clean, framed on rows 1 to 10, with `JOKER`
      on rows 1 and 10 only. */
  lemma JokerTable()
    ensures forall k :: 0 <= k < CardHeight ==> |JokerRows[k]| == CardWidth && Clean(JokerRows[k])
    ensures forall k :: 1 <= k < CardHeight - 1 ==> JokerRows[k][0] == '│' && JokerRows[k][CardWidth - 1] == '│'
    ensures forall k :: 2 <= k < 10 ==> 'J' !in JokerRows[k]
  {
    TopBorderRow();
    BottomBorderRow();
    BlankShape();
    JokerArt();
    JokerBrow();
    JokerFace();
    JokerChin();
    forall k | 0 <= k < CardHeight
      ensures |JokerRows[k]| == CardWidth && Clean(JokerRows[k])
      ensures 1 <= k < CardHeight - 1 ==> JokerRows[k][0] == '│' && JokerRows[k][CardWidth - 1] == '│'
      ensures 2 <= k < 10 ==> 'J' !in JokerRows[k]
    {
      assert k == 0 || k == 1 || k == 2 || k == 3 || k == 4 || k == 5 || k == 6 || k == 7
          || k == 8 || k == 9 || k == 10 || k == 11;
    }
  }

  /** The rows of a table that fits, filled with a clean rank label and a
      one-character suit symbol, are 13 wide without a line break, and rows
      1 to 10 have a side border at both ends. */
  lemma FilledShape(ts: seq<Template>, rank: string, suit: string, k: nat)
    requires |ts| == CardHeight && k < CardHeight
    requires Fits(ts, |rank|) && AllFramed(ts[1..11])
    requires Clean(rank) && |suit| == 1 && '\n' !in suit && '\r' !in suit
    ensures |FillAll(ts, rank, suit)[k]| == CardWidth
    ensures '\n' !in FillAll(ts, rank, suit)[k] && '\r' !in FillAll(ts, rank, suit)[k]
    ensures 1 <= k < CardHeight - 1 ==>
              FillAll(ts, rank, suit)[k][0] == '│' && FillAll(ts, rank, suit)[k][CardWidth - 1] == '│'
  {
    FitsAt(ts, |rank|, k);
    FillWidth(ts[k], rank, suit);
    FillClean(ts[k], rank, suit, '\n');
    FillClean(ts[k], rank, suit, '\r');
    if 1 <= k < CardHeight - 1 {
      AllFramedAt(ts[1..11], k - 1);
      FillFramed(ts[k], rank, suit);
    }
  }

  /** A suited card starts with the top border and ends with the bottom
      border. */
  lemma SuitedBorders(c: Card)
    requires c.rank != Joker
    ensures LargeCard(c)[0] == TopBorder && LargeCard(c)[CardHeight - 1] == BottomBorder
  {
    var rank, suit := RankLabel(c.rank), SuitSymbol(c.suit);
    var ts := Layout(c.rank);
    assert ts[0] == [Lit(TopBorder)] && ts[CardHeight - 1] == [Lit(BottomBorder)];
    assert [Lit(TopBorder)][1..] == [] && [Lit(BottomBorder)][1..] == [];
    assert Fill([Lit(TopBorder)], rank, suit) == TopBorder + "" == TopBorder;
    assert Fill([Lit(BottomBorder)], rank, suit) == BottomBorder + "" == BottomBorder;
  }

  /** Every card is 12 rows of 13 characters, between the rounded top and
      bottom borders, with a side border at both ends of rows 1 to 10 and no
      line break anywhere. */
  lemma LargeCardShape(c: Card, k: nat)
    requires k < CardHeight
    ensures |LargeCard(c)[k]| == CardWidth
    ensures '\n' !in LargeCard(c)[k] && '\r' !in LargeCard(c)[k]
    ensures LargeCard(c)[0] == TopBorder && LargeCard(c)[CardHeight - 1] == BottomBorder
    ensures 1 <= k < CardHeight - 1 ==> LargeCard(c)[k][0] == '│' && LargeCard(c)[k][CardWidth - 1] == '│'
  {
    if c.rank == Joker {
      JokerTable();
    } else {
      CardTable(c.rank);
      LabelClean(c.rank);
      FilledShape(Layout(c.rank), RankLabel(c.rank), SuitSymbol(c.suit), k);
      SuitedBorders(c);
    }
  }

  /** Nine and ten spaces, as the corner templates spell them out. */
  lemma CornerSpaces()
    ensures Spaces(9) + "│" == "         │" && Spaces(10) + "│" == "          │"
    ensures "│" + Spaces(9) == "│         " && "│" + Spaces(10) == "│          "
  {
    assert Spaces(9) == "         " && Spaces(10) == "          ";
  }

  /** The rank label is left-aligned on row 1 and right-aligned on row 10. */
  lemma LargeCardRankCorners(c: Card)
    requires c.rank != Joker
    ensures var rank := RankLabel(c.rank);
      && LargeCard(c)[1] == "│" + rank + (Spaces(CardWidth - 2 - |rank|) + "│")
      && LargeCard(c)[10] == "│" + Spaces(CardWidth - 2 - |rank|) + rank + "│"
  {
    var rank, suit := RankLabel(c.rank), SuitSymbol(c.suit);
    CornerSpaces();
    if c.rank == Ten {
      FillThree("│", RankSlot, "         │", rank, suit);
      FillThree("│         ", RankSlot, "│", rank, suit);
    } else {
      FillThree("│", RankSlot, "          │", rank, suit);
      FillThree("│          ", RankSlot, "│", rank, suit);
    }
  }

  /** The suit symbol is left-aligned on row 2 and right-aligned on row 9. */
  lemma LargeCardSuitCorners(c: Card)
    requires c.rank != Joker
    ensures var suit := SuitSymbol(c.suit);
      && LargeCard(c)[2] == "│" + suit + (Spaces(CardWidth - 3) + "│")
      && LargeCard(c)[9] == "│" + Spaces(CardWidth - 3) + suit + "│"
  {
    var rank, suit := RankLabel(c.rank), SuitSymbol(c.suit);
    CornerSpaces();
    FillThree("│", SuitSlot, "          │", rank, suit);
    FillThree("│          ", SuitSlot, "│", rank, suit);
  }

  /** The ten's corner rows, as formatted. */
  lemma TenCornerRows(suit: string)
    ensures Fill([Lit("│"), RankSlot, Lit("         │")], "10", suit) == "│10         │"
    ensures Fill([Lit("│         "), RankSlot, Lit("│")], "10", suit) == "│         10│"
  {
    FillThree("│", RankSlot, "         │", "10", suit);
    FillThree("│         ", RankSlot, "│", "10", suit);
  }

  /** The ten's corners. */
  lemma LargeCardTen(s: Option<Suit>)
    ensures LargeCard(Card(Ten, s))[1] == "│10         │"
    ensures LargeCard(Card(Ten, s))[10] == "│         10│"
  {
    TenCornerRows(SuitSymbol(s));
  }

  /** The count of suit symbols in a suited card: two corners plus one per
      pip, so 3 for an ace, the value plus 2 for two to ten, 2 for a court
      card. */
  lemma LargeCardSuitCount(r: Rank, s: Suit)
    requires r != Joker
    ensures CountAll(LargeCard(Card(r, Some(s))), SuitGlyph(s)[0]) == PipCount(r) + 2
  {
    GlyphReserved(s);
    CardTable(r);
    LabelClean(r);
    FilledSuitCount(Layout(r), RankLabel(r), SuitGlyph(s)[0]);
  }

  /** A suit glyph is one reserved character. */
  lemma GlyphReserved(s: Suit)
    ensures SuitGlyph(s) == [SuitGlyph(s)[0]] && SuitGlyph(s)[0] in Reserved
  {
  }

  /** A table that fits, filled with a clean rank label and a one-character
      reserved suit symbol, holds that symbol once per suit slot. */
  lemma FilledSuitCount(ts: seq<Template>, rank: string, ch: char)
    requires Fits(ts, |rank|) && Clean(rank) && ch in Reserved
    ensures CountAll(FillAll(ts, rank, [ch]), ch) == SuitSlotsAll(ts)
  {
    FillAllCountSuit(ts, |rank|, rank, ch);
  }

  /** `JOKER` twice in the joker card: once on row 1, once on row 10. */
  lemma JokerWordTop()
    ensures Occurrences("│JOKER      │", "JOKER") == 1
  {
    var top := "│JOKER      │";
    assert top[..5][0] != 'J' && top[1..][..5] == "JOKER";
    OccurrencesAbsent(top[1..][5..], "JOKER");
  }

  lemma JokerWordBottom()
    ensures Occurrences("│      JOKER│", "JOKER") == 1
  {
    var bottom := "│      JOKER│";
    assert 'J' !in bottom[..7];
    OccurrencesSkip(bottom, "JOKER", 7);
    assert bottom[7..][..5] == "JOKER";
    OccurrencesShort(bottom[7..][5..], "JOKER");
  }

  /** Twelve rows holding `w` once on rows 1 and 10 and nowhere else hold
      it twice. */
  lemma TwoWordRows(rows: seq<string>, w: string)
    requires |rows| == CardHeight && w != []
    requires Occurrences(rows[1], w) == 1 && Occurrences(rows[10], w) == 1
    requires forall k :: 0 <= k < |rows| && k != 1 && k != 10 ==> w[0] !in rows[k]
    ensures OccurrencesAll(rows, w) == 2
  {
    var a, b, c, d, e := [rows[0]], [rows[1]], rows[2..10], [rows[10]], [rows[11]];
    assert rows == a + b + c + d + e;
    OccurrencesAllConcat(a + b + c + d, e, w);
    OccurrencesAllConcat(a + b + c, d, w);
    OccurrencesAllConcat(a + b, c, w);
    OccurrencesAllConcat(a, b, w);
    OccurrencesAllAbsent(a, w);
    OccurrencesAllAbsent(c, w);
    OccurrencesAllAbsent(e, w);
    assert b[1..] == [] && d[1..] == [];
  }

  /** Where `JOKER` is on the joker card, and where it is not. */
  lemma JokerWordRowTop(rows: seq<string>)
    requires rows == JokerRows
    ensures Occurrences(rows[1], "JOKER") == 1
  {
    JokerWordTop();
  }

  lemma JokerWordRowBottom(rows: seq<string>)
    requires rows == JokerRows
    ensures Occurrences(rows[10], "JOKER") == 1
  {
    JokerWordBottom();
  }

  lemma JokerOtherRows(rows: seq<string>)
    requires rows == JokerRows
    ensures forall k :: 0 <= k < |rows| && k != 1 && k != 10 ==> 'J' !in rows[k]
  {
    JokerTable();
    assert 'J' !in TopBorder && 'J' !in BottomBorder;
  }

  /** The joker card holds `JOKER` exactly twice. */
  lemma JokerCardWord(rows: seq<string>)
    requires rows == JokerRows
    ensures OccurrencesAll(rows, "JOKER") == 2
  {
    JokerWordRowTop(rows);
    JokerWordRowBottom(rows);
    JokerOtherRows(rows);
    TwoWordRows(rows, "JOKER");
  }

  /** The joker card holds no suit glyph. */
  lemma JokerCardNoSuit(rows: seq<string>, g: char)
    requires rows == JokerRows && g in SuitGlyphChars
    ensures CountAll(rows, g) == 0
  {
    JokerTable();
    CountAllAbsent(rows, g);
  }

  /** Row `k` of every card, as a cell function for `Tile`. */
  function RowCell(k: nat): Card -> string
    requires k < CardHeight
  {
    (c: Card) => LargeCard(c)[k]
  }

  /** Row `k` of a hand: row `k` of every card, side by side in hand order. */
  function LargeRow(cards: seq<Card>, k: nat): string
    requires k < CardHeight
  {
    Tile(cards, RowCell(k))
  }

  function LargeRows(cards: seq<Card>): (rows: seq<string>)
    ensures |rows| == CardHeight
  {
    seq(CardHeight, k requires 0 <= k < CardHeight => LargeRow(cards, k))
  }

  /** What `to_large_cards` returns. */
  function LargeCards(cards: seq<Card>): string
  {
    if cards == [] then NoCards else Join(LargeRows(cards), "\n")
  }

  /** Every card row of row `k` is 13 wide and holds no line break. */
  lemma RowCells(k: nat)
    requires k < CardHeight
    ensures forall c :: |RowCell(k)(c)| == CardWidth
    ensures forall c :: '\n' !in RowCell(k)(c) && '\r' !in RowCell(k)(c)
  {
    forall c
      ensures |RowCell(k)(c)| == CardWidth && '\n' !in RowCell(k)(c) && '\r' !in RowCell(k)(c)
    {
      LargeCardShape(c, k);
    }
  }

  /** Each of the 12 rows of a hand holds 13 characters per card, and the
      `i`-th 13-character cell of row `k` is row `k` of the `i`-th card. */
  lemma LargeCardsCells(cards: seq<Card>, k: nat, i: nat)
    requires k < CardHeight && i < |cards|
    ensures |LargeRows(cards)[k]| == CardWidth * |cards|
    ensures LargeRows(cards)[k][CardWidth * i .. CardWidth * i + CardWidth] == LargeCard(cards[i])[k]
  {
    RowCells(k);
    TileCell(cards, RowCell(k), CardWidth, i);
  }

  /** A hand renders as exactly 12 lines, line `k` being `LargeRow(cards, k)`. */
  lemma LargeCardsLines(cards: seq<Card>)
    requires cards != []
    ensures Lines(LargeCards(cards)) == LargeRows(cards)
    ensures |Lines(LargeCards(cards))| == CardHeight
  {
    var rows := LargeRows(cards);
    forall k | 0 <= k < CardHeight
      ensures '\n' !in rows[k] && '\r' !in rows[k]
    {
      RowCells(k);
      TileAvoids(cards, RowCell(k), '\n');
      TileAvoids(cards, RowCell(k), '\r');
    }
    LargeCardsCells(cards, CardHeight - 1, 0);
    LinesJoin(rows);
  }

  /** The output is `"No cards"` exactly for an empty hand. */
  lemma LargeCardsEmpty(cards: seq<Card>)
    ensures LargeCards(cards) == NoCards <==> cards == []
  {
    if cards != [] {
      var rows := LargeRows(cards);
      LargeCardsCells(cards, 0, 0);
      LargeCardShape(cards[0], 0);
      assert rows[0][..CardWidth] == TopBorder;
      assert Join(rows, "\n") == rows[0] + "\n" + Join(rows[1..], "\n");
      assert LargeCards(cards)[0] == TopBorder[0] != NoCards[0];
    }
  }

  /** A hand of one card renders as that card's rows. */
  lemma LargeRowsOne(c: Card)
    ensures LargeRows([c]) == LargeCard(c)
    ensures LargeCards([c]) == Join(LargeCard(c), "\n")
  {
    forall k | 0 <= k < CardHeight
      ensures LargeRows([c])[k] == LargeCard(c)[k]
    {
      TileOne(c, RowCell(k));
    }
  }

  /** A suited card shows its suit glyph in its two corners and once per
      pip: 3 times for an ace, the value plus 2 for two to ten, twice for a
      court card. */
  lemma LargeCardsSuitCount(r: Rank, s: Suit)
    requires r != Joker
    ensures Count(LargeCards([Card(r, Some(s))]), SuitGlyph(s)[0]) == PipCount(r) + 2
  {
    LargeRowsOne(Card(r, Some(s)));
    CountJoin(LargeCard(Card(r, Some(s))), SuitGlyph(s)[0]);
    LargeCardSuitCount(r, s);
  }

  /** The text of a one-card hand holds a word or a character that holds
      no line break as often as the card's rows do. */
  lemma OneCardText(c: Card, w: string, g: char)
    requires w != [] && '\n' !in w && g != '\n'
    ensures Occurrences(LargeCards([c]), w) == OccurrencesAll(LargeCard(c), w)
    ensures Count(LargeCards([c]), g) == CountAll(LargeCard(c), g)
  {
    LargeRowsOne(c);
    OccurrencesJoin(LargeCard(c), w);
    CountJoin(LargeCard(c), g);
  }

  /** The joker card's rows hold `JOKER` exactly twice and no suit glyph. */
  lemma JokerCardText(c: Card, g: char)
    requires c.rank == Joker && g in SuitGlyphChars
    ensures OccurrencesAll(LargeCard(c), "JOKER") == 2 && CountAll(LargeCard(c), g) == 0
  {
    JokerCardWord(LargeCard(c));
    JokerCardNoSuit(LargeCard(c), g);
  }

  /** A joker renders with `JOKER` exactly twice and no suit glyph. */
  lemma LargeCardsJoker(c: Card, g: char)
    requires c.rank == Joker && g in SuitGlyphChars
    ensures Occurrences(LargeCards([c]), "JOKER") == 2
    ensures Count(LargeCards([c]), g) == 0
  {
    OneCardText(c, "JOKER", g);
    JokerCardText(c, g);
  }

  lemma FillAllConcat(a: seq<Template>, b: seq<Template>, rank: string, suit: string)
    ensures FillAll(a + b, rank, suit) == FillAll(a, rank, suit) + FillAll(b, rank, suit)
  {
  }

  /** The three top rows, formatted. */
  lemma HeadFilled(rank: string, suit: string)
    ensures FillAll(Head(rank), rank, suit)
         == [TopBorder,
             if rank == "10" then "│" + rank + "         │" else "│" + rank + "          │",
             "│" + suit + "          │"]
  {
    assert [Lit(TopBorder)][1..] == [];
    assert Fill([Lit(TopBorder)], rank, suit) == TopBorder + "" == TopBorder;
    FillThree("│", SuitSlot, "          │", rank, suit);
    if rank == "10" {
      FillThree("│", RankSlot, "         │", rank, suit);
    } else {
      FillThree("│", RankSlot, "          │", rank, suit);
    }
  }

  /** The three bottom rows, formatted. */
  lemma FootFilled(rank: string, suit: string)
    ensures FillAll(Foot(rank), rank, suit)
         == ["│          " + suit + "│",
             if rank == "10" then "│         " + rank + "│" else "│          " + rank + "│",
             BottomBorder]
  {
    assert [Lit(BottomBorder)][1..] == [];
    assert Fill([Lit(BottomBorder)], rank, suit) == BottomBorder + "" == BottomBorder;
    FillThree("│          ", SuitSlot, "│", rank, suit);
    if rank == "10" {
      FillThree("│         ", RankSlot, "│", rank, suit);
    } else {
      FillThree("│          ", RankSlot, "│", rank, suit);
    }
  }

  /** `get_large_card_representation`: pushes the top border, the corner
      rows, the six middle rows of the rank's table and the bottom rows; a
      joker gets the joker card instead. */
  method GetLargeCardRepresentation(card: Card) returns (lines: seq<string>)
    ensures lines == LargeCard(card)
  {
    lines := [];
    lines := lines + [TopBorder];
    var rankSymbol := RankLabel(card.rank);
    var suitSymbol: string;
    match card.suit {
      case Some(s) => suitSymbol := SuitGlyph(s);
      case None => suitSymbol := " ";
    }
    if card.rank == Joker {
      return JokerRows;
    }
    if rankSymbol == "10" {
      lines := lines + ["│" + rankSymbol + "         │"];
    } else {
      lines := lines + ["│" + rankSymbol + "          │"];
    }
    lines := lines + ["│" + suitSymbol + "          │"];
    HeadFilled(rankSymbol, suitSymbol);
    assert lines == FillAll(Head(rankSymbol), rankSymbol, suitSymbol);

    lines := lines + FillAll(Interior(card.rank), rankSymbol, suitSymbol);

    lines := lines + ["│          " + suitSymbol + "│"];
    if rankSymbol == "10" {
      lines := lines + ["│         " + rankSymbol + "│"];
    } else {
      lines := lines + ["│          " + rankSymbol + "│"];
    }
    lines := lines + [BottomBorder];
    FootFilled(rankSymbol, suitSymbol);
    FillAllConcat(Head(rankSymbol), Interior(card.rank), rankSymbol, suitSymbol);
    FillAllConcat(Head(rankSymbol) + Interior(card.rank), Foot(rankSymbol), rankSymbol, suitSymbol);
  }

  /** The padding loop of `to_large_cards`: appends blank rows, and the
      bottom border at row 11, until there are 12 rows. */
  method PadToHeight(lines: seq<string>) returns (padded: seq<string>)
    ensures |padded| == if |lines| < CardHeight then CardHeight else |lines|
    ensures padded[..|lines|] == lines
    ensures forall k :: |lines| <= k < |padded| ==>
              padded[k] == if k == CardHeight - 1 then BottomBorder else BlankRow
  {
    padded := lines;
    while |padded| < CardHeight
      invariant |lines| <= |padded| <= if |lines| < CardHeight then CardHeight else |lines|
      invariant padded[..|lines|] == lines
      invariant forall k :: |lines| <= k < |padded| ==>
                  padded[k] == if k == CardHeight - 1 then BottomBorder else BlankRow
      decreases CardHeight - |padded|
    {
      if |padded| == CardHeight - 1 {
        padded := padded + [BottomBorder];
      } else {
        padded := padded + [BlankRow];
      }
    }
  }

  /** Appending a card to a hand appends its row `k` to row `k`. */
  lemma LargeRowSnoc(cards: seq<Card>, j: nat, k: nat)
    requires j < |cards| && k < CardHeight
    ensures LargeRow(cards[..j + 1], k) == LargeRow(cards[..j], k) + LargeCard(cards[j])[k]
  {
    assert cards[..j + 1] == cards[..j] + [cards[j]];
    TileSnoc(cards[..j], cards[j], RowCell(k));
  }

  lemma LargeRowsAll(rows: seq<string>, cards: seq<Card>)
    requires |rows| == CardHeight
    requires forall k :: 0 <= k < CardHeight ==> rows[k] == LargeRow(cards, k)
    ensures rows == LargeRows(cards)
  {
  }

  /** The inner loop of `to_large_cards`: appends line `i` of a card to
      output row `i`, for each of the card's lines below the card height. */
  method AppendCard(resultLines: array<string>, cardLines: seq<string>)
    requires resultLines.Length == CardHeight
    modifies resultLines
    ensures forall k :: 0 <= k < CardHeight ==>
              resultLines[k] == if k < |cardLines| then old(resultLines[k]) + cardLines[k] else old(resultLines[k])
  {
    for i := 0 to |cardLines|
      invariant forall k :: 0 <= k < CardHeight ==>
                  resultLines[k] == if k < i && k < |cardLines| then old(resultLines[k]) + cardLines[k] else old(resultLines[k])
    {
      if i < CardHeight {
        resultLines[i] := resultLines[i] + cardLines[i];
      }
    }
  }

  /** `to_large_cards`: `"No cards"` for an empty hand; otherwise twelve
      output rows, each card appending its row `i` to output row `i`. */
  method ToLargeCards(cards: seq<Card>) returns (result: string)
    ensures result == LargeCards(cards)
  {
    if cards == [] {
      return "No cards";
    }
    var resultLines := new string[CardHeight](_ => "");
    for j := 0 to |cards|
      invariant forall k :: 0 <= k < CardHeight ==> resultLines[k] == LargeRow(cards[..j], k)
    {
      var cardLines := GetLargeCardRepresentation(cards[j]);
      cardLines := PadToHeight(cardLines);
      AppendCard(resultLines, cardLines);
      forall k | 0 <= k < CardHeight
        ensures resultLines[k] == LargeRow(cards[..j + 1], k)
      {
        LargeRowSnoc(cards, j, k);
      }
    }
    assert cards[..|cards|] == cards;
    LargeRowsAll(resultLines[..], cards);
    result := Join(resultLines[..], "\n");
  }
}
