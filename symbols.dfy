/** The symbol mapping of libs/cards/src/display/mod.rs (`UnicodeDisplay`):
    one glyph per suit, one label per rank, and a card's short form. */
module Symbols {
  import opened Cards

  /** The joker glyph U+1F0CF, one `char`. */
  const JokerGlyph: string := "🃏"

  /** `Suit::to_unicode`. */
  function SuitGlyph(s: Suit): (g: string)
    ensures |g| == 1
  {
    match s
    case Clubs => "♣"
    case Diamonds => "♦"
    case Hearts => "♥"
    case Spades => "♠"
  }

  /** The four suit glyphs as characters. */
  const SuitGlyphChars: set<char> := {'♣', '♦', '♥', '♠'}

  /** `Rank::to_unicode`. */
  function RankLabel(r: Rank): (text: string)
    ensures |text| == if r == Ten then 2 else 1
  {
    match r
    case Ace => "A"
    case Two => "2"
    case Three => "3"
    case Four => "4"
    case Five => "5"
    case Six => "6"
    case Seven => "7"
    case Eight => "8"
    case Nine => "9"
    case Ten => "10"
    case Jack => "J"
    case Queen => "Q"
    case King => "K"
    case Joker => JokerGlyph
  }

  /** `Card::to_unicode`: the joker glyph for a joker whatever its suit field,
      rank label then suit glyph for a suited card, `"?"` otherwise. */
  function CardUnicode(c: Card): (u: string)
    ensures u != []
    ensures forall i :: 0 <= i < |u| ==> !IsWhitespace(u[i])
  {
    if c.rank == Joker then JokerGlyph
    else match c.suit
      case Some(s) => RankLabel(c.rank) + SuitGlyph(s)
      case None => "?"
  }

  /** Rust's `char::is_whitespace`: the Unicode White_Space property. */
  predicate IsWhitespace(ch: char)
  {
    ('\t' <= ch <= '\r') || ch == ' ' || ch == '\U{0085}' || ch == '\U{00A0}' || ch == '\U{1680}'
    || ('\U{2000}' <= ch <= '\U{200A}') || ch == '\U{2028}' || ch == '\U{2029}'
    || ch == '\U{202F}' || ch == '\U{205F}' || ch == '\U{3000}'
  }

  /** Reads a suit glyph back. */
  function GlyphSuit(g: string): Option<Suit>
  {
    if g == "♣" then Some(Clubs)
    else if g == "♦" then Some(Diamonds)
    else if g == "♥" then Some(Hearts)
    else if g == "♠" then Some(Spades)
    else None
  }

  /** Reads a rank label back. */
  function LabelRank(text: string): Option<Rank>
  {
    if text == "A" then Some(Ace)
    else if text == "2" then Some(Two)
    else if text == "3" then Some(Three)
    else if text == "4" then Some(Four)
    else if text == "5" then Some(Five)
    else if text == "6" then Some(Six)
    else if text == "7" then Some(Seven)
    else if text == "8" then Some(Eight)
    else if text == "9" then Some(Nine)
    else if text == "10" then Some(Ten)
    else if text == "J" then Some(Jack)
    else if text == "Q" then Some(Queen)
    else if text == "K" then Some(King)
    else if text == JokerGlyph then Some(Joker)
    else None
  }

  /** Reads a card's short form back; `"?"` and anything else that no
      well-formed card produces reads as `None`. */
  function ParseCardUnicode(u: string): Option<Card>
  {
    if u == JokerGlyph then Some(Card(Joker, None))
    else if |u| < 2 then None
    else match (LabelRank(u[..|u| - 1]), GlyphSuit(u[|u| - 1..]))
      case (Some(r), Some(s)) => if r == Joker then None else Some(Card(r, Some(s)))
      case _ => None
  }

  /** The suit mapping is one-to-one onto the four glyphs ♣ ♦ ♥ ♠. */
  lemma SuitGlyphRoundTrip(s: Suit)
    ensures GlyphSuit(SuitGlyph(s)) == Some(s)
    ensures SuitGlyph(s)[0] in SuitGlyphChars
  {
  }

  lemma SuitGlyphOnto(ch: char)
    requires ch in SuitGlyphChars
    ensures exists s :: SuitGlyph(s) == [ch]
  {
    if ch == '♣' {
      assert SuitGlyph(Clubs) == [ch];
    } else if ch == '♦' {
      assert SuitGlyph(Diamonds) == [ch];
    } else if ch == '♥' {
      assert SuitGlyph(Hearts) == [ch];
    } else {
      assert SuitGlyph(Spades) == [ch];
    }
  }

  lemma SuitGlyphInjective(a: Suit, b: Suit)
    ensures SuitGlyph(a) == SuitGlyph(b) <==> a == b
  {
    SuitGlyphRoundTrip(a);
    SuitGlyphRoundTrip(b);
  }

  /** Every rank label reads back as its rank, so the labels are pairwise
      distinct. */
  lemma RankLabelRoundTrip(r: Rank)
    ensures LabelRank(RankLabel(r)) == Some(r)
  {
  }

  lemma RankLabelInjective(a: Rank, b: Rank)
    ensures RankLabel(a) == RankLabel(b) <==> a == b
  {
    RankLabelRoundTrip(a);
    RankLabelRoundTrip(b);
  }

  /** A well-formed card's short form reads back as the card, so distinct
      well-formed cards have distinct short forms. */
  lemma CardUnicodeRoundTrip(c: Card)
    requires WellFormed(c)
    ensures ParseCardUnicode(CardUnicode(c)) == Some(c)
  {
    if c.rank != Joker {
      var name, glyph := RankLabel(c.rank), SuitGlyph(c.suit.value);
      var u := name + glyph;
      assert u[..|u| - 1] == name && u[|u| - 1..] == glyph;
      RankLabelRoundTrip(c.rank);
      SuitGlyphRoundTrip(c.suit.value);
    }
  }

  lemma CardUnicodeInjective(c: Card, d: Card)
    requires WellFormed(c) && WellFormed(d)
    ensures CardUnicode(c) == CardUnicode(d) <==> c == d
  {
    CardUnicodeRoundTrip(c);
    CardUnicodeRoundTrip(d);
  }

  /** The short form is the joker glyph exactly for jokers; a suitless
      non-joker shows `"?"`, which no well-formed card shows. */
  lemma CardUnicodeJoker(c: Card)
    ensures c.IsJoker() <==> CardUnicode(c) == JokerGlyph
    ensures !c.IsJoker() && c.suit == None ==> CardUnicode(c) == "?"
    ensures ParseCardUnicode("?") == None
  {
  }
}
