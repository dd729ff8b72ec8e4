/** The card domain of libs/cards/src/lib.rs: suits, ranks, cards and the
    deck. The crate's `jokers` cargo feature is the `jokers` flag a deck is
    built with; with the flag off no card of rank `Joker` is ever made. */
module Cards {

  datatype Option<T> = None | Some(value: T)

  datatype Suit = Clubs | Diamonds | Hearts | Spades

  /** `Joker` exists only when the `jokers` feature is on. */
  datatype Rank = Ace | Two | Three | Four | Five | Six | Seven | Eight | Nine | Ten
                | Jack | Queen | King | Joker

  /** A card; `suit` is `None` for a joker. */
  datatype Card = Card(rank: Rank, suit: Option<Suit>)
  {
    /** `Card::is_joker`. */
    predicate IsJoker()
    {
      rank == Joker
    }
  }

  /** The rank exists in a build whose `jokers` feature is `jokers`. */
  predicate RankEnabled(r: Rank, jokers: bool)
  {
    r != Joker || jokers
  }

  /** The domain invariant: a card has a suit exactly when it is not a joker. */
  predicate WellFormed(c: Card)
  {
    c.suit.None? <==> c.rank == Joker
  }

  /** `Card::new` stores its arguments as they are. */
  function NewCard(rank: Rank, suit: Option<Suit>): (c: Card)
    ensures c.rank == rank && c.suit == suit
    ensures c.IsJoker() <==> rank == Joker
  {
    Card(rank, suit)
  }

  /** The order of the outer loop of `Deck::new`. */
  const SuitOrder: seq<Suit> := [Clubs, Diamonds, Hearts, Spades]

  /** The order of the inner loop of `Deck::new`. */
  const RankOrder: seq<Rank> := [Ace, Two, Three, Four, Five, Six, Seven, Eight, Nine, Ten, Jack, Queen, King]

  /** The thirteen cards of one suit, Ace to King. */
  function SuitRun(s: Suit): seq<Card>
  {
    seq(13, j requires 0 <= j < 13 => Card(RankOrder[j], Some(s)))
  }

  /** The runs of the first `i` suits of `SuitOrder`, one after the other. */
  function StandardCards(i: nat): seq<Card>
    requires i <= 4
  {
    if i == 0 then [] else StandardCards(i - 1) + SuitRun(SuitOrder[i - 1])
  }

  /** What `Deck::new` holds: the 52 suited cards, then two jokers when the
      feature is on. */
  function FullDeck(jokers: bool): seq<Card>
  {
    StandardCards(|SuitOrder|) + (if jokers then [Card(Joker, None), Card(Joker, None)] else [])
  }

  lemma {:induction false} StandardCardsSize(i: nat)
    requires i <= 4
    ensures |StandardCards(i)| == 13 * i
  {
    if i > 0 {
      StandardCardsSize(i - 1);
    }
  }

  /** Position `k` of the first `i` runs holds rank `k % 13` of suit `k / 13`. */
  lemma {:induction false} StandardCardsAt(i: nat, k: nat)
    requires i <= 4 && k < 13 * i
    ensures |StandardCards(i)| == 13 * i
    ensures StandardCards(i)[k] == Card(RankOrder[k % 13], Some(SuitOrder[k / 13]))
  {
    StandardCardsSize(i);
    StandardCardsSize(i - 1);
    if k < 13 * (i - 1) {
      StandardCardsAt(i - 1, k);
    } else {
      assert k / 13 == i - 1;
      assert StandardCards(i)[k] == SuitRun(SuitOrder[i - 1])[k - 13 * (i - 1)];
    }
  }

  /** `Deck::new` yields 52 cards, or 54 with jokers. */
  lemma FullDeckSize(jokers: bool)
    ensures |FullDeck(jokers)| == if jokers then 54 else 52
  {
    StandardCardsSize(4);
  }

  /** The order of `Deck::new`: suits Clubs, Diamonds, Hearts, Spades, each
      with ranks Ace to King, then the jokers, without a suit. */
  lemma FullDeckOrder(jokers: bool, k: nat)
    requires k < |FullDeck(jokers)|
    ensures k < 52 ==> FullDeck(jokers)[k] == Card(RankOrder[k % 13], Some(SuitOrder[k / 13]))
    ensures k >= 52 ==> jokers && FullDeck(jokers)[k] == Card(Joker, None)
  {
    FullDeckSize(jokers);
    if k < 52 {
      StandardCardsAt(4, k);
    }
  }

  function SuitIndex(s: Suit): nat
  {
    match s
    case Clubs => 0
    case Diamonds => 1
    case Hearts => 2
    case Spades => 3
  }

  function RankIndex(r: Rank): nat
  {
    match r
    case Ace => 0
    case Two => 1
    case Three => 2
    case Four => 3
    case Five => 4
    case Six => 5
    case Seven => 6
    case Eight => 7
    case Nine => 8
    case Ten => 9
    case Jack => 10
    case Queen => 11
    case King => 12
    case Joker => 13
  }

  lemma RankOrderIndex(r: Rank)
    requires r != Joker
    ensures RankIndex(r) < 13 && RankOrder[RankIndex(r)] == r
  {
  }

  lemma RankIndexOrder(j: nat)
    requires j < 13
    ensures RankIndex(RankOrder[j]) == j
  {
    assert j == 0 || j == 1 || j == 2 || j == 3 || j == 4 || j == 5 || j == 6
        || j == 7 || j == 8 || j == 9 || j == 10 || j == 11 || j == 12;
  }

  lemma SuitIndexOrder(j: nat)
    requires j < 4
    ensures SuitIndex(SuitOrder[j]) == j
  {
    assert j == 0 || j == 1 || j == 2 || j == 3;
  }

  /** Every suited card is in a new deck, exactly once: at position
      13 * suit + rank, and at no other. */
  lemma FullDeckHasEachCardOnce(jokers: bool, r: Rank, s: Suit, k: nat)
    requires r != Joker && k < |FullDeck(jokers)|
    ensures FullDeck(jokers)[k] == Card(r, Some(s)) <==> k == 13 * SuitIndex(s) + RankIndex(r)
  {
    RankOrderIndex(r);
    var p := 13 * SuitIndex(s) + RankIndex(r);
    FullDeckOrder(jokers, k);
    if k < 52 {
      RankIndexOrder(k % 13);
      SuitIndexOrder(k / 13);
      if FullDeck(jokers)[k] == Card(r, Some(s)) {
        assert RankIndex(r) == k % 13 && SuitIndex(s) == k / 13;
      }
    }
    if k == p {
      assert p % 13 == RankIndex(r) && p / 13 == SuitIndex(s);
    }
  }

  /** Every card of a new deck exists in the build and keeps the domain
      invariant. */
  lemma FullDeckWellFormed(jokers: bool)
    ensures forall c :: c in FullDeck(jokers) ==> WellFormed(c) && RankEnabled(c.rank, jokers)
  {
    forall c | c in FullDeck(jokers)
      ensures WellFormed(c) && RankEnabled(c.rank, jokers)
    {
      var k :| 0 <= k < |FullDeck(jokers)| && FullDeck(jokers)[k] == c;
      FullDeckOrder(jokers, k);
    }
  }

  /** The nested loops of `Deck::new`. */
  method BuildFullDeck(jokers: bool) returns (cards: seq<Card>)
    ensures cards == FullDeck(jokers)
  {
    cards := [];
    for i := 0 to 4
      invariant cards == StandardCards(i)
    {
      var suit := SuitOrder[i];
      for j := 0 to 13
        invariant cards == StandardCards(i) + SuitRun(suit)[..j]
      {
        cards := cards + [NewCard(RankOrder[j], Some(suit))];
      }
      assert SuitRun(suit)[..13] == SuitRun(suit);
    }
    if jokers {
      cards := cards + [NewCard(Joker, None)];
      cards := cards + [NewCard(Joker, None)];
    }
  }

  /** `Deck`: a sequence of cards drawn from the end. */
  class Deck {
    const jokers: bool
    var cards: seq<Card>

    /** `Deck::new`. */
    constructor (jokers: bool)
      ensures this.jokers == jokers && cards == FullDeck(jokers)
    {
      var built := BuildFullDeck(jokers);
      this.jokers := jokers;
      cards := built;
    }

    /** `Deck::len`. */
    function Len(): nat
      reads this
    {
      |cards|
    }

    /** `Deck::is_empty`. */
    predicate IsEmpty()
      reads this
      ensures IsEmpty() <==> Len() == 0
    {
      cards == []
    }

    /** `Deck::draw`: pops the last card, or returns `None` on an empty deck. */
    method Draw() returns (c: Option<Card>)
      modifies this
      ensures old(cards) == [] ==> c == None && cards == []
      ensures old(cards) != [] ==>
                c == Some(old(cards)[|old(cards)| - 1]) && cards == old(cards)[..|old(cards)| - 1]
      ensures Len() == if old(Len()) == 0 then 0 else old(Len()) - 1
    {
      if cards == [] {
        c := None;
      } else {
        c := Some(cards[|cards| - 1]);
        cards := cards[..|cards| - 1];
      }
    }

    /** `Deck::reset`: back to the order of a new deck, whatever was drawn. */
    method Reset()
      modifies this
      ensures cards == FullDeck(jokers)
    {
      cards := BuildFullDeck(jokers);
    }
  }

  /** Drawing `len()` times from a new deck: every draw yields a card, the
      cards come out in reverse deck order, and the deck ends empty. */
  method DrawWholeDeck(jokers: bool) returns (draws: seq<Option<Card>>, emptied: bool)
    ensures |draws| == |FullDeck(jokers)|
    ensures forall i :: 0 <= i < |draws| ==> draws[i] == Some(FullDeck(jokers)[|draws| - 1 - i])
    ensures forall i :: 0 <= i < |draws| ==> draws[i].Some? && WellFormed(draws[i].value)
    ensures emptied
  {
    var deck := new Deck(jokers);
    var full := FullDeck(jokers);
    var n := deck.Len();
    draws := [];
    for k := 0 to n
      invariant deck.cards == full[..n - k]
      invariant |draws| == k
      invariant forall i :: 0 <= i < k ==> draws[i] == Some(full[n - 1 - i])
    {
      var c := deck.Draw();
      assert c == Some(full[n - 1 - k]) && deck.cards == full[..n - k - 1];
      draws := draws + [c];
    }
    emptied := deck.IsEmpty();
    FullDeckWellFormed(jokers);
    forall i | 0 <= i < n
      ensures WellFormed(draws[i].value)
    {
      assert full[n - 1 - i] in full;
    }
  }
}
