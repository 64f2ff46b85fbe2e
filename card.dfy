/** Playing cards and the 52-card deck (card.py). */
module Cards {

  datatype Option<T> = None | Some(value: T)

  datatype Result<T, E> = Success(value: T) | Failure(error: E)

  datatype Suit = Spades | Hearts | Diamonds | Clubs

  datatype Rank = Two | Three | Four | Five | Six | Seven | Eight | Nine | Ten
                | Jack | Queen | King | Ace

  datatype Card = Card(suit: Suit, rank: Rank)

  /** Card.SUITS, in deck order. */
  const Suits: seq<Suit> := [Spades, Hearts, Diamonds, Clubs]

  /** Card.RANKS, in deck order. */
  const Ranks: seq<Rank> := [Two, Three, Four, Five, Six, Seven, Eight, Nine, Ten,
                             Jack, Queen, King, Ace]

  /** The symbol a suit is printed with. */
  function SuitSymbol(s: Suit): char
  {
    match s
    case Spades => '♠'
    case Hearts => '♥'
    case Diamonds => '♦'
    case Clubs => '♣'
  }

  /** The text a rank is written with. */
  function RankText(r: Rank): string
  {
    match r
    case Two => "2"
    case Three => "3"
    case Four => "4"
    case Five => "5"
    case Six => "6"
    case Seven => "7"
    case Eight => "8"
    case Nine => "9"
    case Ten => "10"
    case Jack => "J"
    case Queen => "Q"
    case King => "K"
    case Ace => "A"
  }

  predicate IsDigits(s: string)
  {
    forall i :: 0 <= i < |s| ==> '0' <= s[i] <= '9'
  }

  /** Decimal value of a string of digits (Python's int() on a digit string). */
  function DecimalValue(s: string): (n: nat)
    requires IsDigits(s)
  {
    if s == [] then 0
    else 10 * DecimalValue(s[..|s| - 1]) + (s[|s| - 1] as int - '0' as int)
  }

  /** Card.get_value: J, Q and K count 10, an ace 14, a number rank its number. */
  function Value(r: Rank): int
  {
    if r == Jack || r == Queen || r == King then 10
    else if r == Ace then 14
    else
      assert IsDigits(RankText(r));
      DecimalValue(RankText(r))
  }

  /** Position of a rank in Ranks. */
  function RankIndex(r: Rank): (k: nat)
    ensures k < |Ranks| && Ranks[k] == r
  {
    match r
    case Two => 0
    case Three => 1
    case Four => 2
    case Five => 3
    case Six => 4
    case Seven => 5
    case Eight => 6
    case Nine => 7
    case Ten => 8
    case Jack => 9
    case Queen => 10
    case King => 11
    case Ace => 12
  }

  /** Position of a suit in Suits. */
  function SuitIndex(s: Suit): (k: nat)
    ensures k < |Suits| && Suits[k] == s
  {
    match s
    case Spades => 0
    case Hearts => 1
    case Diamonds => 2
    case Clubs => 3
  }

  /** Every value lies in 2..14, number ranks are worth their own number, and
      only an ace is worth more than 10. */
  lemma ValueRange(r: Rank)
    ensures 2 <= Value(r) <= 14
    ensures RankIndex(r) <= 8 ==> Value(r) == RankIndex(r) + 2
    ensures Value(r) > 10 <==> r == Ace
    ensures r == Jack || r == Queen || r == King ==> Value(r) == 10
  {
    match r
    case Two => assert DecimalValue("2") == 2;
    case Three => assert DecimalValue("3") == 3;
    case Four => assert DecimalValue("4") == 4;
    case Five => assert DecimalValue("5") == 5;
    case Six => assert DecimalValue("6") == 6;
    case Seven => assert DecimalValue("7") == 7;
    case Eight => assert DecimalValue("8") == 8;
    case Nine => assert DecimalValue("9") == 9;
    case Ten =>
      assert "10"[..1] == "1";
      assert DecimalValue("1") == 1;
      assert DecimalValue("10") == 10;
    case Jack =>
    case Queen =>
    case King =>
    case Ace =>
  }

  /** str(card): the rank text followed by the suit symbol. */
  function CardText(c: Card): (t: string)
    ensures 2 <= |t| <= 3
    ensures t[|t| - 1] == SuitSymbol(c.suit) && t[..|t| - 1] == RankText(c.rank)
  {
    RankText(c.rank) + [SuitSymbol(c.suit)]
  }

  /** Two different cards never print the same. */
  lemma CardTextInjective(a: Card, b: Card)
    requires CardText(a) == CardText(b)
    ensures a == b
  {
    var t := CardText(a);
    assert SuitSymbol(a.suit) == t[|t| - 1] == SuitSymbol(b.suit);
    assert RankText(a.rank) == t[..|t| - 1] == RankText(b.rank);
    match a.rank
    case Ten => assert RankText(b.rank) == "10";
    case _ => assert |RankText(b.rank)| == 1 && RankText(b.rank)[0] == RankText(a.rank)[0];
  }

  /** Card.SUIT_MAP: the evaluator's one-letter suit code. */
  function SuitCode(s: Suit): char
  {
    match s
    case Spades => 's'
    case Hearts => 'h'
    case Diamonds => 'd'
    case Clubs => 'c'
  }

  /** Card.RANK_MAP: the evaluator's one-letter rank code ('10' becomes 'T'). */
  function RankCode(r: Rank): char
  {
    match r
    case Two => '2'
    case Three => '3'
    case Four => '4'
    case Five => '5'
    case Six => '6'
    case Seven => '7'
    case Eight => '8'
    case Nine => '9'
    case Ten => 'T'
    case Jack => 'J'
    case Queen => 'Q'
    case King => 'K'
    case Ace => 'A'
  }

  /** The two-letter text handed to the evaluator's card constructor. */
  function EvaluatorText(c: Card): string
  {
    [RankCode(c.rank), SuitCode(c.suit)]
  }

  /** Reads the two-letter evaluator text back. */
  function ParseEvaluatorText(t: string): Option<Card>
  {
    if |t| != 2 then None
    else
      var rank :=
        match t[0]
        case '2' => Some(Two) case '3' => Some(Three) case '4' => Some(Four)
        case '5' => Some(Five) case '6' => Some(Six) case '7' => Some(Seven)
        case '8' => Some(Eight) case '9' => Some(Nine) case 'T' => Some(Ten)
        case 'J' => Some(Jack) case 'Q' => Some(Queen) case 'K' => Some(King)
        case 'A' => Some(Ace) case _ => None;
      var suit :=
        match t[1]
        case 's' => Some(Spades) case 'h' => Some(Hearts)
        case 'd' => Some(Diamonds) case 'c' => Some(Clubs) case _ => None;
      if rank.Some? && suit.Some? then Some(Card(suit.value, rank.value)) else None
  }

  /** The maps send distinct suits and ranks to distinct codes: the evaluator text
      of a card determines the card. */
  lemma EvaluatorTextRoundTrip(c: Card)
    ensures ParseEvaluatorText(EvaluatorText(c)) == Some(c)
    ensures RankCode(c.rank) == 'T' <==> c.rank == Ten
  {
  }

  lemma EvaluatorTextInjective(a: Card, b: Card)
    requires EvaluatorText(a) == EvaluatorText(b)
    ensures a == b
  {
    EvaluatorTextRoundTrip(a);
    EvaluatorTextRoundTrip(b);
  }

  /** The deck Deck.reset builds: suit-major, ranks in order within each suit. */
  function FullDeck(): (d: seq<Card>)
    ensures |d| == 52
    ensures forall i :: 0 <= i < 52 ==> d[i] == Card(Suits[i / 13], Ranks[i % 13])
  {
    seq(52, i requires 0 <= i < 52 => Card(Suits[i / 13], Ranks[i % 13]))
  }

  /** Where each card sits in the fresh deck. */
  lemma FullDeckPosition(c: Card)
    ensures var k := 13 * SuitIndex(c.suit) + RankIndex(c.rank);
            k < 52 && FullDeck()[k] == c
  {
    var s, r := SuitIndex(c.suit), RankIndex(c.rank);
    var k := 13 * s + r;
    assert k / 13 == s && k % 13 == r;
  }

  /** The fresh deck holds every card exactly once. */
  lemma FullDeckComplete()
    ensures forall c: Card :: c in FullDeck()
    ensures forall i, j :: 0 <= i < j < 52 ==> FullDeck()[i] != FullDeck()[j]
  {
    forall c: Card ensures c in FullDeck() {
      FullDeckPosition(c);
    }
    forall i, j | 0 <= i < j < 52 ensures FullDeck()[i] != FullDeck()[j] {
      if i / 13 == j / 13 {
        assert i % 13 != j % 13;
      }
    }
  }

  datatype DeckError = NoCardsLeft

  /** The deck of cards (Deck). */
  class Deck {
    var cards: seq<Card>

    constructor ()
      ensures cards == FullDeck()
    {
      cards := FullDeck();
    }

    /** Deck.reset: rebuild the full ordered deck. */
    method Reset()
      modifies this
      ensures cards == FullDeck()
    {
      cards := FullDeck();
    }

    /** Deck.shuffle, with the permutation that random.shuffle would pick given
        as the new order. */
    method Shuffle(order: seq<Card>)
      requires multiset(order) == multiset(cards)
      modifies this
      ensures cards == order
    {
      cards := order;
    }

    /** Deck.draw: pop the last card, or fail when the deck is empty. */
    method Draw() returns (r: Result<Card, DeckError>)
      modifies this
      ensures old(cards) == [] ==> r == Failure(NoCardsLeft) && cards == old(cards)
      ensures old(cards) != [] ==>
        r == Success(old(cards)[|old(cards)| - 1]) && cards == old(cards)[..|old(cards)| - 1]
    {
      if cards == [] {
        return Failure(NoCardsLeft);
      }
      r := Success(cards[|cards| - 1]);
      cards := cards[..|cards| - 1];
    }
  }
}
