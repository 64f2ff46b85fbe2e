/** A seat at the table (player.py): its stack, its hole cards, its bet in the
    current betting round, and the automated seat's decision policy. */
module Players {
  import opened Cards

  /** What a seat may answer when asked to act; the betting engine treats any
      answer other than fold, call and check as a raise. */
  datatype Action = Fold | Call | Check | Raise

  /** The (action, amount) pair a decision returns. */
  datatype Decision = Decision(action: Action, amount: int)

  /** The value of a Player's mutable fields at one moment. */
  datatype Seat = Seat(chips: int, hand: seq<Card>, currentBet: int, folded: bool)

  /** The amount make_bet actually pays: the request, capped by the stack. */
  function Paid(chips: int, amount: int): (paid: int)
    ensures paid <= amount && paid <= chips
    ensures paid == amount || paid == chips
  {
    if amount > chips then chips else amount
  }

  /** Player.make_bet on the value of a seat. */
  function Bet(s: Seat, amount: int): (r: Seat)
    ensures r.chips == s.chips - Paid(s.chips, amount)
    ensures r.currentBet == s.currentBet + Paid(s.chips, amount)
    ensures r.chips + r.currentBet == s.chips + s.currentBet
    ensures amount >= s.chips ==> r.chips == 0
    ensures amount >= 0 && s.chips >= 0 ==> 0 <= r.chips <= s.chips
    ensures r.hand == s.hand && r.folded == s.folded
  {
    var paid := Paid(s.chips, amount);
    s.(chips := s.chips - paid, currentBet := s.currentBet + paid)
  }

  /** A player (Player). The evaluator object it holds is not part of this model. */
  class Player {
    const name: string
    const isAi: bool
    var chips: int
    var hand: seq<Card>
    var currentBet: int
    var folded: bool

    constructor (name: string, chips: int, isAi: bool)
      ensures this.name == name && this.isAi == isAi
      ensures View() == Seat(chips, [], 0, false)
    {
      this.name := name;
      this.chips := chips;
      this.hand := [];
      this.isAi := isAi;
      this.currentBet := 0;
      this.folded := false;
    }

    function View(): Seat
      reads this
    {
      Seat(chips, hand, currentBet, folded)
    }

    /** Player.receive_card. */
    method ReceiveCard(c: Card)
      modifies this
      ensures View() == old(View()).(hand := old(hand) + [c])
    {
      hand := hand + [c];
    }

    /** Player.clear_hand: empty the hand and reset the bet and the fold flag;
        the stack is kept. */
    method ClearHand()
      modifies this
      ensures hand == [] && currentBet == 0 && !folded
      ensures chips == old(chips)
    {
      hand := [];
      currentBet := 0;
      folded := false;
    }

    /** Player.make_bet: pay at most the whole stack and return what was paid. */
    method MakeBet(amount: int) returns (paid: int)
      modifies this
      ensures paid == Paid(old(chips), amount)
      ensures View() == Bet(old(View()), amount)
    {
      paid := amount;
      if paid > chips {
        paid := chips;
      }
      chips := chips - paid;
      currentBet := currentBet + paid;
    }
  }

  /** Views of a sequence of players, seat by seat. */
  function Views(ps: seq<Player>): (v: seq<Seat>)
    reads ps
    ensures |v| == |ps|
    ensures forall i :: 0 <= i < |ps| ==> v[i] == ps[i].View()
  {
    seq(|ps|, i requires 0 <= i < |ps| reads ps => ps[i].View())
  }

  /** The hole cards of every seat. */
  function Hands(ps: seq<Player>): (h: seq<seq<Card>>)
    reads ps
    ensures |h| == |ps| && forall i :: 0 <= i < |ps| ==> h[i] == ps[i].hand
  {
    seq(|ps|, i requires 0 <= i < |ps| reads ps => ps[i].hand)
  }

  /** No player sits at two seats. */
  predicate Distinct(ps: seq<Player>)
  {
    forall i, j :: 0 <= i < j < |ps| ==> ps[i] != ps[j]
  }

  /** The pre-flop branch of Player._evaluate_hand_strength (lower is better). */
  function PreflopStrength(hand: seq<Card>): (score: int)
    ensures score in {2000, 3000, 4000, 5000}
    ensures |hand| < 2 ==> score == 5000
  {
    if |hand| < 2 then 5000
    else if Value(hand[0].rank) == Value(hand[1].rank) then 2000
    else if forall i :: 0 <= i < |hand| ==> Value(hand[i].rank) > 10 then 3000
    else if exists i :: 0 <= i < |hand| && Value(hand[i].rank) > 10 then 4000
    else 5000
  }

  /** Only aces are worth more than 10, so two "high" cards are two aces and
      score as a pair: the 3000 branch is unreachable. An unpaired two-card hand
      holding an ace scores 4000, a hand without an ace and without equal values
      5000, and J, Q, K count as equal values. */
  lemma PreflopStrengthCases(hand: seq<Card>)
    requires |hand| == 2
    ensures PreflopStrength(hand) != 3000
    ensures Value(hand[0].rank) == Value(hand[1].rank) <==> PreflopStrength(hand) == 2000
    ensures Value(hand[0].rank) != Value(hand[1].rank) && (hand[0].rank == Ace || hand[1].rank == Ace)
            ==> PreflopStrength(hand) == 4000
    ensures hand[0].rank != Ace && hand[1].rank != Ace && Value(hand[0].rank) != Value(hand[1].rank)
            ==> PreflopStrength(hand) == 5000
  {
    ValueRange(hand[0].rank);
    ValueRange(hand[1].rank);
    if Value(hand[0].rank) != Value(hand[1].rank) {
      if hand[0].rank == Ace {
        assert Value(hand[0].rank) > 10;
      } else if hand[1].rank == Ace {
        assert Value(hand[1].rank) > 10;
      } else {
        assert forall i :: 0 <= i < |hand| ==> Value(hand[i].rank) <= 10 by {
          forall i | 0 <= i < |hand| ensures Value(hand[i].rank) <= 10 {
            assert i == 0 || i == 1;
          }
        }
      }
    }
  }

  /** The 3000 score is never produced, whatever the size of the hand. */
  lemma PreflopNeverBothHigh(hand: seq<Card>)
    ensures PreflopStrength(hand) != 3000
  {
    if |hand| >= 2 {
      ValueRange(hand[0].rank);
      ValueRange(hand[1].rank);
      if Value(hand[0].rank) > 10 && Value(hand[1].rank) > 10 {
        assert hand[0].rank == Ace && hand[1].rank == Ace;
      }
    }
  }

  /** Player._evaluate_hand_strength: the pre-flop heuristic while the board is
      empty, the evaluator's score of board and hole cards otherwise. */
  function HandStrength(hand: seq<Card>, board: seq<Card>, evaluate: (seq<Card>, seq<Card>) -> int): (score: int)
    ensures board == [] ==> score == PreflopStrength(hand)
    ensures board != [] ==> score == evaluate(board, hand)
  {
    if board == [] then PreflopStrength(hand) else evaluate(board, hand)
  }

  /** Scale of the evaluator's scores: 1 is the best hand, 7462 the worst. */
  const WorstScore: int := 7462

  /** The hand's goodness in [0, 1] for a score in 1..7462 (1 is best), scaled by
      0.7 when the call costs more than a third of the stack. */
  function Goodness(score: int, toCall: int, chips: int): real
  {
    var g := (WorstScore - score) as real / WorstScore as real;
    if toCall > chips / 3 then g * 0.7 else g
  }

  datatype Tier = VeryStrong | Strong | Medium | Weak

  function TierOf(goodness: real): Tier
  {
    if goodness > 0.8 then VeryStrong
    else if goodness > 0.6 then Strong
    else if goodness > 0.4 then Medium
    else Weak
  }

  datatype PolicyError = NotAnAiSeat

  /** Player.ai_make_decision. `roll` is the value random.random() would return
      in the branch that draws one. */
  function AiDecision(isAi: bool, chips: int, hand: seq<Card>, toCall: int, board: seq<Card>,
                      evaluate: (seq<Card>, seq<Card>) -> int, roll: real): (r: Result<Decision, PolicyError>)
  {
    if !isAi then Failure(NotAnAiSeat)
    else
      var score := HandStrength(hand, board, evaluate);
      match TierOf(Goodness(score, toCall, chips))
      case VeryStrong =>
        if roll < 0.7 then Success(Decision(Raise, if toCall * 3 < chips then toCall * 3 else chips))
        else Success(Decision(Call, toCall))
      case Strong =>
        if roll < 0.4 then Success(Decision(Raise, if toCall * 2 < chips then toCall * 2 else chips))
        else Success(Decision(Call, toCall))
      case Medium =>
        if toCall > chips / 3 then Success(Decision(Fold, 0)) else Success(Decision(Call, toCall))
      case Weak =>
        if toCall > chips / 5 then Success(Decision(Fold, 0))
        else if roll < 0.2 then Success(Decision(Raise, if toCall * 2 < chips then toCall * 2 else chips))
        else Success(Decision(Call, toCall))
  }

  /** The policy refuses a seat that is not automated; for an automated seat it
      answers fold, call or raise, a raise never asks for more than the stack,
      a call asks for exactly what is owed, and a medium hand folds exactly when
      the call costs more than a third of the stack. */
  lemma AiDecisionShape(isAi: bool, chips: int, hand: seq<Card>, toCall: int, board: seq<Card>,
                        evaluate: (seq<Card>, seq<Card>) -> int, roll: real)
    ensures var r := AiDecision(isAi, chips, hand, toCall, board, evaluate, roll);
            && (!isAi <==> r == Failure(NotAnAiSeat))
            && (r.Success? ==> r.value.action != Check)
            && (r.Success? && r.value.action == Raise ==> r.value.amount <= chips)
            && (r.Success? && r.value.action == Call ==> r.value.amount == toCall)
            && (r.Success? && r.value.action == Fold ==> r.value.amount == 0)
  {
  }

  /** Fold thresholds: a medium hand folds exactly when the call exceeds
      chips // 3, a weak hand always folds when it exceeds chips // 5, and the
      two stronger tiers never fold. */
  lemma AiFoldThresholds(chips: int, hand: seq<Card>, toCall: int, board: seq<Card>,
                         evaluate: (seq<Card>, seq<Card>) -> int, roll: real)
    ensures var tier := TierOf(Goodness(HandStrength(hand, board, evaluate), toCall, chips));
            var r := AiDecision(true, chips, hand, toCall, board, evaluate, roll);
            && (tier == Medium ==> (r.value.action == Fold <==> toCall > chips / 3))
            && (tier == Weak && toCall > chips / 5 ==> r.value.action == Fold)
            && (tier in {VeryStrong, Strong} ==> r.value.action != Fold)
  {
  }

  /** Before the flop the heuristic never reaches the very-strong tier: even a
      pocket pair (2000) only reaches a goodness of 5462/7462. */
  lemma PreflopNeverVeryStrong(hand: seq<Card>, toCall: int, chips: int)
    ensures TierOf(Goodness(PreflopStrength(hand), toCall, chips)) != VeryStrong
  {
    var score := PreflopStrength(hand);
    var g := (WorstScore - score) as real / WorstScore as real;
    assert g <= 5462.0 / 7462.0;
    assert 5462.0 / 7462.0 < 0.8;
  }
}
