/** One hand of Texas Hold'em and the moving dealer button (game.py). */
module Game {
  import opened Cards
  import opened Players
  import opened BettingRules
  import opened Betting
  import opened Showdown

  /** Player's default stack. */
  const StartingChips: int := 1000

  function Digit(d: nat): char
    requires d < 10
  {
    ('0' as int + d) as char
  }

  /** The decimal text of a natural number, as an f-string writes it. */
  function NatText(n: nat): (s: string)
    ensures |s| > 0 && IsDigits(s)
  {
    if n < 10 then [Digit(n)] else NatText(n / 10) + [Digit(n % 10)]
  }

  /** Reading the decimal text back gives the number. */
  lemma {:induction false} NatTextValue(n: nat)
    ensures DecimalValue(NatText(n)) == n
  {
    var s := NatText(n);
    if n >= 10 {
      assert s[..|s| - 1] == NatText(n / 10);
      NatTextValue(n / 10);
    } else {
      assert s[..0] == [];
    }
  }

  /** The cards `k` successive draws take from the end of `cards`, in the order
      they are drawn. */
  function Popped(cards: seq<Card>, k: nat): (p: seq<Card>)
    requires k <= |cards|
    ensures |p| == k && forall i :: 0 <= i < k ==> p[i] == cards[|cards| - 1 - i]
  {
    seq(k, i requires 0 <= i < k => cards[|cards| - 1 - i])
  }

  /** Drawing a then b cards is drawing a + b cards. */
  lemma PoppedSplit(cards: seq<Card>, a: nat, b: nat)
    requires a + b <= |cards|
    ensures Popped(cards, a + b) == Popped(cards, a) + Popped(cards[..|cards| - a], b)
  {
  }

  /** Drawing loses no card and makes none up: what is left and what was drawn
      are together the cards there were. */
  lemma {:induction false} PoppedKeepsCards(cards: seq<Card>, k: nat)
    requires k <= |cards|
    ensures multiset(cards[..|cards| - k]) + multiset(Popped(cards, k)) == multiset(cards)
  {
    if k > 0 {
      var m := |cards| - k;
      PoppedKeepsCards(cards, k - 1);
      assert cards[..m + 1] == cards[..m] + [cards[m]];
      assert Popped(cards, k) == Popped(cards, k - 1) + [cards[m]];
    } else {
      assert cards[..|cards|] == cards;
    }
  }

  /** `k` draws took deck c0 to c and added what they drew to board b0,
      giving b. */
  ghost predicate Drew(c0: seq<Card>, b0: seq<Card>, c: seq<Card>, b: seq<Card>, k: nat)
  {
    k <= |c0| && c == c0[..|c0| - k] && b == b0 + Popped(c0, k)
  }

  /** Draws one after the other add up. */
  lemma DrewTwice(c0: seq<Card>, b0: seq<Card>, c1: seq<Card>, b1: seq<Card>, c2: seq<Card>, b2: seq<Card>,
                  x: nat, y: nat)
    requires Drew(c0, b0, c1, b1, x) && Drew(c1, b1, c2, b2, y)
    ensures Drew(c0, b0, c2, b2, x + y)
  {
    PoppedSplit(c0, x, y);
    assert c2 == c0[..|c0| - (x + y)];
    assert b2 == b0 + (Popped(c0, x) + Popped(c1, y));
  }

  /** A shuffled deck holds 52 cards. */
  lemma ShuffledDeckSize(order: seq<Card>)
    requires multiset(order) == multiset(FullDeck())
    ensures |order| == 52
  {
    assert |multiset(order)| == |multiset(FullDeck())|;
  }

  /** The seat that gets the j-th card of each dealing pass: dealing starts at
      the seat after the dealer. */
  function DealSeat(dealer: nat, j: nat, n: nat): nat
    requires n > 0
  {
    (dealer + j + 1) % n
  }

  /** Which card of a pass seat i gets: the inverse of DealSeat. */
  function DealOffset(dealer: nat, i: nat, n: nat): (j: nat)
    requires dealer < n && i < n
    ensures j < n
  {
    if i < dealer + 1 then i + n - dealer - 1 else i - dealer - 1
  }

  /** Within one pass no seat is dealt twice, and every seat is dealt. */
  lemma DealSeats(dealer: nat, n: nat)
    requires dealer < n
    ensures forall j, k :: 0 <= j < k < n ==> DealSeat(dealer, j, n) != DealSeat(dealer, k, n)
    ensures forall i :: 0 <= i < n ==>
      DealOffset(dealer, i, n) < n && DealSeat(dealer, DealOffset(dealer, i, n), n) == i
  {
    forall j, k | 0 <= j < k < n
      ensures DealSeat(dealer, j, n) != DealSeat(dealer, k, n)
    {
      ModBelowTwice(dealer + j + 1, n);
      ModBelowTwice(dealer + k + 1, n);
    }
    forall i | 0 <= i < n
      ensures DealOffset(dealer, i, n) < n && DealSeat(dealer, DealOffset(dealer, i, n), n) == i
    {
      ModBelowTwice(dealer + DealOffset(dealer, i, n) + 1, n);
    }
  }

  lemma DealOffsetOfSeat(dealer: nat, j: nat, n: nat)
    requires dealer < n && j < n
    ensures DealOffset(dealer, DealSeat(dealer, j, n), n) == j
  {
    ModBelowTwice(dealer + j + 1, n);
  }

  /** The hole cards of the j-th seat dealt to, once `drawn` cards have been
      drawn from `cards` in two passes over n seats. */
  function HoleCards(cards: seq<Card>, n: nat, j: nat, drawn: nat): seq<Card>
    requires drawn <= |cards|
  {
    (if j < drawn then [cards[|cards| - 1 - j]] else [])
    + (if n + j < drawn then [cards[|cards| - 1 - n - j]] else [])
  }

  /** The number of cards drawn before dealing pass `pass` (pass * n). */
  function PassStart(pass: nat, n: nat): nat
    requires pass <= 2
  {
    if pass == 0 then 0 else if pass == 1 then n else 2 * n
  }

  /** The draw numbered pass * n + i goes to the i-th seat dealt to, and to no
      other. */
  lemma HoleCardsStep(cards: seq<Card>, n: nat, pass: nat, i: nat, j: nat)
    requires pass < 2 && i < n && j < n && PassStart(pass, n) + i < |cards|
    ensures var drawn := PassStart(pass, n) + i;
            HoleCards(cards, n, j, drawn + 1)
            == HoleCards(cards, n, j, drawn) + if j == i then [cards[|cards| - 1 - drawn]] else []
  {
  }

  /** The seats v after seat s receives card c. */
  function GiveCard(v: seq<Seat>, s: nat, c: Card): (r: seq<Seat>)
    requires s < |v|
    ensures |r| == |v| && r[s].hand == v[s].hand + [c]
    ensures forall t :: 0 <= t < |v| && t != s ==> r[t] == v[t]
  {
    v[s := v[s].(hand := v[s].hand + [c])]
  }

  /** The seats v0 once `drawn` cards of `cards` have been dealt around the
      table from the seat after the dealer. */
  function Dealt(v0: seq<Seat>, cards: seq<Card>, dealer: nat, drawn: nat): (r: seq<Seat>)
    requires dealer < |v0| && drawn <= |cards|
    ensures |r| == |v0|
    ensures forall s :: 0 <= s < |v0| ==>
      r[s] == v0[s].(hand := v0[s].hand + HoleCards(cards, |v0|, DealOffset(dealer, s, |v0|), drawn))
  {
    seq(|v0|, s requires 0 <= s < |v0| =>
      v0[s].(hand := v0[s].hand + HoleCards(cards, |v0|, DealOffset(dealer, s, |v0|), drawn)))
  }

  /** Before the first draw no seat has been dealt anything. */
  lemma DealtNone(v0: seq<Seat>, cards: seq<Card>, dealer: nat)
    requires dealer < |v0|
    ensures Dealt(v0, cards, dealer, 0) == v0
  {
    forall s | 0 <= s < |v0| ensures Dealt(v0, cards, dealer, 0)[s] == v0[s] {
      assert v0[s].hand + [] == v0[s].hand;
    }
  }

  /** One card of a dealing pass, on the values of the seats. */
  lemma DealStep(v0: seq<Seat>, cards: seq<Card>, dealer: nat, pass: nat, i: nat)
    requires dealer < |v0| && pass < 2 && i < |v0| && PassStart(pass, |v0|) + i < |cards|
    ensures var n := |v0|;
            var drawn := PassStart(pass, n) + i;
            Dealt(v0, cards, dealer, drawn + 1)
            == GiveCard(Dealt(v0, cards, dealer, drawn), DealSeat(dealer, i, n), cards[|cards| - 1 - drawn])
  {
    var n := |v0|;
    var drawn := PassStart(pass, n) + i;
    var before := Dealt(v0, cards, dealer, drawn);
    var after := Dealt(v0, cards, dealer, drawn + 1);
    var p := DealSeat(dealer, i, n);
    var card := cards[|cards| - 1 - drawn];
    DealSeats(dealer, n);
    DealOffsetOfSeat(dealer, i, n);
    forall s | 0 <= s < n
      ensures after[s] == GiveCard(before, p, card)[s]
    {
      var j := DealOffset(dealer, s, n);
      HoleCardsStep(cards, n, pass, i, j);
      if s == p {
        assert v0[s].hand + HoleCards(cards, n, j, drawn) + [card]
            == v0[s].hand + (HoleCards(cards, n, j, drawn) + [card]);
      } else {
        assert j != i;
      }
    }
  }

  /** The hole cards of every seat once two passes have been dealt from the
      end of `cards`: seat s, the j-th seat after the dealer, holds draw j and
      draw n + j. */
  function DealtHands(cards: seq<Card>, dealer: nat, n: nat): (h: seq<seq<Card>>)
    requires dealer < n && 2 * n <= |cards|
    ensures |h| == n
    ensures forall s :: 0 <= s < n ==>
      var j := DealOffset(dealer, s, n);
      h[s] == [cards[|cards| - 1 - j], cards[|cards| - 1 - n - j]]
  {
    seq(n, s requires 0 <= s < n =>
      var j := DealOffset(dealer, s, n);
      [cards[|cards| - 1 - j], cards[|cards| - 1 - n - j]])
  }

  /** Seats that held no card hold, after both passes, exactly DealtHands. */
  lemma DealtFromEmpty(v0: seq<Seat>, cards: seq<Card>, dealer: nat)
    requires dealer < |v0| && 2 * |v0| <= |cards|
    requires forall s :: 0 <= s < |v0| ==> v0[s].hand == []
    ensures forall s :: 0 <= s < |v0| ==>
      Dealt(v0, cards, dealer, 2 * |v0|)[s].hand == DealtHands(cards, dealer, |v0|)[s]
  {
  }

  /** The seats after clear_hand: stacks kept, no cards, no bets, nobody
      folded. */
  function Cleared(v: seq<Seat>): (r: seq<Seat>)
    ensures |r| == |v| && forall i :: 0 <= i < |v| ==> r[i] == Seat(v[i].chips, [], 0, false)
  {
    seq(|v|, i requires 0 <= i < |v| => Seat(v[i].chips, [], 0, false))
  }

  datatype GameError = DeckExhausted | BettingNeverEnds | EveryoneFolded

  /** One call of handle_betting_round: which round, where it started, how it
      ended. */
  datatype PhaseLog = PhaseLog(street: Street, startFrom: nat, outcome: Outcome)

  function StreetAt(k: nat): Street
    requires k < 4
  {
    [PreFlop, Flop, Turn, River][k]
  }

  /** The board size once `continued` betting rounds have returned true. */
  function BoardSize(continued: nat): nat
  {
    if continued == 0 then 0 else if continued == 1 then 3 else if continued == 2 then 4 else 5
  }

  /** The count _deal_community_cards is called with before round k (1 to 3). */
  function DealCount(k: nat): (count: nat)
    requires 1 <= k <= 3
    ensures BoardSize(k - 1) + count == BoardSize(k)
  {
    if k == 1 then 3 else 1
  }

  /** How many of the logged rounds returned true. */
  function Continues(log: seq<PhaseLog>): (c: nat)
    ensures c <= |log|
  {
    if log == [] then 0
    else (if log[0].outcome == Continued then 1 else 0) + Continues(log[1..])
  }

  /** The seat betting round k starts from: three seats after the dealer
      before the flop, the seat after the dealer from the flop on. */
  function StartOf(k: nat, dealer: nat, n: nat): nat
    requires n > 0
  {
    if k == 0 then (dealer + 3) % n else (dealer + 1) % n
  }

  /** The logged rounds are rounds first, first + 1, ... in order, each from
      its own starting seat. */
  ghost predicate Scheduled(log: seq<PhaseLog>, first: nat, dealer: nat, n: nat)
    requires n > 0
    decreases |log|
  {
    || log == []
    || (&& first < 4
        && log[0].street == StreetAt(first) && log[0].startFrom == StartOf(first, dealer, n)
        && Scheduled(log[1..], first + 1, dealer, n))
  }

  /** Every logged round but the last returned true. */
  ghost predicate ContinuedBeforeLast(log: seq<PhaseLog>)
    decreases |log|
  {
    |log| <= 1 || (log[0].outcome == Continued && ContinuedBeforeLast(log[1..]))
  }

  /** Round i of a scheduled log is round first + i, played from that round's
      starting seat, and every round but the last of such a log returned true. */
  lemma {:induction false} ScheduledAt(log: seq<PhaseLog>, first: nat, dealer: nat, n: nat, i: nat)
    requires n > 0 && Scheduled(log, first, dealer, n) && ContinuedBeforeLast(log) && i < |log|
    ensures first + i < 4 && log[i].street == StreetAt(first + i) && log[i].startFrom == StartOf(first + i, dealer, n)
    ensures i < |log| - 1 ==> log[i].outcome == Continued
  {
    if i > 0 {
      ScheduledAt(log[1..], first + 1, dealer, n, i - 1);
      assert log[i] == log[1..][i - 1];
      assert first + 1 + (i - 1) == first + i;
    }
  }

  /** The betting rounds of a hand: pre-flop from three seats after the dealer,
      then flop, turn and river from the seat after the dealer, each played only
      when the one before returned true. */
  ghost predicate Sequenced(log: seq<PhaseLog>, dealer: nat, n: nat)
    requires n > 0
  {
    && 1 <= |log| <= 4
    && Scheduled(log, 0, dealer, n)
    && ContinuedBeforeLast(log)
    && (|log| < 4 ==> log[|log| - 1].outcome != Continued)
  }

  /** A round that returned true, followed by the rounds after it. */
  lemma LogCons(e: PhaseLog, tail: seq<PhaseLog>, first: nat, dealer: nat, n: nat)
    requires n > 0 && first < 4
    requires e.street == StreetAt(first) && e.startFrom == StartOf(first, dealer, n) && e.outcome == Continued
    requires Scheduled(tail, first + 1, dealer, n) && ContinuedBeforeLast(tail)
    ensures Scheduled([e] + tail, first, dealer, n) && ContinuedBeforeLast([e] + tail)
    ensures Continues([e] + tail) == 1 + Continues(tail)
  {
    var log := [e] + tail;
    assert log[0] == e;
    assert log[1..] == tail;
  }

  /** How a hand that reached the showdown was dealt from the shuffled deck
      `order`: the betting rounds in `log`, the board of BoardSize cards drawn
      after the hole cards, the deck left over, and every seat's hole cards. */
  ghost predicate HandDealt(order: seq<Card>, dealer: nat, n: nat, log: seq<PhaseLog>,
                            board: seq<Card>, deckLeft: seq<Card>, hands: seq<seq<Card>>)
  {
    && n > 0 && dealer < n && |order| == 52 && 2 * n <= 52
    && Sequenced(log, dealer, n)
    && |board| == BoardSize(Continues(log))
    && 2 * n + |board| <= 52
    && board == Popped(order[..52 - 2 * n], |board|)
    && deckLeft == order[..52 - 2 * n - |board|]
    && hands == DealtHands(order, dealer, n)
  }

  /** The inputs of one hand: the order random.shuffle leaves the deck in, and
      every seat's decisions. */
  datatype HandInput = HandInput(order: seq<Card>, scripts: seq<seq<Decision>>)

  /** The game (TexasHoldem). */
  class TexasHoldem {
    const players: seq<Player>
    const deck: Deck
    const gameState: GameState
    const bettingRound: BettingRound
    var dealerPos: nat

    ghost predicate Valid()
      reads this, bettingRound
    {
      && |players| > 0 && Distinct(players) && dealerPos < |players|
      && gameState.players == players && bettingRound.players == players
      && bettingRound.Valid()
    }

    /** TexasHoldem(num_ai_players): "You" at seat 0, then "AI Player 1",
        "AI Player 2", ..., every stack at 1000, blinds 10 and 20, dealer at
        seat 0. */
    constructor (numAiPlayers: nat)
      ensures Valid() && |players| == numAiPlayers + 1 && dealerPos == 0
      ensures players[0].name == "You" && !players[0].isAi
      ensures forall i :: 1 <= i < |players| ==> players[i].name == "AI Player " + NatText(i) && players[i].isAi
      ensures forall i :: 0 <= i < |players| ==> players[i].View() == Seat(StartingChips, [], 0, false)
      ensures deck.cards == FullDeck() && gameState.communityCards == []
      ensures bettingRound.smallBlind == DefaultSmallBlind && bettingRound.bigBlind == DefaultBigBlind
      ensures bettingRound.pot == 0 && bettingRound.currentBet == 0
    {
      var you := new Player("You", StartingChips, false);
      var ps := [you];
      for i := 0 to numAiPlayers
        invariant |ps| == i + 1 && ps[0] == you && Distinct(ps)
        invariant you.name == "You" && !you.isAi
        invariant forall j :: 1 <= j < |ps| ==> ps[j].name == "AI Player " + NatText(j) && ps[j].isAi
        invariant forall j :: 0 <= j < |ps| ==> ps[j].View() == Seat(StartingChips, [], 0, false)
      {
        var p := new Player("AI Player " + NatText(i + 1), StartingChips, true);
        ps := ps + [p];
      }
      players := ps;
      deck := new Deck();
      gameState := new GameState(ps);
      bettingRound := new BettingRound(ps, DefaultSmallBlind, DefaultBigBlind);
      dealerPos := 0;
    }

    /** The reset at the top of _play_round: a fresh deck put in `order`, an
        empty board, and every seat's hand, bet and fold flag cleared. */
    method ResetTable(order: seq<Card>)
      requires Valid() && multiset(order) == multiset(FullDeck())
      modifies deck, gameState, players
      ensures Valid()
      ensures deck.cards == order && gameState.communityCards == []
      ensures Views(players) == Cleared(old(Views(players)))
    {
      deck.Reset();
      deck.Shuffle(order);
      gameState.communityCards := [];
      for i := 0 to |players|
        invariant deck.cards == order && gameState.communityCards == []
        invariant forall j :: 0 <= j < i ==> players[j].View() == Seat(old(players[j].chips), [], 0, false)
        invariant forall j :: i <= j < |players| ==> players[j].chips == old(players[j].chips)
      {
        players[i].ClearHand();
      }
      assert Views(players) == Cleared(old(Views(players)));
    }

    /** players[s].receive_card(deck.draw()). */
    method DealTo(s: nat) returns (ok: bool)
      requires Valid() && s < |players|
      modifies deck, players[s]
      ensures ok <==> old(deck.cards) != []
      ensures ok ==> deck.cards == old(deck.cards)[..|old(deck.cards)| - 1]
      ensures ok ==> Views(players) == GiveCard(old(Views(players)), s, old(deck.cards)[|old(deck.cards)| - 1])
      ensures !ok ==> Views(players) == old(Views(players))
    {
      ghost var v := Views(players);
      var card := deck.Draw();
      if card.Failure? {
        return false;
      }
      players[s].ReceiveCard(card.value);
      forall t | 0 <= t < |players| && t != s ensures players[t].View() == v[t] {
        assert players[t] != players[s];
      }
      ok := true;
    }

    /** One card of the dealing loop of _play_round: the i-th seat after the
        dealer receives draw number PassStart(pass) + i. `c0` is the deck and
        `v0` the seats before the first pass. */
    method DealOne(pass: nat, i: nat, ghost c0: seq<Card>, ghost v0: seq<Seat>) returns (ok: bool)
      requires Valid() && pass < 2 && i < |players| && |v0| == |players|
      requires PassStart(pass, |players|) + i <= |c0|
      requires deck.cards == c0[..|c0| - (PassStart(pass, |players|) + i)]
      requires Views(players) == Dealt(v0, c0, dealerPos, PassStart(pass, |players|) + i)
      modifies deck, players
      ensures ok <==> PassStart(pass, |players|) + i < |c0|
      ensures ok ==> deck.cards == c0[..|c0| - (PassStart(pass, |players|) + i + 1)]
      ensures ok ==> Views(players) == Dealt(v0, c0, dealerPos, PassStart(pass, |players|) + i + 1)
    {
      var n := |players|;
      ghost var drawn := PassStart(pass, n) + i;
      var playerPos := (dealerPos + i + 1) % n;
      assert playerPos == DealSeat(dealerPos, i, n);
      ghost var deckBefore := deck.cards;
      ghost var seatsBefore := Views(players);
      ok := DealTo(playerPos);
      if ok {
        ghost var card := c0[|c0| - 1 - drawn];
        assert deckBefore[|deckBefore| - 1] == card;
        assert deck.cards == c0[..|c0| - (drawn + 1)];
        assert Views(players) == GiveCard(seatsBefore, playerPos, card);
        DealStep(v0, c0, dealerPos, pass, i);
      }
    }

    /** One pass of the dealing loop of _play_round: a card for each seat,
        starting at the seat after the dealer. */
    method DealPass(pass: nat, ghost c0: seq<Card>, ghost v0: seq<Seat>) returns (ok: bool)
      requires Valid() && pass < 2 && |v0| == |players|
      requires PassStart(pass, |players|) <= |c0| && deck.cards == c0[..|c0| - PassStart(pass, |players|)]
      requires Views(players) == Dealt(v0, c0, dealerPos, PassStart(pass, |players|))
      modifies deck, players
      ensures ok <==> PassStart(pass + 1, |players|) <= |c0|
      ensures ok ==> deck.cards == c0[..|c0| - (PassStart(pass + 1, |players|))]
      ensures ok ==> Views(players) == Dealt(v0, c0, dealerPos, PassStart(pass + 1, |players|))
    {
      var n := |players|;
      for i := 0 to n
        invariant PassStart(pass, n) + i <= |c0| && deck.cards == c0[..|c0| - (PassStart(pass, n) + i)]
        invariant Views(players) == Dealt(v0, c0, dealerPos, PassStart(pass, n) + i)
      {
        var dealt := DealOne(pass, i, c0, v0);
        if !dealt {
          return false;
        }
      }
      ok := true;
    }

    /** The two dealing passes of _play_round: one card per seat per pass,
        starting at the seat after the dealer, so seat s gets draws number
        DealOffset(s) and n + DealOffset(s). Fails, as draw does, when the deck
        runs out. */
    method DealHoleCards() returns (ok: bool)
      requires Valid()
      modifies deck, players
      ensures ok <==> 2 * |players| <= |old(deck.cards)|
      ensures ok ==> deck.cards == old(deck.cards)[..|old(deck.cards)| - 2 * |players|]
      ensures ok ==> Views(players) == Dealt(old(Views(players)), old(deck.cards), dealerPos, 2 * |players|)
    {
      var n := |players|;
      ghost var c0 := deck.cards;
      ghost var v0 := Views(players);
      DealtNone(v0, c0, dealerPos);
      for pass := 0 to 2
        invariant PassStart(pass, n) <= |c0| && deck.cards == c0[..|c0| - PassStart(pass, n)]
        invariant Views(players) == Dealt(v0, c0, dealerPos, PassStart(pass, n))
      {
        var dealt := DealPass(pass, c0, v0);
        if !dealt {
          return false;
        }
      }
      ok := true;
    }

    /** _deal_community_cards: `count` draws onto the board. */
    method DealCommunityCards(count: nat) returns (ok: bool)
      modifies deck, gameState
      ensures ok <==> count <= |old(deck.cards)|
      ensures ok ==> Drew(old(deck.cards), old(gameState.communityCards), deck.cards, gameState.communityCards, count)
    {
      ghost var c0 := deck.cards;
      ghost var b0 := gameState.communityCards;
      for k := 0 to count
        invariant k <= |c0| && deck.cards == c0[..|c0| - k]
        invariant gameState.communityCards == b0 + Popped(c0, k)
      {
        var card := deck.Draw();
        if card.Failure? {
          return false;
        }
        gameState.communityCards := gameState.communityCards + [card.value];
        assert Popped(c0, k + 1) == Popped(c0, k) + [card.value];
      }
      ok := true;
    }

    /** One call of handle_betting_round, which never touches a hole card. */
    method BettingPhase(street: Street, startFrom: nat, scripts: seq<seq<Decision>>, fuel: nat)
      returns (outcome: Outcome, left: seq<seq<Decision>>)
      requires Valid() && startFrom < |players| && |scripts| == |players|
      modifies bettingRound, players
      ensures Valid()
      ensures |left| == |players|
      ensures Hands(players) == old(Hands(players))
    {
      ghost var t := bettingRound.State();
      outcome, left := bettingRound.HandleBettingRound(street, startFrom, scripts, fuel);
      PhaseKeepsHands(t, street, startFrom, scripts, bettingRound.bigBlind, fuel);
    }

    /** The first part of round k (flop, turn or river) of _play_round: deal
        DealCount(k) cards onto the board, then play the round from the seat
        after the dealer. */
    method DealAndBet(k: nat, scripts: seq<seq<Decision>>, fuel: nat)
      returns (dealt: bool, outcome: Outcome, left: seq<seq<Decision>>)
      requires Valid() && 1 <= k <= 3 && |scripts| == |players|
      modifies deck, gameState, bettingRound, players
      ensures Valid()
      ensures dealt <==> DealCount(k) <= |old(deck.cards)|
      ensures dealt ==> Drew(old(deck.cards), old(gameState.communityCards), deck.cards, gameState.communityCards,
                             DealCount(k))
      ensures dealt ==> |left| == |players|
      ensures Hands(players) == old(Hands(players))
    {
      left := scripts;
      outcome := NoBetting;
      dealt := DealCommunityCards(DealCount(k));
      if dealt {
        outcome, left := BettingPhase(StreetAt(k), (dealerPos + 1) % |players|, scripts, fuel);
      }
    }

    /** Round k (flop, turn or river) of _play_round and the ones nested in it:
        deal DealCount(k) cards, play the round from the seat after the dealer,
        and go on to round k + 1 only when it returned true. The board holds
        BoardSize(k - 1) cards when it starts. */
    method LaterStreets(k: nat, scripts: seq<seq<Decision>>, fuel: nat)
      returns (error: Option<GameError>, left: seq<seq<Decision>>, ghost log: seq<PhaseLog>)
      requires Valid() && 1 <= k <= 3 && |scripts| == |players|
      modifies deck, gameState, bettingRound, players
      decreases 3 - k
      ensures Valid()
      ensures |log| <= 4 - k && (error != Some(DeckExhausted) ==> |log| >= 1)
      ensures Scheduled(log, k, dealerPos, |players|) && ContinuedBeforeLast(log)
      ensures error == Some(BettingNeverEnds) <==> |log| > 0 && log[|log| - 1].outcome == OutOfFuel
      ensures error == Some(DeckExhausted) ==> |old(deck.cards)| < BoardSize(3) - BoardSize(k - 1)
      ensures error != Some(EveryoneFolded)
      ensures error.None? ==> k + |log| < 4 ==> log[|log| - 1].outcome != Continued
      ensures error.None? ==> Drew(old(deck.cards), old(gameState.communityCards), deck.cards,
                                  gameState.communityCards, BoardSize(k + Continues(log)) - BoardSize(k - 1))
      ensures Hands(players) == old(Hands(players))
    {
      var n := |players|;
      ghost var c0, b0 := deck.cards, gameState.communityCards;
      var dealt, outcome;
      dealt, outcome, left := DealAndBet(k, scripts, fuel);
      if !dealt {
        return Some(DeckExhausted), scripts, [];
      }
      var entry := PhaseLog(StreetAt(k), (dealerPos + 1) % n, outcome);
      log := [entry];
      assert Continues(log) == if outcome == Continued then 1 else 0 by {
        assert log[1..] == [];
      }
      if outcome == OutOfFuel {
        return Some(BettingNeverEnds), left, log;
      }
      if outcome != Continued || k == 3 {
        return None, left, log;
      }
      ghost var c1 := deck.cards;
      ghost var b1 := gameState.communityCards;
      ghost var tail;
      error, left, tail := LaterStreets(k + 1, left, fuel);
      log := [entry] + tail;
      LogCons(entry, tail, k, dealerPos, n);
      if error.None? {
        DrewTwice(c0, b0, c1, b1, deck.cards, gameState.communityCards,
                  DealCount(k), BoardSize(k + 1 + Continues(tail)) - BoardSize(k));
      }
    }

    /** The betting rounds of _play_round and the board dealt between them:
        three cards after the pre-flop, one after the flop, one after the turn,
        each only when the round before returned true. A round that never ends
        and a deck that runs out are reported as errors. */
    method BettingStreets(scripts: seq<seq<Decision>>, fuel: nat)
      returns (error: Option<GameError>, left: seq<seq<Decision>>, ghost log: seq<PhaseLog>)
      requires Valid() && |scripts| == |players|
      modifies deck, gameState, bettingRound, players
      ensures Valid()
      ensures 1 <= |log| <= 4 && Scheduled(log, 0, dealerPos, |players|) && ContinuedBeforeLast(log)
      ensures error == Some(BettingNeverEnds) <==> log[|log| - 1].outcome == OutOfFuel
      ensures error == Some(DeckExhausted) ==> |old(deck.cards)| < BoardSize(3)
      ensures error != Some(EveryoneFolded)
      ensures error.None? ==> Sequenced(log, dealerPos, |players|)
      ensures error.None? ==> Drew(old(deck.cards), old(gameState.communityCards), deck.cards,
                                  gameState.communityCards, BoardSize(Continues(log)))
      ensures Hands(players) == old(Hands(players))
    {
      var n := |players|;
      var outcome;
      outcome, left := BettingPhase(PreFlop, (dealerPos + 3) % n, scripts, fuel);
      var entry := PhaseLog(PreFlop, (dealerPos + 3) % n, outcome);
      log := [entry];
      assert Continues(log) == if outcome == Continued then 1 else 0 by {
        assert log[1..] == [];
      }
      if outcome == OutOfFuel {
        return Some(BettingNeverEnds), left, log;
      }
      if outcome != Continued {
        assert deck.cards == old(deck.cards)[..|old(deck.cards)| - 0];
        assert gameState.communityCards == old(gameState.communityCards) + Popped(old(deck.cards), 0);
        return None, left, log;
      }
      ghost var tail;
      error, left, tail := LaterStreets(1, left, fuel);
      log := [entry] + tail;
      LogCons(entry, tail, 0, dealerPos, n);
    }

    /** The top of _play_round: reset the deck into `order`, clear the board
        and the seats, and post the blinds. */
    method ResetAndPostBlinds(order: seq<Card>)
      requires Valid() && multiset(order) == multiset(FullDeck())
      modifies deck, gameState, bettingRound, players
      ensures Valid()
      ensures deck.cards == order && gameState.communityCards == []
      ensures forall s :: 0 <= s < |players| ==> players[s].hand == []
    {
      ResetTable(order);
      bettingRound.PostBlinds(dealerPos);
    }

    /** The first half of _play_round: reset and post the blinds, then deal
        two hole cards to each seat. */
    method StartHand(order: seq<Card>) returns (ok: bool)
      requires Valid() && multiset(order) == multiset(FullDeck())
      modifies deck, gameState, bettingRound, players
      ensures Valid() && |order| == 52
      ensures ok <==> 2 * |players| <= 52
      ensures ok ==> deck.cards == order[..52 - 2 * |players|] && gameState.communityCards == []
      ensures ok ==> Hands(players) == DealtHands(order, dealerPos, |players|)
    {
      var n := |players|;
      ShuffledDeckSize(order);
      ResetAndPostBlinds(order);
      ghost var v0 := Views(players);
      ok := DealHoleCards();
      if ok {
        DealtFromEmpty(v0, order, dealerPos);
        assert Hands(players) == DealtHands(order, dealerPos, n);
      }
    }

    /** _play_round up to the showdown: start the hand, then play the betting
        rounds and deal the board between them. */
    method PlayToShowdown(order: seq<Card>, scripts: seq<seq<Decision>>, fuel: nat)
      returns (error: Option<GameError>, ghost log: seq<PhaseLog>)
      requires Valid() && multiset(order) == multiset(FullDeck()) && |scripts| == |players|
      modifies deck, gameState, bettingRound, players
      ensures Valid()
      ensures error == Some(DeckExhausted) ==> |players| > 23
      ensures 2 * |players| > 52 ==> error == Some(DeckExhausted)
      ensures error != Some(EveryoneFolded)
      ensures error.None? ==>
        HandDealt(order, dealerPos, |players|, log, gameState.communityCards, deck.cards, Hands(players))
    {
      var n := |players|;
      var started := StartHand(order);
      if !started {
        return Some(DeckExhausted), [];
      }
      var left;
      error, left, log := BettingStreets(scripts, fuel);
      if error.None? {
        ghost var b := BoardSize(Continues(log));
        assert gameState.communityCards == Popped(order[..52 - 2 * n], b);
        assert deck.cards == order[..52 - 2 * n - b];
      }
    }

    /** TexasHoldem._play_round: play the hand up to the showdown, then pay
        betting_round.pot to the winner. `settled` is the seats as the
        showdown finds them; the result is the winning seat. */
    method PlayRound(order: seq<Card>, scripts: seq<seq<Decision>>,
                     evaluate: (seq<Card>, seq<Card>) -> int, fuel: nat)
      returns (r: Result<nat, GameError>, ghost log: seq<PhaseLog>, ghost settled: seq<Seat>)
      requires Valid() && multiset(order) == multiset(FullDeck()) && |scripts| == |players|
      modifies deck, gameState, bettingRound, players
      ensures Valid()
      ensures r == Failure(DeckExhausted) ==> |players| > 23
      ensures 2 * |players| > 52 ==> r == Failure(DeckExhausted)
      ensures r.Success? ==>
        HandDealt(order, dealerPos, |players|, log, gameState.communityCards, deck.cards, Hands(players))
      ensures r.Success? ==>
        && |settled| == |players|
        && Winner(settled, gameState.communityCards, evaluate) == Success(r.value)
        && Views(players) == Payout(settled, r.value, bettingRound.pot)
      ensures r == Failure(EveryoneFolded) ==>
        Views(players) == settled && forall s :: 0 <= s < |settled| ==> settled[s].folded
    {
      var error;
      error, log := PlayToShowdown(order, scripts, fuel);
      if error.Some? {
        return Failure(error.value), log, Views(players);
      }
      settled := Views(players);
      ghost var board, rest, hands := gameState.communityCards, deck.cards, Hands(players);
      var shown := gameState.HandleShowdown(bettingRound.pot, evaluate);
      assert gameState.communityCards == board && deck.cards == rest && Hands(players) == hands;
      if shown.Failure? {
        return Failure(EveryoneFolded), log, settled;
      }
      r := Success(shown.value);
    }

    /** One pass of the loop of play_game: play a hand, then move the dealer
        button one seat on. A hand that fails leaves the button where it is. */
    method PlayHand(input: HandInput, evaluate: (seq<Card>, seq<Card>) -> int, fuel: nat)
      returns (r: Result<nat, GameError>)
      requires Valid() && multiset(input.order) == multiset(FullDeck()) && |input.scripts| == |players|
      modifies this, deck, gameState, bettingRound, players
      ensures Valid()
      ensures r.Success? ==> dealerPos == (old(dealerPos) + 1) % |players|
      ensures r.Failure? ==> dealerPos == old(dealerPos)
    {
      var next := (dealerPos + 1) % |players|;
      ghost var log, settled;
      r, log, settled := PlayRound(input.order, input.scripts, evaluate, fuel);
      if r.Success? {
        dealerPos := next;
      }
    }

    /** TexasHoldem.play_game for as many hands as `hands` holds: play a hand,
        then move the dealer button one seat on; an error ends the game.
        `played` is the number of hands completed. */
    method PlayGame(hands: seq<HandInput>, evaluate: (seq<Card>, seq<Card>) -> int, fuel: nat)
      returns (played: nat, error: Option<GameError>)
      requires Valid()
      requires forall k :: 0 <= k < |hands| ==>
        multiset(hands[k].order) == multiset(FullDeck()) && |hands[k].scripts| == |players|
      modifies this, deck, gameState, bettingRound, players
      ensures Valid()
      ensures played <= |hands| && (error.None? <==> played == |hands|)
      ensures dealerPos == (old(dealerPos) + played) % |players|
    {
      ghost var d0 := dealerPos;
      var n := |players|;
      played := 0;
      while played < |hands|
        invariant Valid() && played <= |hands|
        invariant dealerPos == (d0 + played) % n
      {
        var r := PlayHand(hands[played], evaluate, fuel);
        if r.Failure? {
          return played, Some(r.error);
        }
        ModSucc(d0 + played, n);
        ModBelowTwice((d0 + played) % n + 1, n);
        played := played + 1;
      }
      error := None;
    }
  }
}
