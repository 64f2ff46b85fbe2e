/** The table's shared state and the showdown (game_state.py): the board, the
    pot counted from the seats still in, and paying the pot to the winner. */
module Showdown {
  import opened Cards
  import opened Players
  import opened BettingRules

  /** get_total_pot on values: the bets of the seats that have not folded. */
  function TotalPot(seats: seq<Seat>): int
  {
    if seats == [] then 0
    else
      var last := seats[|seats| - 1];
      TotalPot(seats[..|seats| - 1]) + if last.folded then 0 else last.currentBet
  }

  /** With nobody folded, the total pot is every seat's bet. */
  lemma {:induction false} TotalPotNoneFolded(seats: seq<Seat>)
    requires forall i :: 0 <= i < |seats| ==> !seats[i].folded
    ensures TotalPot(seats) == SumBets(seats)
  {
    if seats != [] {
      TotalPotNoneFolded(seats[..|seats| - 1]);
    }
  }

  /** Folding a seat takes exactly its bet out of the total pot. */
  lemma {:induction false} TotalPotFold(seats: seq<Seat>, i: nat)
    requires i < |seats| && !seats[i].folded
    ensures TotalPot(seats[i := seats[i].(folded := true)]) == TotalPot(seats) - seats[i].currentBet
  {
    var m := |seats| - 1;
    var after := seats[i := seats[i].(folded := true)];
    if i == m {
      assert after[..m] == seats[..m];
    } else {
      assert after[..m] == seats[..m][i := seats[i].(folded := true)];
      TotalPotFold(seats[..m], i);
    }
  }

  /** With no negative bet, the total pot lies between 0 and the sum of all bets. */
  lemma {:induction false} TotalPotBounds(seats: seq<Seat>)
    requires forall i :: 0 <= i < |seats| ==> seats[i].currentBet >= 0
    ensures 0 <= TotalPot(seats) <= SumBets(seats)
  {
    if seats != [] {
      TotalPotBounds(seats[..|seats| - 1]);
    }
  }

  /** active_players of handle_showdown: the unfolded seats, by index, in order. */
  function UnfoldedSeats(seats: seq<Seat>): (idx: seq<nat>)
    ensures ValidIndices(idx, |seats|)
    ensures forall k :: 0 <= k < |idx| ==> !seats[idx[k]].folded
    ensures forall i :: 0 <= i < |seats| && !seats[i].folded ==> i in idx
    ensures forall k, l :: 0 <= k < l < |idx| ==> idx[k] < idx[l]
  {
    if seats == [] then []
    else
      var n := |seats| - 1;
      UnfoldedSeats(seats[..n]) + if !seats[n].folded then [n] else []
  }

  /** The score a seat is ranked by at the showdown (lower is better). */
  function Strength(s: Seat, board: seq<Card>, evaluate: (seq<Card>, seq<Card>) -> int): int
  {
    HandStrength(s.hand, board, evaluate)
  }

  /** Python's min with a key: the position, in idx, of the first seat with the
      lowest score. */
  function FirstBest(seats: seq<Seat>, idx: seq<nat>, board: seq<Card>,
                     evaluate: (seq<Card>, seq<Card>) -> int): (k: nat)
    requires |idx| > 0 && ValidIndices(idx, |seats|)
    ensures k < |idx|
    ensures forall l :: 0 <= l < |idx| ==>
      Strength(seats[idx[k]], board, evaluate) <= Strength(seats[idx[l]], board, evaluate)
    ensures forall l :: 0 <= l < k ==>
      Strength(seats[idx[l]], board, evaluate) > Strength(seats[idx[k]], board, evaluate)
  {
    if |idx| == 1 then 0
    else
      var k := FirstBest(seats, idx[1..], board, evaluate) + 1;
      if Strength(seats[idx[k]], board, evaluate) < Strength(seats[idx[0]], board, evaluate) then k else 0
  }

  /** Every unfolded seat before idx[k] sits earlier than k in idx. */
  lemma UnfoldedBefore(seats: seq<Seat>, k: nat)
    requires k < |UnfoldedSeats(seats)|
    ensures var idx := UnfoldedSeats(seats);
            forall i :: 0 <= i < idx[k] && !seats[i].folded ==> exists l :: 0 <= l < k && idx[l] == i
  {
    var idx := UnfoldedSeats(seats);
    forall i | 0 <= i < idx[k] && !seats[i].folded
      ensures exists l :: 0 <= l < k && idx[l] == i
    {
      var l :| 0 <= l < |idx| && idx[l] == i;
    }
  }

  /** No seat is unfolded exactly when every seat has folded. */
  lemma NoneUnfolded(seats: seq<Seat>)
    ensures |UnfoldedSeats(seats)| == 0 <==> forall i :: 0 <= i < |seats| ==> seats[i].folded
  {
    var idx := UnfoldedSeats(seats);
    if |idx| > 0 {
      assert !seats[idx[0]].folded;
    }
  }

  /** With one unfolded seat, every unfolded seat is that one. */
  lemma OneUnfolded(seats: seq<Seat>)
    requires |UnfoldedSeats(seats)| == 1
    ensures forall i :: 0 <= i < |seats| && !seats[i].folded ==> i == UnfoldedSeats(seats)[0]
  {
    var idx := UnfoldedSeats(seats);
    forall i | 0 <= i < |seats| && !seats[i].folded
      ensures i == idx[0]
    {
      var l :| 0 <= l < |idx| && idx[l] == i;
    }
  }

  /** min over an empty list raises. */
  datatype ShowdownError = NoUnfoldedSeat

  /** The seat handle_showdown pays: the only unfolded seat when there is one;
      otherwise the unfolded seat with the lowest score, the earliest on a tie. */
  function Winner(seats: seq<Seat>, board: seq<Card>, evaluate: (seq<Card>, seq<Card>) -> int)
    : Result<nat, ShowdownError>
  {
    var idx := UnfoldedSeats(seats);
    if |idx| == 1 then Success(idx[0])
    else if |idx| == 0 then Failure(NoUnfoldedSeat)
    else Success(idx[FirstBest(seats, idx, board, evaluate)])
  }

  /** The showdown fails exactly when every seat has folded; otherwise it pays
      an unfolded seat whose score no unfolded seat beats, the first such seat
      on a tie, and the sole survivor whenever only one seat is left in. */
  lemma WinnerSpec(seats: seq<Seat>, board: seq<Card>, evaluate: (seq<Card>, seq<Card>) -> int)
    ensures var r := Winner(seats, board, evaluate);
      && (r.Failure? <==> forall i :: 0 <= i < |seats| ==> seats[i].folded)
      && (r.Success? ==> r.value < |seats| && !seats[r.value].folded)
      && (r.Success? ==> forall i :: 0 <= i < |seats| && !seats[i].folded ==>
            Strength(seats[r.value], board, evaluate) <= Strength(seats[i], board, evaluate))
      && (r.Success? ==> forall i :: 0 <= i < r.value && !seats[i].folded ==>
            Strength(seats[i], board, evaluate) > Strength(seats[r.value], board, evaluate))
      && (forall w :: (0 <= w < |seats| && !seats[w].folded
                       && (forall i :: 0 <= i < |seats| && !seats[i].folded ==> i == w))
                      ==> r == Success(w))
  {
    var idx := UnfoldedSeats(seats);
    NoneUnfolded(seats);
    if |idx| == 1 {
      OneUnfolded(seats);
    } else if |idx| > 1 {
      UnfoldedBefore(seats, FirstBest(seats, idx, board, evaluate));
    }
  }

  /** Before the flop the evaluator plays no part in the ranking. */
  lemma {:induction false} FirstBestPreflop(seats: seq<Seat>, idx: seq<nat>,
                                            e1: (seq<Card>, seq<Card>) -> int, e2: (seq<Card>, seq<Card>) -> int)
    requires |idx| > 0 && ValidIndices(idx, |seats|)
    ensures FirstBest(seats, idx, [], e1) == FirstBest(seats, idx, [], e2)
  {
    if |idx| > 1 {
      FirstBestPreflop(seats, idx[1..], e1, e2);
    }
  }

  /** With an empty board the winner is decided by the pre-flop heuristic alone. */
  lemma PreflopShowdown(seats: seq<Seat>, e1: (seq<Card>, seq<Card>) -> int, e2: (seq<Card>, seq<Card>) -> int)
    ensures Winner(seats, [], e1) == Winner(seats, [], e2)
  {
    var idx := UnfoldedSeats(seats);
    if |idx| > 1 {
      FirstBestPreflop(seats, idx, e1, e2);
    }
  }

  /** The seats after the pot is paid to seat w. */
  function Payout(seats: seq<Seat>, w: nat, pot: int): (r: seq<Seat>)
    requires w < |seats|
  {
    seats[w := seats[w].(chips := seats[w].chips + pot)]
  }

  function SumChips(seats: seq<Seat>): int
  {
    if seats == [] then 0 else SumChips(seats[..|seats| - 1]) + seats[|seats| - 1].chips
  }

  /** Paying the pot adds exactly the pot to the chips at the table, and moves
      no bet and no card. */
  lemma {:induction false} PayoutAddsPot(seats: seq<Seat>, w: nat, pot: int)
    requires w < |seats|
    ensures SumChips(Payout(seats, w, pot)) == SumChips(seats) + pot
    ensures SumBets(Payout(seats, w, pot)) == SumBets(seats)
    ensures forall i :: 0 <= i < |seats| ==>
      Payout(seats, w, pot)[i].hand == seats[i].hand && Payout(seats, w, pot)[i].folded == seats[i].folded
  {
    var m := |seats| - 1;
    if w < m {
      assert Payout(seats, w, pot)[..m] == Payout(seats[..m], w, pot);
      PayoutAddsPot(seats[..m], w, pot);
    } else {
      assert Payout(seats, w, pot)[..m] == seats[..m];
    }
  }

  /** GameState: the players and the community cards. The evaluator it holds
      is the `evaluate` parameter of HandleShowdown. */
  class GameState {
    const players: seq<Player>
    var communityCards: seq<Card>

    constructor (players: seq<Player>)
      ensures this.players == players && communityCards == []
    {
      this.players := players;
      communityCards := [];
    }

    /** GameState.get_total_pot. */
    method GetTotalPot() returns (total: int)
      ensures total == TotalPot(Views(players))
    {
      total := 0;
      for i := 0 to |players|
        invariant total == TotalPot(Views(players)[..i])
      {
        assert Views(players)[..i + 1][..i] == Views(players)[..i];
        if !players[i].folded {
          total := total + players[i].currentBet;
        }
      }
      assert Views(players)[..|players|] == Views(players);
    }

    /** Add the pot to the stack of the seat at w. */
    method PayPot(w: nat, pot: int)
      requires w < |players| && forall i :: 0 <= i < |players| && i != w ==> players[i] != players[w]
      modifies players
      ensures Views(players) == Payout(old(Views(players)), w, pot)
      ensures Hands(players) == old(Hands(players))
      ensures communityCards == old(communityCards)
    {
      ghost var seats := Views(players);
      ghost var hands := Hands(players);
      var winner := players[w];
      winner.chips := winner.chips + pot;
      forall i | 0 <= i < |players|
        ensures players[i].View() == Payout(seats, w, pot)[i] && players[i].hand == hands[i]
      {
        if i != w {
          assert players[i] != winner;
        }
      }
    }

    /** GameState.handle_showdown: pay `pot` to the winner, or fail when every
        seat has folded. */
    method HandleShowdown(pot: int, evaluate: (seq<Card>, seq<Card>) -> int)
      returns (r: Result<nat, ShowdownError>)
      requires Distinct(players)
      modifies players
      ensures r == Winner(old(Views(players)), communityCards, evaluate)
      ensures r.Success? ==> Views(players) == Payout(old(Views(players)), r.value, pot)
      ensures r.Failure? ==> Views(players) == old(Views(players))
      ensures Hands(players) == old(Hands(players))
    {
      r := Winner(Views(players), communityCards, evaluate);
      if r.Failure? {
        return;
      }
      assert forall i :: 0 <= i < |players| && i != r.value ==> players[i] != players[r.value];
      PayPot(r.value, pot);
    }
  }
}
