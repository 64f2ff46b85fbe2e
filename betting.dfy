/** BettingRound (betting.py): blind posting and one betting round, run on the
    Player objects of the table and proved to do what module BettingRules says. */
module Betting {
  import opened Cards
  import opened Players
  import opened BettingRules

  const DefaultSmallBlind: int := 10
  const DefaultBigBlind: int := 20

  class BettingRound {
    const players: seq<Player>
    const smallBlind: int
    const bigBlind: int
    var pot: int
    var currentBet: int
    /** round_bets, indexed by seat. */
    var roundBets: seq<int>

    ghost predicate Valid()
      reads this
    {
      |players| > 0 && |roundBets| == |players| && Distinct(players)
    }

    /** The table as the rules in BettingRules see it. */
    function State(): Table
      reads this, players
    {
      Table(Views(players), currentBet, roundBets, pot)
    }

    /** BettingRound(players, small_blind, big_blind); an empty round_bets
        reads as 0 for every seat. */
    constructor (players: seq<Player>, smallBlind: int, bigBlind: int)
      requires |players| > 0 && Distinct(players)
      ensures Valid()
      ensures this.players == players && this.smallBlind == smallBlind && this.bigBlind == bigBlind
      ensures pot == 0 && currentBet == 0 && roundBets == Zeros(|players|)
    {
      this.players := players;
      this.smallBlind := smallBlind;
      this.bigBlind := bigBlind;
      pot := 0;
      currentBet := 0;
      roundBets := Zeros(|players|);
    }

    /** One blind of post_blinds: the seat at `pos` pays the smaller of `blind`
        and its stack, and that amount goes into round_bets and the pot. */
    method PostBlind(pos: nat, blind: int) returns (amount: int)
      requires Valid() && pos < |players|
      modifies this`roundBets, this`pot, players[pos]
      ensures amount == if blind < old(players[pos].chips) then blind else old(players[pos].chips)
      ensures Views(players) == old(Views(players))[pos := Bet(old(players[pos].View()), amount)]
      ensures roundBets == old(roundBets)[pos := amount] && pot == old(pot) + amount
    {
      ghost var seats := Views(players);
      var player := players[pos];
      amount := if blind < player.chips then blind else player.chips;
      var paid := player.MakeBet(amount);
      roundBets := roundBets[pos := amount];
      pot := pot + amount;
      forall i | 0 <= i < |players| ensures players[i].View() == seats[pos := Bet(seats[pos], amount)][i] {
        if i != pos {
          assert players[i] != player;
        }
      }
    }

    /** BettingRound.post_blinds. */
    method PostBlinds(dealerPos: int)
      requires Valid()
      modifies this, players
      ensures Valid()
      ensures State() == BettingRules.PostBlinds(old(State()), dealerPos, smallBlind, bigBlind)
    {
      ghost var t := State();
      var n := |players|;
      roundBets := Zeros(n);
      var sbPos := (dealerPos + 1) % n;
      var bbPos := (dealerPos + 2) % n;
      var sbAmount := PostBlind(sbPos, smallBlind);
      ghost var seats := t.seats[sbPos := Bet(t.seats[sbPos], sbAmount)];
      assert Views(players) == seats;
      var bbAmount := PostBlind(bbPos, bigBlind);
      currentBet := bbAmount;
      assert State() == Table(seats[bbPos := Bet(seats[bbPos], bbAmount)], bbAmount,
                              Zeros(n)[sbPos := sbAmount][bbPos := bbAmount], t.pot + sbAmount + bbAmount);
    }

    /** The action part of _handle_ai_turn / _handle_player_turn (they are the
        same code): apply one decision of the seat at `pos`. */
    method ApplyDecision(pos: nat, d: Decision)
      requires Valid() && pos < |players|
      modifies this`currentBet, players[pos]
      ensures players[pos].View() == Act(old(players[pos].View()), d, old(currentBet), bigBlind).seat
      ensures currentBet == Act(old(players[pos].View()), d, old(currentBet), bigBlind).currentBet
    {
      var player := players[pos];
      if d.action == Fold {
        player.folded := true;
      } else if d.action == Call || d.action == Check {
        var callAmount := currentBet - player.currentBet;
        if callAmount > 0 {
          var bet := player.MakeBet(callAmount);
        }
      } else {
        var amount := d.amount;
        var minRaise := currentBet + bigBlind;
        if amount < minRaise {
          amount := minRaise;
        }
        var bet := player.MakeBet(amount - player.currentBet);
        currentBet := amount;
      }
    }

    /** The acting part of one pass of handle_betting_round: the seat at `pos`
        applies decision `d`, and a bet that grew is written to round_bets. */
    method ActAt(pos: nat, d: Decision)
      requires Valid() && pos < |players|
      modifies this`currentBet, this`roundBets, players[pos]
      ensures Valid()
      ensures var a := Act(old(players[pos].View()), d, old(currentBet), bigBlind);
              && Views(players) == old(Views(players))[pos := a.seat]
              && currentBet == a.currentBet
              && roundBets == if a.seat.currentBet - old(roundBets[pos]) > 0
                              then old(roundBets)[pos := a.seat.currentBet] else old(roundBets)
    {
      ghost var seats := Views(players);
      var player := players[pos];
      var previousPlayerBet := roundBets[pos];
      ApplyDecision(pos, d);
      forall i | 0 <= i < |players| ensures players[i].View() == seats[pos := player.View()][i] {
        if i != pos {
          assert players[i] != player;
        }
      }
      var currentPlayerBet := player.currentBet - previousPlayerBet;
      if currentPlayerBet > 0 {
        roundBets := roundBets[pos := player.currentBet];
      }
    }

    /** The all_matched scan over active_players. */
    method AllMatchedNow(active: seq<nat>) returns (allMatched: bool)
      requires ValidIndices(active, |players|)
      ensures allMatched == AllMatched(Views(players), active, currentBet)
    {
      allMatched := true;
      for k := 0 to |active|
        invariant allMatched
        invariant forall j :: 0 <= j < k ==>
          !(!players[active[j]].folded && players[active[j]].chips > 0 && players[active[j]].currentBet < currentBet)
      {
        var p := players[active[k]];
        if !p.folded && p.chips > 0 && p.currentBet < currentBet {
          allMatched := false;
          break;
        }
      }
    }

    /** The all_checked scan over active_players. */
    method AllCheckedNow(active: seq<nat>) returns (allChecked: bool)
      requires ValidIndices(active, |players|)
      ensures allChecked == AllChecked(Views(players), active)
    {
      allChecked := true;
      for k := 0 to |active|
        invariant allChecked
        invariant forall j :: 0 <= j < k ==>
          !(!players[active[j]].folded && players[active[j]].currentBet > 0)
      {
        var p := players[active[k]];
        if !p.folded && p.currentBet > 0 {
          allChecked := false;
          break;
        }
      }
    }

    /** The reset at the start of every round but the pre-flop. */
    method OpenStreet()
      requires Valid()
      modifies this, players
      ensures Valid()
      ensures State() == BettingRules.OpenStreet(old(State()))
    {
      ghost var t := State();
      var n := |players|;
      currentBet := 0;
      pot := Sum(roundBets);
      for i := 0 to n
        invariant |roundBets| == n && pot == Sum(t.roundBets) && currentBet == 0
        invariant forall j :: 0 <= j < i ==> players[j].View() == t.seats[j].(currentBet := 0) && roundBets[j] == 0
        invariant forall j :: i <= j < n ==> players[j].View() == t.seats[j]
      {
        players[i].currentBet := 0;
        roundBets := roundBets[i := 0];
      }
      assert Views(players) == BettingRules.OpenStreet(t).seats;
      assert roundBets == Zeros(n);
    }

    /** One pass of the `while True` body of handle_betting_round: the seat at
        `pos` is skipped or acts, the position moves on, and `exit` tells
        whether the loop breaks after this pass. */
    method Turn(active: seq<nat>, startFrom: nat, scripts: seq<seq<Decision>>, pos: nat,
                lastAction: Option<nat>, started: bool)
      returns (nextScripts: seq<seq<Decision>>, nextPos: nat, nextLastAction: Option<nat>,
               nextStarted: bool, exit: bool)
      requires Valid() && pos < |players| && |scripts| == |players| && ValidIndices(active, |players|)
      modifies this, players
      ensures Valid()
      ensures var st := Step(old(Round(State(), scripts, pos, lastAction, started)), active, bigBlind, startFrom);
              st.round == Round(State(), nextScripts, nextPos, nextLastAction, nextStarted) && st.exit == exit
    {
      ghost var before := Round(State(), scripts, pos, lastAction, started);
      var n := |players|;
      nextScripts, nextLastAction, nextStarted := scripts, lastAction, started;
      var player := players[pos];
      if player.folded || player.chips <= 0 {
        nextPos := (pos + 1) % n;
        exit := false;
        return;
      }
      var previousBet := currentBet;
      var next := NextDecision(scripts[pos]);
      nextScripts := scripts[pos := next.1];
      ActAt(pos, next.0);
      if player.currentBet > previousBet {
        nextLastAction := Some(pos);
        nextStarted := true;
      }
      nextPos := (pos + 1) % n;
      exit := false;
      if nextStarted {
        if nextLastAction.Some? && nextPos == nextLastAction.value {
          exit := AllMatchedNow(active);
        }
      } else if nextPos == startFrom {
        exit := AllCheckedNow(active);
      }
    }

    /** The `while True` loop of handle_betting_round, for at most `fuel`
        passes; `done` tells whether it broke out. */
    method RunTurns(active: seq<nat>, startFrom: nat, scripts: seq<seq<Decision>>, fuel: nat)
      returns (done: bool, left: seq<seq<Decision>>)
      requires Valid() && startFrom < |players| && |scripts| == |players| && ValidIndices(active, |players|)
      modifies this, players
      ensures Valid()
      ensures var run := Run(old(Round(State(), scripts, startFrom, None, false)), active, bigBlind, startFrom, fuel);
              State() == run.round.table && left == run.round.scripts && done == run.done
    {
      var n := |players|;
      var pos: nat := startFrom;
      var lastAction: Option<nat> := None;
      var started := false;
      left := scripts;
      ghost var target := Run(Round(State(), left, pos, lastAction, started), active, bigBlind, startFrom, fuel);
      var fuelLeft := fuel;
      done := false;
      while fuelLeft > 0
        invariant Valid() && pos < n && |left| == n
        invariant Run(Round(State(), left, pos, lastAction, started), active, bigBlind, startFrom, fuelLeft) == target
      {
        var exit;
        left, pos, lastAction, started, exit := Turn(active, startFrom, left, pos, lastAction, started);
        fuelLeft := fuelLeft - 1;
        if exit {
          assert target == RunResult(Round(State(), left, pos, lastAction, started), true);
          done := true;
          break;
        }
      }
      assert target == RunResult(Round(State(), left, pos, lastAction, started), done);
    }

    /** BettingRound.handle_betting_round for at most `fuel` passes of its loop.
        Each seat's decisions come from its script (an empty script folds); the
        returned scripts are what is left of them. */
    method HandleBettingRound(street: Street, startFrom: nat, scripts: seq<seq<Decision>>, fuel: nat)
      returns (outcome: Outcome, scriptsLeft: seq<seq<Decision>>)
      requires Valid() && startFrom < |players| && |scripts| == |players|
      modifies this, players
      ensures Valid()
      ensures var res := RunPhase(old(State()), street, startFrom, scripts, bigBlind, fuel);
              outcome == res.outcome && State() == res.table && scriptsLeft == res.scripts
    {
      var active := LiveSeats(Views(players));
      if |active| <= 1 {
        return NoBetting, scripts;
      }
      if street != PreFlop {
        OpenStreet();
      }
      var done;
      done, scriptsLeft := RunTurns(active, startFrom, scripts, fuel);
      if done {
        pot := Sum(roundBets);
        outcome := Continued;
      } else {
        outcome := OutOfFuel;
      }
    }
  }
}
