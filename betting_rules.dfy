/** The rules of one betting round (betting.py), stated on values: blind
    posting, the effect of one seat's decision, one turn of the loop in
    BettingRound.handle_betting_round, and the loop itself driven by fuel. The
    class in module Betting runs the same rules on Player objects and is proved
    equal to these functions. */
module BettingRules {
  import opened Cards
  import opened Players

  /** The four betting rounds of a hand; only "pre-flop or not" matters here. */
  datatype Street = PreFlop | Flop | Turn | River

  /** What BettingRound keeps: the seats, the bet every live seat must match
      (current_bet), each seat's bet in this round (round_bets) and the pot. */
  datatype Table = Table(seats: seq<Seat>, currentBet: int, roundBets: seq<int>, pot: int)

  predicate WellFormed(t: Table)
  {
    |t.roundBets| == |t.seats|
  }

  function Sum(xs: seq<int>): int
  {
    if xs == [] then 0 else Sum(xs[..|xs| - 1]) + xs[|xs| - 1]
  }

  /** Sum of the seats' bets in the current round. */
  function SumBets(seats: seq<Seat>): int
  {
    if seats == [] then 0 else SumBets(seats[..|seats| - 1]) + seats[|seats| - 1].currentBet
  }

  function Zeros(n: nat): (z: seq<int>)
    ensures |z| == n && forall i :: 0 <= i < n ==> z[i] == 0
  {
    seq(n, i => 0)
  }

  lemma {:induction false} SumZeros(n: nat)
    ensures Sum(Zeros(n)) == 0
  {
    if n > 0 {
      assert Zeros(n)[..n - 1] == Zeros(n - 1);
      SumZeros(n - 1);
    }
  }

  /** When round_bets agrees with every seat's bet, its sum is the sum of the bets. */
  lemma {:induction false} SumOfRoundBets(roundBets: seq<int>, seats: seq<Seat>)
    requires |roundBets| == |seats|
    requires forall i :: 0 <= i < |seats| ==> roundBets[i] == seats[i].currentBet
    ensures Sum(roundBets) == SumBets(seats)
  {
    if seats != [] {
      SumOfRoundBets(roundBets[..|roundBets| - 1], seats[..|seats| - 1]);
    }
  }

  /** A seat the engine still asks to act: not folded and holding chips. */
  predicate IsLive(s: Seat)
  {
    !s.folded && s.chips > 0
  }

  predicate ValidIndices(idx: seq<nat>, n: nat)
  {
    forall k :: 0 <= k < |idx| ==> idx[k] < n
  }

  /** active_players: the live seats, by index, in table order. */
  function LiveSeats(seats: seq<Seat>): (idx: seq<nat>)
    ensures ValidIndices(idx, |seats|)
    ensures forall k :: 0 <= k < |idx| ==> IsLive(seats[idx[k]])
    ensures forall i :: 0 <= i < |seats| && IsLive(seats[i]) ==> i in idx
    ensures forall k, l :: 0 <= k < l < |idx| ==> idx[k] < idx[l]
  {
    if seats == [] then []
    else
      var n := |seats| - 1;
      LiveSeats(seats[..n]) + if IsLive(seats[n]) then [n] else []
  }

  /** The next decision a seat's script gives, and the script left after it:
      an exhausted script answers fold. */
  function NextDecision(script: seq<Decision>): (r: (Decision, seq<Decision>))
    ensures script == [] ==> r == (Decision(Fold, 0), [])
    ensures script != [] ==> [r.0] + r.1 == script
  {
    if script == [] then (Decision(Fold, 0), []) else (script[0], script[1..])
  }

  /** A seat after acting, and the table bet after its action. */
  datatype Acted = Acted(seat: Seat, currentBet: int)

  /** Applying one decision (the action part of _handle_ai_turn and
      _handle_player_turn): fold marks the seat folded, call or check pays what
      is owed (capped by the stack), anything else raises to at least
      currentBet + bigBlind and makes that the table bet even when the stack
      cannot cover it. */
  function Act(s: Seat, d: Decision, currentBet: int, bigBlind: int): (r: Acted)
    ensures r.seat.hand == s.hand
    ensures r.seat.chips + r.seat.currentBet == s.chips + s.currentBet
    ensures d.action == Fold ==> r == Acted(s.(folded := true), currentBet)
    ensures d.action != Fold ==> r.seat.folded == s.folded
    ensures d.action in {Call, Check} ==>
      && r.currentBet == currentBet
      && (currentBet - s.currentBet <= 0 ==> r.seat == s)
      && (currentBet - s.currentBet > 0 ==>
            r.seat.currentBet - s.currentBet == Paid(s.chips, currentBet - s.currentBet))
    ensures d.action == Raise ==>
      && r.currentBet >= currentBet + bigBlind
      && r.currentBet >= d.amount
      && (r.currentBet == d.amount || r.currentBet == currentBet + bigBlind)
      && r.seat.currentBet - s.currentBet == Paid(s.chips, r.currentBet - s.currentBet)
      && r.seat.currentBet <= r.currentBet
  {
    match d.action
    case Fold => Acted(s.(folded := true), currentBet)
    case _ =>
      if d.action == Call || d.action == Check then
        var owed := currentBet - s.currentBet;
        Acted(if owed > 0 then Bet(s, owed) else s, currentBet)
      else
        var minRaise := currentBet + bigBlind;
        var raiseTo := if d.amount < minRaise then minRaise else d.amount;
        Acted(Bet(s, raiseTo - s.currentBet), raiseTo)
  }

  /** BettingRound.post_blinds on values: round_bets restarts at zero, the seat
      after the dealer pays the small blind and the one after it the big blind,
      each capped by its stack; both go into the pot and the big blind's amount
      becomes the table bet. */
  function PostBlinds(t: Table, dealerPos: int, smallBlind: int, bigBlind: int): (r: Table)
    requires |t.seats| > 0
    ensures WellFormed(r) && |r.seats| == |t.seats|
    ensures forall i :: 0 <= i < |t.seats| ==> r.seats[i].hand == t.seats[i].hand && r.seats[i].folded == t.seats[i].folded
  {
    var n := |t.seats|;
    var sb, bb := (dealerPos + 1) % n, (dealerPos + 2) % n;
    var sbAmount := if smallBlind < t.seats[sb].chips then smallBlind else t.seats[sb].chips;
    var seats := t.seats[sb := Bet(t.seats[sb], sbAmount)];
    var bbAmount := if bigBlind < seats[bb].chips then bigBlind else seats[bb].chips;
    Table(seats[bb := Bet(seats[bb], bbAmount)], bbAmount,
          Zeros(n)[sb := sbAmount][bb := bbAmount], t.pot + sbAmount + bbAmount)
  }

  /** With at least two seats the blinds fall on two different seats, each
      charged the smaller of its blind and its stack; nobody else is touched. */
  lemma PostBlindsCharges(t: Table, dealerPos: int, smallBlind: int, bigBlind: int)
    requires |t.seats| >= 2
    ensures var n := |t.seats|;
            var sb, bb := (dealerPos + 1) % n, (dealerPos + 2) % n;
            var r := PostBlinds(t, dealerPos, smallBlind, bigBlind);
            var sbAmount := if smallBlind < t.seats[sb].chips then smallBlind else t.seats[sb].chips;
            var bbAmount := if bigBlind < t.seats[bb].chips then bigBlind else t.seats[bb].chips;
            && sb != bb
            && r.seats[sb] == Bet(t.seats[sb], sbAmount)
            && r.seats[bb] == Bet(t.seats[bb], bbAmount)
            && r.pot == t.pot + sbAmount + bbAmount
            && r.currentBet == bbAmount
            && r.roundBets[sb] == sbAmount && r.roundBets[bb] == bbAmount
            && (forall i :: 0 <= i < n && i != sb && i != bb ==> r.seats[i] == t.seats[i] && r.roundBets[i] == 0)
  {
    var n := |t.seats|;
    ModSucc(dealerPos + 1, n);
  }

  /** At a table of one seat, that seat pays both blinds, the big blind from
      what the small blind left; round_bets keeps only the big blind, while
      the pot receives both. */
  lemma PostBlindsOneSeat(t: Table, dealerPos: int, smallBlind: int, bigBlind: int)
    requires |t.seats| == 1
    ensures var s := t.seats[0];
            var sbAmount := if smallBlind < s.chips then smallBlind else s.chips;
            var afterSb := Bet(s, sbAmount);
            var bbAmount := if bigBlind < afterSb.chips then bigBlind else afterSb.chips;
            var r := PostBlinds(t, dealerPos, smallBlind, bigBlind);
            && r.seats == [Bet(afterSb, bbAmount)]
            && r.roundBets == [bbAmount]
            && r.pot == t.pot + sbAmount + bbAmount
            && r.currentBet == bbAmount
  {
  }

  /** The start of every round but the pre-flop (betting.py:48-53): the pot
      becomes the sum of round_bets, and the table bet, every seat's bet and
      every round_bets entry become 0. */
  function OpenStreet(t: Table): (r: Table)
    ensures WellFormed(r) && |r.seats| == |t.seats|
    ensures r.currentBet == 0 && r.pot == Sum(t.roundBets)
    ensures forall i :: 0 <= i < |t.seats| ==>
      r.seats[i] == t.seats[i].(currentBet := 0) && r.roundBets[i] == 0
  {
    Table(seq(|t.seats|, i requires 0 <= i < |t.seats| => t.seats[i].(currentBet := 0)),
          0, Zeros(|t.seats|), Sum(t.roundBets))
  }

  /** The loop state of handle_betting_round: the table, what is left of every
      seat's script, the position, the last raiser and whether anyone raised. */
  datatype Round = Round(table: Table, scripts: seq<seq<Decision>>, pos: nat,
                         lastAction: Option<nat>, started: bool)

  predicate Shaped(r: Round)
  {
    && |r.table.seats| > 0
    && |r.table.roundBets| == |r.table.seats|
    && |r.scripts| == |r.table.seats|
    && r.pos < |r.table.seats|
  }

  /** No live seat (as of the start of the round) that is still unfolded and
      holding chips is below the table bet. */
  predicate AllMatched(seats: seq<Seat>, active: seq<nat>, currentBet: int)
    requires ValidIndices(active, |seats|)
  {
    forall k :: 0 <= k < |active| ==>
      !(IsLive(seats[active[k]]) && seats[active[k]].currentBet < currentBet)
  }

  /** No seat that was live at the start of the round and is still unfolded
      has put anything in. */
  predicate AllChecked(seats: seq<Seat>, active: seq<nat>)
    requires ValidIndices(active, |seats|)
  {
    forall k :: 0 <= k < |active| ==>
      !(!seats[active[k]].folded && seats[active[k]].currentBet > 0)
  }

  datatype StepResult = StepResult(round: Round, exit: bool)

  /** One pass of the `while True` body: a folded or chip-less seat is skipped
      with no exit check; otherwise the seat acts on its next decision,
      round_bets follows a bet that grew, a bet above the old table bet marks
      the seat as last raiser, the position advances, and the exit rules are
      checked. */
  function Step(r: Round, active: seq<nat>, bigBlind: int, startFrom: nat): (st: StepResult)
    requires Shaped(r) && ValidIndices(active, |r.table.seats|)
    ensures Shaped(st.round) && |st.round.table.seats| == |r.table.seats|
  {
    var n := |r.table.seats|;
    var s := r.table.seats[r.pos];
    if s.folded || s.chips <= 0 then
      StepResult(r.(pos := (r.pos + 1) % n), false)
    else
      var next := NextDecision(r.scripts[r.pos]);
      var previousBet := r.table.currentBet;
      var previousSeatBet := r.table.roundBets[r.pos];
      var a := Act(s, next.0, r.table.currentBet, bigBlind);
      var roundBets := if a.seat.currentBet - previousSeatBet > 0
                       then r.table.roundBets[r.pos := a.seat.currentBet]
                       else r.table.roundBets;
      var table := Table(r.table.seats[r.pos := a.seat], a.currentBet, roundBets, r.table.pot);
      var raised := a.seat.currentBet > previousBet;
      var lastAction := if raised then Some(r.pos) else r.lastAction;
      var started := r.started || raised;
      var pos := (r.pos + 1) % n;
      var exit :=
        if started then lastAction.Some? && pos == lastAction.value
                        && AllMatched(table.seats, active, table.currentBet)
        else pos == startFrom && AllChecked(table.seats, active);
      StepResult(Round(table, r.scripts[r.pos := next.1], pos, lastAction, started), exit)
  }

  datatype RunResult = RunResult(round: Round, done: bool)

  /** The loop, for at most `fuel` passes; `done` says whether it broke out. */
  function Run(r: Round, active: seq<nat>, bigBlind: int, startFrom: nat, fuel: nat): (res: RunResult)
    requires Shaped(r) && ValidIndices(active, |r.table.seats|)
    ensures Shaped(res.round) && |res.round.table.seats| == |r.table.seats|
    decreases fuel
  {
    if fuel == 0 then RunResult(r, false)
    else
      var st := Step(r, active, bigBlind, startFrom);
      if st.exit then RunResult(st.round, true)
      else Run(st.round, active, bigBlind, startFrom, fuel - 1)
  }

  /** How handle_betting_round ended: it returned false at once, it returned
      true, or the fuel ran out first (the program would still be looping). */
  datatype Outcome = NoBetting | Continued | OutOfFuel

  datatype PhaseResult = PhaseResult(outcome: Outcome, table: Table, scripts: seq<seq<Decision>>)

  /** BettingRound.handle_betting_round on values. */
  function RunPhase(t: Table, street: Street, startFrom: nat, scripts: seq<seq<Decision>>,
                    bigBlind: int, fuel: nat): (res: PhaseResult)
    requires WellFormed(t) && startFrom < |t.seats| && |scripts| == |t.seats|
    ensures WellFormed(res.table) && |res.table.seats| == |t.seats| && |res.scripts| == |t.seats|
  {
    var active := LiveSeats(t.seats);
    if |active| <= 1 then PhaseResult(NoBetting, t, scripts)
    else
      var t0 := if street != PreFlop then OpenStreet(t) else t;
      var run := Run(Round(t0, scripts, startFrom, None, false), active, bigBlind, startFrom, fuel);
      if run.done then
        PhaseResult(Continued, run.round.table.(pot := Sum(run.round.table.roundBets)), run.round.scripts)
      else
        PhaseResult(OutOfFuel, run.round.table, run.round.scripts)
  }

  //
  // What the loop keeps
  //

  /** round_bets agrees with every seat's bet, no stack is negative, and no bet
      is above the table bet plus one big blind. */
  ghost predicate Accounts(t: Table, bigBlind: int)
  {
    && WellFormed(t)
    && forall i :: 0 <= i < |t.seats| ==>
         && t.roundBets[i] == t.seats[i].currentBet
         && t.seats[i].chips >= 0
         && t.seats[i].currentBet <= t.currentBet + bigBlind
  }

  /** Every seat's chips plus bet is the same in both. */
  ghost predicate SameStakes(a: seq<Seat>, b: seq<Seat>)
  {
    |a| == |b| && forall i :: 0 <= i < |a| ==> a[i].chips + a[i].currentBet == b[i].chips + b[i].currentBet
  }

  /** Seats that cannot act keep their state, and every seat keeps its hand. */
  ghost predicate Frame(a: Round, b: Round)
    requires |a.table.seats| == |a.scripts|
  {
    && |b.table.seats| == |a.table.seats| && |b.scripts| == |a.scripts|
    && (forall i :: 0 <= i < |a.table.seats| ==> b.table.seats[i].hand == a.table.seats[i].hand)
    && (forall i :: 0 <= i < |a.table.seats| && !IsLive(a.table.seats[i]) ==>
          b.table.seats[i] == a.table.seats[i] && b.scripts[i] == a.scripts[i])
  }

  /** The table post_blinds leaves at cleared seats meets the accounts the
      pre-flop round keeps: round_bets follows the bets, no stack is negative
      and no bet is above the table bet plus one big blind. */
  lemma PostBlindsAccounts(t: Table, dealerPos: int, smallBlind: int, bigBlind: int)
    requires |t.seats| >= 2 && 0 <= smallBlind <= bigBlind
    requires forall i :: 0 <= i < |t.seats| ==> t.seats[i].chips >= 0 && t.seats[i].currentBet == 0
    ensures Accounts(PostBlinds(t, dealerPos, smallBlind, bigBlind), bigBlind)
  {
    PostBlindsCharges(t, dealerPos, smallBlind, bigBlind);
  }

  lemma StepKeepsAccounts(r: Round, active: seq<nat>, bigBlind: int, startFrom: nat)
    requires Shaped(r) && ValidIndices(active, |r.table.seats|)
    requires bigBlind >= 0 && Accounts(r.table, bigBlind)
    ensures var st := Step(r, active, bigBlind, startFrom);
            && Accounts(st.round.table, bigBlind)
            && SameStakes(st.round.table.seats, r.table.seats)
            && st.round.table.currentBet >= r.table.currentBet
            && st.round.table.pot == r.table.pot
  {
    var st := Step(r, active, bigBlind, startFrom);
    var s := r.table.seats[r.pos];
    if !(s.folded || s.chips <= 0) {
      var next := NextDecision(r.scripts[r.pos]);
      var a := Act(s, next.0, r.table.currentBet, bigBlind);
      assert a.seat.currentBet >= s.currentBet;
      assert a.seat.chips >= 0;
      assert a.seat.currentBet <= a.currentBet + bigBlind;
      assert a.currentBet >= r.table.currentBet;
      var t := st.round.table;
      forall i | 0 <= i < |t.seats|
        ensures t.roundBets[i] == t.seats[i].currentBet
        ensures t.seats[i].chips >= 0
        ensures t.seats[i].currentBet <= t.currentBet + bigBlind
      {
        if i != r.pos {
          assert t.seats[i] == r.table.seats[i];
        }
      }
    }
  }

  lemma StepFrame(r: Round, active: seq<nat>, bigBlind: int, startFrom: nat)
    requires Shaped(r) && ValidIndices(active, |r.table.seats|)
    ensures Frame(r, Step(r, active, bigBlind, startFrom).round)
  {
  }

  /** Over the whole loop: round_bets keeps following the bets, nobody's chips
      plus bet changes, the table bet never drops, seats that cannot act are
      never asked (their script and state are untouched) and hands stay. */
  lemma {:induction false} RunKeepsAccounts(r: Round, active: seq<nat>, bigBlind: int, startFrom: nat, fuel: nat)
    requires Shaped(r) && ValidIndices(active, |r.table.seats|)
    requires bigBlind >= 0 && Accounts(r.table, bigBlind)
    ensures var res := Run(r, active, bigBlind, startFrom, fuel).round;
            && Accounts(res.table, bigBlind)
            && SameStakes(res.table.seats, r.table.seats)
            && res.table.currentBet >= r.table.currentBet
            && res.table.pot == r.table.pot
            && Frame(r, res)
    decreases fuel
  {
    if fuel > 0 {
      var st := Step(r, active, bigBlind, startFrom);
      StepKeepsAccounts(r, active, bigBlind, startFrom);
      StepFrame(r, active, bigBlind, startFrom);
      if !st.exit {
        RunKeepsAccounts(st.round, active, bigBlind, startFrom, fuel - 1);
      }
    }
  }

  /** A pass that skips a folded or chip-less seat never runs the exit checks:
      the loop can break only right after a seat acted. While nobody has
      raised, that seat must be the one just before start_from. */
  lemma StepExitActs(r: Round, active: seq<nat>, bigBlind: int, startFrom: nat)
    requires Shaped(r) && ValidIndices(active, |r.table.seats|)
    ensures var st := Step(r, active, bigBlind, startFrom);
            st.exit ==> IsLive(r.table.seats[r.pos]) && st.round.pos == (r.pos + 1) % |r.table.seats|
    ensures var st := Step(r, active, bigBlind, startFrom);
            st.exit && !st.round.started ==> (r.pos + 1) % |r.table.seats| == startFrom
  {
  }

  /** The loop only breaks out right after a seat acted, and then either some
      seat raised, the position is back at the last raiser and every live seat
      has matched the table bet, or nobody raised, the position is back at
      start_from and no live unfolded seat has bet anything. */
  ghost predicate ExitRule(r: Round, active: seq<nat>, startFrom: nat)
    requires ValidIndices(active, |r.table.seats|)
  {
    if r.started then r.lastAction == Some(r.pos) && AllMatched(r.table.seats, active, r.table.currentBet)
    else r.pos == startFrom && AllChecked(r.table.seats, active)
  }

  lemma {:induction false} RunExitRule(r: Round, active: seq<nat>, bigBlind: int, startFrom: nat, fuel: nat)
    requires Shaped(r) && ValidIndices(active, |r.table.seats|)
    requires r.started <==> r.lastAction.Some?
    ensures var res := Run(r, active, bigBlind, startFrom, fuel);
            res.done ==> ExitRule(res.round, active, startFrom)
    decreases fuel
  {
    if fuel > 0 {
      var st := Step(r, active, bigBlind, startFrom);
      if !st.exit {
        RunExitRule(st.round, active, bigBlind, startFrom, fuel - 1);
      }
    }
  }

  /** The exit check of one pass, in both directions: the loop breaks after
      this pass exactly when the seat at the position acted and the state the
      pass leaves satisfies one of the two exit rules. */
  lemma StepExitIff(r: Round, active: seq<nat>, bigBlind: int, startFrom: nat)
    requires Shaped(r) && ValidIndices(active, |r.table.seats|)
    requires r.started <==> r.lastAction.Some?
    ensures var st := Step(r, active, bigBlind, startFrom);
            st.exit <==> IsLive(r.table.seats[r.pos]) && ExitRule(st.round, active, startFrom)
  {
  }

  /** The loop stops at the first acting pass after which an exit rule holds,
      and goes on with the next pass otherwise. */
  lemma RunStopsAtExit(r: Round, active: seq<nat>, bigBlind: int, startFrom: nat, fuel: nat)
    requires Shaped(r) && ValidIndices(active, |r.table.seats|)
    requires r.started <==> r.lastAction.Some?
    requires fuel > 0
    ensures var st := Step(r, active, bigBlind, startFrom);
            var res := Run(r, active, bigBlind, startFrom, fuel);
            && (IsLive(r.table.seats[r.pos]) && ExitRule(st.round, active, startFrom) ==> res == RunResult(st.round, true))
            && (!(IsLive(r.table.seats[r.pos]) && ExitRule(st.round, active, startFrom)) ==>
                  res == Run(st.round, active, bigBlind, startFrom, fuel - 1))
  {
    StepExitIff(r, active, bigBlind, startFrom);
  }

  /** Per-round accounting of handle_betting_round. It returns false, changing
      nothing, exactly when at most one seat is live. Otherwise, for the
      pre-flop (whose bets must already agree with round_bets), every seat's
      chips plus bet is unchanged; for a later round every seat's bet starts at
      0, so chips plus bet equals the chips it came in with. No stack goes
      negative, round_bets still follows the bets, and when the round ends
      normally the pot is the sum of all seats' bets, folded seats included. */
  lemma PhaseAccounts(t: Table, street: Street, startFrom: nat, scripts: seq<seq<Decision>>,
                      bigBlind: int, fuel: nat)
    requires WellFormed(t) && startFrom < |t.seats| && |scripts| == |t.seats|
    requires bigBlind >= 0
    requires forall i :: 0 <= i < |t.seats| ==> t.seats[i].chips >= 0
    requires street == PreFlop ==> Accounts(t, bigBlind)
    ensures var res := RunPhase(t, street, startFrom, scripts, bigBlind, fuel);
            && (res.outcome == NoBetting <==> |LiveSeats(t.seats)| <= 1)
            && (res.outcome == NoBetting ==> res.table == t && res.scripts == scripts)
            && (res.outcome != NoBetting ==>
                  && Accounts(res.table, bigBlind)
                  && forall i :: 0 <= i < |t.seats| ==>
                       && res.table.seats[i].hand == t.seats[i].hand
                       && res.table.seats[i].chips + res.table.seats[i].currentBet
                          == t.seats[i].chips + (if street == PreFlop then t.seats[i].currentBet else 0))
            && (res.outcome == Continued ==> res.table.pot == SumBets(res.table.seats))
  {
    var active := LiveSeats(t.seats);
    if |active| > 1 {
      var t0 := if street != PreFlop then OpenStreet(t) else t;
      var r0 := Round(t0, scripts, startFrom, None, false);
      RunKeepsAccounts(r0, active, bigBlind, startFrom, fuel);
      var run := Run(r0, active, bigBlind, startFrom, fuel);
      SumOfRoundBets(run.round.table.roundBets, run.round.table.seats);
    }
  }

  /** Seats that are folded or have no chips at the start of a round are never
      asked to act: their state and their script come out of the round as they
      went in (apart from the later-round reset of the bet). */
  lemma PhaseSkipsIdleSeats(t: Table, street: Street, startFrom: nat, scripts: seq<seq<Decision>>,
                            bigBlind: int, fuel: nat, i: nat)
    requires WellFormed(t) && startFrom < |t.seats| && |scripts| == |t.seats|
    requires i < |t.seats| && !IsLive(t.seats[i])
    ensures var res := RunPhase(t, street, startFrom, scripts, bigBlind, fuel);
            && res.scripts[i] == scripts[i]
            && res.table.seats[i].chips == t.seats[i].chips
            && res.table.seats[i].folded == t.seats[i].folded
            && res.table.seats[i].hand == t.seats[i].hand
  {
    var active := LiveSeats(t.seats);
    if |active| > 1 {
      var t0 := if street != PreFlop then OpenStreet(t) else t;
      var r0 := Round(t0, scripts, startFrom, None, false);
      RunFrame(r0, active, bigBlind, startFrom, fuel);
    }
  }

  /** A betting round never touches a hole card. */
  lemma PhaseKeepsHands(t: Table, street: Street, startFrom: nat, scripts: seq<seq<Decision>>,
                        bigBlind: int, fuel: nat)
    requires WellFormed(t) && startFrom < |t.seats| && |scripts| == |t.seats|
    ensures var res := RunPhase(t, street, startFrom, scripts, bigBlind, fuel);
            forall i :: 0 <= i < |t.seats| ==> res.table.seats[i].hand == t.seats[i].hand
  {
    var active := LiveSeats(t.seats);
    if |active| > 1 {
      var t0 := if street != PreFlop then OpenStreet(t) else t;
      RunFrame(Round(t0, scripts, startFrom, None, false), active, bigBlind, startFrom, fuel);
    }
  }

  lemma {:induction false} RunFrame(r: Round, active: seq<nat>, bigBlind: int, startFrom: nat, fuel: nat)
    requires Shaped(r) && ValidIndices(active, |r.table.seats|)
    ensures Frame(r, Run(r, active, bigBlind, startFrom, fuel).round)
    decreases fuel
  {
    if fuel > 0 {
      var st := Step(r, active, bigBlind, startFrom);
      StepFrame(r, active, bigBlind, startFrom);
      if !st.exit {
        RunFrame(st.round, active, bigBlind, startFrom, fuel - 1);
      }
    }
  }

  /** When handle_betting_round returns true, the loop left by one of its two
      exit rules. */
  lemma PhaseExitRule(t: Table, street: Street, startFrom: nat, scripts: seq<seq<Decision>>,
                      bigBlind: int, fuel: nat)
    requires WellFormed(t) && startFrom < |t.seats| && |scripts| == |t.seats|
    requires |LiveSeats(t.seats)| > 1
    ensures var active := LiveSeats(t.seats);
            var t0 := if street != PreFlop then OpenStreet(t) else t;
            var run := Run(Round(t0, scripts, startFrom, None, false), active, bigBlind, startFrom, fuel);
            && (RunPhase(t, street, startFrom, scripts, bigBlind, fuel).outcome == Continued <==> run.done)
            && (run.done ==> ExitRule(run.round, active, startFrom))
  {
    var active := LiveSeats(t.seats);
    var t0 := if street != PreFlop then OpenStreet(t) else t;
    RunExitRule(Round(t0, scripts, startFrom, None, false), active, bigBlind, startFrom, fuel);
  }

  //
  // A round where everyone checks
  //

  lemma MulAtLeastTwice(n: int, m: int)
    requires n > 0
    ensures m >= 2 ==> n * m >= 2 * n
    ensures m <= -1 ==> n * m <= -n
  {
    if m >= 2 {
      assert n * m == n * (m - 2) + 2 * n;
    }
    if m <= -1 {
      assert n * m == n * (m + 1) - n;
    }
  }

  /** Moving one seat on, modulo the table size. */
  lemma ModSucc(x: int, n: int)
    requires n > 0
    ensures (x + 1) % n == if x % n == n - 1 then 0 else x % n + 1
  {
    var d := (x + 1) / n - x / n;
    assert n * d == x % n + 1 - (x + 1) % n;
    MulAtLeastTwice(n, d);
    assert d == 0 || d == 1;
    if d == 0 {
      assert (x + 1) % n == x % n + 1;
    } else {
      assert (x + 1) % n == x % n + 1 - n;
    }
  }

  /** x % n for 0 <= x < 2n. */
  lemma ModBelowTwice(x: int, n: int)
    requires 0 <= x < 2 * n
    ensures x % n == if x < n then x else x - n
  {
    if x >= n {
      assert x == 1 * n + (x - n);
    }
  }

  /** The seat k places after start, going round a table of n seats. */
  function LapSeat(start: nat, k: nat, n: nat): nat
    requires n > 0
  {
    (start + k) % n
  }

  lemma LapSeatFacts(start: nat, k: nat, n: nat)
    requires start < n && k < n
    ensures LapSeat(start, k, n) == (if start + k < n then start + k else start + k - n)
    ensures (LapSeat(start, k, n) + 1) % n == LapSeat(start, k + 1, n)
    ensures k + 1 < n ==> LapSeat(start, k + 1, n) != start
    ensures LapSeat(start, n, n) == start
  {
    ModBelowTwice(start + k, n);
    ModBelowTwice(start + k + 1, n);
    ModBelowTwice(start + n, n);
    ModBelowTwice(LapSeat(start, k, n) + 1, n);
  }

  lemma LapSeatsDistinct(start: nat, j: nat, k: nat, n: nat)
    requires start < n && j < k < n
    ensures LapSeat(start, j, n) != LapSeat(start, k, n)
  {
    LapSeatFacts(start, j, n);
    LapSeatFacts(start, k, n);
  }

  /** The seat's next decision is a check or a call. */
  predicate ChecksNext(s: Seat, script: seq<Decision>)
  {
    IsLive(s) ==> script != [] && script[0].action in {Call, Check}
  }

  /** Every live seat from the k-th place of the lap on will check. */
  ghost predicate ChecksFrom(r: Round, start: nat, k: nat)
    requires |r.scripts| == |r.table.seats| > 0
  {
    var n := |r.table.seats|;
    forall j :: k <= j < n ==>
      ChecksNext(r.table.seats[LapSeat(start, j, n)], r.scripts[LapSeat(start, j, n)])
  }

  /** Nobody has bet in this round. */
  ghost predicate Untouched(t: Table)
  {
    && t.currentBet == 0
    && WellFormed(t)
    && forall i :: 0 <= i < |t.seats| ==> t.seats[i].currentBet == 0 && t.roundBets[i] == 0
  }

  /** One pass while nobody has bet, at a seat that checks or cannot act. */
  lemma CheckStep(r: Round, active: seq<nat>, bigBlind: int, start: nat)
    requires Shaped(r) && ValidIndices(active, |r.table.seats|)
    requires Untouched(r.table) && !r.started
    requires ChecksNext(r.table.seats[r.pos], r.scripts[r.pos])
    ensures var st := Step(r, active, bigBlind, start);
            && st.round.table == r.table
            && !st.round.started
            && st.round.pos == (r.pos + 1) % |r.table.seats|
            && (forall i :: 0 <= i < |r.scripts| && i != r.pos ==> st.round.scripts[i] == r.scripts[i])
            && st.exit == (IsLive(r.table.seats[r.pos]) && st.round.pos == start)
  {
    var s := r.table.seats[r.pos];
    if IsLive(s) {
      var next := NextDecision(r.scripts[r.pos]);
      var a := Act(s, next.0, r.table.currentBet, bigBlind);
      assert a == Acted(s, 0);
      assert r.table.seats[r.pos := s] == r.table.seats;
      assert AllChecked(r.table.seats, active);
    }
  }

  /** From the k-th place of a lap in which nobody has bet, if every remaining
      live seat checks and the seat just before start_from is live, the loop
      ends when the lap completes, with the table as it was. */
  lemma {:induction false} CheckLap(r: Round, active: seq<nat>, bigBlind: int, start: nat, fuel: nat, k: nat)
    requires Shaped(r) && ValidIndices(active, |r.table.seats|)
    requires var n := |r.table.seats|;
             && start < n && k < n && r.pos == LapSeat(start, k, n)
             && IsLive(r.table.seats[LapSeat(start, n - 1, n)])
             && fuel >= n - k
    requires Untouched(r.table) && !r.started
    requires ChecksFrom(r, start, k)
    ensures var res := Run(r, active, bigBlind, start, fuel);
            res.done && res.round.table == r.table
    decreases |r.table.seats| - k
  {
    var n := |r.table.seats|;
    LapSeatFacts(start, k, n);
    assert ChecksNext(r.table.seats[LapSeat(start, k, n)], r.scripts[LapSeat(start, k, n)]);
    CheckStep(r, active, bigBlind, start);
    var st := Step(r, active, bigBlind, start);
    if k + 1 < n {
      assert !st.exit;
      forall j | k + 1 <= j < n
        ensures st.round.scripts[LapSeat(start, j, n)] == r.scripts[LapSeat(start, j, n)]
      {
        LapSeatsDistinct(start, k, j, n);
      }
      CheckLap(st.round, active, bigBlind, start, fuel - 1, k + 1);
    } else {
      assert st.exit;
    }
  }

  /** A later round where every live seat checks: provided the seat just
      before start_from is live, the round ends after one lap with nothing
      added to the pot and every stack as it was. */
  lemma CheckAround(t: Table, street: Street, startFrom: nat, scripts: seq<seq<Decision>>,
                    bigBlind: int, fuel: nat)
    requires WellFormed(t) && startFrom < |t.seats| && |scripts| == |t.seats|
    requires street != PreFlop
    requires |LiveSeats(t.seats)| >= 2
    requires IsLive(t.seats[LapSeat(startFrom, |t.seats| - 1, |t.seats|)])
    requires forall i :: 0 <= i < |t.seats| && IsLive(t.seats[i]) ==>
               scripts[i] != [] && scripts[i][0].action in {Call, Check}
    requires fuel >= |t.seats|
    ensures var res := RunPhase(t, street, startFrom, scripts, bigBlind, fuel);
            && res.outcome == Continued
            && res.table.pot == 0
            && res.table.currentBet == 0
            && forall i :: 0 <= i < |t.seats| ==> res.table.seats[i] == t.seats[i].(currentBet := 0)
  {
    var n := |t.seats|;
    var active := LiveSeats(t.seats);
    var t0 := OpenStreet(t);
    var r0 := Round(t0, scripts, startFrom, None, false);
    LapSeatFacts(startFrom, 0, n);
    forall i | 0 <= i < n ensures IsLive(t0.seats[i]) == IsLive(t.seats[i]) {
    }
    CheckLap(r0, active, bigBlind, startFrom, fuel, 0);
    SumZeros(n);
  }

  //
  // A round with one raise that everyone calls
  //

  /** The seat has matched the table bet, or cannot act any more. */
  predicate Settled(s: Seat, currentBet: int)
  {
    !(IsLive(s) && s.currentBet < currentBet)
  }

  /** Every seat is k places after start for some k < n. */
  lemma LapSeatCovers(start: nat, i: nat, n: nat)
    requires start < n && i < n
    ensures var j := if i >= start then i - start else i + n - start;
            j < n && LapSeat(start, j, n) == i
  {
    var j := if i >= start then i - start else i + n - start;
    LapSeatFacts(start, j, n);
  }

  /** From the k-th place of the lap after the raiser at start, if every
      remaining live seat calls (or checks) and the seat just before the
      raiser is live, the loop breaks when the position is back at the raiser,
      with the table bet unchanged and every seat settled. */
  lemma {:induction false} CallLap(r: Round, active: seq<nat>, bigBlind: int, startFrom: nat, start: nat,
                                   fuel: nat, k: nat)
    requires Shaped(r) && ValidIndices(active, |r.table.seats|)
    requires var n := |r.table.seats|;
             && start < n && 1 <= k < n && r.pos == LapSeat(start, k, n)
             && IsLive(r.table.seats[LapSeat(start, n - 1, n)])
             && fuel >= n - k
    requires r.started && r.lastAction == Some(start)
    requires forall i :: 0 <= i < |r.table.seats| ==> r.table.seats[i].currentBet <= r.table.currentBet
    requires forall j :: 0 <= j < k ==>
               Settled(r.table.seats[LapSeat(start, j, |r.table.seats|)], r.table.currentBet)
    requires ChecksFrom(r, start, k)
    ensures var res := Run(r, active, bigBlind, startFrom, fuel);
            && res.done && res.round.pos == start && res.round.lastAction == Some(start)
            && res.round.table.currentBet == r.table.currentBet
            && forall i :: 0 <= i < |r.table.seats| ==> Settled(res.round.table.seats[i], r.table.currentBet)
    decreases |r.table.seats| - k
  {
    var n := |r.table.seats|;
    var cb := r.table.currentBet;
    var p := r.pos;
    LapSeatFacts(start, k, n);
    assert ChecksNext(r.table.seats[p], r.scripts[p]);
    var st := Step(r, active, bigBlind, startFrom);
    var t := st.round.table;
    var s := r.table.seats[p];
    if IsLive(s) {
      var next := NextDecision(r.scripts[p]);
      var a := Act(s, next.0, cb, bigBlind);
      assert a.currentBet == cb && Settled(a.seat, cb) && a.seat.currentBet <= cb;
    }
    assert t.currentBet == cb && st.round.lastAction == Some(start) && st.round.started;
    assert Settled(t.seats[p], cb);
    assert st.round.pos == LapSeat(start, k + 1, n);
    forall j | 0 <= j < n && j != k
      ensures t.seats[LapSeat(start, j, n)] == r.table.seats[LapSeat(start, j, n)]
      ensures st.round.scripts[LapSeat(start, j, n)] == r.scripts[LapSeat(start, j, n)]
    {
      if j < k { LapSeatsDistinct(start, j, k, n); } else { LapSeatsDistinct(start, k, j, n); }
    }
    if k + 1 < n {
      assert !st.exit;
      CallLap(st.round, active, bigBlind, startFrom, start, fuel - 1, k + 1);
    } else {
      forall i | 0 <= i < n ensures Settled(t.seats[i], cb) {
        LapSeatCovers(start, i, n);
      }
      assert st.exit;
    }
  }

  /** A pass that does not break leaves the rest of the loop to the next one. */
  lemma RunPasses(r: Round, active: seq<nat>, bigBlind: int, startFrom: nat, fuel: nat)
    requires Shaped(r) && ValidIndices(active, |r.table.seats|)
    requires fuel > 0 && !Step(r, active, bigBlind, startFrom).exit
    ensures Run(r, active, bigBlind, startFrom, fuel)
         == Run(Step(r, active, bigBlind, startFrom).round, active, bigBlind, startFrom, fuel - 1)
  {
  }

  /** The opening pass of a round with nothing bet yet, whose first seat
      raises: the raise starts the round, does not end it when there are two
      seats or more, and touches no other seat. */
  lemma RaiseOpens(r: Round, active: seq<nat>, bigBlind: int, startFrom: nat)
    requires Shaped(r) && ValidIndices(active, |r.table.seats|)
    requires |r.table.seats| >= 2 && bigBlind > 0
    requires !r.started && r.lastAction == None && r.table.currentBet == 0
    requires forall i :: 0 <= i < |r.table.seats| ==> r.table.seats[i].currentBet == 0
    requires IsLive(r.table.seats[r.pos]) && r.scripts[r.pos] != [] && r.scripts[r.pos][0].action == Raise
    ensures var st := Step(r, active, bigBlind, startFrom);
            var amount := r.scripts[r.pos][0].amount;
            && !st.exit && st.round.started && st.round.lastAction == Some(r.pos)
            && st.round.table.currentBet == (if amount < bigBlind then bigBlind else amount)
            && st.round.pos == LapSeat(r.pos, 1, |r.table.seats|)
            && Settled(st.round.table.seats[r.pos], st.round.table.currentBet)
            && forall i :: 0 <= i < |r.table.seats| && i != r.pos ==>
                 st.round.table.seats[i] == r.table.seats[i] && st.round.scripts[i] == r.scripts[i]
  {
    var s := r.table.seats[r.pos];
    var a := Act(s, r.scripts[r.pos][0], 0, bigBlind);
    assert a.seat.currentBet > 0 && a.seat.currentBet <= a.currentBet;
    LapSeatFacts(r.pos, 1, |r.table.seats|);
  }

  /** The loop over a round with nothing bet yet whose first seat raises and
      whose other live seats call or check, the seat before the raiser being
      live: it breaks after one lap, back at the raiser, with every seat
      settled at the raise. */
  lemma RaiseRound(r: Round, active: seq<nat>, bigBlind: int, startFrom: nat, fuel: nat)
    requires Shaped(r) && ValidIndices(active, |r.table.seats|)
    requires |r.table.seats| >= 2 && bigBlind > 0 && fuel >= |r.table.seats|
    requires !r.started && r.lastAction == None && r.table.currentBet == 0
    requires forall i :: 0 <= i < |r.table.seats| ==> r.table.seats[i].currentBet == 0
    requires IsLive(r.table.seats[r.pos]) && r.scripts[r.pos] != [] && r.scripts[r.pos][0].action == Raise
    requires IsLive(r.table.seats[LapSeat(r.pos, |r.table.seats| - 1, |r.table.seats|)])
    requires forall i :: 0 <= i < |r.table.seats| && i != r.pos ==> ChecksNext(r.table.seats[i], r.scripts[i])
    ensures var res := Run(r, active, bigBlind, startFrom, fuel);
            var amount := r.scripts[r.pos][0].amount;
            && res.done
            && res.round.table.currentBet == (if amount < bigBlind then bigBlind else amount)
            && forall i :: 0 <= i < |r.table.seats| ==> Settled(res.round.table.seats[i], res.round.table.currentBet)
  {
    var n := |r.table.seats|;
    var start := r.pos;
    RaiseOpens(r, active, bigBlind, startFrom);
    var r1 := Step(r, active, bigBlind, startFrom).round;
    RunPasses(r, active, bigBlind, startFrom, fuel);
    forall j | 1 <= j < n
      ensures ChecksNext(r1.table.seats[LapSeat(start, j, n)], r1.scripts[LapSeat(start, j, n)])
    {
      LapSeatsDistinct(start, 0, j, n);
      LapSeatFacts(start, j, n);
    }
    LapSeatFacts(start, 0, n);
    LapSeatsDistinct(start, 0, n - 1, n);
    CallLap(r1, active, bigBlind, startFrom, start, fuel - 1, 1);
  }

  /** A later round opened by a raise that every other seat calls: when the
      seat at start_from raises, every other live seat's next decision is a
      call or a check and the seat just before start_from is live, the round
      returns true after one lap, the table bet is the raise lifted to at
      least the big blind, and every seat has matched it or is all-in. */
  lemma RaiseThenCalls(t: Table, street: Street, startFrom: nat, scripts: seq<seq<Decision>>,
                       bigBlind: int, fuel: nat)
    requires WellFormed(t) && startFrom < |t.seats| && |scripts| == |t.seats|
    requires street != PreFlop && bigBlind > 0
    requires |LiveSeats(t.seats)| >= 2
    requires IsLive(t.seats[startFrom]) && scripts[startFrom] != [] && scripts[startFrom][0].action == Raise
    requires IsLive(t.seats[LapSeat(startFrom, |t.seats| - 1, |t.seats|)])
    requires forall i :: 0 <= i < |t.seats| && i != startFrom && IsLive(t.seats[i]) ==>
               scripts[i] != [] && scripts[i][0].action in {Call, Check}
    requires fuel >= |t.seats|
    ensures var res := RunPhase(t, street, startFrom, scripts, bigBlind, fuel);
            var amount := scripts[startFrom][0].amount;
            && res.outcome == Continued
            && res.table.currentBet == (if amount < bigBlind then bigBlind else amount)
            && forall i :: 0 <= i < |t.seats| ==> Settled(res.table.seats[i], res.table.currentBet)
  {
    var n := |t.seats|;
    var t0 := OpenStreet(t);
    assert n >= 2;
    forall i | 0 <= i < n ensures IsLive(t0.seats[i]) == IsLive(t.seats[i]) {
    }
    RaiseRound(Round(t0, scripts, startFrom, None, false), LiveSeats(t.seats), bigBlind, startFrom, fuel);
  }

  //
  // Rounds that never end
  //

  /** Every decision left in every script is a call or a check. */
  predicate OnlyChecks(scripts: seq<seq<Decision>>)
  {
    forall i, k :: 0 <= i < |scripts| && 0 <= k < |scripts[i]| ==> scripts[i][k].action in {Call, Check}
  }

  lemma OnlyChecksTail(scripts: seq<seq<Decision>>, p: nat)
    requires OnlyChecks(scripts) && p < |scripts|
    ensures OnlyChecks(scripts[p := NextDecision(scripts[p]).1])
    ensures scripts[p] != [] ==> NextDecision(scripts[p]).0.action in {Call, Check}
    ensures scripts[p] == [] ==> NextDecision(scripts[p]).0.action == Fold
  {
    var t: seq<seq<Decision>> := scripts[p := NextDecision(scripts[p]).1];
    forall i: nat, k: nat | i < |t| && k < |t[i]| ensures t[i][k].action in {Call, Check} {
      if i == p {
        assert t[i][k] == scripts[p][k + 1];
      }
    }
  }

  /** The seat whose action brings the position back to start_from is the one
      just before it. */
  lemma CloserSeat(pos: nat, start: nat, n: nat)
    requires pos < n && start < n
    ensures (pos + 1) % n == start ==> pos == LapSeat(start, n - 1, n)
  {
    LapSeatFacts(start, n - 1, n);
    ModBelowTwice(pos + 1, n);
  }

  /** When the seat just before start_from cannot act, a round in which nobody
      bets never ends: that seat is always skipped, and only its action could
      bring the no-raise exit check round to start_from. Seats whose script
      runs out fold, which does not end it either. */
  lemma {:induction false} IdleCloserNeverEnds(r: Round, active: seq<nat>, bigBlind: int, start: nat, fuel: nat)
    requires Shaped(r) && ValidIndices(active, |r.table.seats|)
    requires start < |r.table.seats|
    requires !IsLive(r.table.seats[LapSeat(start, |r.table.seats| - 1, |r.table.seats|)])
    requires Untouched(r.table) && !r.started && OnlyChecks(r.scripts)
    ensures !Run(r, active, bigBlind, start, fuel).done
    decreases fuel
  {
    if fuel > 0 {
      var n := |r.table.seats|;
      var closer := LapSeat(start, n - 1, n);
      var st := Step(r, active, bigBlind, start);
      CloserSeat(r.pos, start, n);
      OnlyChecksTail(r.scripts, r.pos);
      var s := r.table.seats[r.pos];
      if IsLive(s) {
        var next := NextDecision(r.scripts[r.pos]);
        var a := Act(s, next.0, r.table.currentBet, bigBlind);
        assert a.seat.currentBet == 0 && a.currentBet == 0;
        assert r.pos != closer;
        assert st.round.table.seats[closer] == r.table.seats[closer];
      }
      assert !st.exit;
      IdleCloserNeverEnds(st.round, active, bigBlind, start, fuel - 1);
    }
  }

  /** Without a raise the loop can only end once every seat that was live,
      had bet and is still unfolded has nothing in the pot, so every such seat
      that had bet at the start (the blinds, before the flop) must have folded
      first: calling the big blind all round never ends the pre-flop. */
  lemma {:induction false} LimpEndsOnlyByFolds(r: Round, active: seq<nat>, bigBlind: int, start: nat, fuel: nat)
    requires Shaped(r) && ValidIndices(active, |r.table.seats|)
    requires !r.started && OnlyChecks(r.scripts)
    requires forall i :: 0 <= i < |r.table.seats| ==> r.table.seats[i].currentBet <= r.table.currentBet
    ensures var res := Run(r, active, bigBlind, start, fuel);
            res.done ==> forall k :: 0 <= k < |active| && r.table.seats[active[k]].currentBet > 0 ==>
                           res.round.table.seats[active[k]].folded
    decreases fuel
  {
    if fuel > 0 {
      var st := Step(r, active, bigBlind, start);
      OnlyChecksTail(r.scripts, r.pos);
      var s := r.table.seats[r.pos];
      if IsLive(s) {
        var next := NextDecision(r.scripts[r.pos]);
        var a := Act(s, next.0, r.table.currentBet, bigBlind);
        assert a.currentBet == r.table.currentBet;
        assert s.currentBet <= a.seat.currentBet <= r.table.currentBet;
        assert s.folded ==> a.seat.folded;
      }
      assert !st.round.started;
      assert forall i :: 0 <= i < |r.table.seats| ==>
        && r.table.seats[i].currentBet <= st.round.table.seats[i].currentBet
        && (r.table.seats[i].folded ==> st.round.table.seats[i].folded);
      if !st.exit {
        LimpEndsOnlyByFolds(st.round, active, bigBlind, start, fuel - 1);
      }
    }
  }
}
