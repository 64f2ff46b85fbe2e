# Texas Hold'em table engine, modelled in Dafny

This project models the chip accounting and turn order of one table of the
texas_holdem_demo poker game. The game has one human seat ("You") and a
number of automated seats.

- **Cards** (module `Cards`, card.py). Suits, ranks and card values. The
  printed form of a card and the two-letter text handed to the hand
  evaluator. The ordered 52-card deck, which is reset, shuffled and drawn
  from its end.
- **Seats** (module `Players`, player.py). A `Player` object keeps its
  chips, hole cards, bet in the current betting round and fold flag.
  `MakeBet` caps a payment at the stack. The module also holds the pre-flop
  strength heuristic and the automated seat's decision policy.
- **Betting rules** (module `BettingRules`, betting.py). The rules of one
  betting round stated on values:
  - the blinds;
  - the effect of a fold, call/check or raise;
  - one pass of the betting loop with its two exit rules;
  - the loop itself.

  The module also holds the lemmas about these rules: per-round
  conservation of every seat's chips plus bet; `round_bets` following the
  bets; idle seats never being asked; the exit rules; and an all-check round
  costing nothing.
- **Betting round** (module `Betting`, betting.py). The `BettingRound`
  class runs those rules on the table's `Player` objects. Each method is
  proved equal to the rule function named in its contract: `PostBlinds` and
  `OpenStreet` to the functions of those names, `ApplyDecision` and `ActAt`
  to `Act`, `Turn` to `Step`, `RunTurns` to `Run`, `HandleBettingRound` to
  `RunPhase`, and the two scans to `AllMatched` and `AllChecked`.
- **Showdown** (module `Showdown`, game_state.py). The pot counted from the
  unfolded seats. The choice of winner: a sole survivor, or else the lowest
  score with the earliest seat winning ties. The payment of the pot to the
  winner.
- **The hand** (module `Game`, game.py). `TexasHoldem` resets the table and
  posts the blinds. It deals two hole cards per seat, one pass at a time,
  starting left of the dealer. It plays up to four betting rounds, dealing
  3, 1 and 1 board cards only while betting continues. Then it pays the
  showdown winner and moves the dealer button.

Every seat's decisions are a per-seat script of `(action, amount)` pairs,
and a seat whose script is used up folds. The hand evaluator is a parameter
`evaluate(board, hole)` returning an integer score, lower meaning better.
The order `random.shuffle` leaves the deck in is a parameter, as is the
value `random.random()` returns. The betting loop has no termination
guarantee, so it runs on fuel, and running out of fuel is reported
separately.

The betting loop keeps two ways of never ending that the source has, and
lemmas state both. First, before the flop with the blinds posted and nobody
raising, the round cannot end until every seat that was live at the start
and had bet has folded (`BettingRules.LimpEndsOnlyByFolds`). A blind that
left its seat all-in is not in `active_players` and is not covered. Second, when the
seat just before `start_from` is folded or all-in and nobody bets, the round
never ends (`BettingRules.IdleCloserNeverEnds`). A skipped seat never runs
the exit checks, so only that seat's action could bring the no-raise exit
back to `start_from`. The raise exit has the same shape: it is checked only
after the seat just before the last raiser acts, so `RaiseThenCalls` asks
for that seat to be live.

## Model

| member | source | states |
|---|---|---|
| `Cards.ValueRange` | card.py:26-31 | every card value lies in 2..14; number ranks are worth their own number; J, Q and K are worth 10; a value is above 10 exactly for an ace |
| `Cards.CardText` | card.py:23-24 | a card prints as its rank text followed by its suit symbol, two or three characters long |
| `Cards.CardTextInjective` | card.py:23-24 | two cards that print the same are the same card |
| `Cards.EvaluatorTextRoundTrip` | card.py:11-15 | the suit and rank maps can be read back: parsing a card's evaluator text gives that card; only rank 10 maps to 'T' |
| `Cards.EvaluatorTextInjective` | card.py:11-21 | distinct cards get distinct evaluator texts |
| `Cards.FullDeck` | card.py:38-39 | the reset deck has 52 cards, suit-major, with card i being suit i/13 and rank i%13 |
| `Cards.FullDeckPosition` | card.py:7-8 | each card sits at position 13 * suit index + rank index of the fresh deck |
| `Cards.FullDeckComplete` | card.py:38-39 | the fresh deck holds every card, and no card twice |
| `Cards.Deck.constructor` | card.py:34-36 | a new deck is the full ordered deck |
| `Cards.Deck.Reset` | card.py:38-39 | reset makes the deck the full ordered deck |
| `Cards.Deck.Shuffle` | card.py:41-42 | the deck becomes the given permutation of its cards |
| `Cards.Deck.Draw` | card.py:44-47 | an empty deck fails and is unchanged; otherwise the last card is returned and removed, and the others keep their order |
| `Players.Paid` | player.py:24-26 | the amount paid is the request capped by the stack: never above either, and equal to one of them |
| `Players.Bet` | player.py:24-29 | the stack drops and the bet rises by the amount paid; chips plus bet is unchanged; asking for at least the stack leaves 0 chips; a non-negative request keeps the stack between 0 and its old value; hand and fold flag are untouched |
| `Players.Player.constructor` | player.py:7-14 | a new seat has the given name, stack and kind, no cards, no bet and is not folded |
| `Players.Player.ReceiveCard` | player.py:16-17 | the card is appended to the hand and nothing else changes |
| `Players.Player.ClearHand` | player.py:19-22 | the hand is emptied, the bet is 0, the seat is not folded, and the stack is kept |
| `Players.Player.MakeBet` | player.py:24-29 | the seat is charged the request capped by its stack, that amount is returned, and the seat's new value is `Bet` of its old value |
| `Players.PreflopStrength` | player.py:67-81 | the pre-flop score is one of 2000, 3000, 4000, 5000, and a hand of fewer than two cards scores 5000 |
| `Players.PreflopStrengthCases` | player.py:73-81 | for two cards: the score is 2000 exactly for equal values; 3000 is never returned; an unpaired hand with an ace scores 4000; an unpaired hand without an ace scores 5000 |
| `Players.PreflopNeverBothHigh` | player.py:76-77 | the "both high cards" score 3000 is unreachable for a hand of any size |
| `Players.HandStrength` | player.py:67-88 | an empty board gives the pre-flop score; otherwise the evaluator's score of board and hole cards |
| `Players.AiDecisionShape` | player.py:31-65 | the policy fails exactly for a seat that is not automated; it never answers check; a raise never asks for more than the stack; a call asks for exactly the amount owed; a fold carries 0 |
| `Players.AiFoldThresholds` | player.py:55-61 | a medium hand folds exactly when the call exceeds chips // 3; a weak hand folds whenever it exceeds chips // 5; the two strong tiers never fold |
| `Players.PreflopNeverVeryStrong` | player.py:39-45 | before the flop no hand reaches the very-strong tier |
| `BettingRules.LiveSeats` | betting.py:43 | the indices of the unfolded seats holding chips, exactly those, in increasing order |
| `BettingRules.NextDecision` | test_poker.py:13-16 | a seat's next decision is the head of its script; an empty script answers fold |
| `BettingRules.Act` | betting.py:189-205 | fold marks the seat folded and moves nothing; call/check pays what is owed, capped by the stack, and moves nothing when nothing is owed; a raise below table bet + big blind is lifted to that floor, the seat pays up to it capped by its stack, and the table bet becomes the raise even when the payment was capped; chips plus bet and the hand are kept |
| `BettingRules.PostBlinds` | betting.py:15-38 | after the blinds, round_bets has one entry per seat and no hand or fold flag changes |
| `BettingRules.PostBlindsCharges` | betting.py:15-38 | with two or more seats, seat (dealer+1)%n pays min(small blind, stack) and seat (dealer+2)%n pays min(big blind, stack); both go into the pot; the table bet is the big-blind amount; every other seat and its round bet is untouched or 0 |
| `BettingRules.PostBlindsAccounts` | betting.py:15-38 | posting the blinds at two or more cleared seats with non-negative stacks leaves round_bets equal to every seat's bet, no stack negative and no bet above the table bet plus one big blind: the state the pre-flop round starts from meets the accounts that round keeps |
| `BettingRules.PostBlindsOneSeat` | betting.py:15-38 | at a table of one, the seat pays the small blind and then the big blind from what is left; round_bets holds only the big blind while the pot gets both |
| `BettingRules.OpenStreet` | betting.py:47-53 | after a later round starts, the pot is the sum of round_bets, and the table bet, every seat's bet and every round_bets entry are 0 |
| `BettingRules.Step` | betting.py:60-113 | one pass keeps the table size and a valid position; its effects are stated by StepKeepsAccounts, StepFrame and CheckStep |
| `BettingRules.Run` | betting.py:60-113 | the loop keeps the table size; its effects are stated by RunKeepsAccounts, RunFrame and RunExitRule |
| `BettingRules.RunPhase` | betting.py:40-117 | a betting round keeps the table size and one script per seat; its effects are stated by PhaseAccounts and the lemmas after it |
| `BettingRules.SumOfRoundBets` | betting.py:116 | when round_bets follows every seat's bet, its sum is the sum of the bets |
| `BettingRules.StepKeepsAccounts` | betting.py:61-89 | one pass keeps round_bets equal to the bets, keeps stacks non-negative and every seat's chips plus bet, never lowers the table bet and leaves the pot alone |
| `BettingRules.StepFrame` | betting.py:63-66 | one pass keeps every hand, and leaves a seat that cannot act and its script as they were |
| `BettingRules.RunKeepsAccounts` | betting.py:60-113 | the whole loop keeps the accounts of StepKeepsAccounts and the frame of StepFrame |
| `BettingRules.RunFrame` | betting.py:60-66 | the whole loop keeps every hand and never touches a seat that cannot act |
| `BettingRules.StepExitActs` | betting.py:61-113 | a pass that skips a seat never breaks the loop: a break comes only right after a live seat acted, and while nobody has raised that seat is the one just before start_from |
| `BettingRules.StepExitIff` | betting.py:61-113 | a pass breaks the loop exactly when the seat at the position acted and the state it leaves satisfies an exit rule (the last raiser reached with every live seat matched, or no raise yet, back at start_from and nobody live having bet) |
| `BettingRules.RunStopsAtExit` | betting.py:60-113 | the loop returns done with the state of the first acting pass after which an exit rule holds, and otherwise goes on with the next pass |
| `BettingRules.RunExitRule` | betting.py:91-113 | the state the loop breaks in satisfies one of its exit rules (that a break only follows an acting seat is StepExitActs; that it breaks at the first such pass is RunStopsAtExit; a raise-then-call lap that does break is RaiseRound): the loop only breaks when the last raiser is reached with every live seat matched, or with nobody having raised when the position is back at start_from and nobody live has bet |
| `BettingRules.PhaseAccounts` | betting.py:40-117 | the round returns false and changes nothing exactly when at most one seat is live; otherwise stacks stay non-negative, round_bets follows the bets, and chips plus bet are kept (pre-flop) or equal the entry stack (later rounds); a round that returns true ends with the pot equal to the sum of all bets, folded seats included |
| `BettingRules.PhaseSkipsIdleSeats` | betting.py:63-66 | a seat that is folded or has no chips on entry keeps its stack, fold flag, hand and script |
| `BettingRules.PhaseKeepsHands` | betting.py:40-117 | a betting round never changes a hole card |
| `BettingRules.PhaseExitRule` | betting.py:91-117 | the round returns true exactly when the loop broke, and it broke by one of the two exit rules, each checked right after a seat acted (StepExitActs); conversely a raise that every other seat calls does make it return true (RaiseThenCalls) |
| `BettingRules.CheckStep` | betting.py:103-113 | while nobody has bet, a seat that checks or cannot act leaves the table as it was and moves the position on; the loop breaks only when a live seat acted and the position reached start_from |
| `BettingRules.CheckLap` | betting.py:103-113 | if every remaining live seat checks, the loop completes its lap and breaks with the table unchanged |
| `BettingRules.CheckAround` | betting.py:47-113 | a later round where every live seat checks returns true with pot 0, table bet 0 and every stack unchanged, provided the seat just before start_from is live |
| `BettingRules.CallLap` | betting.py:79-102 | from the k-th seat after a raiser, if every remaining live seat calls or checks and the seat before the raiser is live, the loop breaks back at the raiser with the table bet unchanged and every seat matched or all-in |
| `BettingRules.RaiseOpens` | betting.py:79-102 | on a table nobody has bet at, a raise by the seat at the position sets the table bet to the raise lifted to at least the big blind, marks that seat as the last raiser, does not break the loop when there are two seats or more, and touches no other seat |
| `BettingRules.RaiseRound` | betting.py:60-113 | a loop started at a raiser on a table nobody has bet at, whose other live seats call or check and whose seat before the raiser is live, breaks with the table bet at the raise and every seat matched or all-in |
| `BettingRules.RaiseThenCalls` | betting.py:43-117 | a later round whose first seat raises and whose other live seats call returns true, with the table bet the raise lifted to at least the big blind and every seat matched or all-in, provided the seat just before start_from is live |
| `BettingRules.IdleCloserNeverEnds` | betting.py:61-113 | when the seat just before start_from cannot act and every decision is a call or a check on a table nobody has bet at, the loop never breaks, whatever the fuel |
| `BettingRules.LimpEndsOnlyByFolds` | betting.py:91-113 | with no raise and every decision a call or a check, the loop breaks only after every live seat that had bet at the start has folded |
| `Betting.BettingRound.constructor` | betting.py:7-13 | a new round has the given seats and blinds, pot 0, table bet 0 and all round bets 0 |
| `Betting.BettingRound.PostBlind` | betting.py:24-28 | the seat pays min(blind, stack); that amount goes into its round bet and the pot; no other seat changes |
| `Betting.BettingRound.PostBlinds` | betting.py:15-38 | the new table is `BettingRules.PostBlinds` of the old one |
| `Betting.BettingRound.ApplyDecision` | betting.py:189-205 | the seat and the table bet become what `Act` gives |
| `Betting.BettingRound.ActAt` | betting.py:69-81 | the seat acts as `Act` says, no other seat changes, and round_bets takes the seat's bet when it grew |
| `Betting.BettingRound.AllMatchedNow` | betting.py:96-100 | the scan answers `AllMatched` of the current seats |
| `Betting.BettingRound.AllCheckedNow` | betting.py:107-111 | the scan answers `AllChecked` of the current seats |
| `Betting.BettingRound.OpenStreet` | betting.py:47-53 | the new table is `BettingRules.OpenStreet` of the old one |
| `Betting.BettingRound.Turn` | betting.py:60-113 | the new table, scripts, position, last raiser, started flag and exit answer are `Step` of the old loop state |
| `Betting.BettingRound.RunTurns` | betting.py:60-113 | the table, the scripts left and the broke-out flag are `Run` of the entry state |
| `Betting.BettingRound.HandleBettingRound` | betting.py:40-117 | the outcome, the new table and the scripts left are `RunPhase` of the entry table |
| `Showdown.TotalPotNoneFolded` | game_state.py:27-33 | with nobody folded, the total pot is the sum of all bets |
| `Showdown.TotalPotFold` | game_state.py:31-32 | folding an unfolded seat takes exactly its bet out of the total pot |
| `Showdown.TotalPotBounds` | game_state.py:27-33 | with no negative bet, the total pot lies between 0 and the sum of all bets |
| `Showdown.UnfoldedSeats` | game_state.py:36 | the indices of exactly the unfolded seats, in increasing order |
| `Showdown.NoneUnfolded` | game_state.py:36 | no seat is unfolded exactly when every seat has folded |
| `Showdown.OneUnfolded` | game_state.py:38-39 | with one unfolded seat, it is the only seat not folded |
| `Showdown.FirstBest` | game_state.py:50-51 | the chosen seat's score is no worse than any other's, and every seat before it scores strictly worse |
| `Showdown.WinnerSpec` | game_state.py:35-54 | the showdown fails exactly when every seat has folded; otherwise the winner is an unfolded seat that no unfolded seat beats, every earlier unfolded seat scores strictly worse, and a sole survivor always wins |
| `Showdown.FirstBestPreflop` | game_state.py:50-51 | with an empty board the ranking does not depend on the evaluator |
| `Showdown.PreflopShowdown` | game_state.py:50-51 | with an empty board the winner is decided by the pre-flop heuristic alone, whatever the evaluator |
| `Showdown.PayoutAddsPot` | game_state.py:54 | paying the winner adds exactly the pot to the chips at the table, and changes no bet, hand or fold flag |
| `Showdown.GameState.constructor` | game_state.py:8-11 | a new table state has the given seats and an empty board |
| `Showdown.GameState.GetTotalPot` | game_state.py:27-33 | the loop returns `TotalPot` of the seats: the bets of the unfolded seats |
| `Showdown.GameState.PayPot` | game_state.py:54 | only the winner's chips change, rising by the pot; hands and board are kept |
| `Showdown.GameState.HandleShowdown` | game_state.py:35-54 | the answer is `Winner` of the seats; on success the winner is paid the pot and nothing else changes; when every seat has folded it fails and changes nothing |
| `Game.NatText` | game.py:15 | a number's decimal text is a non-empty string of digits |
| `Game.NatTextValue` | game.py:15 | reading a number's decimal text back gives the number |
| `Game.Popped` | game.py:76-77 | k draws take the last k cards of the deck, last card first |
| `Game.PoppedSplit` | game.py:63-69 | drawing a cards and then b cards is drawing a + b cards |
| `Game.PoppedKeepsCards` | card.py:44-47 | the cards left and the cards drawn together are the cards there were |
| `Game.DrewTwice` | game.py:63-69 | two dealing steps one after the other are one dealing step of their total count |
| `Game.ShuffledDeckSize` | card.py:41-42 | a shuffled full deck holds 52 cards |
| `Game.DealSeats` | game.py:50-54 | within one pass the seats (dealer+1+i)%n are all different, and every seat is dealt to |
| `Game.DealOffsetOfSeat` | game.py:53 | the offset of seat (dealer+1+j)%n in the dealing order is j |
| `Game.GiveCard` | game.py:54 | receiving a card appends it to that seat's hand and changes no other seat |
| `Game.Dealt` | game.py:50-54 | after `drawn` draws, every seat holds its old hand plus the draws numbered by its dealing offset |
| `Game.DealStep` | game.py:50-54 | one more draw gives the card to the seat whose turn it is in the pass, and to nobody else |
| `Game.DealtHands` | game.py:50-54 | after both passes the j-th seat after the dealer holds draws j and n + j |
| `Game.DealtFromEmpty` | game.py:43-54 | seats that held no cards hold exactly their two dealt cards after both passes |
| `Game.Cleared` | game.py:43-44 | after clear_hand on every seat, every stack is kept and every hand, bet and fold flag is reset |
| `Game.DealCount` | game.py:61-70 | the 3, 1, 1 board cards dealt before flop, turn and river bring the board to 3, 4 and 5 cards |
| `Game.ScheduledAt` | game.py:61-70 | the i-th logged betting round is round i of the hand, played from that round's start seat, and every round but the last returned true |
| `Game.LogCons` | game.py:61-70 | a round that returned true, followed by the rounds after it, is still a correctly sequenced log |
| `Game.TexasHoldem.constructor` | game.py:11-20 | seat 0 is "You", human; seats 1..k are "AI Player i", automated; every stack is 1000 with no cards; blinds are 10 and 20; the dealer is seat 0; the deck is full and the board empty |
| `Game.TexasHoldem.ResetTable` | game.py:39-44 | the deck is the shuffled order, the board is empty, and every seat is cleared with its stack kept |
| `Game.TexasHoldem.DealTo` | game.py:54 | with cards left, the seat receives the deck's last card, which leaves the deck; an empty deck fails and deals nothing |
| `Game.TexasHoldem.DealOne` | game.py:51-54 | the i-th seat after the dealer receives draw number pass*n + i, or the deal fails exactly when the deck ran out |
| `Game.TexasHoldem.DealPass` | game.py:51-54 | one pass deals a card to every seat in order from the seat after the dealer, or fails exactly when the deck cannot cover the pass |
| `Game.TexasHoldem.DealHoleCards` | game.py:50-54 | the two passes succeed exactly when the deck holds 2n cards; the deck loses its last 2n cards and the seats are `Dealt` with them |
| `Game.TexasHoldem.DealCommunityCards` | game.py:75-77 | count draws move the deck's last cards, in draw order, onto the board; it fails exactly when the deck holds fewer |
| `Game.TexasHoldem.BettingPhase` | betting.py:40-117 | a betting round leaves the table valid, one script per seat and every hole card as it was |
| `Game.TexasHoldem.DealAndBet` | game.py:63-70 | the board cards of the round are drawn from the deck before its betting, and hole cards are kept |
| `Game.TexasHoldem.LaterStreets` | game.py:62-70 | flop, turn and river are played in order from the seat after the dealer, each only after the one before returned true, with 3, 1 and 1 cards drawn before them |
| `Game.TexasHoldem.BettingStreets` | game.py:60-70 | pre-flop from (dealer+3)%n, then the later rounds while betting continues; the board gets exactly BoardSize(rounds that returned true) cards; a round that never ends is reported |
| `Game.TexasHoldem.ResetAndPostBlinds` | game.py:39-47 | the deck is the shuffled order, the board is empty and no seat holds a card when the blinds have been posted |
| `Game.TexasHoldem.StartHand` | game.py:39-54 | after reset and blinds, two hole cards per seat are dealt when 2n <= 52: the deck keeps its first 52 - 2n cards and the seats hold `DealtHands` |
| `Game.TexasHoldem.PlayToShowdown` | game.py:37-70 | a completed hand was dealt as `HandDealt` says: sequenced rounds, hole cards, then a board of 0, 3, 4 or 5 cards drawn next, leaving 52 - 2n - board cards |
| `Game.TexasHoldem.PlayRound` | game.py:37-73 | the whole hand; the showdown pays betting_round.pot to `Winner` of the seats it finds; every seat folded is reported; too many seats to deal is reported |
| `Game.TexasHoldem.PlayHand` | game.py:24-30 | after a completed hand the dealer moves to (dealer+1)%n |
| `Game.TexasHoldem.PlayGame` | game.py:22-35 | after each completed hand the dealer moves one seat on, so it ends at (dealer + hands played) % n; an error ends the game |

## Left out

- Console output (colorama prints), `time.sleep`, the chip-count and
  game-state displays, and `get_hand_rank_name` are not modelled.
- The interactive `input()` loop of `_handle_player_turn` is not modelled.
  That branch returns its choice instead of applying it. `Player` defines no
  `make_decision`, though the betting code calls it. Decisions are
  therefore per-seat scripts, and an empty script folds.
- The "play another round?" prompt of `play_game` is not modelled: the game
  plays as many hands as the `hands` input holds.
- The treys evaluator and its card objects are not modelled. The evaluator
  is the `evaluate` parameter, lower meaning better. The `evaluator` fields
  of `Player` and `GameState` are not modelled.
- `random.shuffle` is not modelled: the new deck order is a parameter,
  required to be a permutation of the deck. `random.random()` is the `roll`
  parameter.
- Python floats in `ai_make_decision` are modelled as exact reals, so
  rounding at the tier thresholds is not captured.
- The betting loop runs on `fuel`. The source loop can spin forever once
  every seat is folded or all-in before an exit check fires. It also never
  ends in the two cases the lemmas above describe: a called pre-flop, and an
  idle seat just before `start_from`. Running out of fuel is reported as
  `BettingNeverEnds` instead of looping.
- Exceptions are modelled as `Result` failures: an empty-deck draw, `min`
  over no unfolded seat, and the policy on a human seat. A hand that fails
  part-way keeps whatever it had already changed, as the source does.
  Which seats were partly dealt is not stated.
- Whole-hand chip conservation is not proved, because the source does not
  have it. A later round's start and the end of every round overwrite `pot`
  with that round's bets alone. `post_blinds` also adds the blinds to a
  `pot` that is never reset between hands. Only per-round conservation is
  proved (`BettingRules.PhaseAccounts`).
- Game.TexasHoldem.BettingPhase: states only what `_play_round` needs (table
  valid, script count, hole cards kept). The full effect is the contract of
  `Betting.BettingRound.HandleBettingRound`.
- Game.TexasHoldem.DealAndBet: states the board drawn and the hole cards
  kept, not the chips moved by the betting round.
- Game.TexasHoldem.LaterStreets: states the sequence of rounds and the
  cards drawn, not the chips moved.
- Game.TexasHoldem.BettingStreets: states the sequence of rounds and the
  cards drawn, not the chips moved.
- Game.TexasHoldem.ResetAndPostBlinds: states the deck, the board and the
  empty hands. It does not restate the table after the blinds, which is the
  contract of `Betting.BettingRound.PostBlinds`.
- Game.TexasHoldem.StartHand: does not restate the chips charged by the
  blinds.
- Game.TexasHoldem.PlayToShowdown: states how the cards were dealt and the
  order of the rounds, not the chips moved by betting.
- Game.TexasHoldem.PlayRound: states how the cards were dealt and how the
  showdown paid out. Chips moved before the showdown are stated only by the
  betting-round contracts.
