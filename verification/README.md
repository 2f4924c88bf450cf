# One hand of poker, modelled in Dafny

This project models `hand.py`, which runs one hand of Texas hold'em for a table of players. It covers:

- the deal of two hole cards per player and of the community cards with their burns;
- the betting rounds over the active pot, with blinds, calls, raises and folds;
- the round's ledger of wagers (`Bets`), settled into the pots, with side pots peeled off when the wagers differ;
- the 3-1-1 reveal of the community cards;
- the showdown, which pays the pot to the strongest player or splits it between two tied players;
- the return of every card to the deck.

The model has these parts:

- `Hands.Hand` is a class whose fields (`deck`, `discard`, `faceDown`, `faceUp`, `startPos`, `pot`, `pots`) are updated in place by its methods, as the program's `Hand` updates its attributes.
- `Players.HandPlayer` is a class whose `holdings`, `betAmount` and `folded` are updated by `Bet`, `Fold` and `Win`.
- Pots, wagers and scores are values.
- The ledger is a sequence with one entry per player, kept in insertion order like the program's dictionary.

The players' replies arrive as a sequence of strings, read from a position `from`. The hand evaluator is a parameter `eval`. The program's exceptions become `Result` values:

- the one-player-left signal is `Ok(OnePlayerLeft(p))`;
- a refused action (unknown command, raise not offered, no readable amount, unaffordable) makes the turn read the next string;
- the program's crashes are the `Fault` cases.

Modules, one file each:

- `Outcomes`: `Option` and `Result`.
- `Ledger`: `Bet`, `Bets.total_raise`, `Bets.max_raise`, and how a call or raise records a wager.
- `Actions`: `get_players_options`, `get_raise_amount` with Python's `str.split(" ")` and `int`, and the turn loop's reading of an action.
- `Turns`: the seat arithmetic of `prevp` and `nextp`.
- `Betting`: where the blinds go, what a call pays, and what an action does to a player.
- `Cards`: `deal_hands` and `deal_comm_cards`.
- `Sorting`: the stable sort by key used by the side-pot splitter and the showdown.
- `SidePots`: the side-pot loop, as written and as intended.
- `Settlement`: the whole settlement of a round's ledger into the list of pots.
- `Showdown`: the ranking and the winner-or-draw decision of `decide_winner`.
- `Rounds`: what a move does to a player's stake and to the round's ledger, and the turn loop of `run_bet_round` as functions (`Prompted`, `SeatStep`, `PlayFrom`) with the round's record they keep.
- `Players`: `HandPlayer`.
- `Hands`: the `Hand` class and the bookkeeping that ties the pieces together.

Where the code and its written description differ, the model follows the code:

- **Options use the round's opening level.** `get_players_options` is called with `self.pot.bet`, the pot's level before this round, not the current level including this round's wagers. So Raise is offered when the holdings exceed that smaller gap. An unaffordable raise is then refused by `raise_bet`.
- **Start seat equal to the player count.** The check in `assign_blinds` uses `>`. A start seat equal to the number of players passes it, the blinds are posted, and the turn loop then indexes past the players (`SeatOutOfRange`).
- **Negative raises.** A negative raise such as `"Raise -5"` is read by `int` and accepted when affordable.

## Model

| member | source | states |
|---|---|---|
| Ledger.TotalRaise | hand.py:40-44 | the loop's total is the sum of every amount in the ledger |
| Ledger.MaxRaise | hand.py:46-47 | 0 for an empty ledger; otherwise at least every amount and equal to one of them |
| Ledger.Recorded | hand.py:287-290 | recording `diff` for a player raises the ledger's sum and that player's amount by exactly `diff`, and keeps one entry per player |
| Ledger.GrowEntry | hand.py:287-288 | when the player has an entry it grows by `diff`; no owner changes and every earlier owner stays |
| Ledger.NewEntry | hand.py:289-290 | when the player has no entry a new one holding `diff` is appended after the unchanged old entries |
| Ledger.RecordedEntries | hand.py:287-290 | after recording the player has an entry, and the ledger grew by one entry exactly when they had none |
| Ledger.RecordedOwners | hand.py:287-290 | recording keeps every earlier owner and adds no owner but the player |
| Ledger.RecordedLeavesOthers | hand.py:287-290 | recording for one player leaves every other player's amount as it was |
| Ledger.RecordedOwnersWithin | hand.py:287-290 | recording keeps the owners within any list that holds the old owners and the player |
| Ledger.AmountOfAppend | hand.py:206-207 | appending a wager for a player without an entry gives them that amount and leaves everyone else's |
| Actions.GetPlayersOptions | hand.py:69-74 | the options start Fold, Call; Raise is added exactly when the player is not yet in `has_bet` and holds more than the gap to the level |
| Actions.RaiseOnlyOnFirstTurn | hand.py:214-215 | once the player's id is in `has_bet`, Raise is never offered to them again |
| Actions.Split | hand.py:77 | splitting on a single space gives one more piece than there are spaces, none containing a space |
| Actions.JoinSplit | hand.py:77 | joining the pieces with spaces gives back the action text |
| Actions.SplitTwoWords | hand.py:77-78 | two space-free words joined by one space split into exactly those two pieces |
| Actions.SplitOneWord | hand.py:77-78 | a text without spaces is one piece, so it has no amount |
| Actions.DecimalValue | hand.py:80 | reading the decimal digits of a natural number gives that number |
| Actions.ParseIntRoundTrip | hand.py:80 | `int` applied to the decimal text of any integer gives that integer back |
| Actions.GetRaiseAmount | hand.py:76-80 | succeeds exactly when the action has one space and its second piece is an integer, with that integer's value; fails with no-amount otherwise when the pieces are not two |
| Actions.GetRaiseAmountRoundTrip | hand.py:76-80 | a word, a space and the decimal text of `n` always reads as the amount `n` |
| Actions.Classify | hand.py:232-244 | an action is a fold exactly when it is "Fold", a call exactly when it is "Call", and a raise exactly when Raise is offered, it starts with "Raise" and its amount parses; the raise carries that amount |
| Turns.NextSeat | hand.py:198-199 | the next seat is within the table, one further on, wrapping from the last seat to 0 |
| Turns.PrevSeat | hand.py:195-196 | the previous seat is within the table, one back, wrapping from seat 0 to the last |
| Turns.Dist | hand.py:251-253 | the clockwise distance between two seats is below the table size and zero exactly when they are the same seat |
| Turns.NextPrevInverse | hand.py:195-199 | moving to the next seat undoes moving to the previous one, and the reverse |
| Turns.DistNext | hand.py:251-253 | each step of the turn loop brings the current seat one closer to the seat that ends the round |
| Turns.WalkArrives | hand.py:251-253 | walking clockwise the distance between two seats reaches the second seat |
| Turns.WalkFirstStep | hand.py:253 | a walk of k steps is one step followed by a walk of k − 1 |
| Turns.RaiseReopensRound | hand.py:241 | after a raise at seat c the round ends at the seat before c, the farthest seat from the next one, so every other seat comes up before the round ends |
| Betting.BlindPositions | hand.py:168-184 | the big blind is at exactly the seat before the start seat; the small blind is at exactly the seat before that when there are more than two players, and nowhere otherwise |
| Betting.PrevTwice | hand.py:179 | `(start − 2) mod n` is the seat two places before the start seat |
| Betting.BlindBetsPrefix | hand.py:173-186 | after the first k seats the posted blinds sum to the blinds whose seats are among them, each wager is a small or big blind, and the big blind is there once its seat is passed |
| Betting.BlindLedger | hand.py:173-186 | the blinds' ledger sums to the big blind plus the small blind when more than two play, its largest wager is the big blind, and its owners are players, each at most once |
| Betting.PostedOwners | hand.py:174-182 | every posted blind belongs to a player, and none yet to a player of a seat not reached |
| Betting.PostedOwnersDistinct | hand.py:174-182 | with distinct players, no player posts two blinds |
| Betting.PostedAmounts | hand.py:174-182 | each reached seat's entry holds its blind, and an unreached seat has nothing posted |
| Betting.CallAmount | hand.py:285 | a call pays no more than the gap to the level and no more than the holdings, and equals one of them |
| Betting.MoveOf | hand.py:231-246 | the accepted move folds exactly on "Fold", pays without raising exactly on "Call", raises only when Raise is offered and only what the player holds, and nothing is done exactly when the action is refused |
| Betting.RaiseMove | hand.py:294-298 | an offered raise of n is refused when the holdings are below the gap plus n, and otherwise pays the gap plus n |
| Betting.FirstAccepted | hand.py:226-246 | the turn takes the first accepted action from `from` on; every action before it was refused |
| Cards.DealHands | hand.py:50-58 | player p gets the p-th card from the top and then the p-th card of the second round; the 2n top cards leave the deck and no card is lost |
| Cards.TwoRoundsOfCards | hand.py:54-56 | the two rounds' hole cards and the rest of the deck are exactly the deck's cards |
| Cards.DealRound | hand.py:55-56 | one round gives player q the q-th card from the top and takes that many cards off the deck |
| Cards.Popped | hand.py:56 | popping k cards takes them from the top of the deck in order |
| Cards.TopCards | hand.py:56 | the popped cards are the deck's top k cards |
| Cards.DealCommunityCards | hand.py:60-67 | eight cards are popped as burn, three board cards, burn, one, burn, one; the board and the burns are those cards in that order and the rest of the deck is untouched |
| Cards.PopsFollowOrder | hand.py:63-65 | each pop goes to the pile the deal order names, in turn |
| Cards.PileStep | hand.py:64-65 | one pop appends the next card to the pile the deal order names |
| Cards.FinalPiles | hand.py:63-67 | after the eight pops the board holds the 2nd, 3rd, 4th, 6th and 8th cards from the top and the burns the 1st, 5th and 7th |
| Cards.CommunityCardsKept | hand.py:60-67 | the board, the burns and the rest of the deck are exactly the deck's cards |
| Sorting.Insert | hand.py:261 | inserting an element adds exactly that element |
| Sorting.InsertSorted | hand.py:261 | inserting into a sorted sequence keeps it sorted |
| Sorting.SortBy | hand.py:261 | the result is sorted by the key and is a permutation of the input |
| Sorting.InsertCount | hand.py:261 | inserting adds one to the count of a property exactly when the element has it |
| Sorting.SortCount | hand.py:319 | sorting keeps how many elements have any property |
| Sorting.InsertWithKey | hand.py:261 | inserting an element puts it ahead of the elements with its key already there, and leaves the other keys' elements in order |
| Sorting.SortStable | hand.py:261 | the sort is stable: the elements with any one key keep their original order |
| SidePots.SortedAscending | hand.py:260-261 | the sorted wagers ascend by amount and are the ledger's wagers |
| SidePots.AsWrittenPassKeepsEveryBet | hand.py:270-272 | one pass of the loop body as written sets every remaining wager to zero and drops none |
| SidePots.AsWrittenLoopNeverEnds | hand.py:265-272 | on a non-empty ledger, the list still holds every wager after any number of passes as written, so `len(bets) > 0` never fails |
| SidePots.KeepPositive | hand.py:272 | the intended filter never grows the list and drops the smallest wager once it is used up |
| SidePots.SplitPots | hand.py:260-274 | the splitter's loop appends exactly the pots that peeling the sorted ledger level by level gives |
| SidePots.SubtractFromEach | hand.py:270-271 | the inner loop takes the same amount off every remaining wager |
| SidePots.PeelPotsUnfold | hand.py:266-274 | each pass appends the pot of the smallest remaining wager and goes on with the lowered wagers at level previous + smallest |
| SidePots.SumLowered | hand.py:270-272 | taking t off n wagers of at least t, and dropping those left at zero, lowers their sum by t·n |
| SidePots.LoweredSuffix | hand.py:270-272 | on ascending wagers, the wagers left after lowering are the owners of a suffix, in order, each lowered |
| SidePots.PeelConservesChips | hand.py:263-274 | the peeled pots hold the carried pot's amount plus every wager of the ledger: no chip is created or lost |
| SidePots.AscendingMax | hand.py:47 | the largest wager of an ascending ledger is its last |
| SidePots.PeelLastLevel | hand.py:267-275 | the last peeled pot, which becomes the active one, stands at the previous level plus the largest wager |
| SidePots.PeelLastLevelTop | hand.py:267-273 | the last peeled pot's level is the previous level plus the last wager |
| SidePots.LoweredTail | hand.py:272 | a wager above the amount taken off survives the pass |
| SidePots.PeelEligibleShrinks | hand.py:269 | the first pot is open to every owner of the ledger, and each later pot to a suffix of the previous pot's players |
| SidePots.LoweredShape | hand.py:270-272 | on ascending wagers of at least t, the wagers left after the pass are, in order, a suffix of the old ones each lowered by t, all above zero, and every dropped wager was at most t |
| SidePots.PeelEligibility | hand.py:265-274 | each peeled pot is open to exactly the players whose wager is at least its tier (its level above the carried level), and its tier is the smallest such wager |
| SidePots.PeelTiers | hand.py:265-274 | the tiers of the peeled pots are exactly the distinct amounts wagered, and each pot stands at a higher level than the one before |
| SidePots.PeelCount | hand.py:265-274 | the splitter appends one pot per distinct amount wagered |
| SidePots.ThreeWayAllInExample | hand.py:260-274 | wagers of 30, 80 and 80 peel into a pot of 90 at level 30 for all three players and one of 100 at level 80 for the two larger |
| Settlement.SettleKeepsEarlierPots | hand.py:255-275 | settling never touches the pots before the active one; equal wagers keep the pot count and the active pot's players, unequal ones add pots |
| Settlement.UnequalPeelsTwice | hand.py:259-274 | a ledger whose wagers are not all equal peels into at least two pots |
| Settlement.SettleConservesChips | hand.py:255-275 | the pots after settling hold what they held plus the ledger's sum |
| Settlement.MergeConservesChips | hand.py:256-258 | adding an equal-wager ledger to the active pot keeps every chip |
| Settlement.SettleMerges | hand.py:256-258 | with equal wagers the active pot's amount grows by the ledger's sum and its level by the common wager; no pot is created |
| Settlement.PeelSettleConservesChips | hand.py:259-275 | replacing the active pot by the peeled pots keeps every chip |
| Settlement.SettleLevel | hand.py:255-275 | after settling, the active pot's level is its old level plus the largest wager |
| Settlement.SettleEligible | hand.py:269-275 | after unequal wagers, every player of the new active pot has a wager in the ledger, and none appears twice |
| Settlement.ActiveOwnersTail | hand.py:269-275 | after unequal wagers, the new active pot's players are the owners of a tail of the sorted ledger, and a wager is in that tail exactly when it equals the largest wager |
| Settlement.ActivePlayersMatchedTop | hand.py:255-275 | with one entry per player, after unequal wagers a player is in the new active pot if and only if their wager equals the round's largest |
| Settlement.NestedLast | hand.py:269-275 | the last of nested pots is open to a suffix of the first pot's players |
| Settlement.InsertSum | hand.py:261 | inserting a wager into the sorted ledger adds its amount to the sum |
| Settlement.SortSum | hand.py:261 | sorting the ledger keeps its sum |
| Settlement.MaxRaisePermutation | hand.py:255-261 | two ledgers with the same wagers have the same largest wager |
| Settlement.InsertKeepsOwnersDistinct | hand.py:261 | inserting a wager of a new owner keeps one entry per owner |
| Settlement.SortKeepsOwnersDistinct | hand.py:261 | sorting keeps one entry per owner |
| Showdown.Ranked | hand.py:319 | the scores are put in order of non-increasing strength, and are the same scores |
| Showdown.MaxStrength | hand.py:318-319 | the best strength among the scores is at least each score's strength and is reached by one of them |
| Showdown.Decide | hand.py:333-338 | a decision exists exactly when at least two players are scored |
| Showdown.RankedFirstIsBest | hand.py:319 | the first of the ranking has the best strength |
| Showdown.TopCount | hand.py:333 | in a ranking, two or more scores share the top strength exactly when the first two have equal strength |
| Showdown.DrawIffTie | hand.py:333-338 | the hand is a draw exactly when at least two players share the best strength |
| Showdown.WinnerIsStrongest | hand.py:336-338 | a sole winner has the best strength and nobody else does |
| Showdown.FirstRankedAt | hand.py:319 | the first of the ranking is one of the scores, with the best strength |
| Showdown.DrawersAreStrongest | hand.py:333-335 | both drawing players have the best strength |
| Showdown.DecidedAmongScores | hand.py:333-338 | the winner, or both drawing players, are players that were scored |
| Showdown.DrawersDiffer | hand.py:333-334 | with one score per player, the two drawing players are different players |
| Showdown.RankedStable | hand.py:319 | ranking keeps the players of each strength in seat order |
| Showdown.DecideFollowsSeatOrder | hand.py:316-338 | a draw is between the first two players, in seat order, with the best strength; a sole winner is the only player with it |
| Players.HandPlayer.constructor | hand.py:7-11 | a hand player starts with the player's id and holdings, the dealt hole cards, nothing bet and not folded |
| Players.HandPlayer.Bet | hand.py:13-15 | betting moves the amount from the holdings to the running bet; the fold flag and the chips held plus bet are unchanged |
| Players.HandPlayer.Fold | hand.py:17-18 | folding sets the fold flag and changes no chips |
| Players.HandPlayer.Win | hand.py:139 | winning adds the amount to the holdings and nothing else |
| Players.SurviveMembers | hand.py:277 | the players left in are exactly the unfolded players of the list, with distinct ids when the list has them |
| Players.SurviveFrom | hand.py:277 | every player left in is an unfolded player of the list |
| Players.SurviveKeeps | hand.py:277 | every unfolded player of the list is left in |
| Players.SurviveDistinct | hand.py:277 | players left in from a list with distinct ids have distinct ids |
| Players.UnfoldedMembers | hand.py:250 | the un-folded players are no more than the list, unfolded members of it, include every unfolded player, and keep distinct ids |
| Hands.Reveal | hand.py:307-313 | revealing moves up to `num` face-down cards, in dealt order, to the end of the face-up cards; together the two piles are unchanged |
| Hands.ThreeOneOne | hand.py:119-123 | revealing 3, then 1, then 1 turns up the five community cards in the order they were dealt and leaves none face down |
| Hands.DealKeepsCards | hand.py:94-96 | the hole cards, the board, the burns and the deck's rest are exactly the deck's cards |
| Hands.Deal | hand.py:94-96 | each player's two hole cards and the community deal come from the deck as the two dealing functions pop them |
| Hands.DealConservesCards | hand.py:94-96 | after the deal the deck, discard pile, hole cards and board hold exactly the cards of the original deck |
| Hands.SeatPlayers | hand.py:95 | each seat gets a fresh hand player with its id, holdings and hole cards, nothing bet and not folded; ids stay distinct |
| Hands.RegroupedAccounted | hand.py:312-313 | moving cards between the face-down and face-up piles keeps every card accounted for |
| Rounds.CallOutcome | hand.py:236-237 | a call pays what `CallAmount` says, records it, is always taken and never raises |
| Rounds.RaiseOutcome | hand.py:239-242 | given what `raise_bet` reports, an offered raise is taken exactly when `raise_bet` succeeds, and is then the raising move that pays and records the gap plus the raise; a refused one is no move and changes nothing |
| Rounds.TurnAccounts | hand.py:231-246 | whatever the move, the player's holdings plus bet are kept, a fold is never undone, and their ledger entry grows by what their bet grows while every other entry stays |
| Rounds.TurnKeepsRound | hand.py:212-248 | a turn by an unfolded player with money keeps the round's record: chips only move to the bet, folds stay, the ledger matches the bets, and only prompted players change |
| Rounds.Prompted | hand.py:213-248 | a prompted player is recorded in `has_bet`; when the actions run out nothing else changes and there is no raise; otherwise reading moves past the accepted action; a raise only comes on the first prompt; every other seat's stake is unchanged |
| Rounds.PromptedIs | hand.py:214-246 | the prompted turn is the move of the first accepted action from the reading position, with the options and the gap to the current level the loop computes |
| Rounds.SeatStep | hand.py:212-248 | a folded or broke player is skipped with nothing changed; anyone else is recorded as prompted; a raise only comes from a player prompted for the first time; every other seat's stake is unchanged |
| Rounds.PlayFrom | hand.py:209-253 | unless the actions run out, the loop stops only at the seat that ends the round or with fewer than two unfolded players; reading only moves forward |
| Rounds.PlayFromStep | hand.py:241-253 | each seat keeps or shrinks the set of players not yet prompted, a raise shrinks it, and the loop then stops, stalls, or goes on from the next seat with the round ending before the raiser after a raise |
| Rounds.SeatStepKeepsRound | hand.py:212-248 | one seat's step keeps the round's record: chips only move to the bet and into the ledger under the payer, folds stay, only prompted players change |
| Rounds.PlayFromKeepsRound | hand.py:209-253 | the whole turn loop keeps the round's record, whatever the actions |
| Rounds.PlayFromLeavesIdle | hand.py:213 | a player who is folded or broke when the loop starts keeps their stake to the end of the round |
| Hands.DistinctSubIds | hand.py:269 | distinct players drawn from a list with distinct ids have distinct ids |
| Hands.SettledEligible | hand.py:255-275 | after settling, the active pot is open only to players of the previous active pot, with distinct ids |
| Hands.SplitEligible | hand.py:259-275 | after unequal wagers, the new active pot's players were players of the old active pot, with distinct ids |
| Hands.LeavingKeepsAmounts | hand.py:277 | folded players leaving the active pot changes no pot's amount |
| Hands.NothingPosted | hand.py:201-202 | before any wager the empty ledger balances every player's books |
| Hands.BlindsAccounted | hand.py:204-207 | the blinds' ledger records under each player exactly the blind they posted |
| Hands.TurnsAccounted | hand.py:211-253 | after the turns, the ledger records under each player exactly what they put in since the round began |
| Hands.PostBlinds | hand.py:173-186 | the posting loop returns the blinds in seat order and each blind seat has moved its blind from holdings to bet, with nobody else changed |
| Hands.PayInto | hand.py:176 | a player's bet changes only that player's stake |
| Hands.Scores | hand.py:318 | one score per active player, what the evaluator makes of their hole cards and the face-up cards |
| Hands.TotalShareOnce | hand.py:137-148 | among players with distinct ids, a sole winner in the list is paid the pot and each drawing player in it half, once each |
| Hands.ShowdownPaysPot | hand.py:316-338 | the showdown pays players of the pot: the whole pot to a sole winner, and to two different drawing players all of it but the odd chip integer halving drops |
| Hands.Hand.constructor | hand.py:88-101 | two hole cards per player and eight cards for the community deal are popped; each player is seated; one pot open to every player; nothing face up |
| Hands.Hand.PlayTurns | hand.py:201-253 | the loop ends with exactly the stakes, ledger, prompted players, reading position, stop seat, round-end seat and stall flag that `PlayFrom` gives from the start seat with the round ending at the seat before it, and keeps the round's record |
| Hands.Hand.SeatTurn | hand.py:212-248 | the players' stakes, the ledger, the prompted players, the reading position and the raise and stall flags are exactly what `SeatStep` gives for the seat |
| Hands.Hand.Prompt | hand.py:213-248 | the stakes, ledger, reading position and raise and stall flags are exactly what `Prompted` gives: the first accepted action is taken, and the turn stalls exactly when none is |
| Hands.Hand.TurnAt | hand.py:226-246 | the action taken is the first accepted one from `from` on, its move is what `MoveOf` says of it, the seat's stake and the ledger change by that move, every other stake is unchanged, and a raise needs Raise offered |
| Hands.Hand.SettleRound | hand.py:255-275 | the pots become the settlement of the ledger and the active pot is the last of them |
| Hands.Hand.SettleLedger | hand.py:255-275 | settling adds the ledger's sum to the pots, raises the active level by the largest wager, and leaves the active pot open only to its old players |
| Hands.Hand.RunBetRound | hand.py:193-280 | each fault on its condition; the books balance on every path; from a valid start seat the stakes, ledger and reading position are what `PlayFrom` gives after the blinds, and the round fails for want of actions exactly when the loop stalls; a settled round leaves the pots as the settlement with folded players removed, every chip kept, the level raised by the largest wager, and ends with one survivor or wraps the start seat |
| Hands.Hand.OpenRound | hand.py:204-212 | the blinds are posted when asked for; a start seat beyond the players fails before posting, one equal to their number after; the books then balance |
| Hands.Hand.OpenAndPlay | hand.py:201-253 | each opening fault on its condition and the books balance; from a valid start seat the stakes, ledger, reading position and stall flag are what `PlayFrom` gives from the start seat on the stakes and ledger the blinds leave |
| Hands.Hand.Resolve | hand.py:255-280 | the pots become exactly the settlement of the ledger with the folded players taken out of the active pot, keeping every chip and raising the level by the largest wager; the hand ends with one survivor, fails with nobody left, or goes on with the start seat wrapped |
| Hands.Hand.DropFolded | hand.py:277-280 | the active pot becomes the old one without its folded players, in order, and no other pot changes; a sole survivor ends the hand, nobody left fails, otherwise the start seat wraps |
| Hands.Hand.RevealCards | hand.py:307-313 | up to `num` face-down cards turn face up in dealt order, and every card stays accounted for |
| Hands.Hand.PutCardsBackInDeck | hand.py:105-109 | the discard pile, hole cards and both community piles go under the deck, which then holds exactly the cards the hand was given |
| Hands.Hand.AssignBlinds | hand.py:161-186 | a start seat beyond the players or a small blind above the big one fails before anything is posted; otherwise the blinds are posted at their seats and returned in seat order |
| Hands.Hand.CallBet | hand.py:283-291 | the player pays the gap to the level, or all they hold if less, and their ledger entry grows by the same amount |
| Hands.Hand.RaiseBet | hand.py:293-305 | an unreadable or unaffordable raise fails with nothing changed; otherwise the player pays the gap plus the raise and their ledger entry grows by it |
| Hands.Hand.Act | hand.py:231-246 | the action is carried out exactly when the loop accepts it, with the effect its move describes; a refused action changes nothing |
| Hands.Hand.CallTurn | hand.py:236-237 | a call is always taken and has the call's effect |
| Hands.Hand.RaiseTurn | hand.py:239-242 | a raise is taken exactly when it is affordable, and then has the raise's effect |
| Hands.Hand.TakeTurn | hand.py:226-246 | the first accepted action from `from` on is taken, with its effect; when none is, nothing changes |
| Hands.Hand.DecideWinner | hand.py:316-338 | with fewer than two players it fails; otherwise each active player is credited exactly their share of the decision on their scores |
| Hands.Hand.MakeWinner | hand.py:137-141 | the winner is credited the active pot and nobody else changes |
| Hands.Hand.MakeDraw | hand.py:143-148 | each of the two drawing players is credited half the active pot and nobody else changes |

## Left out

- Player I/O is not modelled: `coms.send_line`, `recv`, `send_hand`, `send_card_reveal`, `notify_players`, `notify_player_statuses`, and the display strings. The replies to the prompt are a sequence of strings.
- `print`, `__repr__` and the `run` driver are not modelled. The reveal pattern of `run` is `Hands.ThreeOneOne`. `update_player_holdings` copies the holdings back to the table's players and is not modelled.
- The hand evaluator `get_hand_max` from `hand_scorer` is not part of this model. It is the parameter `eval`, returning a name and an integer strength.
- The `Player` base class from `player.py` is not part of this model. `Players.HandPlayer.Bet` takes the amount off the holdings, `Players.HandPlayer.Win` adds it, and `HasMoney` means holdings above zero; these are assumptions.
- Hands.Hand.MakeDraw: pays `amount / 2` on integers, where the program's `/` is float division. The odd chip of an odd pot is dropped here.
- Hands.Hand.DecideWinner: pays the active pot only, as the program does; earlier side pots are not paid at the showdown in the program either.
- Actions.ParseInt covers an optional sign followed by ASCII digits. Python's `int` also accepts surrounding whitespace, underscores between digits and non-ASCII digits; those are refused here.
- Hands.Hand.constructor: requires a deck of at least two cards per player plus eight, since `pop` on an empty list fails; a short deck is not modelled as an outcome.
- Hands.Hand.constructor: requires distinct player ids, since the ledger is keyed by id.
- The deck passed to `Hand` is the caller's list in the program, so the caller sees the deck shrink and grow. That aliasing is not modelled; the hand keeps its own deck.
- Hands.Hand.PlayTurns: is stated for the active pot's player list as it stands when the round starts, which is how `run_bet_round` uses it.
- Hands.Hand.RunBetRound: posts the default blinds of 5 and 10, as `assign_blinds()` is called without arguments.
- Hands.Hand.RunBetRound: the start seat is a `nat`. A negative `start_pos`, which Python's indexing would read from the end of the player list, is not modelled.
- Rounds.PlayFrom: that a raise reopens the betting to every other seat is not one clause of its contract. It follows from `Turns.RaiseReopensRound` and from `PlayFrom` moving the round's end to the seat before the raiser.
- When the actions run out during a prompt, the round stops with `OutOfActions` and nothing is settled; the program would wait on `recv`.

## Findings

| source | as written | input that shows it | evidently intended | confidence | as-written member | corrected member |
|---|---|---|---|---|---|---|
| hand.py:270-272 | `bet.amount -= bet.amount` zeroes every remaining wager, then `amount <= 0` keeps them all, so the list never shrinks and the splitter loops forever | any ledger with unequal wagers, e.g. wagers of 30, 80 and 80 | take the smallest wager off every remaining wager and keep those still above zero | not executed | SidePots.AsWrittenLoopNeverEnds | SidePots.SplitPots |
