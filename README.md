# Console blackjack in Dafny

A model of the game logic of a console blackjack table written in Python (`main.py`). The prompts are replaced by sequences of answers, and the shuffle by a given card order. Each phase of a round is modelled on its own; how `__call__` strings the phases together is not (see "Left out"). The model covers:

- The deck holds 52 rank/suit cards and deals from the end of its list.
- A hand derives the list of its possible totals, its best total of at most 21, and its bust and blackjack flags from its cards.
- Players bet, two cards are dealt to every player's first hand and to the dealer, and players hit, stand, double or split hand by hand. The split hands join the list being played.
- The dealer draws to 17, and every hand is paid out by four independent checks.

The modules follow the source's classes:

- `Cards` (`cards.dfy`): `Card` and the `Deck` class.
- `Valuation` (`valuation.dfy`): the pure computation of `compute_card_values` and `process_hand`, as functions with lemmas.
- `Hands` (`hand.dfy`): the `Hand` class, whose methods update its fields in place.
- `Rules` (`rules.dfy`): what reads no object.
  - The decisions offered to a hand.
  - The prompt loops, as methods over answer sequences.
  - The payout of one hand.
- `Turns` (`turn.dfy`): one hand's turn in `play_round`, on values.
- `Rounds` (`round.dfy`): the loops of `play_round` over a player's hands and over the players, on values.
- `Table` (`game.dfy`): the `Player` and `Game` classes, with one method per phase of a round.

A hand's `Valid()` ties its derived fields to its cards, as `process_hand` leaves them. The constructor and `ResetTable` create valid hands. The methods that deal cards (`InitHands`, `DealerTurn` and the play methods) ensure that every hand they touch stays valid. `InitBets` and `CheckAndPayout` write only bets and banks, which `Valid()` does not read. The methods state their effect on the deck, the hands and the banks.

`Turns` (`turn.dfy`) describes one hand's turn on values. `Step` says what one decision does, and `Run` says which sequences of decisions make a turn. `TurnFrom` plays a turn from a position in the answer stream. The prompt takes the first offered answer (`NextOffered`). The turn waits when no offered answer is left, stops when the deck lacks the cards for the answer, and otherwise carries the decision out and goes on until `Ends` says it is over.

`Rounds` (`round.dfy`) builds the loops on top of `TurnFrom`. `HandTurn` plays one hand, or passes over a hand flagged blackjack. `SeatFrom` plays a player's hands in order, including the hands splits append. `RoundFrom` plays the seats in order, each reading the answers from where the one before stopped. Each of them returns the hands, the banks, the deck, the position in the answers, why play stopped, and the hand left waiting. Lemmas and contracts on these functions state that:

- the decisions taken form a turn `Run` accepts;
- a turn completes exactly when its last decision ended it;
- a hand left waiting is offered none of the remaining answers;
- a turn stopped for cards stopped at an answer the deck cannot serve;
- the deck only loses cards from its end;
- a bank at zero or above stays there.

The methods of `Game` that play the round are proved equal to these functions:

- `PlayTurn` ends where `TurnFrom` does: same state, decisions, answers read, last prompt and status. The player's hands are the old ones with the split hands (`SplitHands`) appended.
- `PlayHand` ends where `HandTurn` does, `PlayHands` where `SeatFrom` does, and `PlayRound` where `RoundFrom` does, all from the same start and the same answers.

Each method also states, on the objects, that hands stay processed, that bank plus bets is unchanged, and that on `Complete` every hand has been played.

The lemmas relate the valuation functions to the set of Ace sums. They also give the payout by outcome and the dealer's stopping condition.

## Model

| member | source | states |
|---|---|---|
| Cards.RanksDistinct | main.py:8 | the rank list names each of the thirteen ranks once |
| Cards.SuitsDistinct | main.py:9 | the suit list names each of the four suits once |
| Cards.FullDeck | main.py:36 | the unshuffled deck has 13 × 4 = 52 cards |
| Cards.FullDeckAt | main.py:36 | card (rank r, suit s) sits at position 4·index(r) + index(s): the product is rank-major |
| Cards.FullDeckComplete | main.py:36-37 | every rank/suit card is in a fresh deck |
| Cards.FullDeckDistinct | main.py:36-37 | no card occurs twice in a fresh deck |
| Cards.Drawn | main.py:47 | n pops return exactly n cards |
| Cards.DrawnConserves | main.py:47 | the cards dealt plus the cards left are, as a multiset, the deck before dealing |
| Cards.Deck.constructor | main.py:36-37 | a new deck holds the 52 cards in product order |
| Cards.Deck.ShuffleDeck | main.py:39-41 | after the shuffle the deck is the given permutation of its cards |
| Cards.Deck.DealCards | main.py:43-47 | exactly the last n cards leave the deck, and they come back last card first |
| Valuation.PipValue | main.py:111 | a non-Ace card is worth 2 to 10 points, and 10 exactly for 10, J, Q and K |
| Valuation.AceCountBounds | main.py:110 | `AceCount`, the number of Aces, is at most the number of cards, and 0 exactly when no card is an Ace |
| Valuation.NonAceValueBounds | main.py:109-111 | `NonAceValue`, the sum of the non-Ace cards, lies between 2 and 10 points per non-Ace card |
| Valuation.AceSums | main.py:113-118 | the sums of k Aces counted 1 or 11 include k (all as 1) and 11·k (all as 11), and every sum lies between the two |
| Valuation.ValuesAt | main.py:113-121 | `values` has k + 1 entries for k Aces, and entry i is the hard total plus 10·i |
| Valuation.ValuesShape | main.py:113-121 | `values` is strictly ascending, its neighbours are 10 apart, and it starts at the hard total |
| Valuation.ValuesElements | main.py:113-121 | `Values` holds exactly the non-Ace sum plus each Ace sum j·1 + (k−j)·11 for 0 ≤ j ≤ k, as the loop over `AceSums` builds `values` |
| Valuation.SortedListIsUnique | main.py:121 | two strictly ascending lists with the same elements are equal |
| Valuation.ValuesIsSortedValueSet | main.py:113-121 | any sorted, duplicate-free list of the sums is `values`, so the model's list is what `sorted` returns |
| Valuation.NonBustMembers | main.py:122 | `NonBust`, the filter of `max_non_bust_value`, keeps exactly the entries not above 21 |
| Valuation.MaxIsLargest | main.py:123 | `Max`, Python's `max`, returns an element that no element exceeds |
| Valuation.MaxNonBustSpec | main.py:122-123 | `MaxNonBust` (`max_non_bust_value`) is 0 when every value exceeds 21; otherwise it is the largest value not above 21 |
| Valuation.BustIffHardTotalOver21 | main.py:98 | `AllBust` (`is_bust`) holds of a hand's values exactly when its hard total (every Ace as 1) exceeds 21 |
| Valuation.BestTotalRange | main.py:122-123 | `BestTotal` is 0 exactly for an empty or bust hand; otherwise it lies between the hard total and 21 |
| Valuation.HardTotalBounds | main.py:108-111 | each card adds 1 to 10 points to the hard total |
| Valuation.HardTotalAppend | main.py:89-91 | hard totals and Ace counts add up over appended cards |
| Valuation.DrawRaisesHardTotal | main.py:89-91 | a drawn card raises the hard total by 1 to 10 |
| Valuation.NoAcesSingleValue | main.py:117-121 | without Aces `values` is the single plain sum, and `[0]` for an empty hand |
| Valuation.TwoCardsNeverBust | main.py:98 | a two-card hand is never bust and has a positive best total |
| Valuation.TwentyOneNotBust | main.py:98-100 | a hand holding 21 among its values is not bust, and its best total is 21 |
| Valuation.NaturalIff | main.py:99-100 | two cards hold 21 exactly when one is an Ace and the other is worth ten |
| Valuation.PairOfAces | main.py:113-123 | two Aces give values 2, 12, 22 and best total 12; they are not bust and not twenty-one |
| Valuation.AceKing | main.py:113-121 | Ace and King give values 11 and 21 |
| Valuation.KingQueenFive | main.py:113-123 | King, Queen and Five give the single value 25, which is bust with best total 0 |
| Valuation.SoftSeventeen | main.py:113-123 | Ace and Six give a best total of 17 |
| Hands.Hand.constructor | main.py:68-82 | a new hand is processed; its blackjack flag is set only for a two-card 21 |
| Hands.Hand.AddBet | main.py:84-87 | the bet grows by the value |
| Hands.Hand.AddCards | main.py:89-91 | the cards are extended and re-processed; the blackjack flag is kept unless the hand now has two cards |
| Hands.Hand.ProcessHand | main.py:93-100 | establishes `Valid()`: the values, best total and bust flag agree with the cards; the blackjack flag is reassigned only on two cards |
| Hands.Hand.ComputeCardValues | main.py:102-123 | `values` and `max_non_bust_value` are those of the cards |
| Hands.Hand.PopCard | main.py:125-126 | the last card is removed and returned; the derived fields are left as they were |
| Rules.OfferedDecisions | main.py:279-283 | hit and stand are always offered; double iff the bank covers the bet (`Covers`, `has_enough_money` at main.py:153-154) on two cards; split iff additionally the ranks are equal |
| Rules.OfferedStakeIsCovered | main.py:279-283 | an offered double or split leaves the bank at or above zero after paying the bet again, and the hand has two cards, not bust |
| Rules.AskPlayerDecision | main.py:287-291 | the decision is the first offered answer, every skipped answer is not offered, and no decision is returned only when every remaining answer is not offered |
| Rules.NextOffered | main.py:287-290 | `NextOffered`, the prompt loop as a function, meets `FirstOffered`: it settles on the first offered answer from the position given, skipping only answers not offered, or on none when every remaining answer is not offered |
| Rules.FirstOfferedIsNext | main.py:287-290 | whatever answer and position meet `FirstOffered` are the ones `NextOffered` returns, so the prompt has one outcome |
| Rules.AcceptedBetCovered | main.py:228-231 | `AcceptedBet`, the bet init_bets settles on, is covered by the bank; it is the probe when the bank covers that, else the first covered answer |
| Rules.FirstAffordableIsFirst | main.py:230-231 | `FirstAffordable` is an answer the bank covers, and every earlier answer is one it does not |
| Rules.AskBet | main.py:228-231 | the prompt loop returns the accepted bet and reads answers only when the bank is below the probe |
| Rules.Payout | main.py:305-325 | a bust hand gets nothing, and a non-negative bet never gets a negative payout |
| Rules.PayoutByOutcome | main.py:305-325 | the cases stack: dealer bust pays 4× the bet, a push 1×, a higher total 2×, a lower 0, plus 2.5× for a blackjack flag |
| Rules.DealerStops | main.py:297 | a dealer with cards who stops drawing is bust (best total 0) or has 17 to 21, soft totals included |
| Turns.Step | main.py:251-270 | a decision takes exactly `CardsNeeded` cards (0 for stand, 1 for hit and double, 2 for split) off the end of the deck; bank plus bet is unchanged, the split's bet aside; a bank at zero or above stays there; only a double changes the bet |
| Turns.StepConservesCards | main.py:251-270 | a decision moves cards between the deck, the hand and a split's new hand, and creates none |
| Turns.Run | main.py:247-273 | a turn only shortens the deck from its end and keeps a bank at zero or above; no decisions leave the turn where it began |
| Turns.RunAppend | main.py:247-273 | a turn that has not ended extends by any decision offered with its cards at hand, to where that decision takes it |
| Turns.RunContinues | main.py:251-273 | every decision of a turn but the last is a hit or a split (`EndsTurn` is false) and leaves the hand neither bust nor blackjack |
| Turns.RunKeepsBet | main.py:255-257 | a turn that does not end on a double keeps the bet it began with |
| Turns.TurnFrom | main.py:247-290 | the turn `TurnFrom` plays from position `from` reads answers only from there on, and a completed turn reads at least one |
| Turns.RunPrepend | main.py:247-273 | a decision that does not end the turn, followed by a turn from where it leads, is a turn from the start that ends in the same state |
| Turns.TurnFromRuns | main.py:247-273 | the decisions `TurnFrom` carries out form a turn `Run` accepts and lead to the state it stops in; the turn completes exactly when its last decision ended it |
| Turns.TurnFromStops | main.py:247-290 | where `TurnFrom` stops: a complete turn's last prompt ended at its last answer; out of answers, none from where the last prompt began is offered; out of cards, the last answer read is the first offered one and needs more cards than are left; no answer read before the last is a stand |
| Turns.TurnEndFacts | main.py:247-273 | a turn stopped at t: its decisions lead to t, the deck only lost cards, a bank at zero or above stays there, and the status says why it stopped |
| Turns.TurnEndComplete | main.py:247-273 | a completed turn has at least one decision, and the last one ended it |
| Turns.TurnEndStops | main.py:250-290 | a turn out of answers was offered none of them from where its last prompt began; a turn out of cards stopped at an answer needing more cards than are left |
| Turns.SplitHandsAppend | main.py:261-270 | one more decision appends to the split hands exactly the hand it creates: one for a split, none otherwise |
| Rounds.HandTurn | main.py:244-273 | a blackjack hand is passed over without reading an answer; otherwise the hand's turn from position `from` replaces it and appends its split hands; answers are read only from `from` on, the list only grows, the deck only loses cards from its end, a bank at zero or above stays there, and a stopped turn leaves hand j waiting as `Stopped` says |
| Rounds.HandTurnPlays | main.py:244-273 | for a hand not flagged blackjack, `HandTurn` is exactly what the hand's `TurnFrom` leaves |
| Rounds.SeatFrom | main.py:244-273 | playing a player's hands from hand j reads answers only from `from` on, only grows the list, only shortens the deck from its end, keeps a bank at zero or above there, and stops as `Stopped` says |
| Rounds.RoundFrom | main.py:243-273 | playing the seats from seat i keeps the number of seats, reads answers only from `from` on, only shortens the deck, keeps every bank at zero or above there, and a round that stops names a seat whose waiting hand or last answer is as `Stopped` says |
| Table.TotalPayoutNonNegative | main.py:304-325 | with no negative bet, `TotalPayout`, what a player's hands win, is zero or more |
| Table.WithDealtPair | main.py:237-239 | init_hands adds exactly two cards to each hand it deals to |
| Table.HandsAfterTurn | main.py:244-270 | after the turn of hand j, the player holds the old hands with hand j replaced and the split hands appended, in order |
| Table.TurnBegins | main.py:245-247 | a turn that has not begun has read nothing and taken no decision, and all of `TurnFrom` lies ahead of it |
| Table.FirstHandsOf | main.py:237 | the list holds each player's first hand, in seat order |
| Table.Player.constructor | main.py:145-148 | a new player has the name and bank given and one empty hand with no bet |
| Table.Player.ResetHand | main.py:150-151 | the player's hands become one new empty hand with no bet |
| Table.Game.constructor | main.py:169-180 | the deck is the shuffled order; the dealer's hand is empty and valid; player i has name i, buy-in i and one empty, valid hand with no bet |
| Table.Game.AddPlayer | main.py:177-180 | one new player with one empty hand is appended; the earlier players stay |
| Table.Game.ResetTable | main.py:182-190 | new empty, valid hands for the dealer and every player, and a new shuffled deck; the banks are kept |
| Table.Game.ResetHands | main.py:187-188 | every player ends with one empty, valid hand with no bet |
| Table.Game.NewShuffledDeck | main.py:170-171 | a new deck in the given shuffled order |
| Table.Game.InitBets | main.py:225-233 | each player's accepted bet leaves the bank for the first hand's bet, and each bank ends at zero or above |
| Table.Game.PlaceBet | main.py:227-233 | one player's accepted bet moves from the bank to the first hand |
| Table.Game.InitHands | main.py:235-239 | with m players, player i's first hand gets the (i+1)-th and (i+m+2)-th cards from the end; the dealer gets the (m+1)-th and (2m+2)-th; so empty hands end with exactly two |
| Table.Game.DealtHandsDistinct | main.py:237 | the hands init_hands deals to are distinct objects |
| Table.Game.DealRounds | main.py:238-239 | two passes over distinct hands give hand t of m the (t+1)-th and (t+m+1)-th cards from the end |
| Table.Game.DealRound | main.py:238-239 | one pass gives hand t the (t+1)-th card from the end, and those cards leave the deck |
| Table.Game.DealTo | main.py:239 | the last card of the deck moves to the hand, which stays processed |
| Table.Game.DealerTurn | main.py:293-298 | the dealer takes the deck's cards from the end while the best total is in 1..16; at the end it is outside that range unless the deck ran out |
| Table.Game.CheckAndPayout | main.py:301-325 | every bank grows by the total payout of its player's hands; with no negative bets no bank goes down |
| Table.Game.PayHands | main.py:304-325 | a player's bank grows by the sum of its hands' payouts |
| Table.Game.PayHand | main.py:305-325 | the four independent checks add the hand's payout to the bank |
| Table.Game.PlayRound | main.py:241-273 | the players (hands and banks), the deck, the answers read, the status and the waiting seat and hand are exactly those of `RoundFrom` from the old players and deck, so its guarantees hold of the round; on `Complete` every hand of every player, split hands included, has been played; each bank plus bets is unchanged and hands stay processed; the frame leaves the dealer's hand alone |
| Table.Game.PlaySeats | main.py:243 | seat after seat, `SeatsFrom` holds up to the seat reached: the seats played so far are those of `RoundFrom`, and the rest of `RoundFrom` is still ahead while the status is `Complete`; `Complete` means every seat was reached |
| Table.Game.SeatsStart | main.py:243 | at the start of the round `SeatsFrom` holds with all of `RoundFrom` ahead |
| Table.Game.SeatsEnd | main.py:243-273 | once the loop over the seats stops, the players, the deck, the answers read, the status and the waiting seat are `RoundFrom`'s end, every worth is kept and, on `Complete`, every hand played |
| Table.Game.PlaySeat | main.py:243-273 | seat i is played as `SeatFrom` says, which carries `SeatsFrom` (the round so far equals `RoundFrom`) to seat i + 1; its frame is its own player's bank and hands and the deck |
| Table.Game.PlayOwnHands | main.py:244-273 | seat i's hands, bank and deck are those of `SeatFrom`, its worth is kept and, on `Complete`, its hands are played, while every other seat keeps its hands, bank and recorded worth |
| Table.Game.PlayHands | main.py:244-273 | the hands, the bank, the deck, the answers read, the status and the waiting hand are exactly those of `SeatFrom` from the old state; on `Complete` every hand, split hands included, is played, and otherwise the hands before the waiting one are; worth and processed hands are kept and the list only grows, by fresh hands |
| Table.Game.HandsDone | main.py:244 | once the loop over the hands stops, the hands, bank, deck, answers read and status are `SeatFrom`'s end, with every hand played on `Complete` and the hands before the waiting one played otherwise |
| Table.Game.PlayNextHand | main.py:244 | one pass of the loop over the hands carries `HandsSoFar` one hand further: hand j is played as `HandTurn` says, and the rest of `SeatFrom` follows; the list grows by at most one hand per answer read |
| Table.Game.PlayHand | main.py:244-273 | the hands, the bank, the deck, the answers read, the status and the waiting hand are exactly those of `HandTurn` from the old state; the hand is reached and, on `Complete`, played; worth and processed hands are kept; the list grows by at most one fresh hand per answer read |
| Table.Game.PlayHandTurn | main.py:245-273 | a hand not flagged blackjack is played to where `HandTurn` says, and on `Complete` it is played: bust, blackjack, stood on or doubled |
| Table.Game.PlayTurn | main.py:247-273 | the turn ends where `TurnFrom` of the old turn state does, with the same decisions, answers read, last prompt and status; the player's hands are the old ones with hand j updated and `SplitHands` of the decisions appended; the hand records a stand or double exactly when the last decision was one |
| Table.TurnAdvances | main.py:248-273 | one decision read from the answers moves a turn on as `Step` says, or leaves it where it stands when the answers or the cards run out; `TurnProgress` still holds, so the turn so far stays a prefix of `TurnFrom` |
| Table.Game.PlayNextDecision | main.py:248-273 | one pass of the decision loop carries `TurnSoFar` forward: the turn so far is a prefix of `TurnFrom`, which fixes the answer taken as the first offered one, and the split hands joined are `SplitHands` of the decisions; a pass that completes reads at least one answer |
| Table.Game.PlayDecision | main.py:250-273 | `d` is the first answer from position `from` offered to the hand; when the deck holds its cards it is carried out as `Step` says and `done` holds exactly when `Ends` says the turn is over; with no offered answer (`OutOfAnswers`) or too few cards (`DeckExhausted`) nothing changes; the decisions so far still form a turn `Run` accepts, and the hands appended are `SplitHands` of them |
| Table.Game.TakeDecision | main.py:251-270 | one decision moves the turn as `Step` says, and the split hands already appended stay, with one more hand as `SplitAdds` describes after a split |
| Table.Game.ApplyDecision | main.py:251-270 | the hand, bet, bank and deck become `Step` of the decision; a split appends the hand `SplitCards` describes, with the same bet; stand and double end the turn and are recorded on the hand; bank plus bets is unchanged |
| Table.Game.Hit | main.py:253-254 | the hand takes the deck's last card and the player's worth is kept |
| Table.Game.DoubleDown | main.py:255-260 | the bank pays the old bet, the bet doubles, the hand takes one card and records the double, and the bank stays at or above zero |
| Table.Game.RaiseStake | main.py:256-257 | the bank drops by the old bet and the bet doubles, so bank plus bets is unchanged |
| Table.Game.SplitHand | main.py:261-270 | a new hand with the popped card, the next card and the same bet joins the list; the hand gets the card after; the bank pays one bet |
| Table.Game.SplitOff | main.py:264-267 | the new hand holds the popped card and then the deck's last card; the old hand gets the next one |

## Left out

- Console input: the bet prompts become one answer list per player. The decision prompts become one stream of answers for the whole round. The number of players, names and buy-ins are constructor parameters. Text other than the four decision words is treated like an answer that is not offered.
- Running out of answers: where the console would wait for more input, `PlayRound` stops with status `OutOfAnswers`.
- Deck exhaustion: Python raises on `pop()` from an empty list.
  - `InitHands` and `DealCards` require enough cards.
  - `PlayRound` stops with status `DeckExhausted` before a decision that needs more cards than remain.
  - `DealerTurn` stops and reports `exhausted`.
  - `PopCard` requires a card, which a split always has.
- `random.shuffle`: the caller supplies the resulting order, a permutation of the 52 cards.
- Display: `print`, `print_table`, `__str__`, `__repr__`, `os.system("cls")`, the `art` logo and the `show_one_card` flag. None of them changes game state.
- The round sequence in `__call__` (main.py:211-223): the replay loop, `ask_to_stop`, and the test that skips `play_round` and `dealer_turn` when the dealer has blackjack (main.py:216-218). Each phase is a method of its own, and their composition is not modelled. Nothing in the model stops `PlayRound` or `DealerTurn` from being called on a dealer's blackjack.
- Money: the bank is a `real`, so the 2.5× payout is exact. Python's float rounding is not modelled. Bets stay integers, as in the source.
- `Table.Game.CheckAndPayout`: "no bank goes down" is stated only for players with no negative bet. `init_bets` accepts any bet the bank covers, including a negative one, and such a bet pays out negatively.
- `Table.Game.InitHands`: the loop over `all_hands * 2` is modelled as two passes over the list. They deal the same cards to the same hands in the same order.
- `Table.Game.ResetTable`: the source resets the dealer's hand, the players' hands and the deck in that order. The model resets the players' hands last. The three steps touch disjoint state.
- `Table.Game.PlayRound`: that a bank at zero or above stays there, that a waiting hand was offered none of the remaining answers, and that a deck exhaustion stopped at an answer the deck could not serve are not restated on the objects. They are proved of `RoundFrom`, `SeatFrom` and `HandTurn` (through `Stopped`), and `PlayRound` ensures it ends exactly where `RoundFrom` does.
- `Table.Game.PlayRound`: that the dealer's hand is unchanged is stated by the frame (`modifies` names the players, their hands and the deck, and the dealer's hand is not among them), not by an `ensures`.
- Proof bookkeeping with no counterpart in the source:
  - the ghost `seat` and `slot` tags on hands;
  - the ghost `reached` and `stoodOrDoubled` flags on hands, which record that `play_round` got to a hand and that its player stood or doubled on it;
  - the ghost `owned` set of `PlayRound`, and the waiting hand `pending` and `seat` it returns;
  - the decision sequences `trace` and prompt positions `asked` returned by the play methods;
  - the ghost values `cur` and `vals` that carry the players' hands and banks as `SeatVal` and `HandVal` values;
  - the `RoundStart`, `Seat`, `HandsStart` and `TurnStart` snapshots.
