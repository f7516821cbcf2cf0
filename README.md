# Blackjack hands and players

A model of the game logic of a command-line blackjack program: the `Hand`
(its cards, its wager, and whether it is surrendered or finished) and the
`Player` (its hands, balance and standing). The dealer is a `Player` too.
The `Player` routes every decision (hit, stand, surrender, split, double) to
its *playing hand*, the first hand not yet finished. It plays the dealer's
hand by the draw-below-17 rule and settles a round against the dealer's
value.

Layout:

- `cards.dfy` (module `Cards`): a card is seen only through its score.
  Scores run 2..11 and an Ace scores 11. The deck is an already shuffled,
  unbounded source of scores with a cursor that counts the cards dealt.
- `scoring.dfy` (module `Scoring`): the value of a hand as pure functions,
  with lemmas about it. Aces are demoted from 11 to 1, one at a time, while
  the total is over 21. This module also defines the hard total, bust and
  soft.
- `hands.dfy` (module `Hands`): `Hand` as a class whose fields the methods
  update in place. `HandState` is a hand's value at one moment. `Hand.Value`
  is the source's summing loop and demotion loop, proved against
  `Scoring.Valuate`. `Hand.DrawAsDealer` is the dealer's drawing loop.
- `players.dfy` (module `Players`): `Player` as a class holding a sequence of
  `Hand` objects. `Player.Hands()` is the abstract view as a sequence of
  `HandState`. Pure functions define the playing hand (`FirstUnset`), the
  per-hand result (`HandDelta`) and the round's net result (`Settlement`).
  The methods are proved against these functions.

Behaviour of the code that the model keeps as written:

- Surrender marks the hand surrendered and charges half the wager at once,
  but it does not finish the hand. The surrendered hand stays the playing
  hand (`Players.Player.Surrender` proves that `PlayingIndex()` is
  unchanged), and settlement charges its full wager again because the hand
  is lost.
- Half a wager is machine integer division, which rounds toward zero
  (`TruncHalf`). Wagers are any 32-bit integer, so negative wagers are
  modelled.
- A hand's value is not monotone under hit: an Ace and a nine are 20, and a
  five makes them 15 (`Scoring.HitCanLowerTotal`).
- A dealer that has bust reports 0. Against 0, every hand that is not lost
  wins, and every lost hand loses even though the dealer is bust.

## Model

| member | source | states |
|---|---|---|
| Scoring.Reduce | lib/player.rs:280-283 | the demotion loop takes 10 off per demoted Ace, keeps at most the Aces it started with, ends at 21 or less unless no high Ace is left, and demotes an Ace only when keeping it high would pass 21 |
| Scoring.Valuate | lib/player.rs:270-288 | a hand's value is its raw sum minus 10 per demoted Ace, the high Aces are among the hand's Aces, the value is over 21 only when no Ace is left high, and an Ace is demoted only when keeping it high would pass 21 |
| Scoring.TotalIsHardPlusHighAces | lib/player.rs:270-288 | the value is the hard total (every Ace as 1) plus 10 for each Ace still high, so it is never below the hard total |
| Scoring.HighAcesIsLargestSafe | lib/player.rs:280-283 | the demotion is optimal: any number of Aces that can count 11 without passing 21 is at most the number left high, and then the hand is not bust |
| Scoring.SoftIffAceCanCountHigh | lib/player.rs:290-292 | a hand is soft exactly when it holds an Ace and its hard total plus 10 is at most 21 |
| Scoring.BustIffHardOver | lib/player.rs:262-264 | a hand is bust exactly when its hard total is over 21 |
| Scoring.BustIsFinal | lib/player.rs:257-264 | a bust hand stays bust whatever card is added |
| Scoring.TwoCardsNeverBust | lib/player.rs:202-208 | no two-card hand is bust, so a newly dealt or split hand is never bust |
| Scoring.TwoAcesAndNine | lib/player.rs:270-288 | Ace, Ace, nine is 21 with exactly one Ace still high, and is soft |
| Scoring.HitCanLowerTotal | lib/player.rs:257-260 | hitting Ace-nine (20) with a five gives 15: the value is not monotone under hit |
| Hands.HandState.Lost | lib/player.rs:234-236 | a hand is lost exactly when it is surrendered or its hard total is over 21 (that is, it is bust) |
| Hands.DealerDrawStep | lib/player.rs:163-165 | a draw made below 17 keeps the rule that every card was drawn below 17, and strictly raises the hard total, which stays below 17 before the draw |
| Hands.Hand.constructor | lib/player.rs:202-208 | a new hand holds the next two cards of the deck in order, carries the wager, and is neither surrendered nor finished |
| Hands.Hand.SplitOff | lib/player.rs:243-245 | the hand split off holds the given cards and wager with both flags clear |
| Hands.Hand.Value | lib/player.rs:270-288 | the summing loop and the demotion loop return the hand's value, or with getAces the number of Aces still counted 11 |
| Hands.Hand.Set | lib/player.rs:222-224 | the hand is finished and nothing else about it changes |
| Hands.Hand.Surrender | lib/player.rs:230-232 | the hand is surrendered and nothing else about it changes; in particular it does not finish the hand |
| Hands.Hand.Hit | lib/player.rs:257-260 | the next card of the deck is appended, and the result is true exactly when the new value is over 21 |
| Hands.Hand.Split | lib/player.rs:238-249 | a split happens exactly on two cards of equal score; the second card goes to a fresh hand with the same wager; this hand then gets the next card and the new hand the one after; otherwise nothing changes |
| Hands.Hand.DoubleWager | lib/player.rs:251-255 | the wager doubles, the hand is finished, exactly one card is added, and the result reports bust |
| Hands.Hand.DrawAsDealer | lib/player.rs:162-165 | the cards drawn are the next cards of the deck in order, each drawn while the hand was below 17, and the hand ends at 17 or more |
| Players.TruncHalf | lib/player.rs:105 | half a wager rounded toward zero: the remainder is 0 or 1 for a non-negative wager and 0 or -1 for a negative one |
| Players.FirstUnset | lib/player.rs:78-94 | the playing hand is an unfinished hand, and every hand before it is finished |
| Players.HandDelta | lib/player.rs:188-194 | one hand's result against the dealer: a lost hand loses its wager whatever the dealer's value; otherwise a higher value wins the wager, a lower one loses it, and an equal one is a push |
| Players.SameFlagsSamePlayingHand | lib/player.rs:103-106 | the playing hand depends only on the finished flags, so marking a hand surrendered does not move it |
| Players.SettlementAppend | lib/player.rs:186-196 | the net result of a round is the sum of the results of its parts |
| Players.AllLostLosesEveryWager | lib/player.rs:108-115 | when every hand is lost (surrendered or bust), the round loses exactly the total wager, whatever the dealer's value |
| Players.SettlementBounded | lib/player.rs:186-196 | with non-negative wagers, a round never wins or loses more than the total wager |
| Players.DealerBustDelta | lib/player.rs:190-194 | against a bust dealer (value 0) a hand wins its wager unless it is lost, and then loses it; there is no push |
| Players.SettlementExamples | lib/player.rs:190-194 | 19 with wager 50 wins against 18, loses against 20 and pushes against 19; half of 41 and of 40 is 20 |
| Players.Player.IsPlaying | lib/player.rs:172-179 | true exactly when some hand is not finished |
| Players.Player.HasBusted | lib/player.rs:148-155 | true exactly when some hand is bust |
| Players.Player.HasLost | lib/player.rs:108-115 | true exactly when every hand is surrendered or over 21 with every Ace counted 1; true for no hands at all |
| Players.Player.HandIsSoft | lib/player.rs:157-159 | true exactly when the playing hand holds an Ace and its hard total plus 10 is at most 21 |
| Players.Player.FirstHandValue | lib/player.rs:96-101 | 0 exactly when some hand is bust, otherwise the first hand's value, which is at most 21 |
| Players.Player.constructor | lib/player.rs:39-43 | a new player has no hands, the given balance, and standing 0 |
| Players.Player.Win | lib/player.rs:45-48 | balance and standing both rise by the amount, and the hands are untouched |
| Players.Player.Lose | lib/player.rs:50-52 | balance and standing both fall by the amount, and the hands are untouched |
| Players.Player.PlayingHand | lib/player.rs:78-94 | the linear search returns the hand at the playing index |
| Players.Player.AddHand | lib/player.rs:122 | appending a hand adds its state at the end and keeps the hands distinct |
| Players.Player.Bet | lib/player.rs:121-123 | a new hand with the wager and the next two cards is appended; the other hands, balance and standing are unchanged |
| Players.Player.Hit | lib/player.rs:139-146 | only the playing hand changes: it gets the next card and is finished exactly when that card busts it; the result reports the bust |
| Players.Player.Stand | lib/player.rs:117-119 | only the playing hand changes, and it becomes finished |
| Players.Player.Surrender | lib/player.rs:103-106 | the playing hand becomes surrendered; balance and standing fall by half its wager, rounded toward zero; it stays the playing hand |
| Players.Player.Split | lib/player.rs:125-133 | the result is true exactly when the playing hand holds two equal scores; then that hand keeps its first card plus the next card, and a hand with its second card, the card after and the same wager is appended; otherwise nothing changes |
| Players.Player.Double | lib/player.rs:135-137 | only the playing hand changes: its wager doubles, it is finished, and it gets exactly one card; the result reports bust |
| Players.Player.PlayAsDealer | lib/player.rs:161-170 | the first hand draws the next cards of the deck, each while its value was below 17, and ends at 17 or more (so a hand already at 17 or more draws nothing); the other hands are untouched; the result is 0 exactly when some hand is bust, otherwise the first hand's value, between 17 and 21 |
| Players.Player.GameOver | lib/player.rs:181-198 | a dealer's hands are cleared with no money moved; a player's balance and standing both change by the round's net result over all hands, and the hands are cleared |

## Left out

- Cards and the deck: lib/card.rs is not part of this model. A card is
  reduced to its score; rank, suit, display and shuffling are left out.
- The deck is unbounded, so deck exhaustion is not modelled.
- Read-only accessors are read as fields and have no separate member:
  `hand_iter`, `get_hand_count`, `get_hand_at`, `get_name`, `get_balance`,
  `get_standing`, `card_iter`, `get_card_count`, `get_card_at`,
  `get_is_set` and `get_wager`.
- The panic when no hand is unfinished is a precondition: the decision
  methods require `IsPlaying()`. The panic on indexing an empty hand list
  is the precondition `|hands| > 0` on `FirstHandValue` and
  `PlayAsDealer`.
- `Player.Valid()` assumes what the source guarantees by construction:
  hands are owned, so never shared, and every hand holds at least its two
  dealt cards.
- `play_as_dealer`'s drawing loop is modelled in `Hands.Hand.DrawAsDealer`
  and called from `Players.Player.PlayAsDealer`. The loop touches only the
  first hand.
- `Players.Player.Surrender` charges half the wager of the hand it has just
  surrendered. The source looks the playing hand up a second time, and
  `SameFlagsSamePlayingHand` proves that lookup finds the same hand.
- The interactive game loop, input parsing and printing in src/main.rs are
  left out.
- Vector capacity hints are left out.
- Players.Player.Win: balance and standing are unbounded integers; 32-bit
  overflow is not modelled.
- Players.Player.GameOver: the per-round total and the balance are
  unbounded integers; 32-bit overflow is not modelled.
- Hands.Hand.DoubleWager: the doubled wager is an unbounded integer; 32-bit
  overflow is not modelled.
- Hands.Hand.Value: the total is an unbounded natural number. A hand is far
  too short for the 32-bit total to overflow.
