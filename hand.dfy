/** One hand at the table, updated in place as cards arrive (main.py:54-126). */
module Hands {
  import opened Cards
  import opened Valuation

  class Hand {
    var cards: seq<Card>
    var values: seq<int>
    var maxNonBustValue: int
    var isBlackjack: bool
    var isBust: bool
    var bet: int
    /**
     * Where the hand sits at the table: its player's seat (-1 for the
     * dealer) and its position in that player's list. Proof bookkeeping.
     */
    ghost const seat: int
    ghost const slot: int
    /**
     * Whether play_round has reached the hand, and whether its player stood
     * or doubled on it. Proof bookkeeping.
     */
    ghost var reached: bool
    ghost var stoodOrDoubled: bool

    /**
     * The derived fields agree with the cards, as process_hand leaves them
     * (main.py:93-100). isBlackjack is tied to the cards only on two cards:
     * on any other count it keeps whatever it last held.
     */
    ghost predicate Valid()
      reads this`cards, this`values, this`maxNonBustValue, this`isBust, this`isBlackjack
    {
      && values == Values(cards)
      && maxNonBustValue == MaxNonBust(values)
      && isBust == AllBust(values)
      && (|cards| == 2 ==> isBlackjack == (21 in values))
    }

    /**
     * play_round is done with the hand (main.py:245-273): it has reached the
     * hand, which is bust, flagged blackjack, or was stood or doubled on.
     */
    ghost predicate Played()
      reads this`reached, this`stoodOrDoubled, this`isBust, this`isBlackjack
    {
      reached && (isBust || isBlackjack || stoodOrDoubled)
    }

    /**
     * Hand(cards, bet=...) with the dataclass defaults: is_blackjack starts
     * False and __post_init__ processes the hand (main.py:68-82).
     */
    constructor (initial: seq<Card>, stake: int, ghost seat: int, ghost slot: int)
      ensures Valid()
      ensures cards == initial && bet == stake
      ensures isBlackjack == (|initial| == 2 && 21 in Values(initial))
      ensures this.seat == seat && this.slot == slot
    {
      this.seat := seat;
      this.slot := slot;
      reached, stoodOrDoubled := false, false;
      cards := initial;
      values := [];
      maxNonBustValue := 0;
      isBlackjack := false;
      isBust := false;
      bet := stake;
      new;
      ProcessHand();
    }

    /** add_bet (main.py:84-87). */
    method AddBet(value: int)
      modifies this`bet
      ensures bet == old(bet) + value
    {
      bet := bet + value;
    }

    /** add_cards: extend, then re-process (main.py:89-91). */
    method AddCards(more: seq<Card>)
      modifies this`cards, this`values, this`maxNonBustValue, this`isBust, this`isBlackjack
      ensures Valid()
      ensures cards == old(cards) + more
      ensures |cards| != 2 ==> isBlackjack == old(isBlackjack)
    {
      cards := cards + more;
      ProcessHand();
    }

    /**
     * process_hand (main.py:93-100): recompute the values, then the bust
     * flag; the blackjack flag only when the hand holds exactly two cards.
     */
    method ProcessHand()
      modifies this`values, this`maxNonBustValue, this`isBust, this`isBlackjack
      ensures Valid()
      ensures |cards| != 2 ==> isBlackjack == old(isBlackjack)
    {
      ComputeCardValues();
      isBust := AllBust(values);
      if |cards| == 2 {
        isBlackjack := 21 in values;
      }
    }

    /** compute_card_values (main.py:102-123): values and max_non_bust_value. */
    method ComputeCardValues()
      modifies this`values, this`maxNonBustValue
      ensures values == Values(cards)
      ensures maxNonBustValue == MaxNonBust(values)
    {
      values := Values(cards);
      maxNonBustValue := MaxNonBust(values);
    }

    /**
     * pop_card (main.py:125-126): removes and returns the last card. The
     * derived fields are not recomputed, so they describe the old cards until
     * the next add_cards.
     */
    method PopCard() returns (c: Card)
      requires cards != []
      modifies this`cards
      ensures c == old(cards)[|old(cards)| - 1]
      ensures cards == old(cards)[..|old(cards)| - 1]
    {
      c := cards[|cards| - 1];
      cards := cards[..|cards| - 1];
    }
  }
}
