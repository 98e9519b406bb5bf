/**
 * The loops of play_round over a player's hands and over the players
 * (main.py:241-273), on values: every turn reads the one answer stream from
 * where the previous turn stopped.
 */
module Rounds {
  import opened Cards
  import opened Rules
  import opened Turns

  /** The hand left waiting for an answer, and where its last prompt began. */
  datatype Pending = Pending(hand: nat, asked: nat)

  /**
   * Where the play of one player's hands stopped: the hands, the bank, the
   * deck, the position after the answers read, why it stopped, and the hand
   * left waiting.
   */
  datatype SeatEnd = SeatEnd(hands: seq<HandVal>, bank: real, deck: seq<Card>, read: nat,
                             status: RoundStatus, pending: Pending)

  /** No answer from position asked on is offered to hand with the given bank. */
  predicate Waiting(hand: HandVal, bank: real, answers: seq<Decision>, asked: nat)
  {
    asked <= |answers| && forall q :: asked <= q < |answers| ==> answers[q] !in OfferedDecisions(bank, hand.bet, hand.cards)
  }

  /**
   * Why play stopped, when it did not complete: out of answers, the hand
   * left waiting was offered none of them since its last prompt began; out
   * of cards, the last answer read is a decision the deck cannot serve.
   */
  predicate Stopped(e: SeatEnd, answers: seq<Decision>, from: nat)
  {
    && (e.status == OutOfAnswers ==>
          && e.read == |answers| && e.pending.hand < |e.hands|
          && Waiting(e.hands[e.pending.hand], e.bank, answers, e.pending.asked))
    && (e.status == DeckExhausted ==> from < e.read <= |answers| && |e.deck| < CardsNeeded(answers[e.read - 1]))
  }

  /** The turn state of hand j of a player with the given bank, over the given deck. */
  function TurnOfHand(hands: seq<HandVal>, j: nat, bank: real, deck: seq<Card>): TurnState
    requires j < |hands|
  {
    TurnState(hands[j].cards, hands[j].blackjack, hands[j].bet, bank, deck)
  }

  /**
   * One pass of the loop over a player's hands (main.py:244-273) for hand j:
   * a hand flagged blackjack is passed over without reading an answer;
   * otherwise its turn is played from position from on, the hand takes the
   * cards, flag and bet the turn leaves it, the bank and the deck follow
   * the turn, and the hands its splits start join the end of the list.
   */
  function HandTurn(hands: seq<HandVal>, j: nat, bank: real, deck: seq<Card>,
                    answers: seq<Decision>, from: nat): (e: SeatEnd)
    requires j < |hands| && from <= |answers|
    ensures from <= e.read <= |answers| && |hands| <= |e.hands|
    ensures e.status == Complete && e.read == from ==> |e.hands| == |hands|
    ensures e.deck <= deck && (bank >= 0.0 ==> e.bank >= 0.0)
    ensures e.status != Complete ==> e.pending.hand == j
    ensures Stopped(e, answers, from)
  {
    if hands[j].blackjack then SeatEnd(hands, bank, deck, from, Complete, Pending(j, from))
    else
      var s := TurnOfHand(hands, j, bank, deck);
      var t := TurnFrom(s, answers, from);
      TurnEndFacts(s, answers, from, t.last, t.trace, t.read, t.asked, t.status);
      SeatEnd(hands[j := HandVal(t.last.cards, t.last.blackjack, t.last.bet)] + SplitHands(s, t.trace),
              t.last.bank, t.last.deck, t.read, t.status, Pending(j, t.asked))
  }

  /** The pass of HandTurn over a hand that is not flagged blackjack, given where its turn stops. */
  lemma HandTurnPlays(hands: seq<HandVal>, j: nat, bank: real, deck: seq<Card>, answers: seq<Decision>, from: nat,
                      t: TurnState, trace: seq<Decision>, read: nat, asked: nat, status: RoundStatus)
    requires j < |hands| && from <= |answers| && !hands[j].blackjack
    requires TurnFrom(TurnOfHand(hands, j, bank, deck), answers, from) == TurnEnd(t, trace, read, asked, status)
    ensures HandTurn(hands, j, bank, deck, answers, from)
            == SeatEnd(hands[j := HandVal(t.cards, t.blackjack, t.bet)] + SplitHands(TurnOfHand(hands, j, bank, deck), trace),
                       t.bank, t.deck, read, status, Pending(j, asked))
  {
  }

  /**
   * The loop over a player's hands from hand j on (main.py:244), which also
   * reaches the hands that splits append while it runs: hand after hand takes
   * its turn, each reading the answers from where the one before stopped,
   * until the list is done or a turn stops for want of answers or cards.
   */
  function SeatFrom(hands: seq<HandVal>, j: nat, bank: real, deck: seq<Card>,
                    answers: seq<Decision>, from: nat): (e: SeatEnd)
    requires from <= |answers|
    ensures from <= e.read <= |answers| && |hands| <= |e.hands|
    ensures e.deck <= deck && (bank >= 0.0 ==> e.bank >= 0.0)
    ensures Stopped(e, answers, from)
    decreases |answers| - from, |hands| - j
  {
    if j >= |hands| then SeatEnd(hands, bank, deck, from, Complete, Pending(0, 0))
    else
      var e := HandTurn(hands, j, bank, deck, answers, from);
      if e.status != Complete then e
      else SeatFrom(e.hands, j + 1, e.bank, e.deck, answers, e.read)
  }

  /** A player as play_round reads it: the hands and the bank. */
  datatype SeatVal = SeatVal(hands: seq<HandVal>, bank: real)

  /**
   * Where the round stopped: the players, the deck, the position after the
   * answers read, why it stopped, and the seat and hand left waiting.
   */
  datatype RoundEnd = RoundEnd(seats: seq<SeatVal>, deck: seq<Card>, read: nat, status: RoundStatus,
                               seat: nat, pending: Pending)

  /** The seat where the round stopped, with the deck and the answers as they were left. */
  function SeatAt(e: RoundEnd): SeatEnd
    requires e.seat < |e.seats|
  {
    SeatEnd(e.seats[e.seat].hands, e.seats[e.seat].bank, e.deck, e.read, e.status, e.pending)
  }

  /**
   * The loop of play_round over the players from seat i on (main.py:243):
   * each plays its hands, reading the answers from where the seat before
   * stopped, until every seat is done or one stops for want of answers or
   * cards.
   */
  function RoundFrom(seats: seq<SeatVal>, i: nat, deck: seq<Card>, answers: seq<Decision>, from: nat): (e: RoundEnd)
    requires from <= |answers|
    ensures from <= e.read <= |answers| && |e.seats| == |seats| && e.deck <= deck
    ensures forall k :: 0 <= k < |seats| && seats[k].bank >= 0.0 ==> e.seats[k].bank >= 0.0
    ensures e.status != Complete ==> e.seat < |seats| && Stopped(SeatAt(e), answers, from)
    decreases |seats| - i
  {
    if i >= |seats| then RoundEnd(seats, deck, from, Complete, 0, Pending(0, 0))
    else
      var e := SeatFrom(seats[i].hands, 0, seats[i].bank, deck, answers, from);
      var seats' := seats[i := SeatVal(e.hands, e.bank)];
      if e.status != Complete then RoundEnd(seats', e.deck, e.read, e.status, i, e.pending)
      else RoundFrom(seats', i + 1, e.deck, answers, e.read)
  }
}
