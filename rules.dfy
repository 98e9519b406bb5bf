/**
 * Table rules that read no object: the decisions offered to a hand
 * (ask_player_decision, main.py:275-291), the bet prompt of init_bets
 * (main.py:228-231) and the payout of one hand (check_and_payout,
 * main.py:305-325).
 */
module Rules {
  import opened Cards
  import opened Valuation

  datatype Option<T> = None | Some(value: T)

  /** The four answers ask_player_decision accepts (main.py:279-283). */
  datatype Decision = Hit | Stand | Double | Split

  /** The test of has_enough_money (main.py:153-154): the bank covers the bet. */
  predicate Covers(bank: real, bet: int)
  {
    bank >= bet as real
  }

  /**
   * The decisions offered to a hand (main.py:279-283): hit and stand always;
   * double when the player can cover the hand's bet again and the hand has
   * two cards; split when, in addition, both cards have the same rank.
   */
  function OfferedDecisions(bank: real, bet: int, cards: seq<Card>): (r: set<Decision>)
    ensures Hit in r && Stand in r
    ensures Double in r <==> bank >= bet as real && |cards| == 2
    ensures Split in r <==> bank >= bet as real && |cards| == 2 && cards[0].rank == cards[1].rank
  {
    var always := {Hit, Stand};
    if Covers(bank, bet) && |cards| == 2 then
      if cards[0].rank == cards[1].rank then always + {Double, Split} else always + {Double}
    else always
  }

  /** How many cards carrying out a decision deals from the deck (main.py:251-270). */
  function CardsNeeded(d: Decision): nat
  {
    match d
    case Stand => 0
    case Hit => 1
    case Double => 1
    case Split => 2
  }

  /** Decisions after which the hand takes no further decision (main.py:250-260). */
  predicate EndsTurn(d: Decision)
  {
    d == Stand || d == Double
  }

  /** No answer at a position from lo up to hi (exclusive) is a stand. */
  predicate NoStandIn(answers: seq<Decision>, lo: int, hi: int)
  {
    forall t :: lo <= t < hi && 0 <= t < |answers| ==> answers[t] != Stand
  }

  lemma NoStandJoin(answers: seq<Decision>, lo: int, mid: int, hi: int)
    requires NoStandIn(answers, lo, mid) && NoStandIn(answers, mid, hi)
    ensures NoStandIn(answers, lo, hi)
  {
  }

  /** Paying one more bet for a double or a split never takes the bank below zero. */
  lemma OfferedStakeIsCovered(bank: real, bet: int, cards: seq<Card>, d: Decision)
    requires d in OfferedDecisions(bank, bet, cards) && d in {Double, Split}
    ensures bank - bet as real >= 0.0
    ensures |cards| == 2 && 0 < BestTotal(cards)
  {
    TwoCardsNeverBust(cards);
  }

  /**
   * d is the first answer from position from on that is in offered, and
   * read is the position after it; or d is None, read is the end of the
   * answers, and no answer from position from on is in offered.
   */
  predicate FirstOffered(offered: set<Decision>, answers: seq<Decision>, from: nat, d: Option<Decision>, read: nat)
  {
    && from <= read <= |answers|
    && (d.None? ==> read == |answers| && forall t :: from <= t < |answers| ==> answers[t] !in offered)
    && (d.Some? ==>
          && from < read && d.value == answers[read - 1] && d.value in offered
          && forall t :: from <= t < read - 1 ==> answers[t] !in offered)
  }

  /** What a decision prompt settles on: the answer taken, if any, and the position after the answers read. */
  datatype Reply = Reply(answer: Option<Decision>, read: nat)

  /**
   * The answer the decision prompt takes when it starts at position from
   * (main.py:287-290), as a function: answers that are not offered are
   * skipped, and the answers may run out first.
   */
  function NextOffered(offered: set<Decision>, answers: seq<Decision>, from: nat): (r: Reply)
    requires from <= |answers|
    ensures FirstOffered(offered, answers, from, r.answer, r.read)
    decreases |answers| - from
  {
    if from == |answers| then Reply(None, from)
    else if answers[from] in offered then Reply(Some(answers[from]), from + 1)
    else NextOffered(offered, answers, from + 1)
  }

  /** The prompt settles on one answer only: whatever meets FirstOffered is what NextOffered returns. */
  lemma FirstOfferedIsNext(offered: set<Decision>, answers: seq<Decision>, from: nat, d: Option<Decision>, read: nat)
    requires FirstOffered(offered, answers, from, d, read)
    ensures NextOffered(offered, answers, from) == Reply(d, read)
  {
  }

  /**
   * The prompt loop of ask_player_decision (main.py:287-290): read answers,
   * starting at position from of the answer stream, until one is offered.
   * Unrecognised text is like an answer that is not offered. Returns the
   * answer and the position after it; None when the answers run out first
   * (the console would wait for more).
   */
  method AskPlayerDecision(offered: set<Decision>, answers: seq<Decision>, from: nat)
    returns (d: Option<Decision>, read: nat)
    requires from <= |answers|
    ensures FirstOffered(offered, answers, from, d, read)
  {
    d := None;
    read := from;
    while d.None? || d.value !in offered
      invariant from <= read <= |answers|
      invariant d.Some? ==> from < read && d.value == answers[read - 1]
      invariant forall t :: from <= t < read - 1 ==> answers[t] !in offered
      invariant d.None? ==> read == from
      decreases |answers| - read, d.None?
    {
      if read == |answers| {
        if d.Some? {
          d := None;
        }
        return;
      }
      d := Some(answers[read]);
      read := read + 1;
    }
  }

  /** The "really high number" init_bets tries before asking (main.py:228-229). */
  const Probe: int := 10_000_000_000

  /** Some answer is covered by the bank. */
  predicate SomeAffordable(bank: real, answers: seq<int>)
  {
    exists t :: 0 <= t < |answers| && answers[t] as real <= bank
  }

  /** Some answer to the bet prompt is affordable, or no prompt is needed. */
  predicate BetAvailable(bank: real, answers: seq<int>)
  {
    bank >= Probe as real || SomeAffordable(bank, answers)
  }

  /** The first answer the bank covers. */
  function FirstAffordable(bank: real, answers: seq<int>): int
    requires SomeAffordable(bank, answers)
  {
    if answers[0] as real <= bank then answers[0]
    else
      assert SomeAffordable(bank, answers[1..]) by {
        var t :| 0 <= t < |answers| && answers[t] as real <= bank;
        assert answers[1..][t - 1] == answers[t];
      }
      FirstAffordable(bank, answers[1..])
  }

  /**
   * The bet init_bets settles on (main.py:229-231): the probe itself when the
   * bank covers it, otherwise the first answer the bank covers.
   */
  function AcceptedBet(bank: real, answers: seq<int>): int
    requires BetAvailable(bank, answers)
  {
    if bank >= Probe as real then Probe else FirstAffordable(bank, answers)
  }

  /**
   * The accepted bet is covered by the bank. Without a prompt it is the
   * probe; with one it is an answer, every earlier answer being one the bank
   * did not cover. Nothing stops it being negative.
   */
  lemma {:induction false} AcceptedBetCovered(bank: real, answers: seq<int>)
    requires BetAvailable(bank, answers)
    ensures AcceptedBet(bank, answers) as real <= bank
    ensures bank >= Probe as real ==> AcceptedBet(bank, answers) == Probe
    ensures bank < Probe as real ==>
              exists t :: 0 <= t < |answers| && answers[t] == AcceptedBet(bank, answers)
                          && forall u :: 0 <= u < t ==> answers[u] as real > bank
  {
    if bank < Probe as real {
      FirstAffordableIsFirst(bank, answers);
    }
  }

  lemma {:induction false} FirstAffordableIsFirst(bank: real, answers: seq<int>)
    requires SomeAffordable(bank, answers)
    ensures FirstAffordable(bank, answers) as real <= bank
    ensures exists t :: 0 <= t < |answers| && answers[t] == FirstAffordable(bank, answers)
                        && forall u :: 0 <= u < t ==> answers[u] as real > bank
  {
    if answers[0] as real > bank {
      var rest := answers[1..];
      assert SomeAffordable(bank, rest) by {
        var t :| 0 <= t < |answers| && answers[t] as real <= bank;
        assert rest[t - 1] == answers[t];
      }
      FirstAffordableIsFirst(bank, rest);
      var t :| 0 <= t < |rest| && rest[t] == FirstAffordable(bank, rest)
               && forall u :: 0 <= u < t ==> rest[u] as real > bank;
      assert answers[t + 1] == rest[t];
      forall u | 0 <= u < t + 1 ensures answers[u] as real > bank {
        if u > 0 {
          assert answers[u] == rest[u - 1];
        }
      }
    }
  }

  /**
   * The bet loop of init_bets (main.py:228-231): start from the probe and
   * read answers until the bank covers the bet. Returns the bet and how many
   * answers were read.
   */
  method AskBet(bank: real, answers: seq<int>) returns (bet: int, read: nat)
    requires BetAvailable(bank, answers)
    ensures bet == AcceptedBet(bank, answers)
    ensures read <= |answers|
    ensures read == 0 <==> bank >= Probe as real
    ensures read > 0 ==> bet == answers[read - 1]
  {
    bet := Probe;
    read := 0;
    while !(bank >= bet as real)
      invariant read <= |answers|
      invariant read == 0 ==> bet == Probe
      invariant read > 0 ==> bet == answers[read - 1] && bank < Probe as real
      invariant bank < Probe as real ==>
                  (read < |answers| && SomeAffordable(bank, answers[read..]))
                  || (read > 0 && bet as real <= bank)
      invariant bank < Probe as real && read > 0 && bet as real > bank ==>
                  FirstAffordable(bank, answers) == FirstAffordable(bank, answers[read..])
      invariant read > 0 && bet as real <= bank ==>
                  FirstAffordable(bank, answers) == answers[read - 1]
      decreases |answers| - read
    {
      FirstAffordableStep(bank, answers, read);
      bet := answers[read];
      read := read + 1;
    }
  }

  /** Skipping an answer the bank does not cover leaves the first affordable one in place. */
  lemma FirstAffordableStep(bank: real, answers: seq<int>, read: nat)
    requires read < |answers|
    requires SomeAffordable(bank, answers[read..])
    ensures answers[read] as real > bank ==> SomeAffordable(bank, answers[read + 1..])
    ensures answers[read] as real > bank ==>
              FirstAffordable(bank, answers[read..]) == FirstAffordable(bank, answers[read + 1..])
    ensures answers[read] as real <= bank ==> FirstAffordable(bank, answers[read..]) == answers[read]
  {
    var t :| 0 <= t < |answers[read..]| && answers[read..][t] as real <= bank;
    if answers[read] as real > bank {
      assert answers[read + 1..][t - 1] == answers[read..][t];
      assert answers[read..][1..] == answers[read + 1..];
    }
  }

  /**
   * What one hand adds to its player's bank at payout (main.py:305-325). The
   * four checks are separate `if`s, so every one that holds pays: a push
   * pays the bet back, a dealer bust pays twice the bet, a better total
   * pays twice the bet, and a hand flagged blackjack pays two and a half
   * times the bet. A bust hand is skipped.
   */
  function Payout(handBust: bool, handBest: int, handBlackjack: bool, bet: int,
                  dealerBest: int, dealerBust: bool): (r: real)
    ensures handBust ==> r == 0.0
    ensures bet >= 0 ==> r >= 0.0
  {
    if handBust then 0.0
    else
      var b := bet as real;
      (if dealerBest == handBest then b else 0.0)
      + (if dealerBust then b * 2.0 else 0.0)
      + (if dealerBest < handBest then b * 2.0 else 0.0)
      + (if handBlackjack then b * 2.5 else 0.0)
  }

  /**
   * The payout of a non-bust hand by outcome, with the cases stacking as
   * written: a dealer bust also counts as the hand beating the dealer's best
   * total of 0, so it pays four times the bet; a blackjack flag adds two and
   * a half times the bet on top of whichever case holds.
   */
  lemma PayoutByOutcome(hand: seq<Card>, blackjack: bool, bet: int, dealer: seq<Card>)
    requires hand != [] && !AllBust(Values(hand)) && dealer != []
    ensures var h, d, dealerBust := BestTotal(hand), BestTotal(dealer), AllBust(Values(dealer));
            var p, b := Payout(false, h, blackjack, bet, d, dealerBust), bet as real;
            var extra := if blackjack then 2.5 * b else 0.0;
            && (dealerBust ==> p == 4.0 * b + extra)
            && (!dealerBust && h == d ==> p == b + extra)
            && (!dealerBust && h > d ==> p == 2.0 * b + extra)
            && (!dealerBust && h < d ==> p == extra)
  {
    BestTotalRange(hand);
    BestTotalRange(dealer);
  }

  /**
   * dealer_turn's loop condition (main.py:297) read at its exit: a dealer
   * holding cards who no longer draws is bust or has a best total of 17 to
   * 21, soft totals included.
   */
  lemma DealerStops(cards: seq<Card>)
    requires cards != [] && !(0 < BestTotal(cards) < 17)
    ensures AllBust(Values(cards)) || 17 <= BestTotal(cards) <= 21
    ensures AllBust(Values(cards)) <==> BestTotal(cards) == 0
  {
    BestTotalRange(cards);
  }
}
