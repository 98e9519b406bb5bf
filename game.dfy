/**
 * Players and the rounds of the table (Player and Game, main.py:138-325),
 * with the console answers supplied as sequences.
 */
module Table {
  import opened Cards
  import opened Valuation
  import opened Hands
  import opened Rules
  import opened Turns
  import opened Rounds

  /** Being a prefix is transitive. */
  lemma PrefixTrans<T>(a: seq<T>, b: seq<T>, c: seq<T>)
    requires a <= b && b <= c
    ensures a <= c
  {
  }

  /** The money a player has on the table: the sum of the bets on its hands. */
  ghost function TotalBets(hs: seq<Hand>): int
    reads hs`bet
  {
    if hs == [] then 0 else TotalBets(hs[..|hs| - 1]) + hs[|hs| - 1].bet
  }

  /** A hand joining the list adds its bet to the total. */
  lemma TotalBetsAppend(hs: seq<Hand>, x: Hand)
    ensures TotalBets(hs + [x]) == TotalBets(hs) + x.bet
  {
  }

  /** With no bet changed, the total is the same. */
  twostate lemma {:induction false} TotalBetsUnchanged(hs: seq<Hand>)
    requires forall k :: 0 <= k < |hs| ==> hs[k].bet == old(hs[k].bet)
    ensures TotalBets(hs) == old(TotalBets(hs))
  {
    if hs != [] {
      TotalBetsUnchanged(hs[..|hs| - 1]);
    }
  }

  /** The total splits around any one hand. */
  lemma {:induction false} TotalBetsSplit(hs: seq<Hand>, j: nat)
    requires j < |hs|
    ensures TotalBets(hs) == TotalBets(hs[..j]) + hs[j].bet + TotalBets(hs[j + 1..])
  {
    var n := |hs|;
    if j < n - 1 {
      TotalBetsSplit(hs[..n - 1], j);
      assert hs[..n - 1][..j] == hs[..j];
      assert hs[j + 1..][..n - j - 2] == hs[..n - 1][j + 1..];
    } else {
      assert hs[j + 1..] == [];
    }
  }

  /** What check_and_payout adds to a bank for a list of hands (main.py:304-325). */
  ghost function TotalPayout(hs: seq<Hand>, dealerBest: int, dealerBust: bool): real
    reads hs`isBust, hs`maxNonBustValue, hs`isBlackjack, hs`bet
  {
    if hs == [] then 0.0
    else
      var h := hs[|hs| - 1];
      TotalPayout(hs[..|hs| - 1], dealerBest, dealerBust)
      + Payout(h.isBust, h.maxNonBustValue, h.isBlackjack, h.bet, dealerBest, dealerBust)
  }

  /**
   * The cards of hand t of m after init_hands when it held C and the deck
   * was D: the (t+1)-th card from the end comes on the first pass, the
   * (t+m+1)-th on the second.
   */
  function WithDealtPair(C: seq<Card>, D: seq<Card>, m: nat, t: nat): (r: seq<Card>)
    requires t < m && 2 * m <= |D|
    ensures |r| == |C| + 2
  {
    C + [D[|D| - 1 - t]] + [D[|D| - 1 - m - t]]
  }

  /** h agrees with its cards, which are the cards before followed by c. */
  ghost predicate DealtOnto(h: Hand, before: seq<Card>, c: Card)
    reads h`cards, h`values, h`maxNonBustValue, h`isBust, h`isBlackjack
  {
    h.Valid() && h.cards == before + [c]
  }

  /** No hand carries a negative bet. */
  predicate NoNegativeBet(hs: seq<Hand>)
    reads hs`bet
  {
    forall j :: 0 <= j < |hs| ==> hs[j].bet >= 0
  }

  /** With no negative bet among the hands, payout never takes money away. */
  lemma {:induction false} TotalPayoutNonNegative(hs: seq<Hand>, dealerBest: int, dealerBust: bool)
    requires NoNegativeBet(hs)
    ensures TotalPayout(hs, dealerBest, dealerBust) >= 0.0
  {
    if hs != [] {
      TotalPayoutNonNegative(hs[..|hs| - 1], dealerBest, dealerBust);
    }
  }

  /** A seat at the table (main.py:138-154). */
  class Player {
    const name: string
    var bank: real
    var hands: seq<Hand>
    /** The player's place at the table, which each of its hands carries. */
    ghost const seat: int

    /** The list of hands is never empty, and each hand knows its place in it. */
    ghost predicate Valid()
      reads this`hands
    {
      && |hands| >= 1
      && forall j :: 0 <= j < |hands| ==> hands[j].seat == seat && hands[j].slot == j
    }

    /** Every hand's derived fields agree with its cards. */
    ghost predicate HandsValid()
      reads this`hands
      reads hands`cards, hands`values, hands`maxNonBustValue, hands`isBust, hands`isBlackjack
    {
      forall j :: 0 <= j < |hands| ==> hands[j].Valid()
    }

    /** Player(name, bank) with the default single empty hand (main.py:145-148). */
    constructor (name: string, bank: real, ghost seat: int)
      ensures Valid() && HandsValid() && fresh(hands[0])
      ensures this.name == name && this.bank == bank && this.seat == seat
      ensures |hands| == 1 && hands[0].cards == [] && hands[0].bet == 0
    {
      this.name := name;
      this.bank := bank;
      this.seat := seat;
      var h := new Hand([], 0, seat, 0);
      hands := [h];
    }

    /** reset_hand: one new empty hand (main.py:150-151). */
    method ResetHand()
      modifies this`hands
      ensures Valid() && Cleared() && fresh(hands[0])
    {
      var h := new Hand([], 0, seat, 0);
      hands := [h];
    }

    /** The bank together with the bets standing on the hands. */
    ghost function Worth(): real
      reads this`bank, this`hands, hands`bet
    {
      bank + TotalBets(hands) as real
    }

    /**
     * The seat still has the worth recorded in s, its
     * hands agree with their cards and all carry the seat's tag, and, when
     * played is set, every hand has been played.
     */
    ghost predicate Holds(s: Seat, played: bool)
      reads this`bank, this`hands, hands`bet, hands`cards, hands`values
      reads hands`maxNonBustValue, hands`isBust, hands`isBlackjack, hands`reached, hands`stoodOrDoubled
    {
      && Valid() && HandsValid() && (forall x :: x in hands ==> x.seat == seat)
      && Worth() == s.worth
      && (played ==> AllPlayed())
    }

    /** The bank is bank0 plus what the hands win against the dealer's best total and bust flag. */
    ghost predicate PaidFrom(bank0: real, dealerBest: int, dealerBust: bool)
      reads this`bank, this`hands, hands`isBust, hands`maxNonBustValue, hands`isBlackjack, hands`bet
    {
      bank == bank0 + TotalPayout(hands, dealerBest, dealerBust)
    }

    /** The bank is b and the only hand is empty, processed and carries no bet, as at a new seat. */
    ghost predicate Opened(b: real)
      reads this`bank, this`hands, hands`cards, hands`bet
      reads hands`values, hands`maxNonBustValue, hands`isBust, hands`isBlackjack
    {
      bank == b && Cleared()
    }

    /** The only hand is empty, processed and carries no bet, as after reset_table. */
    ghost predicate Cleared()
      reads this`hands, hands`cards, hands`bet
      reads hands`values, hands`maxNonBustValue, hands`isBust, hands`isBlackjack
    {
      |hands| == 1 && hands[0].cards == [] && hands[0].bet == 0 && HandsValid()
    }

    /** The hands hold, in order, what vals lists. */
    ghost predicate HandsAre(vals: seq<HandVal>)
      reads this`hands, hands`cards, hands`isBlackjack, hands`bet
    {
      |hands| == |vals| && forall k :: 0 <= k < |vals| ==> HandIs(hands[k], vals[k])
    }

    /** The player holds the hands and the bank of v. */
    ghost predicate Is(v: SeatVal)
      reads this`bank, this`hands, hands`cards, hands`isBlackjack, hands`bet
    {
      bank == v.bank && HandsAre(v.hands)
    }

    /** Every hand of the player has been played (main.py:244-273). */
    ghost predicate AllPlayed()
      reads this`hands, hands`reached, hands`stoodOrDoubled, hands`isBust, hands`isBlackjack
    {
      forall j :: 0 <= j < |hands| ==> hands[j].Played()
    }
  }

  /** The list comprehension of init_hands (main.py:237): every player's first hand. */
  function FirstHandsOf(ps: seq<Player>): (r: seq<Hand>)
    reads ps`hands
    requires forall i :: 0 <= i < |ps| ==> |ps[i].hands| >= 1
    ensures |r| == |ps| && forall i :: 0 <= i < |ps| ==> r[i] == ps[i].hands[0]
  {
    if ps == [] then [] else FirstHandsOf(ps[..|ps| - 1]) + [ps[|ps| - 1].hands[0]]
  }

  /** h holds the cards, the blackjack flag and the bet of v. */
  ghost predicate HandIs(h: Hand, v: HandVal)
    reads h`cards, h`isBlackjack, h`bet
  {
    h.cards == v.cards && h.isBlackjack == v.blackjack && h.bet == v.bet
  }

  /** p's hands are the hands before followed by hands that hold, in order, what extra lists. */
  ghost predicate Appended(p: Player, before: seq<Hand>, extra: seq<HandVal>)
    reads p`hands, p.hands`cards, p.hands`isBlackjack, p.hands`bet
  {
    && |p.hands| == |before| + |extra| && before <= p.hands
    && forall k :: 0 <= k < |extra| ==> HandIs(p.hands[|before| + k], extra[k])
  }

  /**
   * p's hands are the hands before, plus, after a split, one more hand that
   * starts with the split cards of s and carries the bet of s.
   */
  ghost predicate Joined(p: Player, before: seq<Hand>, d: Decision, s: TurnState)
    reads p`hands, p.hands`cards, p.hands`isBlackjack, p.hands`bet
  {
    if d == Split then
      && |p.hands| == |before| + 1 && before <= p.hands
      && s.cards != [] && s.deck != []
      && HandIs(p.hands[|before|], NewHand(SplitCards(s), s.bet))
    else p.hands == before
  }

  /**
   * After the turn of hand j, p holds vals with hand j replaced by v and
   * the hands the turn's splits appended after them.
   */
  lemma HandsAfterTurn(p: Player, hands: seq<Hand>, vals: seq<HandVal>, j: nat, v: HandVal, extra: seq<HandVal>)
    requires |hands| == |vals| && j < |vals| && Appended(p, hands, extra)
    requires forall k :: 0 <= k < |vals| && k != j ==> HandIs(hands[k], vals[k])
    requires HandIs(hands[j], v)
    ensures p.HandsAre(vals[j := v] + extra)
  {
  }

  /** The hands among owned that carry seat i. */
  ghost function HandsAt(owned: set<Hand>, i: int): set<Hand>
  {
    set x | x in owned && x.seat == i
  }

  /** What play_round needs to remember of a seat from the start of the round. */
  datatype Seat = Seat(hands: seq<Hand>, worth: real)

  /** The state at the start of play_round: players, their hands, their seats, and the deck. */
  datatype RoundStart = RoundStart(players: seq<Player>, owned: set<Hand>, seats: seq<Seat>, vals: seq<SeatVal>,
                                   deck: seq<Card>)

  /** The state when a player's hands begin: hands and what they hold, bank, worth, deck, and the answers' position. */
  datatype HandsStart = HandsStart(hands: seq<Hand>, vals: seq<HandVal>, bank: real, worth: real, deck: seq<Card>, from: nat)

  /** The state when a hand's turn begins: the player's hands and worth, the turn, and the answers' position. */
  datatype TurnStart = TurnStart(hands: seq<Hand>, worth: real, turn: TurnState, from: nat)

  /** The seats of ps as they are now. */
  ghost function Snapshot(ps: seq<Player>): (r: seq<Seat>)
    reads *
    ensures |r| == |ps|
    ensures forall k :: 0 <= k < |ps| ==> r[k] == Seat(ps[k].hands, ps[k].Worth())
  {
    if ps == [] then []
    else Snapshot(ps[..|ps| - 1]) + [Seat(ps[|ps| - 1].hands, ps[|ps| - 1].Worth())]
  }

  /** What the hands hs hold, in order. */
  ghost function HandValsOf(hs: seq<Hand>): (r: seq<HandVal>)
    reads hs
    ensures |r| == |hs| && forall k :: 0 <= k < |hs| ==> HandIs(hs[k], r[k])
  {
    if hs == [] then []
    else
      var x := hs[|hs| - 1];
      HandValsOf(hs[..|hs| - 1]) + [HandVal(x.cards, x.isBlackjack, x.bet)]
  }

  /** What the players ps hold, in order: their hands and their banks. */
  ghost function SeatValsOf(ps: seq<Player>): (r: seq<SeatVal>)
    reads *
    ensures |r| == |ps| && forall k :: 0 <= k < |ps| ==> ps[k].Is(r[k])
  {
    if ps == [] then []
    else
      var p := ps[|ps| - 1];
      SeatValsOf(ps[..|ps| - 1]) + [SeatVal(HandValsOf(p.hands), p.bank)]
  }

  /**
   * Where a turn that began in s0 stands when the hand and its surroundings
   * are t, having read the answers from position from up to read: trace is
   * a turn Run accepts, done exactly when its last decision ended it, stood
   * exactly when that decision was a stand or a double, no stand among the
   * answers skipped, none offered to t from asked on when the answers ran
   * out, and a decision short of cards when the deck did (main.py:247-290).
   * While the turn goes on, what is left of it is TurnFrom of t from read;
   * once it stopped, t, trace, read, asked and status are what TurnFrom of
   * s0 from position from gives.
   */
  ghost predicate TurnProgress(s0: TurnState, t: TurnState, answers: seq<Decision>, from: nat, read: nat,
                               status: RoundStatus, done: bool, trace: seq<Decision>, stood: bool, asked: nat)
  {
    && from <= read <= |answers|
    && Run(s0, trace) == Some(t)
    && (done <==> status == Complete && trace != [] && Ends(t, trace[|trace| - 1]))
    && (!done ==> trace == [] || !Ends(t, trace[|trace| - 1]))
    && (stood <==> trace != [] && EndsTurn(trace[|trace| - 1]))
    && NoStandIn(answers, from, if done then read - 1 else read)
    && (status == OutOfAnswers ==>
          && read == |answers| && asked <= |answers|
          && forall q :: asked <= q < |answers| ==> answers[q] !in OfferedDecisions(t.bank, t.bet, t.cards))
    && (status == DeckExhausted ==> from < read && |t.deck| < CardsNeeded(answers[read - 1]))
    && (if status == Complete && !done
        then TurnFrom(s0, answers, from) == Resume(trace, TurnFrom(t, answers, read))
        else TurnFrom(s0, answers, from) == TurnEnd(t, trace, read, asked, status))
  }

  /** A turn that has not begun has read nothing and taken no decision, and all of TurnFrom is ahead of it. */
  lemma TurnBegins(s0: TurnState, answers: seq<Decision>, from: nat)
    requires from <= |answers|
    ensures TurnProgress(s0, s0, answers, from, from, Complete, false, [], false, from)
  {
  }

  /**
   * One decision read from position mid on moves the turn from t to t' as
   * play_round does (main.py:248-273): the first offered answer d is carried
   * out when the deck holds its cards, and the turn stands still when the
   * answers or the cards run out.
   */
  lemma TurnAdvances(s0: TurnState, t: TurnState, t': TurnState, answers: seq<Decision>, from: nat, mid: nat,
                     read: nat, status: RoundStatus, d: Option<Decision>, done: bool, trace: seq<Decision>,
                     asked: nat)
    requires TurnProgress(s0, t, answers, from, mid, Complete, false, trace, false, asked)
    requires FirstOffered(OfferedDecisions(t.bank, t.bet, t.cards), answers, mid, d, read)
    requires status == OutOfAnswers <==> d.None?
    requires status == DeckExhausted ==> t' == t && |t.deck| < CardsNeeded(d.value)
    requires status == Complete ==> d.Some? && CanTake(t, d.value) && t' == Step(t, d.value)
    requires status == OutOfAnswers ==> t' == t
    requires done <==> status == Complete && Ends(t', d.value)
    requires NoStandIn(answers, mid, if done then read - 1 else read)
    ensures TurnProgress(s0, t', answers, from, read, status, done,
                         if status == Complete then trace + [d.value] else trace,
                         status == Complete && EndsTurn(d.value),
                         if status == Complete then read else mid)
  {
    NoStandJoin(answers, from, mid, if done then read - 1 else read);
    FirstOfferedIsNext(OfferedDecisions(t.bank, t.bet, t.cards), answers, mid, d, read);
    if status == Complete {
      RunAppend(s0, trace, d.value);
      var trace' := trace + [d.value];
      assert trace'[|trace'| - 1] == d.value;
      if !done {
        ResumeTwice(trace, d.value, TurnFrom(t', answers, read));
      }
    } else {
      assert trace + [] == trace;
    }
  }

  /** The table: deck, dealer's hand and players (main.py:160-325). */
  class Game {
    var deck: Deck
    var dealersHand: Hand
    var players: seq<Player>

    /**
     * The dealer's hand sits at seat -1 and player i at seat i, so no hand
     * is shared between two places at the table.
     */
    ghost predicate Valid()
      reads this`players, this`dealersHand, players`hands
    {
      dealersHand.seat == -1 && Seated()
    }

    /** Player i sits at seat i, with at least one hand, each tagged with its place. */
    ghost predicate Seated()
      reads this`players, players`hands
    {
      && (forall i :: 0 <= i < |players| ==> players[i].seat == i && |players[i].hands| >= 1)
      && (forall i, j :: 0 <= i < |players| && 0 <= j < |players[i].hands| ==>
            players[i].hands[j].seat == i && players[i].hands[j].slot == j)
    }

    /** Hand h of player p during its turn, with the deck. */
    ghost function TurnOf(p: Player, h: Hand): TurnState
      reads this`deck, deck`allCards, p`bank, h`cards, h`isBlackjack, h`bet
    {
      TurnState(h.cards, h.isBlackjack, h.bet, p.bank, deck.allCards)
    }

    /** The first hand of every player, which init_bets and init_hands work on. */
    ghost function FirstHands(): set<Hand>
      reads this`players, players`hands
    {
      set i | 0 <= i < |players| && |players[i].hands| > 0 :: players[i].hands[0]
    }

    /**
     * Game() (main.py:169-180): a shuffled deck, an empty dealer's hand and
     * one player per name and buy-in. The shuffled order is a parameter.
     */
    constructor (order: seq<Card>, names: seq<string>, buyIns: seq<int>)
      requires multiset(order) == multiset(FullDeck())
      requires |names| == |buyIns|
      ensures Valid()
      ensures deck.allCards == order
      ensures dealersHand.cards == [] && dealersHand.Valid()
      ensures |players| == |names|
      ensures forall i :: 0 <= i < |players| ==> players[i].name == names[i] && players[i].Opened(buyIns[i] as real)
    {
      var d := new Deck();
      d.ShuffleDeck(order);
      deck := d;
      dealersHand := new Hand([], 0, -1, 0);
      players := [];
      new;
      for i := 0 to |names|
        invariant Seated()
        invariant deck.allCards == order && dealersHand.cards == [] && dealersHand.seat == -1
        invariant dealersHand.Valid()
        invariant |players| == i
        invariant forall k :: 0 <= k < i ==> players[k].name == names[k] && players[k].Opened(buyIns[k] as real)
      {
        var _ := AddPlayer(names[i], buyIns[i] as real);
      }
    }

    /** One iteration of the constructor's loop (main.py:177-180): seat a new player p. */
    method AddPlayer(name: string, bank: real) returns (p: Player)
      requires Seated()
      modifies this`players
      ensures Seated()
      ensures players == old(players) + [p]
      ensures fresh(p) && p.name == name && p.Opened(bank)
      ensures forall k, b :: 0 <= k < |old(players)| && old(players[k].Opened(b)) ==> players[k].Opened(b)
    {
      p := new Player(name, bank, |players|);
      players := players + [p];
    }

    /**
     * reset_table (main.py:182-190): a new empty dealer's hand, one new empty
     * hand per player and a new shuffled deck; the banks are kept. The three
     * steps touch separate state, so the players' hands are reset last here.
     */
    method ResetTable(order: seq<Card>)
      requires Valid()
      requires multiset(order) == multiset(FullDeck())
      modifies this`dealersHand, this`deck, players`hands
      ensures Valid()
      ensures deck.allCards == order
      ensures dealersHand.cards == [] && dealersHand.Valid()
      ensures forall i :: 0 <= i < |players| ==> players[i].Cleared()
    {
      dealersHand := new Hand([], 0, -1, 0);
      deck := NewShuffledDeck(order);
      ResetHands();
    }

    /** The loop of reset_table over the players (main.py:187-188). */
    method ResetHands()
      requires Seated()
      modifies players`hands
      ensures Seated()
      ensures forall i :: 0 <= i < |players| ==> players[i].Cleared()
    {
      for i := 0 to |players|
        invariant Seated()
        invariant forall k :: 0 <= k < i ==> players[k].Cleared()
      {
        players[i].ResetHand();
      }
    }

    /** Deck() followed by shuffle_deck() (main.py:170-171, 189-190). */
    static method NewShuffledDeck(order: seq<Card>) returns (d: Deck)
      requires multiset(order) == multiset(FullDeck())
      ensures fresh(d) && d.allCards == order
    {
      d := new Deck();
      d.ShuffleDeck(order);
    }

    /**
     * init_bets (main.py:225-233): for each player, the bet the prompt loop
     * settles on is added to the first hand's bet and taken from the bank,
     * which therefore ends at zero or above.
     */
    method InitBets(answers: seq<seq<int>>)
      requires Seated()
      requires |answers| == |players|
      requires forall i :: 0 <= i < |players| ==> BetAvailable(players[i].bank, answers[i])
      modifies players`bank, FirstHands()`bet
      ensures forall i :: 0 <= i < |players| ==>
                var bet := AcceptedBet(old(players[i].bank), answers[i]);
                && players[i].bank == old(players[i].bank) - bet as real
                && players[i].bank >= 0.0
                && players[i].hands[0].bet == old(players[i].hands[0].bet) + bet
    {
      for i := 0 to |players|
        invariant forall k :: i <= k < |players| ==>
                    && players[k].bank == old(players[k].bank)
                    && players[k].hands[0].bet == old(players[k].hands[0].bet)
        invariant forall k :: 0 <= k < i ==>
                    var bet := AcceptedBet(old(players[k].bank), answers[k]);
                    && players[k].bank == old(players[k].bank) - bet as real
                    && players[k].bank >= 0.0
                    && players[k].hands[0].bet == old(players[k].hands[0].bet) + bet
      {
        PlaceBet(players[i], players[i].hands[0], answers[i]);
      }
    }

    /**
     * init_hands (main.py:235-239): the first hands of the players, then the
     * dealer's, each receive one card off the end of the deck, and then a
     * second round in the same order. Player i gets the (i+1)-th and the
     * (i+m+2)-th card from the end, where m is the number of players; the
     * dealer gets the (m+1)-th and the (2m+2)-th. Bets are not touched.
     */
    method InitHands()
      requires Seated() && dealersHand.seat == -1
      requires 2 * (|players| + 1) <= |deck.allCards|
      modifies deck`allCards
      modifies dealersHand`cards, dealersHand`values, dealersHand`maxNonBustValue
      modifies dealersHand`isBust, dealersHand`isBlackjack
      modifies FirstHands()`cards, FirstHands()`values, FirstHands()`maxNonBustValue
      modifies FirstHands()`isBust, FirstHands()`isBlackjack
      ensures var hs, D := old(FirstHandsOf(players) + [dealersHand]), old(deck.allCards);
              var M, n := |hs|, |D|;
              && deck.allCards == D[..n - 2 * M]
              && forall t :: 0 <= t < M ==>
                   && hs[t].Valid()
                   && hs[t].cards == WithDealtPair(old(hs[t].cards), D, M, t)
    {
      DealtHandsDistinct();
      var allHands := FirstHandsOf(players) + [dealersHand];
      DealRounds(allHands);
    }

    /** The hands init_hands deals to are distinct objects: their seats differ. */
    lemma DealtHandsDistinct()
      requires Seated() && dealersHand.seat == -1
      ensures var hs := FirstHandsOf(players) + [dealersHand];
              forall t, u :: 0 <= t < u < |hs| ==> hs[t] != hs[u]
    {
      var hs := FirstHandsOf(players) + [dealersHand];
      assert forall t :: 0 <= t < |hs| ==> hs[t].seat == if t < |players| then t else -1;
    }

    /** The loop of init_hands (main.py:238-239): two passes over a list of distinct hands. */
    method DealRounds(hands: seq<Hand>)
      requires forall t, u :: 0 <= t < u < |hands| ==> hands[t] != hands[u]
      requires 2 * |hands| <= |deck.allCards|
      modifies deck`allCards, hands`cards, hands`values, hands`maxNonBustValue, hands`isBust, hands`isBlackjack
      ensures var D, M := old(deck.allCards), |hands|;
              var n := |D|;
              && deck.allCards == D[..n - 2 * M]
              && forall t :: 0 <= t < M ==>
                   && hands[t].Valid()
                   && hands[t].cards == WithDealtPair(old(hands[t].cards), D, M, t)
    {
      DealRound(hands);
      DealRound(hands);
    }

    /**
     * Half of the loop of init_hands (main.py:238-239), which goes through the
     * list of hands twice: hand t of a list of distinct hands gets the
     * (t+1)-th card from the end of the deck.
     */
    method DealRound(hands: seq<Hand>)
      requires forall t, u :: 0 <= t < u < |hands| ==> hands[t] != hands[u]
      requires |hands| <= |deck.allCards|
      modifies deck`allCards, hands`cards, hands`values, hands`maxNonBustValue, hands`isBust, hands`isBlackjack
      ensures var D := old(deck.allCards);
              && deck.allCards == D[..|D| - |hands|]
              && forall t :: 0 <= t < |hands| ==> DealtOnto(hands[t], old(hands[t].cards), D[|D| - 1 - t])
    {
      ghost var D := deck.allCards;
      for k := 0 to |hands|
        invariant deck.allCards == D[..|D| - k]
        invariant forall t :: 0 <= t < k ==> DealtOnto(hands[t], old(hands[t].cards), D[|D| - 1 - t])
        invariant forall t :: k <= t < |hands| ==> hands[t].cards == old(hands[t].cards)
      {
        DealTo(hands[k]);
      }
    }

    /** One pass of init_hands' loop (main.py:238-239): the last card of the deck goes to h. */
    method DealTo(h: Hand)
      requires deck.allCards != []
      modifies deck`allCards, h`cards, h`values, h`maxNonBustValue, h`isBust, h`isBlackjack
      ensures deck.allCards == old(deck.allCards)[..|old(deck.allCards)| - 1]
      ensures h.cards == old(h.cards) + [old(deck.allCards)[|old(deck.allCards)| - 1]]
      ensures h.Valid() && (|h.cards| != 2 ==> h.isBlackjack == old(h.isBlackjack))
    {
      var c := deck.DealCards(1);
      h.AddCards(c);
    }

    /**
     * dealer_turn (main.py:293-298): while the dealer's best total is above
     * zero and below 17, the dealer takes the last card of the deck. The
     * turn also stops if the deck runs out; exhausted then reports that the
     * dealer still stood below 17.
     */
    method DealerTurn() returns (exhausted: bool)
      requires dealersHand.Valid()
      modifies deck`allCards, dealersHand`cards, dealersHand`values, dealersHand`maxNonBustValue
      modifies dealersHand`isBust, dealersHand`isBlackjack
      ensures dealersHand.Valid()
      ensures |deck.allCards| <= |old(deck.allCards)|
      ensures var D, C, n := old(deck.allCards), old(dealersHand.cards), |old(deck.allCards)| - |deck.allCards|;
              && deck.allCards == D[..|D| - n]
              && dealersHand.cards == C + Drawn(D, n)
              && forall m :: 0 <= m < n ==> 0 < BestTotal(C + Drawn(D, m)) < 17
      ensures exhausted <==> 0 < BestTotal(dealersHand.cards) < 17
      ensures exhausted ==> deck.allCards == []
    {
      ghost var D, C := deck.allCards, dealersHand.cards;
      ghost var n := 0;
      while 0 < dealersHand.maxNonBustValue < 17 && deck.allCards != []
        invariant dealersHand.Valid() && dealersHand.maxNonBustValue == BestTotal(dealersHand.cards)
        invariant n <= |D| && deck.allCards == D[..|D| - n]
        invariant dealersHand.cards == C + Drawn(D, n)
        invariant forall m :: 0 <= m < n ==> 0 < BestTotal(C + Drawn(D, m)) < 17
        decreases |deck.allCards|
      {
        DealTo(dealersHand);
        assert Drawn(D, n + 1) == Drawn(D, n) + [D[|D| - 1 - n]];
        n := n + 1;
      }
      exhausted := 0 < dealersHand.maxNonBustValue < 17;
    }

    /**
     * check_and_payout (main.py:301-325): every hand of every player is paid
     * against the dealer's best total and bust flag; with no negative bet
     * among a player's hands, that player's bank does not go down.
     */
    method CheckAndPayout()
      requires Valid()
      modifies players`bank
      ensures forall k :: 0 <= k < |players| ==>
                players[k].PaidFrom(old(players[k].bank), dealersHand.maxNonBustValue, dealersHand.isBust)
      ensures forall k :: 0 <= k < |players| && NoNegativeBet(players[k].hands) ==>
                players[k].bank >= old(players[k].bank)
    {
      var best, bust := dealersHand.maxNonBustValue, dealersHand.isBust;
      for i := 0 to |players|
        invariant forall k :: 0 <= k < i ==> players[k].PaidFrom(old(players[k].bank), best, bust)
        invariant forall k :: i <= k < |players| ==> players[k].bank == old(players[k].bank)
      {
        assert forall k :: 0 <= k < |players| && k != i ==> players[k] != players[i];
        PayHands(players[i]);
      }
      forall k | 0 <= k < |players| && NoNegativeBet(players[k].hands)
        ensures players[k].bank >= old(players[k].bank)
      {
        TotalPayoutNonNegative(players[k].hands, best, bust);
      }
    }

    /** The loop over one player's hands in check_and_payout (main.py:304-325). */
    method PayHands(p: Player)
      modifies p`bank
      ensures p.PaidFrom(old(p.bank), dealersHand.maxNonBustValue, dealersHand.isBust)
    {
      var dealerBest, dealerBust := dealersHand.maxNonBustValue, dealersHand.isBust;
      for j := 0 to |p.hands|
        invariant p.bank == old(p.bank) + TotalPayout(p.hands[..j], dealerBest, dealerBust)
      {
        var h := p.hands[j];
        assert p.hands[..j + 1][..j] == p.hands[..j];
        PayHand(p, h, dealerBest, dealerBust);
      }
      assert p.hands[..|p.hands|] == p.hands;
    }

    /**
     * The four independent checks for one hand (main.py:304-325): a tie, a
     * dealer bust, a better total and a blackjack each add to the bank, so
     * several of them can pay out on the same hand.
     */
    method PayHand(p: Player, h: Hand, dealerBest: int, dealerBust: bool)
      modifies p`bank
      ensures p.bank == old(p.bank) + Payout(h.isBust, h.maxNonBustValue, h.isBlackjack, h.bet, dealerBest, dealerBust)
    {
      if !h.isBust {
        var b := h.bet as real;
        if dealerBest == h.maxNonBustValue {
          p.bank := p.bank + b;
        }
        if dealerBust {
          p.bank := p.bank + b * 2.0;
        }
        if dealerBest < h.maxNonBustValue {
          p.bank := p.bank + b * 2.0;
        }
        if h.isBlackjack {
          p.bank := p.bank + b * 2.5;
        }
      }
    }

    /**
     * play_round (main.py:241-273): every player in turn plays every hand,
     * reading the console answers as one stream, until the answers run out
     * or the deck lacks cards. The players, the deck, the answers read, the
     * status and the waiting seat and hand are those of RoundFrom, driven by
     * the same answers from the same start; what RoundFrom guarantees (a
     * bank at zero or above stays there, a waiting hand is offered none of
     * the remaining answers) thus holds of the round. When the round
     * completes, every hand at every seat, the hands splits added included,
     * has been played to the end of its turn. Each player's bank plus bets
     * stays the same, every hand still agrees with its cards, and the
     * dealer's hand is untouched.
     * The ghost set owned holds every hand at the players' seats, the hands
     * the round may change.
     */
    method PlayRound(answers: seq<Decision>, ghost owned: set<Hand>)
      returns (read: nat, status: RoundStatus, ghost seat: nat, ghost pending: Pending)
      requires Valid() && forall k :: 0 <= k < |players| ==> players[k].HandsValid()
      requires forall k, m :: 0 <= k < |players| && 0 <= m < |players[k].hands| ==> players[k].hands[m] in owned
      requires dealersHand !in owned
      modifies players, owned, deck
      ensures read <= |answers|
      ensures Valid() && forall k :: 0 <= k < |players| ==> players[k].HandsValid()
      ensures forall k :: 0 <= k < |players| ==> players[k].Worth() == old(players[k].Worth())
      ensures status == Complete ==> forall k :: 0 <= k < |players| ==> players[k].AllPlayed()
      ensures var e := RoundFrom(old(SeatValsOf(players)), 0, old(deck.allCards), answers, 0);
              && read == e.read && status == e.status && seat == e.seat && pending == e.pending
              && deck.allCards == e.deck && forall k :: 0 <= k < |players| ==> players[k].Is(e.seats[k])
    {
      ghost var start := RoundStart(players, owned, Snapshot(players), SeatValsOf(players), deck.allCards);
      SeatsStart(start, answers);
      var i;
      ghost var cur;
      i, read, status, pending, cur := PlaySeats(answers, start);
      SeatsEnd(start, i, answers, read, status, pending, cur);
      seat := if status == Complete then 0 else i - 1;
      if status == Complete {
        pending := Pending(0, 0);
      }
    }

    /** The loop of play_round over the players (main.py:243): one seat after another. */
    method PlaySeats(answers: seq<Decision>, ghost start: RoundStart)
      returns (i: nat, read: nat, status: RoundStatus, ghost pending: Pending, ghost cur: seq<SeatVal>)
      requires SeatsFrom(start, 0, answers, 0, Complete, Pending(0, 0), start.vals)
      modifies start.players, start.owned, deck
      ensures SeatsFrom(start, i, answers, read, status, pending, cur)
      ensures status == Complete ==> i == |start.players|
    {
      var ps := players;
      read, status, pending, cur := 0, Complete, Pending(0, 0), start.vals;
      i := 0;
      while i < |ps| && status == Complete
        invariant i <= |ps| && SeatsFrom(start, i, answers, read, status, pending, cur)
      {
        read, status, pending, cur := PlaySeat(ps[i], i, answers, read, start, cur);
        i := i + 1;
      }
    }

    /** At the start of the round every seat is as the snapshot recorded it. */
    lemma SeatsStart(start: RoundStart, answers: seq<Decision>)
      requires Valid() && forall k :: 0 <= k < |players| ==> players[k].HandsValid()
      requires start.players == players && start.seats == Snapshot(players) && start.deck == deck.allCards
      requires start.vals == SeatValsOf(players)
      requires forall k, m :: 0 <= k < |players| && 0 <= m < |players[k].hands| ==> players[k].hands[m] in start.owned
      ensures SeatsFrom(start, 0, answers, 0, Complete, Pending(0, 0), start.vals)
    {
    }

    /** Whenever the round stops, every seat holds what the snapshot recorded. */
    lemma SeatsEnd(start: RoundStart, i: nat, answers: seq<Decision>, read: nat, status: RoundStatus, pending: Pending,
                   cur: seq<SeatVal>)
      requires SeatsFrom(start, i, answers, read, status, pending, cur)
      requires status == Complete ==> i == |start.players|
      ensures Valid() && |start.seats| == |players|
      ensures forall k :: 0 <= k < |players| ==> players[k].HandsValid()
      ensures forall k :: 0 <= k < |players| ==> players[k].Worth() == start.seats[k].worth
      ensures status == Complete ==> forall k :: 0 <= k < |players| ==> players[k].AllPlayed()
      ensures var e := RoundFrom(start.vals, 0, start.deck, answers, 0);
              && read == e.read && status == e.status && (if status == Complete then 0 else i - 1) == e.seat
              && (if status == Complete then Pending(0, 0) else pending) == e.pending && deck.allCards == e.deck
              && forall k :: 0 <= k < |players| ==> players[k].Is(e.seats[k])
    {
    }

    /**
     * Every seat holds the worth it started the round with, a bank at zero
     * or above if it had one, and hands that agree with their cards; seats
     * i and on still have the hands they started with; the seats before i
     * have been played, the last of them only in part unless the status is
     * Complete, and when the answers ran out it has a hand waiting; the deck
     * has only lost cards from its end; and the answers and the status agree.
     */
    ghost predicate SeatsFrom(start: RoundStart, i: nat, answers: seq<Decision>, read: nat,
                              status: RoundStatus, pending: Pending, cur: seq<SeatVal>)
      reads *
    {
      var ps := start.players;
      && SeatsKept(start, i)
      && (forall k :: 0 <= k < |ps| ==> ps[k].Holds(start.seats[k], k < i - 1 || (k == i - 1 && status == Complete)))
      && read <= |answers| && (status != Complete ==> 0 < i)
      && |cur| == |ps| && (forall k :: 0 <= k < |ps| ==> ps[k].Is(cur[k]))
      && (if status == Complete
          then RoundFrom(start.vals, 0, start.deck, answers, 0) == RoundFrom(cur, i, deck.allCards, answers, read)
          else RoundFrom(start.vals, 0, start.deck, answers, 0) == RoundEnd(cur, deck.allCards, read, status, i - 1, pending))
    }

    /**
     * The part of SeatsFrom that speaks of the seats alone: each holds what
     * the snapshot recorded, seats i and on with their hands unchanged, and
     * the deck has only lost cards from its end.
     */
    ghost predicate SeatsKept(start: RoundStart, i: nat)
      reads *
    {
      var ps, seats := start.players, start.seats;
      && players == ps && dealersHand.seat == -1 && |seats| == |ps| && i <= |ps|
      && (forall k :: 0 <= k < |ps| ==> ps[k].seat == k)
      && (forall k :: i <= k < |ps| ==> ps[k].hands == seats[k].hands)
      && (forall k, m :: 0 <= k < |ps| && 0 <= m < |seats[k].hands| ==> seats[k].hands[m] in start.owned)
    }

    /**
     * The hands of the player in seat i (main.py:243-273). Only that
     * player, its hands and the deck may change.
     */
    method PlaySeat(p: Player, ghost i: nat, answers: seq<Decision>, from: nat, ghost start: RoundStart,
                    ghost cur: seq<SeatVal>)
      returns (read: nat, status: RoundStatus, ghost pending: Pending, ghost cur': seq<SeatVal>)
      requires SeatsFrom(start, i, answers, from, Complete, Pending(0, 0), cur)
      requires i < |start.players| && p == start.players[i]
      modifies p`bank, p`hands, deck`allCards
      modifies HandsAt(start.owned, i)
      ensures SeatsFrom(start, i + 1, answers, read, status, pending, cur')
    {
      ghost var ps := start.players;
      ghost var e := SeatFrom(cur[i].hands, 0, cur[i].bank, deck.allCards, answers, from);
      cur' := cur[i := SeatVal(e.hands, e.bank)];
      assert RoundFrom(cur, i, deck.allCards, answers, from)
             == if e.status != Complete then RoundEnd(cur', e.deck, e.read, e.status, i, e.pending)
                else RoundFrom(cur', i + 1, e.deck, answers, e.read);
      read, status, pending := PlayOwnHands(p, i, answers, from, start, cur);
      assert p.Is(cur'[i]) && p.Holds(start.seats[i], status == Complete);
    }

    /**
     * The hands of the player in seat i, played while the other seats keep
     * their hands, their banks and what the snapshot recorded.
     */
    method PlayOwnHands(p: Player, ghost i: nat, answers: seq<Decision>, from: nat, ghost start: RoundStart,
                        ghost cur: seq<SeatVal>)
      returns (read: nat, status: RoundStatus, ghost pending: Pending)
      requires SeatsKept(start, i) && i < |start.players| && p == start.players[i] && from <= |answers|
      requires |cur| == |start.players| && forall k :: 0 <= k < |start.players| ==> start.players[k].Is(cur[k])
      requires forall k :: 0 <= k < |start.players| ==> start.players[k].Holds(start.seats[k], k < i)
      modifies p`bank, p`hands, deck`allCards
      modifies HandsAt(start.owned, i)
      ensures var e := SeatFrom(cur[i].hands, 0, old(p.bank), old(deck.allCards), answers, from);
              && p.HandsAre(e.hands) && p.bank == e.bank && deck.allCards == e.deck
              && read == e.read && status == e.status && pending == e.pending
      ensures p.Valid() && p.HandsValid() && p.Worth() == start.seats[i].worth
      ensures status == Complete ==> p.AllPlayed()
      ensures SeatsKept(start, i + 1)
      ensures forall k :: 0 <= k < |start.players| && k != i ==>
                start.players[k].Is(cur[k]) && start.players[k].Holds(start.seats[k], k < i)
    {
      ghost var ps := start.players;
      assert p.seat == i;
      ghost var own := p.hands;
      read, status, pending := PlayHands(p, answers, from, cur[i].hands);
      forall k | 0 <= k < |ps| && k != i
        ensures ps[k].Is(cur[k]) && ps[k].Holds(start.seats[k], k < i)
      {
        var q := ps[k];
        assert q != p && q.bank == old(q.bank) && q.hands == old(q.hands);
        forall m | 0 <= m < |q.hands|
          ensures unchanged(q.hands[m])
        {
          assert q.hands[m] !in own by {
            assert q.hands[m].seat == k;
          }
        }
        assert q.Is(cur[k]);
      }
    }

    /**
     * The hands of player p in play_round (main.py:244): every hand in turn,
     * including the hands that splits append while the loop runs, until the
     * answers run out or the deck lacks cards. Each split reads at least one
     * answer, which is why the loop ends although the list grows. When the
     * loop completes every hand has been played; when the answers run out,
     * the hands before the waiting one have.
     */
    method PlayHands(p: Player, answers: seq<Decision>, from: nat, ghost vals: seq<HandVal>)
      returns (read: nat, status: RoundStatus, ghost pending: Pending)
      requires p.Valid() && p.HandsValid() && p.HandsAre(vals) && from <= |answers|
      modifies p`bank, p`hands, deck`allCards
      modifies p.hands`bet, p.hands`cards, p.hands`values, p.hands`maxNonBustValue
      modifies p.hands`isBust, p.hands`isBlackjack, p.hands`reached, p.hands`stoodOrDoubled
      ensures var e := SeatFrom(vals, 0, old(p.bank), old(deck.allCards), answers, from);
              && p.HandsAre(e.hands) && p.bank == e.bank && deck.allCards == e.deck
              && read == e.read && status == e.status && pending == e.pending
      ensures p.Valid() && p.HandsValid()
      ensures old(p.hands) <= p.hands
      ensures forall x :: x in p.hands ==> x in old(p.hands) || fresh(x)
      ensures p.Worth() == old(p.Worth())
      ensures status == Complete ==> p.AllPlayed()
      ensures status != Complete ==> pending.hand < |p.hands| && forall k :: 0 <= k < pending.hand ==> p.hands[k].Played()
    {
      ghost var start := HandsStart(p.hands, vals, p.bank, p.Worth(), deck.allCards, from);
      ghost var cur := vals;
      read, status, pending := from, Complete, Pending(0, 0);
      var j := 0;
      while j < |p.hands| && status == Complete
        invariant HandsSoFar(p, start, j, answers, read, status, pending, cur)
        invariant forall x :: x in p.hands ==> x in old(p.hands) || fresh(x)
        decreases |answers| - read + |p.hands| - j
      {
        assert p.hands[j] in p.hands;
        read, status, pending, cur := PlayNextHand(p, p.hands[j], j, answers, read, start, cur);
        j := j + 1;
      }
      HandsDone(p, start, j, answers, read, status, pending, cur);
      if status == Complete {
        pending := Pending(0, 0);
      }
    }

    /** Where the loop over p's hands stands once it has left. */
    lemma HandsDone(p: Player, start: HandsStart, j: nat, answers: seq<Decision>, read: nat,
                    status: RoundStatus, pending: Pending, cur: seq<HandVal>)
      requires HandsSoFar(p, start, j, answers, read, status, pending, cur)
      requires j == |p.hands| || status != Complete
      ensures var e := SeatFrom(start.vals, 0, start.bank, start.deck, answers, start.from);
              && p.HandsAre(e.hands) && p.bank == e.bank && deck.allCards == e.deck
              && read == e.read && status == e.status
              && (if status == Complete then Pending(0, 0) else pending) == e.pending
      ensures status == Complete ==> p.AllPlayed()
      ensures status != Complete ==> pending.hand < |p.hands| && forall k :: 0 <= k < pending.hand ==> p.hands[k].Played()
    {
    }

    /**
     * Where the loop of play_round over p's hands stands before hand j
     * (main.py:244), measured from start: the answers read, the worth kept,
     * the hands grown only at the end and still agreeing with their cards,
     * the hands before j played (the last of them only if the status is
     * Complete), and the hands, the bank, the deck and the answers where
     * SeatFrom places them: the rest of SeatFrom still ahead while the
     * status is Complete, SeatFrom's end once the loop stopped.
     */
    ghost predicate HandsSoFar(p: Player, start: HandsStart, j: nat, answers: seq<Decision>, read: nat,
                               status: RoundStatus, pending: Pending, cur: seq<HandVal>)
      reads this`deck, deck`allCards, p`bank, p`hands
      reads p.hands`bet, p.hands`cards, p.hands`values, p.hands`maxNonBustValue
      reads p.hands`isBust, p.hands`isBlackjack, p.hands`reached, p.hands`stoodOrDoubled
    {
      && start.from <= read <= |answers|
      && p.Valid() && p.HandsValid() && j <= |p.hands|
      && start.hands <= p.hands
      && p.Worth() == start.worth
      && (forall k :: 0 <= k < j && (k < j - 1 || status == Complete) ==> p.hands[k].Played())
      && (status != Complete ==> pending.hand == j - 1)
      && p.HandsAre(cur)
      && (if status == Complete
          then SeatFrom(start.vals, 0, start.bank, start.deck, answers, start.from)
               == SeatFrom(cur, j, p.bank, deck.allCards, answers, read)
          else SeatFrom(start.vals, 0, start.bank, start.deck, answers, start.from)
               == SeatEnd(cur, p.bank, deck.allCards, read, status, pending))
    }

    /**
     * One pass of the for loop of play_round over the hands (main.py:244):
     * hand j takes its turn, the hands before it stay played, and the list
     * grows by at most one hand per answer read.
     */
    method PlayNextHand(p: Player, h: Hand, j: nat, answers: seq<Decision>, from: nat,
                        ghost start: HandsStart, ghost cur: seq<HandVal>)
      returns (read: nat, status: RoundStatus, ghost pending: Pending, ghost cur': seq<HandVal>)
      requires HandsSoFar(p, start, j, answers, from, Complete, Pending(0, 0), cur)
      requires j < |p.hands| && h == p.hands[j]
      modifies p`bank, p`hands, deck`allCards
      modifies h`bet, h`cards, h`values, h`maxNonBustValue, h`isBust, h`isBlackjack
      modifies h`reached, h`stoodOrDoubled
      ensures HandsSoFar(p, start, j + 1, answers, read, status, pending, cur')
      ensures from <= read && |p.hands| <= |old(p.hands)| + (read - from)
      ensures forall x :: x in p.hands ==> x in old(p.hands) || fresh(x)
    {
      ghost var hands := p.hands;
      ghost var e := HandTurn(cur, j, p.bank, deck.allCards, answers, from);
      assert SeatFrom(cur, j, p.bank, deck.allCards, answers, from)
             == if e.status != Complete then e else SeatFrom(e.hands, j + 1, e.bank, e.deck, answers, e.read);
      ghost var asked;
      read, status, asked := PlayHand(p, h, j, answers, from, cur);
      PrefixTrans(start.hands, hands, p.hands);
      pending := if status == Complete then Pending(0, 0) else Pending(j, asked);
      cur' := e.hands;
    }

    /**
     * The turn of hand j of player p in play_round (main.py:244-273), with
     * the console answers as a stream read from position from on. A hand
     * flagged blackjack is not played. Otherwise its turn is played as
     * HandTurn states: the hands, the bank, the deck, the answers read and
     * the status are those of HandTurn, and when the turn completes the hand
     * is played. The bank plus the bets stays the same, and each split
     * appends one fresh hand, having read at least one answer.
     */
    method PlayHand(p: Player, h: Hand, ghost j: nat, answers: seq<Decision>, from: nat, ghost vals: seq<HandVal>)
      returns (read: nat, status: RoundStatus, ghost asked: nat)
      requires p.Valid() && p.HandsValid() && p.HandsAre(vals) && j < |p.hands| && h == p.hands[j]
      requires from <= |answers|
      modifies p`bank, p`hands, deck`allCards
      modifies h`bet, h`cards, h`values, h`maxNonBustValue, h`isBust, h`isBlackjack
      modifies h`reached, h`stoodOrDoubled
      ensures from <= read <= |answers|
      ensures var e := HandTurn(vals, j, old(p.bank), old(deck.allCards), answers, from);
              && p.HandsAre(e.hands) && p.bank == e.bank && deck.allCards == e.deck
              && read == e.read && status == e.status && Pending(j, asked) == e.pending
      ensures p.Valid() && p.HandsValid()
      ensures old(p.hands) <= p.hands && |p.hands| <= |old(p.hands)| + (read - from)
      ensures forall x :: x in p.hands ==> x in old(p.hands) || fresh(x)
      ensures p.Worth() == old(p.Worth())
      ensures h.reached && (status == Complete ==> h.Played())
    {
      if h.isBlackjack {
        h.reached, h.stoodOrDoubled := true, false;
        assert HandTurn(vals, j, p.bank, deck.allCards, answers, from)
               == SeatEnd(vals, p.bank, deck.allCards, from, Complete, Pending(j, from));
        return from, Complete, from;
      }
      read, status, asked := PlayHandTurn(p, h, j, answers, from, vals);
    }

    /** PlayHand for a hand not flagged blackjack: the hand takes its turn. */
    method PlayHandTurn(p: Player, h: Hand, ghost j: nat, answers: seq<Decision>, from: nat, ghost vals: seq<HandVal>)
      returns (read: nat, status: RoundStatus, ghost asked: nat)
      requires p.Valid() && p.HandsValid() && p.HandsAre(vals) && j < |p.hands| && h == p.hands[j] && !h.isBlackjack
      requires from <= |answers|
      modifies p`bank, p`hands, deck`allCards
      modifies h`bet, h`cards, h`values, h`maxNonBustValue, h`isBust, h`isBlackjack
      modifies h`reached, h`stoodOrDoubled
      ensures from <= read <= |answers|
      ensures var e := HandTurn(vals, j, old(p.bank), old(deck.allCards), answers, from);
              && p.HandsAre(e.hands) && p.bank == e.bank && deck.allCards == e.deck
              && read == e.read && status == e.status && Pending(j, asked) == e.pending
      ensures p.Valid() && p.HandsValid()
      ensures old(p.hands) <= p.hands && |p.hands| <= |old(p.hands)| + (read - from)
      ensures forall x :: x in p.hands ==> x in old(p.hands) || fresh(x)
      ensures p.Worth() == old(p.Worth())
      ensures h.reached && (status == Complete ==> h.Played())
    {
      ghost var worth := p.Worth();
      h.reached, h.stoodOrDoubled := true, false;
      assert p.Worth() == worth;
      ghost var hands, s := p.hands, TurnOf(p, h);
      assert TurnOfHand(vals, j, p.bank, deck.allCards) == s;
      ghost var trace;
      read, status, trace, asked := PlayTurn(p, h, j, answers, from, vals);
      ghost var t := TurnOf(p, h);
      assert h == p.hands[j] && h.Valid();
      if status == Complete {
        TurnEndComplete(s, answers, from, t, trace, read, asked);
        assert h.isBust == AllBust(Values(t.cards)) && h.isBlackjack == t.blackjack;
      }
      HandTurnPlays(vals, j, s.bank, s.deck, answers, from, t, trace, read, asked, status);
    }

    /**
     * The while loop of play_round (main.py:247-273) for a hand that is to
     * be played: decisions are read and carried out until one ends the turn
     * or the answers or the cards run out. trace holds the decisions carried
     * out; when the answers run out, none from position asked on is offered.
     */
    method PlayTurn(p: Player, h: Hand, ghost j: nat, answers: seq<Decision>, from: nat, ghost vals: seq<HandVal>)
      returns (read: nat, status: RoundStatus, ghost trace: seq<Decision>, ghost asked: nat)
      requires p.Valid() && p.HandsValid() && j < |p.hands| && h == p.hands[j]
      requires from <= |answers| && !h.stoodOrDoubled && p.HandsAre(vals)
      modifies p`bank, p`hands, deck`allCards
      modifies h`bet, h`cards, h`values, h`maxNonBustValue, h`isBust, h`isBlackjack, h`stoodOrDoubled
      ensures from <= read <= |answers|
      ensures p.Valid() && p.HandsValid()
      ensures old(p.hands) <= p.hands && |p.hands| <= |old(p.hands)| + (read - from)
      ensures forall x :: x in p.hands ==> x in old(p.hands) || fresh(x)
      ensures p.Worth() == old(p.Worth())
      ensures TurnFrom(old(TurnOf(p, h)), answers, from) == TurnEnd(TurnOf(p, h), trace, read, asked, status)
      ensures p.HandsAre(vals[j := HandVal(h.cards, h.isBlackjack, h.bet)] + SplitHands(old(TurnOf(p, h)), trace))
      ensures h.stoodOrDoubled <==> trace != [] && EndsTurn(trace[|trace| - 1])
    {
      ghost var start := TurnStart(p.hands, p.Worth(), TurnOf(p, h), from);
      read, status, trace, asked := from, Complete, [], from;
      var done := false;
      TurnBegins(start.turn, answers, from);
      while status == Complete && !done
        invariant TurnSoFar(p, h, j, start, answers, read, status, done, trace, asked)
        invariant forall x :: x in p.hands ==> x in old(p.hands) || fresh(x)
        decreases |answers| - read, if status == Complete then 1 else 0
      {
        read, status, done, trace, asked := PlayNextDecision(p, h, j, answers, read, start, trace, asked);
      }
      ghost var hands := start.hands;
      forall k | 0 <= k < |vals| && k != j
        ensures HandIs(hands[k], vals[k])
      {
        var x := hands[k];
        assert x != h by {
          assert x.slot == k;
        }
        assert x.cards == old(x.cards) && x.bet == old(x.bet) && x.isBlackjack == old(x.isBlackjack);
      }
      HandsAfterTurn(p, hands, vals, j, HandVal(h.cards, h.isBlackjack, h.bet), SplitHands(start.turn, trace));
    }

    /**
     * Where the while loop of play_round on hand j stands (main.py:247-273),
     * measured from start: the hands grown only at the end, by at most one
     * per answer, and agreeing with their cards, the worth kept, and the turn
     * of hand j where TurnProgress places it.
     */
    ghost predicate TurnSoFar(p: Player, h: Hand, j: nat, start: TurnStart, answers: seq<Decision>,
                              read: nat, status: RoundStatus, done: bool, trace: seq<Decision>, asked: nat)
      reads this`deck, deck`allCards, p`bank, p`hands
      reads p.hands`bet, p.hands`cards, p.hands`values, p.hands`maxNonBustValue
      reads p.hands`isBust, p.hands`isBlackjack
      reads h`bet, h`cards, h`isBlackjack, h`stoodOrDoubled
    {
      && p.Valid() && p.HandsValid() && start.hands <= p.hands
      && j < |start.hands| && h == p.hands[j] && |p.hands| <= |start.hands| + (read - start.from)
      && p.Worth() == start.worth
      && TurnProgress(start.turn, TurnOf(p, h), answers, start.from, read, status, done, trace,
                      h.stoodOrDoubled, asked)
      && Appended(p, start.hands, SplitHands(start.turn, trace))
    }

    /**
     * One pass of the while loop of play_round (main.py:248-273): a decision
     * is read and, when there is one and cards for it, carried out; each
     * pass that completes reads at least one answer.
     */
    method PlayNextDecision(p: Player, h: Hand, ghost j: nat, answers: seq<Decision>, from: nat,
                            ghost start: TurnStart, ghost trace: seq<Decision>, ghost asked: nat)
      returns (read: nat, status: RoundStatus, done: bool, ghost trace': seq<Decision>, ghost asked': nat)
      requires TurnSoFar(p, h, j, start, answers, from, Complete, false, trace, asked)
      modifies p`bank, p`hands, deck`allCards
      modifies h`bet, h`cards, h`values, h`maxNonBustValue, h`isBust, h`isBlackjack, h`stoodOrDoubled
      ensures TurnSoFar(p, h, j, start, answers, read, status, done, trace', asked')
      ensures from <= read && (status == Complete ==> from < read)
      ensures forall x :: x in p.hands ==> x in old(p.hands) || fresh(x)
    {
      ghost var hands, t := p.hands, TurnOf(p, h);
      var d;
      read, status, d, done, trace' := PlayDecision(p, h, j, answers, from, start.turn, trace, start.hands);
      asked' := if status == Complete then read else from;
      TurnAdvances(start.turn, t, TurnOf(p, h), answers, start.from, from, read, status, d, done, trace, asked);
      PrefixTrans(start.hands, hands, p.hands);
    }

    /**
     * One pass of the while loop of play_round (main.py:247-273): d is the
     * first answer from position from on that is offered to the hand as it
     * stands (main.py:287-290). When there is one and the deck holds the
     * cards it needs, it is carried out as Step states, extends the turn so
     * far, and done says whether the turn is over (main.py:273). When the
     * answers or the cards run out first, nothing changes. Stand is always
     * offered, so no answer skipped was a stand, nor one taken that did not
     * end the turn.
     */
    method PlayDecision(p: Player, h: Hand, ghost j: nat, answers: seq<Decision>, from: nat,
                        ghost s0: TurnState, ghost trace: seq<Decision>, ghost before: seq<Hand>)
      returns (read: nat, status: RoundStatus, d: Option<Decision>, done: bool, ghost trace': seq<Decision>)
      requires p.Valid() && p.HandsValid() && j < |p.hands| && h == p.hands[j]
      requires from <= |answers|
      requires Run(s0, trace) == Some(TurnOf(p, h))
      requires trace == [] || !Ends(TurnOf(p, h), trace[|trace| - 1])
      requires !h.stoodOrDoubled
      requires Appended(p, before, SplitHands(s0, trace)) && j < |before|
      modifies p`bank, p`hands, deck`allCards
      modifies h`bet, h`cards, h`values, h`maxNonBustValue, h`isBust, h`isBlackjack, h`stoodOrDoubled
      ensures FirstOffered(OfferedDecisions(old(p.bank), old(h.bet), old(h.cards)), answers, from, d, read)
      ensures status == OutOfAnswers <==> d.None?
      ensures status == DeckExhausted ==> |deck.allCards| < CardsNeeded(d.value)
      ensures p.Valid() && p.HandsValid()
      ensures old(p.hands) <= p.hands && |p.hands| <= |old(p.hands)| + (read - from)
      ensures forall x :: x in p.hands ==> x in old(p.hands) || fresh(x)
      ensures p.Worth() == old(p.Worth())
      ensures status == Complete ==>
                && d.Some? && CanTake(old(TurnOf(p, h)), d.value)
                && TurnOf(p, h) == Step(old(TurnOf(p, h)), d.value)
      ensures status != Complete ==> p.hands == old(p.hands) && TurnOf(p, h) == old(TurnOf(p, h))
      ensures trace' == if status == Complete then trace + [d.value] else trace
      ensures Run(s0, trace') == Some(TurnOf(p, h))
      ensures Appended(p, before, SplitHands(s0, trace'))
      ensures done <==> status == Complete && Ends(TurnOf(p, h), d.value)
      ensures h.stoodOrDoubled <==> status == Complete && EndsTurn(d.value)
      ensures NoStandIn(answers, from, if done then read - 1 else read)
    {
      d, read := AskPlayerDecision(OfferedDecisions(p.bank, h.bet, h.cards), answers, from);
      if d.None? {
        return read, OutOfAnswers, d, false, trace;
      }
      if |deck.allCards| < CardsNeeded(d.value) {
        return read, DeckExhausted, d, false, trace;
      }
      SplitHandsAppend(s0, trace, d.value);
      var ended := TakeDecision(p, h, j, d.value, before, SplitHands(s0, trace));
      RunAppend(s0, trace, d.value);
      trace' := trace + [d.value];
      status := Complete;
      done := ended || h.isBust || h.isBlackjack;
    }

    /**
     * ApplyDecision on hand j, seen from the hands appended after before:
     * those hands keep what extra lists, and a split appends one more that
     * holds what SplitAdds describes.
     */
    method TakeDecision(p: Player, h: Hand, ghost j: nat, d: Decision,
                        ghost before: seq<Hand>, ghost extra: seq<HandVal>) returns (ended: bool)
      requires p.Valid() && p.HandsValid() && Appended(p, before, extra) && j < |before| && h == p.hands[j]
      requires CanTake(TurnOf(p, h), d)
      modifies p`bank, p`hands, deck`allCards
      modifies h`bet, h`cards, h`values, h`maxNonBustValue, h`isBust, h`isBlackjack, h`stoodOrDoubled
      ensures ended <==> EndsTurn(d)
      ensures h.stoodOrDoubled <==> old(h.stoodOrDoubled) || EndsTurn(d)
      ensures p.Valid() && p.HandsValid()
      ensures TurnOf(p, h) == Step(old(TurnOf(p, h)), d)
      ensures Appended(p, before, extra + SplitAdds(Some(old(TurnOf(p, h))), d))
      ensures old(p.hands) <= p.hands && |p.hands| <= |old(p.hands)| + 1
      ensures forall x :: x in p.hands ==> x in old(p.hands) || fresh(x)
      ensures p.Worth() == old(p.Worth())
    {
      ghost var hands, t := p.hands, TurnOf(p, h);
      ended := ApplyDecision(p, h, j, d);
      ghost var more := SplitAdds(Some(t), d);
      forall k | 0 <= k < |extra| + |more|
        ensures HandIs(p.hands[|before| + k], (extra + more)[k])
      {
        if k < |extra| {
          var x := hands[|before| + k];
          assert x.slot == |before| + k != h.slot;
          assert p.hands[|before| + k] == x && old(HandIs(x, extra[k]));
        } else {
          assert |before| + k == |hands|;
        }
      }
    }

    /**
     * One decision on hand j of player p (main.py:251-270), offered and with
     * enough cards left for it: the hand, its bet, the bank and the deck
     * move as Step states, and a split appends the hand SplitCards describes,
     * with the same bet. Returns whether the decision itself ends the turn,
     * which a stand or a double records on the hand.
     */
    method ApplyDecision(p: Player, h: Hand, ghost j: nat, d: Decision) returns (ended: bool)
      requires p.Valid() && p.HandsValid() && j < |p.hands| && h == p.hands[j]
      requires CanTake(TurnOf(p, h), d)
      modifies p`bank, p`hands, deck`allCards
      modifies h`bet, h`cards, h`values, h`maxNonBustValue, h`isBust, h`isBlackjack, h`stoodOrDoubled
      ensures ended <==> EndsTurn(d)
      ensures h.stoodOrDoubled <==> old(h.stoodOrDoubled) || EndsTurn(d)
      ensures p.Valid() && p.HandsValid()
      ensures TurnOf(p, h) == Step(old(TurnOf(p, h)), d)
      ensures Joined(p, old(p.hands), d, old(TurnOf(p, h)))
      ensures forall x :: x in p.hands ==> x in old(p.hands) || fresh(x)
      ensures p.Worth() == old(p.Worth())
    {
      ended := EndsTurn(d);
      match d
      case Stand =>
        h.stoodOrDoubled := true;
      case Hit =>
        Hit(p, h, j);
      case Double =>
        DoubleDown(p, h, j);
      case Split =>
        var _ := SplitHand(p, h, j);
    }

    /** The hit branch of play_round (main.py:253-254): hand j takes one card. */
    method Hit(p: Player, h: Hand, ghost j: nat)
      requires p.Valid() && p.HandsValid() && j < |p.hands| && h == p.hands[j]
      requires deck.allCards != []
      modifies deck`allCards, h`cards, h`values, h`maxNonBustValue, h`isBust, h`isBlackjack
      ensures deck.allCards == old(deck.allCards)[..|old(deck.allCards)| - 1]
      ensures h.cards == old(h.cards) + [old(deck.allCards)[|old(deck.allCards)| - 1]]
      ensures h.Valid() && (|h.cards| != 2 ==> h.isBlackjack == old(h.isBlackjack))
      ensures p.HandsValid()
      ensures p.Worth() == old(p.Worth())
    {
      DealTo(h);
    }

    /**
     * The double branch of play_round (main.py:255-260): the bank pays the
     * bet once more, the bet doubles and hand j takes one card. The hand
     * records that it was doubled on.
     */
    method DoubleDown(p: Player, h: Hand, ghost j: nat)
      requires p.Valid() && p.HandsValid() && j < |p.hands| && h == p.hands[j]
      requires deck.allCards != [] && Covers(p.bank, h.bet)
      modifies p`bank, h`bet, deck`allCards, h`cards, h`values, h`maxNonBustValue, h`isBust, h`isBlackjack
      modifies h`stoodOrDoubled
      ensures h.stoodOrDoubled
      ensures deck.allCards == old(deck.allCards)[..|old(deck.allCards)| - 1]
      ensures h.cards == old(h.cards) + [old(deck.allCards)[|old(deck.allCards)| - 1]]
      ensures h.bet == 2 * old(h.bet)
      ensures p.bank == old(p.bank) - old(h.bet) as real && p.bank >= 0.0
      ensures p.Worth() == old(p.Worth())
      ensures p.HandsValid() && h.Valid() && (|h.cards| != 2 ==> h.isBlackjack == old(h.isBlackjack))
    {
      h.stoodOrDoubled := true;
      RaiseStake(p, h, j);
      Hit(p, h, j);
    }

    /** The stake part of a double (main.py:256-257): the bank pays hand j's bet again and the bet doubles. */
    method RaiseStake(p: Player, h: Hand, ghost j: nat)
      requires p.Valid() && j < |p.hands| && h == p.hands[j] && Covers(p.bank, h.bet)
      modifies p`bank, h`bet
      ensures h.bet == 2 * old(h.bet)
      ensures p.bank == old(p.bank) - old(h.bet) as real && p.bank >= 0.0
      ensures p.Worth() == old(p.Worth())
    {
      TotalBetsSplit(p.hands, j);
      p.bank := p.bank - h.bet as real;
      h.bet := h.bet * 2;
      TotalBetsSplit(p.hands, j);
      TotalBetsUnchanged(p.hands[..j]);
      TotalBetsUnchanged(p.hands[j + 1..]);
    }

    /**
     * The split branch of play_round (main.py:261-270): the last card of hand
     * j starts a new hand with the same bet, which takes the next card off
     * the deck; hand j takes the card after that; the bank pays the bet once
     * more and the new hand joins the end of the player's list.
     */
    method SplitHand(p: Player, h: Hand, ghost j: nat) returns (split: Hand)
      requires p.Valid() && p.HandsValid() && j < |p.hands| && h == p.hands[j]
      requires h.cards != [] && 2 <= |deck.allCards| && Covers(p.bank, h.bet)
      modifies p`bank, p`hands, deck`allCards, h`cards, h`values, h`maxNonBustValue, h`isBust, h`isBlackjack
      ensures var D, c := old(deck.allCards), old(h.cards);
              && deck.allCards == D[..|D| - 2]
              && h.cards == c[..|c| - 1] + [D[|D| - 2]]
              && split.cards == [c[|c| - 1], D[|D| - 1]]
      ensures fresh(split) && split.bet == h.bet == old(h.bet)
      ensures p.hands == old(p.hands) + [split]
      ensures p.bank == old(p.bank) - h.bet as real && p.bank >= 0.0
      ensures p.Worth() == old(p.Worth())
      ensures p.Valid() && p.HandsValid() && h.Valid()
    {
      split := SplitOff(h, p.seat, |p.hands|);
      TotalBetsAppend(p.hands, split);
      p.bank, p.hands := p.bank - h.bet as real, p.hands + [split];
    }

    /**
     * The cards of a split (main.py:264-267): pop the hand's last card, start
     * a new hand with it, the next card of the deck and the same bet, then
     * deal the hand the card after that.
     */
    method SplitOff(h: Hand, ghost seat: int, ghost slot: int) returns (split: Hand)
      requires h.cards != [] && 2 <= |deck.allCards|
      modifies deck`allCards, h`cards, h`values, h`maxNonBustValue, h`isBust, h`isBlackjack
      ensures var D, c := old(deck.allCards), old(h.cards);
              && deck.allCards == D[..|D| - 2]
              && h.cards == c[..|c| - 1] + [D[|D| - 2]]
              && split.cards == [c[|c| - 1], D[|D| - 1]]
      ensures fresh(split) && split.Valid() && h.Valid()
      ensures split.bet == h.bet && split.seat == seat && split.slot == slot
    {
      var splitCard := h.PopCard();
      var dealt := deck.DealCards(1);
      split := new Hand([splitCard] + dealt, h.bet, seat, slot);
      DealTo(h);
    }

    /** One pass of init_bets' loop (main.py:227-233), for player p. */
    method PlaceBet(p: Player, first: Hand, answers: seq<int>)
      requires BetAvailable(p.bank, answers)
      modifies p`bank, first`bet
      ensures var bet := AcceptedBet(old(p.bank), answers);
              && p.bank == old(p.bank) - bet as real
              && p.bank >= 0.0
              && first.bet == old(first.bet) + bet
    {
      AcceptedBetCovered(p.bank, answers);
      var bet, _ := AskBet(p.bank, answers);
      first.AddBet(bet);
      p.bank := p.bank - bet as real;
    }
  }
}
