/**
 * One hand's turn in play_round (main.py:245-273), on values: what each
 * decision does to the hand, its bet, its player's bank and the deck, and
 * which sequences of decisions make up a turn.
 */
module Turns {
  import opened Cards
  import opened Valuation
  import opened Rules

  /**
   * A hand during its turn together with what a decision touches besides
   * it: its cards, blackjack flag and bet, the player's bank and the deck.
   */
  datatype TurnState = TurnState(cards: seq<Card>, blackjack: bool, bet: int, bank: real, deck: seq<Card>)

  /** The blackjack flag after process_hand (main.py:99-100): reassigned only on two cards. */
  function Reflagged(cards: seq<Card>, flag: bool): bool
  {
    if |cards| == 2 then 21 in Values(cards) else flag
  }

  /** The decision is offered to the hand and the deck holds the cards it needs. */
  predicate CanTake(s: TurnState, d: Decision)
  {
    d in OfferedDecisions(s.bank, s.bet, s.cards) && CardsNeeded(d) <= |s.deck|
  }

  /**
   * What one decision does (main.py:251-270). Stand changes nothing. Hit
   * deals the deck's last card to the hand. Double pays the bet again,
   * doubles it and deals one card. Split pops the hand's last card for a
   * new hand, which takes the deck's last card (SplitCards); the hand then
   * takes the next card and the bank pays the bet again.
   */
  function Step(s: TurnState, d: Decision): (r: TurnState)
    requires CanTake(s, d)
    ensures r.deck == s.deck[..|s.deck| - CardsNeeded(d)]
    ensures r.bank + r.bet as real + (if d == Split then s.bet as real else 0.0) == s.bank + s.bet as real
    ensures s.bank >= 0.0 ==> r.bank >= 0.0
    ensures d != Double ==> r.bet == s.bet
  {
    var D, n := s.deck, |s.deck|;
    match d
    case Stand => s
    case Hit =>
      var c := s.cards + [D[n - 1]];
      TurnState(c, Reflagged(c, s.blackjack), s.bet, s.bank, D[..n - 1])
    case Double =>
      var c := s.cards + [D[n - 1]];
      TurnState(c, Reflagged(c, s.blackjack), 2 * s.bet, s.bank - s.bet as real, D[..n - 1])
    case Split =>
      var c := s.cards[..|s.cards| - 1] + [D[n - 2]];
      TurnState(c, Reflagged(c, s.blackjack), s.bet, s.bank - s.bet as real, D[..n - 2])
  }

  /** The cards of the hand a split starts (main.py:264-265): the popped card, then the deck's last card. */
  function SplitCards(s: TurnState): seq<Card>
    requires s.cards != [] && s.deck != []
  {
    [s.cards[|s.cards| - 1], s.deck[|s.deck| - 1]]
  }

  /**
   * A decision moves cards and creates none: the hand, the deck and the
   * new hand of a split hold together the cards the hand and the deck held.
   */
  lemma StepConservesCards(s: TurnState, d: Decision)
    requires CanTake(s, d)
    ensures var r := Step(s, d);
            multiset(r.cards) + multiset(r.deck) + (if d == Split then multiset(SplitCards(s)) else multiset{})
            == multiset(s.cards) + multiset(s.deck)
  {
    var D, n, c := s.deck, |s.deck|, s.cards;
    if d != Stand {
      assert D == D[..n - 1] + [D[n - 1]];
    }
    if d == Split {
      assert c == c[..1] + [c[1]];
      assert D[..n - 1] == D[..n - 2] + [D[n - 2]];
    }
  }

  /** The loop condition of play_round (main.py:273): after d the hand is done. */
  predicate Ends(s: TurnState, d: Decision)
  {
    EndsTurn(d) || AllBust(Values(s.cards)) || s.blackjack
  }

  /**
   * Where the decisions ds take a turn that starts in s: each one in turn
   * is offered and has its cards, and none but the last ends the turn.
   * None when ds cannot be such a turn.
   */
  function Run(s: TurnState, ds: seq<Decision>): (r: Option<TurnState>)
    ensures r.Some? ==> r.value.deck <= s.deck
    ensures r.Some? && s.bank >= 0.0 ==> r.value.bank >= 0.0
    ensures ds == [] ==> r == Some(s)
  {
    if ds == [] then Some(s)
    else
      var before, d := ds[..|ds| - 1], ds[|ds| - 1];
      match Run(s, before)
      case None => None
      case Some(t) =>
        if (before != [] && Ends(t, before[|before| - 1])) || !CanTake(t, d) then None
        else Some(Step(t, d))
  }

  /** A turn extended by one more decision, taken where the turn stands and did not end. */
  lemma RunAppend(s: TurnState, ds: seq<Decision>, d: Decision)
    requires Run(s, ds).Some?
    requires ds != [] ==> !Ends(Run(s, ds).value, ds[|ds| - 1])
    requires CanTake(Run(s, ds).value, d)
    ensures Run(s, ds + [d]) == Some(Step(Run(s, ds).value, d))
  {
  }

  /**
   * Every decision of a turn but the last is a hit or a split, and leaves
   * the hand neither bust nor flagged blackjack: otherwise the turn would
   * have ended there (main.py:245-273).
   */
  lemma {:induction false} RunContinues(s: TurnState, ds: seq<Decision>, k: nat)
    requires Run(s, ds).Some? && k < |ds| - 1
    ensures ds[k] in {Hit, Split}
    ensures Run(s, ds[..k + 1]).Some?
    ensures var t := Run(s, ds[..k + 1]).value;
            !AllBust(Values(t.cards)) && !t.blackjack
  {
    var before := ds[..|ds| - 1];
    assert before[..k + 1] == ds[..k + 1];
    if k < |before| - 1 {
      RunContinues(s, before, k);
    } else {
      assert before == ds[..k + 1];
    }
  }

  /** How far play got: to the end, or until the answers or the cards ran out. */
  datatype RoundStatus = Complete | OutOfAnswers | DeckExhausted

  /**
   * Where a turn stopped: the state it left, the decisions carried out, the
   * position after the answers read, the position where its last prompt
   * began (after its last answer when the turn ended), and why it stopped.
   */
  datatype TurnEnd = TurnEnd(last: TurnState, trace: seq<Decision>, read: nat, asked: nat, status: RoundStatus)

  /**
   * The while loop of play_round on one hand (main.py:247-273), driven by the
   * answers from position from on: the prompt takes the first offered answer
   * (main.py:287-290); with none left the turn waits for input, and with too
   * few cards for the answer the deck is exhausted; otherwise the decision is
   * carried out, and the turn goes on from the next answer unless Ends says
   * it is over (main.py:273).
   */
  function TurnFrom(s: TurnState, answers: seq<Decision>, from: nat): (e: TurnEnd)
    requires from <= |answers|
    ensures from <= e.read <= |answers|
    ensures e.status == Complete ==> from < e.read
    decreases |answers| - from
  {
    var r := NextOffered(OfferedDecisions(s.bank, s.bet, s.cards), answers, from);
    match r.answer
    case None => TurnEnd(s, [], r.read, from, OutOfAnswers)
    case Some(d) =>
      if |s.deck| < CardsNeeded(d) then TurnEnd(s, [], r.read, from, DeckExhausted)
      else
        var t := Step(s, d);
        if Ends(t, d) then TurnEnd(t, [d], r.read, r.read, Complete)
        else Resume([d], TurnFrom(t, answers, r.read))
  }

  /** The end of a turn that resumed after the decisions taken, which go in front of its trace. */
  function Resume(taken: seq<Decision>, e: TurnEnd): TurnEnd
  {
    e.(trace := taken + e.trace)
  }

  lemma ResumeTwice(taken: seq<Decision>, d: Decision, e: TurnEnd)
    ensures Resume(taken, Resume([d], e)) == Resume(taken + [d], e)
  {
  }

  /** A turn that goes on after its first decision runs as that decision followed by the rest. */
  lemma {:induction false} RunPrepend(s: TurnState, d: Decision, ds: seq<Decision>)
    requires CanTake(s, d) && !Ends(Step(s, d), d)
    ensures Run(s, [d] + ds) == Run(Step(s, d), ds)
    decreases |ds|
  {
    if ds == [] {
      assert [d] + ds == [d];
      assert [d][..0] == [];
    } else {
      var before := ds[..|ds| - 1];
      assert ([d] + ds)[..|ds|] == [d] + before && ([d] + ds)[|ds|] == ds[|ds| - 1];
      RunPrepend(s, d, before);
      if before != [] {
        assert ([d] + before)[|before|] == before[|before| - 1];
      }
    }
  }

  /**
   * The decisions TurnFrom carries out make a turn that Run accepts and that
   * leads to the state the turn stops in; the turn completes exactly when its
   * last decision ended it, and otherwise stopped before a decision that did.
   */
  lemma {:induction false} TurnFromRuns(s: TurnState, answers: seq<Decision>, from: nat)
    requires from <= |answers|
    ensures var e := TurnFrom(s, answers, from);
            && Run(s, e.trace) == Some(e.last)
            && (e.status == Complete <==> e.trace != [] && Ends(e.last, e.trace[|e.trace| - 1]))
            && (e.status != Complete ==> e.trace == [] || !Ends(e.last, e.trace[|e.trace| - 1]))
    decreases |answers| - from
  {
    var r := NextOffered(OfferedDecisions(s.bank, s.bet, s.cards), answers, from);
    if r.answer.Some? && CardsNeeded(r.answer.value) <= |s.deck| {
      var d := r.answer.value;
      var t := Step(s, d);
      if Ends(t, d) {
        assert [d][..0] == [];
      } else {
        TurnFromRuns(t, answers, r.read);
        var rest := TurnFrom(t, answers, r.read);
        RunPrepend(s, d, rest.trace);
        if rest.trace != [] {
          assert ([d] + rest.trace)[|rest.trace|] == rest.trace[|rest.trace| - 1];
        }
      }
    }
  }

  /**
   * Where TurnFrom stops, read against the answers: a completed turn's last
   * prompt ended with its last answer; when the answers ran out, none from
   * where the last prompt began is offered to the hand; when the deck ran
   * out, the last answer read is the first one offered from there and needs
   * more cards than are left. Stand is always offered, so no answer read
   * before the turn's last one is a stand.
   */
  lemma {:induction false} TurnFromStops(s: TurnState, answers: seq<Decision>, from: nat)
    requires from <= |answers|
    ensures var e := TurnFrom(s, answers, from);
            && from <= e.asked <= e.read
            && (e.status == Complete ==> e.asked == e.read)
            && (e.status == OutOfAnswers ==>
                  FirstOffered(OfferedDecisions(e.last.bank, e.last.bet, e.last.cards), answers, e.asked, None, e.read))
            && (e.status == DeckExhausted ==>
                  && e.asked < e.read
                  && FirstOffered(OfferedDecisions(e.last.bank, e.last.bet, e.last.cards), answers, e.asked,
                                  Some(answers[e.read - 1]), e.read)
                  && |e.last.deck| < CardsNeeded(answers[e.read - 1]))
            && NoStandIn(answers, from, if e.status == Complete then e.read - 1 else e.read)
    decreases |answers| - from
  {
    var r := NextOffered(OfferedDecisions(s.bank, s.bet, s.cards), answers, from);
    if r.answer.Some? && CardsNeeded(r.answer.value) <= |s.deck| {
      var d := r.answer.value;
      var t := Step(s, d);
      if !Ends(t, d) {
        TurnFromStops(t, answers, r.read);
        var rest := TurnFrom(t, answers, r.read);
        NoStandJoin(answers, from, r.read, if rest.status == Complete then rest.read - 1 else rest.read);
      }
    }
  }

  /**
   * What a turn that stopped at t tells of t: the decisions taken lead to
   * it, the deck only lost cards and a bank at zero or above stays there;
   * a complete turn ended on its last decision, one out of answers was
   * offered none of them from asked on, and one out of cards stopped at a
   * decision the deck could not serve.
   */
  lemma TurnEndFacts(s: TurnState, answers: seq<Decision>, from: nat,
                     t: TurnState, trace: seq<Decision>, read: nat, asked: nat, status: RoundStatus)
    requires from <= |answers| && TurnFrom(s, answers, from) == TurnEnd(t, trace, read, asked, status)
    ensures Run(s, trace) == Some(t) && t.deck <= s.deck && (s.bank >= 0.0 ==> t.bank >= 0.0)
    ensures status == Complete ==> trace != [] && Ends(t, trace[|trace| - 1])
    ensures status == OutOfAnswers ==>
              && read == |answers| && asked <= |answers|
              && forall q :: asked <= q < |answers| ==> answers[q] !in OfferedDecisions(t.bank, t.bet, t.cards)
    ensures status == DeckExhausted ==> from < read && |t.deck| < CardsNeeded(answers[read - 1])
  {
    TurnFromRuns(s, answers, from);
    TurnEndStops(s, answers, from, t, trace, read, asked, status);
  }

  /** The part of TurnEndFacts that speaks of a turn that completed. */
  lemma TurnEndComplete(s: TurnState, answers: seq<Decision>, from: nat,
                        t: TurnState, trace: seq<Decision>, read: nat, asked: nat)
    requires from <= |answers| && TurnFrom(s, answers, from) == TurnEnd(t, trace, read, asked, Complete)
    ensures trace != [] && Ends(t, trace[|trace| - 1])
  {
    TurnFromRuns(s, answers, from);
  }

  /** The part of TurnEndFacts that speaks of the answers left when the turn stopped. */
  lemma TurnEndStops(s: TurnState, answers: seq<Decision>, from: nat,
                     t: TurnState, trace: seq<Decision>, read: nat, asked: nat, status: RoundStatus)
    requires from <= |answers| && TurnFrom(s, answers, from) == TurnEnd(t, trace, read, asked, status)
    ensures status == OutOfAnswers ==>
              && read == |answers| && asked <= |answers|
              && forall q :: asked <= q < |answers| ==> answers[q] !in OfferedDecisions(t.bank, t.bet, t.cards)
    ensures status == DeckExhausted ==> from < read && |t.deck| < CardsNeeded(answers[read - 1])
  {
    TurnFromStops(s, answers, from);
    var e := TurnFrom(s, answers, from);
    var offered := OfferedDecisions(t.bank, t.bet, t.cards);
    if status == OutOfAnswers {
      assert FirstOffered(offered, answers, asked, None, read) by {
        assert e.status == OutOfAnswers && e.last == t && e.asked == asked && e.read == read;
      }
    } else if status == DeckExhausted {
      assert FirstOffered(offered, answers, asked, Some(answers[read - 1]), read) by {
        assert e.status == DeckExhausted && e.last == t && e.asked == asked && e.read == read;
      }
    }
  }

  /** A hand as play_round reads it: its cards, its blackjack flag and its bet. */
  datatype HandVal = HandVal(cards: seq<Card>, blackjack: bool, bet: int)

  /** The hand Hand(cards, bet=bet) starts as (main.py:68-82): flagged blackjack only on two cards holding 21. */
  function NewHand(cards: seq<Card>, bet: int): HandVal
  {
    HandVal(cards, |cards| == 2 && 21 in Values(cards), bet)
  }

  /**
   * The hands the splits of a turn append to the player's list, in order
   * (main.py:261-270): each holds the split cards of the state the split was
   * taken in, and that state's bet.
   */
  function SplitHands(s: TurnState, ds: seq<Decision>): seq<HandVal>
    decreases |ds|
  {
    if ds == [] then []
    else
      var before := ds[..|ds| - 1];
      SplitHands(s, before) + SplitAdds(Run(s, before), ds[|ds| - 1])
  }

  /** The hand a decision taken in state t appends: one for a split, none otherwise. */
  function SplitAdds(t: Option<TurnState>, d: Decision): seq<HandVal>
  {
    if t.Some? && d == Split && t.value.cards != [] && t.value.deck != [] then
      [NewHand(SplitCards(t.value), t.value.bet)]
    else []
  }

  lemma SplitHandsAppend(s: TurnState, ds: seq<Decision>, d: Decision)
    ensures SplitHands(s, ds + [d]) == SplitHands(s, ds) + SplitAdds(Run(s, ds), d)
  {
  }

  /** Bets change only on a double, which ends the turn: until then the bet is the one the turn began with. */
  lemma {:induction false} RunKeepsBet(s: TurnState, ds: seq<Decision>)
    requires Run(s, ds).Some?
    requires ds == [] || ds[|ds| - 1] != Double
    ensures Run(s, ds).value.bet == s.bet
  {
    if ds != [] {
      var before := ds[..|ds| - 1];
      if before != [] {
        assert before[|before| - 1] != Double;
      }
      RunKeepsBet(s, before);
    }
  }
}
