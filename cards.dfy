/** Cards and the dealing shoe of the blackjack table (main.py:8-51). */
module Cards {

  /** The thirteen ranks, in the order of the RANKS constant (main.py:8). */
  datatype Rank = Two | Three | Four | Five | Six | Seven | Eight | Nine | Ten
                | Jack | Queen | King | Ace

  /** The four suits ♣ ♢ ♡ ♠, in the order of the SUITS constant (main.py:9). */
  datatype Suit = Clubs | Diamonds | Hearts | Spades

  /** A card is an immutable rank/suit pair (main.py:12-20). */
  datatype Card = Card(rank: Rank, suit: Suit)

  const Ranks: seq<Rank> := [Two, Three, Four, Five, Six, Seven, Eight, Nine, Ten,
                             Jack, Queen, King, Ace]
  const Suits: seq<Suit> := [Clubs, Diamonds, Hearts, Spades]

  /** Position of a rank in Ranks. */
  function RankIndex(r: Rank): (i: nat)
    ensures i < |Ranks| && Ranks[i] == r
  {
    match r
    case Two => 0 case Three => 1 case Four => 2 case Five => 3 case Six => 4
    case Seven => 5 case Eight => 6 case Nine => 7 case Ten => 8
    case Jack => 9 case Queen => 10 case King => 11 case Ace => 12
  }

  /** Position of a suit in Suits. */
  function SuitIndex(s: Suit): (i: nat)
    ensures i < |Suits| && Suits[i] == s
  {
    match s
    case Clubs => 0 case Diamonds => 1 case Hearts => 2 case Spades => 3
  }

  /** Ranks lists every rank once: the index of its i-th entry is i. */
  lemma RanksDistinct(i: nat)
    requires i < |Ranks|
    ensures RankIndex(Ranks[i]) == i
  {
  }

  /** Suits lists every suit once: the index of its i-th entry is i. */
  lemma SuitsDistinct(i: nat)
    requires i < |Suits|
    ensures SuitIndex(Suits[i]) == i
  {
  }

  /**
   * The unshuffled deck: the Cartesian product of Ranks and Suits, rank-major,
   * as itertools.product builds it (main.py:36).
   */
  function FullDeck(): (d: seq<Card>)
    ensures |d| == |Ranks| * |Suits|
  {
    seq(52, i requires 0 <= i < 52 => Card(Ranks[i / 4], Suits[i % 4]))
  }

  /** The position at which a card sits in the unshuffled deck. */
  lemma FullDeckAt(c: Card)
    ensures var i := RankIndex(c.rank) * 4 + SuitIndex(c.suit);
            i < |FullDeck()| && FullDeck()[i] == c
  {
    var r, s := RankIndex(c.rank), SuitIndex(c.suit);
    var i := r * 4 + s;
    assert i / 4 == r && i % 4 == s;
  }

  /** A fresh deck holds every one of the 52 rank/suit cards ... */
  lemma FullDeckComplete(c: Card)
    ensures c in FullDeck()
  {
    FullDeckAt(c);
  }

  /** ... and each of them exactly once. */
  lemma FullDeckDistinct(i: nat, j: nat)
    requires i < j < |FullDeck()|
    ensures FullDeck()[i] != FullDeck()[j]
  {
    RanksDistinct(i / 4);
    RanksDistinct(j / 4);
    SuitsDistinct(i % 4);
    SuitsDistinct(j % 4);
    assert i == (i / 4) * 4 + i % 4 && j == (j / 4) * 4 + j % 4;
  }

  /**
   * The n cards that n pops off the end of a list return, in the order they
   * come off: the last card first.
   */
  function Drawn(s: seq<Card>, n: nat): (r: seq<Card>)
    requires n <= |s|
    ensures |r| == n
  {
    seq(n, i requires 0 <= i < n => s[|s| - 1 - i])
  }

  /** Dealing loses no card and makes none up: what is dealt plus what is left is the old deck. */
  lemma {:induction false} DrawnConserves(s: seq<Card>, n: nat)
    requires n <= |s|
    ensures multiset(Drawn(s, n)) + multiset(s[..|s| - n]) == multiset(s)
  {
    if n > 0 {
      DrawnConserves(s, n - 1);
      var k := |s| - n;
      assert Drawn(s, n) == Drawn(s, n - 1) + [s[k]];
      assert s[..k + 1] == s[..k] + [s[k]];
    } else {
      assert s[..|s|] == s;
    }
  }

  /** The shoe (main.py:26-47). */
  class Deck {
    var allCards: seq<Card>

    /** A new deck holds the unshuffled 52 cards (main.py:36-37). */
    constructor ()
      ensures allCards == FullDeck()
    {
      allCards := FullDeck();
    }

    /**
     * Shuffles in place (main.py:39-41). The random permutation is supplied
     * by the caller as the order the cards end up in.
     */
    method ShuffleDeck(order: seq<Card>)
      requires multiset(order) == multiset(allCards)
      modifies this`allCards
      ensures allCards == order
    {
      allCards := order;
    }

    /** Pops n cards off the end of the list, one at a time (main.py:43-47). */
    method DealCards(n: nat) returns (dealt: seq<Card>)
      requires n <= |allCards|
      modifies this`allCards
      ensures allCards == old(allCards)[..|old(allCards)| - n]
      ensures dealt == Drawn(old(allCards), n)
    {
      dealt := [];
      for k := 0 to n
        invariant allCards == old(allCards)[..|old(allCards)| - k]
        invariant dealt == Drawn(old(allCards), k)
      {
        dealt := dealt + [allCards[|allCards| - 1]];
        allCards := allCards[..|allCards| - 1];
      }
    }
  }
}
