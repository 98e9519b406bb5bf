/**
 * Hand valuation (Hand.compute_card_values and Hand.process_hand,
 * main.py:93-123): the sorted list of every total a hand's Aces allow, the
 * best total that does not exceed 21, and the bust and twenty-one tests.
 */
module Valuation {
  import opened Cards

  /** Points of a non-Ace rank: numerals their number, J, Q and K ten (main.py:111). */
  function PipValue(r: Rank): (v: nat)
    requires r != Ace
    ensures 2 <= v <= 10
    ensures v == 10 <==> r in {Ten, Jack, Queen, King}
  {
    match r
    case Two => 2 case Three => 3 case Four => 4 case Five => 5 case Six => 6
    case Seven => 7 case Eight => 8 case Nine => 9
    case Ten => 10 case Jack => 10 case Queen => 10 case King => 10
  }

  /** Number of Aces in a hand (main.py:110). */
  function AceCount(cards: seq<Card>): nat
  {
    if cards == [] then 0
    else (if cards[0].rank == Ace then 1 else 0) + AceCount(cards[1..])
  }

  /** The Aces are some of the cards, and there are none exactly when no card is an Ace. */
  lemma {:induction false} AceCountBounds(cards: seq<Card>)
    ensures AceCount(cards) <= |cards|
    ensures AceCount(cards) == 0 <==> forall i :: 0 <= i < |cards| ==> cards[i].rank != Ace
  {
    if cards != [] {
      AceCountBounds(cards[1..]);
      assert forall i :: 1 <= i < |cards| ==> cards[i] == cards[1..][i - 1];
    }
  }

  /** Sum of the non-Ace cards (main.py:109, 111). */
  function NonAceValue(cards: seq<Card>): nat
  {
    if cards == [] then 0
    else (if cards[0].rank == Ace then 0 else PipValue(cards[0].rank)) + NonAceValue(cards[1..])
  }

  /** Each non-Ace card is worth between 2 and 10. */
  lemma {:induction false} NonAceValueBounds(cards: seq<Card>)
    ensures 2 * (|cards| - AceCount(cards)) <= NonAceValue(cards) <= 10 * (|cards| - AceCount(cards))
  {
    if cards != [] {
      NonAceValueBounds(cards[1..]);
    }
  }

  /**
   * The distinct sums k Aces make when each counts 1 or 11: the set that the
   * sums of permutations([1, 11] * k, k) collapse to (main.py:113-118), with
   * j the number of Aces counted as 1. No Aces gives {0}, as at main.py:118.
   */
  function AceSums(k: nat): (r: set<int>)
    ensures k in r && 11 * k in r
    ensures forall v :: v in r ==> k <= v <= 11 * k
  {
    var r := set j | 0 <= j <= k :: j * 1 + (k - j) * 11;
    assert k * 1 + (k - k) * 11 in r && 0 * 1 + (k - 0) * 11 in r;
    r
  }

  /**
   * `values` after compute_card_values (main.py:120-121): the Ace sums plus
   * the non-Ace value, ascending. Entry i counts i Aces as 11.
   */
  function Values(cards: seq<Card>): (vs: seq<int>)
  {
    var k := AceCount(cards);
    var base := NonAceValue(cards);
    seq(k + 1, i requires 0 <= i <= k => base + k + 10 * i)
  }

  /** The hard total: every Ace counted as 1. */
  function HardTotal(cards: seq<Card>): nat
  {
    NonAceValue(cards) + AceCount(cards)
  }

  /** A sequence is strictly ascending, hence sorted and free of duplicates. */
  predicate StrictlyAscending(s: seq<int>)
  {
    forall i, j :: 0 <= i < j < |s| ==> s[i] < s[j]
  }

  /** The elements of a sequence, as a set. */
  function Elements(s: seq<int>): set<int>
  {
    set v | v in s
  }

  /** Entry i of `values` counts i of the k Aces as 11. */
  lemma ValuesAt(cards: seq<Card>, i: int)
    requires 0 <= i <= AceCount(cards)
    ensures |Values(cards)| == AceCount(cards) + 1
    ensures Values(cards)[i] == HardTotal(cards) + 10 * i
  {
  }

  /**
   * `values` is sorted, duplicate-free, has k + 1 entries for k Aces with
   * neighbours 10 apart, and starts at the hard total.
   */
  lemma ValuesShape(cards: seq<Card>)
    ensures var vs, k := Values(cards), AceCount(cards);
            && |vs| == k + 1
            && StrictlyAscending(vs)
            && (forall i :: 0 <= i < k ==> vs[i + 1] == vs[i] + 10)
            && vs[0] == HardTotal(cards)
  {
    var vs, k := Values(cards), AceCount(cards);
    forall i, j | 0 <= i < j < |vs| ensures vs[i] < vs[j] {
      ValuesAt(cards, i);
      ValuesAt(cards, j);
    }
    forall i | 0 <= i < k ensures vs[i + 1] == vs[i] + 10 {
      ValuesAt(cards, i);
      ValuesAt(cards, i + 1);
    }
    ValuesAt(cards, 0);
  }

  /** The non-Ace value plus each Ace sum: the set sorted() is given (main.py:120). */
  function ValueSet(cards: seq<Card>): set<int>
  {
    set a | a in AceSums(AceCount(cards)) :: NonAceValue(cards) + a
  }

  /** `values` holds exactly the non-Ace value plus each Ace sum (main.py:113-121). */
  lemma ValuesElements(cards: seq<Card>)
    ensures Elements(Values(cards)) == ValueSet(cards)
  {
    var vs, k, base := Values(cards), AceCount(cards), NonAceValue(cards);
    forall v | v in Elements(vs) ensures v in ValueSet(cards) {
      var i :| 0 <= i < |vs| && vs[i] == v;
      ValuesAt(cards, i);
      var j := k - i;
      var a := j * 1 + (k - j) * 11;
      assert a in AceSums(k);
      assert v == base + a;
    }
    forall v | v in ValueSet(cards) ensures v in Elements(vs) {
      var a :| a in AceSums(k) && v == base + a;
      var j :| 0 <= j <= k && a == j * 1 + (k - j) * 11;
      ValuesAt(cards, k - j);
      assert vs[k - j] == v;
    }
  }

  /** The first entry of a non-empty list is one of its elements. */
  lemma FirstIsElement(s: seq<int>)
    ensures s != [] ==> s[0] in Elements(s)
  {
  }

  /**
   * A sorted, duplicate-free list is determined by its elements, so Values is
   * the one list that sorted() returns for the set of sums (main.py:121).
   */
  lemma {:induction false} SortedListIsUnique(a: seq<int>, b: seq<int>)
    requires StrictlyAscending(a) && StrictlyAscending(b)
    requires Elements(a) == Elements(b)
    ensures a == b
  {
    FirstIsElement(a);
    FirstIsElement(b);
    if a != [] && b != [] {
      assert a[0] in Elements(b) && b[0] in Elements(a);
      assert a[0] == b[0] by {
        var i :| 0 <= i < |b| && b[i] == a[0];
        var j :| 0 <= j < |a| && a[j] == b[0];
        assert b[0] <= a[0] && a[0] <= b[0];
      }
      forall v | v in Elements(a[1..]) ensures v in Elements(b[1..]) {
        var i :| 1 <= i < |a| && a[i] == v;
        assert v in Elements(a);
        var j :| 0 <= j < |b| && b[j] == v;
        assert j != 0;
        assert b[1..][j - 1] == v;
      }
      forall v | v in Elements(b[1..]) ensures v in Elements(a[1..]) {
        var i :| 1 <= i < |b| && b[i] == v;
        assert v in Elements(b);
        var j :| 0 <= j < |a| && a[j] == v;
        assert j != 0;
        assert a[1..][j - 1] == v;
      }
      SortedListIsUnique(a[1..], b[1..]);
      assert a == [a[0]] + a[1..] && b == [b[0]] + b[1..];
    }
  }

  /** The entries of a list that do not exceed 21, in order (main.py:122). */
  function NonBust(vs: seq<int>): seq<int>
  {
    if vs == [] then []
    else (if vs[0] <= 21 then [vs[0]] else []) + NonBust(vs[1..])
  }

  /** The filter keeps exactly the entries not above 21. */
  lemma {:induction false} NonBustMembers(vs: seq<int>)
    ensures forall v :: v in NonBust(vs) <==> v in vs && v <= 21
  {
    if vs != [] {
      NonBustMembers(vs[1..]);
      assert vs == [vs[0]] + vs[1..];
    }
  }

  /** Python's max over a non-empty list. */
  function Max(s: seq<int>): int
    requires s != []
  {
    if |s| == 1 then s[0]
    else
      var rest := Max(s[1..]);
      if s[0] < rest then rest else s[0]
  }

  /** Max returns an element that no element exceeds. */
  lemma {:induction false} MaxIsLargest(s: seq<int>)
    requires s != []
    ensures Max(s) in s
    ensures forall v :: v in s ==> v <= Max(s)
  {
    if |s| > 1 {
      MaxIsLargest(s[1..]);
      assert s == [s[0]] + s[1..];
    }
  }

  /**
   * max_non_bust_value (main.py:122-123): the largest entry not above 21, or
   * 0 when every entry is above 21.
   */
  function MaxNonBust(vs: seq<int>): int
  {
    var under := NonBust(vs);
    if under == [] then 0 else Max(under)
  }

  /** MaxNonBust is 0 on an all-bust list, else the largest entry not above 21. */
  lemma MaxNonBustSpec(vs: seq<int>)
    ensures (forall v :: v in vs ==> v > 21) ==> MaxNonBust(vs) == 0
    ensures (exists v :: v in vs && v <= 21) ==>
              var m := MaxNonBust(vs);
              m in vs && m <= 21 && forall v :: v in vs && v <= 21 ==> v <= m
  {
    var under := NonBust(vs);
    NonBustMembers(vs);
    if under != [] {
      MaxIsLargest(under);
    } else {
      assert forall v :: v in vs ==> v > 21;
    }
  }

  /** is_bust (main.py:98): every entry of `values` exceeds 21. */
  predicate AllBust(vs: seq<int>)
  {
    forall v :: v in vs ==> v > 21
  }

  /** The best total of a hand. */
  function BestTotal(cards: seq<Card>): int
  {
    MaxNonBust(Values(cards))
  }

  /** A hand is bust exactly when its hard total exceeds 21. */
  lemma BustIffHardTotalOver21(cards: seq<Card>)
    ensures AllBust(Values(cards)) <==> HardTotal(cards) > 21
  {
    ValuesShape(cards);
    var vs := Values(cards);
    if HardTotal(cards) > 21 {
      forall v | v in vs ensures v > 21 {
        var i :| 0 <= i < |vs| && vs[i] == v;
        assert vs[0] <= vs[i];
      }
    } else {
      assert vs[0] in vs;
    }
  }

  /**
   * The best total is 0 exactly when the hand is bust or empty; otherwise it
   * lies between the hard total and 21.
   */
  lemma BestTotalRange(cards: seq<Card>)
    ensures AllBust(Values(cards)) ==> BestTotal(cards) == 0
    ensures !AllBust(Values(cards)) ==> HardTotal(cards) <= BestTotal(cards) <= 21
    ensures BestTotal(cards) == 0 <==> cards == [] || AllBust(Values(cards))
  {
    ValuesShape(cards);
    var vs := Values(cards);
    BustIffHardTotalOver21(cards);
    MaxNonBustSpec(vs);
    if !AllBust(vs) {
      assert vs[0] in vs && vs[0] <= 21;
    }
    if cards != [] {
      assert HardTotal(cards) >= 1 by { HardTotalBounds(cards); }
    } else {
      assert vs == [0];
    }
  }

  /** Every card adds at least 1 and at most 10 to the hard total. */
  lemma {:induction false} HardTotalBounds(cards: seq<Card>)
    ensures |cards| <= HardTotal(cards) <= 10 * |cards|
  {
    AceCountBounds(cards);
    NonAceValueBounds(cards);
  }

  /** Hard totals add up over concatenated hands. */
  lemma {:induction false} HardTotalAppend(a: seq<Card>, b: seq<Card>)
    ensures HardTotal(a + b) == HardTotal(a) + HardTotal(b)
    ensures AceCount(a + b) == AceCount(a) + AceCount(b)
  {
    if a == [] {
      assert a + b == b;
    } else {
      HardTotalAppend(a[1..], b);
      assert (a + b)[1..] == a[1..] + b;
    }
  }

  /** A drawn card raises the hard total by at least 1. */
  lemma DrawRaisesHardTotal(cards: seq<Card>, c: Card)
    ensures HardTotal(cards) + 1 <= HardTotal(cards + [c]) <= HardTotal(cards) + 10
  {
    HardTotalAppend(cards, [c]);
    HardTotalBounds([c]);
  }

  /** No Aces: the single value is the plain rank sum. An empty hand is [0]. */
  lemma NoAcesSingleValue(cards: seq<Card>)
    requires forall i :: 0 <= i < |cards| ==> cards[i].rank != Ace
    ensures Values(cards) == [NonAceValue(cards)]
    ensures cards == [] ==> Values(cards) == [0]
  {
    AceCountBounds(cards);
    ValuesAt(cards, 0);
  }

  /** A two-card hand is never bust: its hard total is at most 20. */
  lemma TwoCardsNeverBust(cards: seq<Card>)
    requires |cards| == 2
    ensures !AllBust(Values(cards))
    ensures 0 < BestTotal(cards)
  {
    HardTotalBounds(cards);
    BustIffHardTotalOver21(cards);
    BestTotalRange(cards);
  }

  /** A hand holding 21 among its values is not bust. */
  lemma TwentyOneNotBust(cards: seq<Card>)
    requires 21 in Values(cards)
    ensures !AllBust(Values(cards)) && BestTotal(cards) == 21
  {
    MaxNonBustSpec(Values(cards));
  }

  /** A rank worth ten points. */
  predicate TenValued(r: Rank)
  {
    r in {Ten, Jack, Queen, King}
  }

  /** Two cards make 21 exactly when one is an Ace and the other is worth ten. */
  lemma NaturalIff(c1: Card, c2: Card)
    ensures 21 in Values([c1, c2]) <==>
              (c1.rank == Ace && TenValued(c2.rank)) || (c2.rank == Ace && TenValued(c1.rank))
  {
    var cards := [c1, c2];
    PairCounts(c1, c2);
    var vs := Values(cards);
    ValuesShape(cards);
    if 21 in vs {
      var i :| 0 <= i < |vs| && vs[i] == 21;
      ValuesAt(cards, i);
    }
    if c1.rank == Ace && TenValued(c2.rank) {
      ValuesAt(cards, 1);
    }
    if c2.rank == Ace && TenValued(c1.rank) {
      ValuesAt(cards, 1);
    }
  }

  /**
   * Values is the list sorted(set(...)) produces: any sorted, duplicate-free
   * list of the non-Ace value plus each Ace sum is Values (main.py:113-121).
   */
  lemma ValuesIsSortedValueSet(cards: seq<Card>, sorted: seq<int>)
    requires StrictlyAscending(sorted) && Elements(sorted) == ValueSet(cards)
    ensures sorted == Values(cards)
  {
    ValuesShape(cards);
    ValuesElements(cards);
    SortedListIsUnique(sorted, Values(cards));
  }

  /** Ace count and non-Ace value of a two-card hand. */
  lemma PairCounts(c1: Card, c2: Card)
    ensures AceCount([c1, c2]) == (if c1.rank == Ace then 1 else 0) + (if c2.rank == Ace then 1 else 0)
    ensures NonAceValue([c1, c2]) == (if c1.rank == Ace then 0 else PipValue(c1.rank))
                                     + (if c2.rank == Ace then 0 else PipValue(c2.rank))
  {
    var cards := [c1, c2];
    assert cards[1..] == [c2] && [c2][1..] == [];
    assert AceCount([c2]) == (if c2.rank == Ace then 1 else 0);
    assert NonAceValue([c2]) == (if c2.rank == Ace then 0 else PipValue(c2.rank));
  }

  /** Two Aces: values 2, 12 and 22, best total 12, not bust, not twenty-one. */
  lemma PairOfAces(s1: Suit, s2: Suit)
    ensures var cards := [Card(Ace, s1), Card(Ace, s2)];
            && Values(cards) == [2, 12, 22]
            && BestTotal(cards) == 12 && !AllBust(Values(cards)) && 21 !in Values(cards)
  {
    var cards := [Card(Ace, s1), Card(Ace, s2)];
    PairCounts(cards[0], cards[1]);
    ValuesAt(cards, 0);
    ValuesAt(cards, 1);
    ValuesAt(cards, 2);
    var vs := Values(cards);
    assert vs == [2, 12, 22];
    MaxNonBustSpec(vs);
    assert 12 in vs;
  }

  /** Ace and King: values 11 and 21, so twenty-one on two cards. */
  lemma AceKing(s1: Suit, s2: Suit)
    ensures Values([Card(Ace, s1), Card(King, s2)]) == [11, 21]
  {
    var cards := [Card(Ace, s1), Card(King, s2)];
    PairCounts(cards[0], cards[1]);
    ValuesAt(cards, 0);
    ValuesAt(cards, 1);
  }

  /** King, Queen and Five: the single value 25, bust, best total 0. */
  lemma KingQueenFive(s1: Suit, s2: Suit, s3: Suit)
    ensures var cards := [Card(King, s1), Card(Queen, s2), Card(Five, s3)];
            && Values(cards) == [25] && AllBust(Values(cards)) && BestTotal(cards) == 0
  {
    var cards := [Card(King, s1), Card(Queen, s2), Card(Five, s3)];
    PairCounts(cards[0], cards[1]);
    HardTotalAppend([cards[0], cards[1]], [cards[2]]);
    assert [cards[0], cards[1]] + [cards[2]] == cards;
    assert [cards[2]][1..] == [];
    ValuesAt(cards, 0);
    MaxNonBustSpec(Values(cards));
  }

  /** Ace and Six: a soft 17 is a best total of 17. */
  lemma SoftSeventeen(s1: Suit, s2: Suit)
    ensures BestTotal([Card(Ace, s1), Card(Six, s2)]) == 17
  {
    var cards := [Card(Ace, s1), Card(Six, s2)];
    PairCounts(cards[0], cards[1]);
    ValuesAt(cards, 0);
    ValuesAt(cards, 1);
    var vs := Values(cards);
    assert vs == [7, 17];
    MaxNonBustSpec(vs);
    assert 17 in vs;
  }
}
