/** The value of a blackjack hand: Aces start at 11 and are demoted to 1,
    one at a time, while the total is over 21. */
module Scoring {
  import opened Cards

  /** The total a hand may reach without busting. */
  const Limit := 21

  /** What demoting one Ace from 11 to 1 takes off the total. */
  const AceDemotion := 10

  /** The sum of the card scores, every Ace counted as 11. */
  function RawSum(cards: seq<Score>): nat
  {
    if cards == [] then 0 else RawSum(cards[..|cards| - 1]) + cards[|cards| - 1]
  }

  /** The number of Aces among the cards. */
  function AceCount(cards: seq<Score>): nat
  {
    if cards == [] then 0
    else AceCount(cards[..|cards| - 1]) + (if cards[|cards| - 1] == AceScore then 1 else 0)
  }

  /** What a card adds when every Ace is counted as 1. */
  function LowScore(c: Score): nat
  {
    if c == AceScore then 1 else c
  }

  /** The "hard" total: every Ace counted as 1. */
  function HardTotal(cards: seq<Score>): nat
  {
    if cards == [] then 0 else HardTotal(cards[..|cards| - 1]) + LowScore(cards[|cards| - 1])
  }

  /** A hand's value together with the number of Aces still counted as 11. */
  datatype Valuation = Valuation(total: nat, highAces: nat)

  /** The demotion loop: while the total is over 21 and some Ace still counts
      11, take 10 off and count one high Ace fewer. */
  function Reduce(total: nat, aces: nat): (v: Valuation)
    ensures v.highAces <= aces
    ensures v.total + AceDemotion * (aces - v.highAces) == total
    ensures v.total <= Limit || v.highAces == 0
    ensures v.highAces < aces ==> v.total + AceDemotion > Limit
    decreases aces
  {
    if total > Limit && aces > 0 then Reduce(total - AceDemotion, aces - 1)
    else Valuation(total, aces)
  }

  /** The value of a hand: the raw sum reduced by demoting Aces. */
  function Valuate(cards: seq<Score>): (v: Valuation)
    ensures v.highAces <= AceCount(cards)
    ensures v.total + AceDemotion * (AceCount(cards) - v.highAces) == RawSum(cards)
    ensures v.total <= Limit || v.highAces == 0
    ensures v.highAces < AceCount(cards) ==> v.total + AceDemotion > Limit
  {
    Reduce(RawSum(cards), AceCount(cards))
  }

  /** The hand's total (the source's value(false)). */
  function Total(cards: seq<Score>): nat
  {
    Valuate(cards).total
  }

  /** The number of Aces still counted high (the source's value(true)). */
  function HighAces(cards: seq<Score>): nat
  {
    Valuate(cards).highAces
  }

  /** The hand is over 21. */
  predicate Bust(cards: seq<Score>)
  {
    Total(cards) > Limit
  }

  /** At least one Ace still counts as 11. */
  predicate Soft(cards: seq<Score>)
  {
    HighAces(cards) > 0
  }

  /** The raw sum is the hard total plus 10 for every Ace. */
  lemma {:induction false} RawSumIsHardPlusAces(cards: seq<Score>)
    ensures RawSum(cards) == HardTotal(cards) + AceDemotion * AceCount(cards)
  {
    if cards != [] {
      RawSumIsHardPlusAces(cards[..|cards| - 1]);
    }
  }

  /** Each high Ace adds exactly 10 on top of the hard total. */
  lemma {:induction false} TotalIsHardPlusHighAces(cards: seq<Score>)
    ensures Total(cards) == HardTotal(cards) + AceDemotion * HighAces(cards)
    ensures HardTotal(cards) <= Total(cards)
  {
    RawSumIsHardPlusAces(cards);
  }

  /** Every card adds at least 1 to the hard total. */
  lemma {:induction false} HardTotalAtLeastCount(cards: seq<Score>)
    ensures HardTotal(cards) >= |cards|
  {
    if cards != [] {
      HardTotalAtLeastCount(cards[..|cards| - 1]);
    }
  }

  /** Appending a card raises the hard total by that card's low score. */
  lemma HardTotalAppend(cards: seq<Score>, c: Score)
    ensures HardTotal(cards + [c]) == HardTotal(cards) + LowScore(c)
    ensures RawSum(cards + [c]) == RawSum(cards) + c
    ensures AceCount(cards + [c]) == AceCount(cards) + (if c == AceScore then 1 else 0)
  { }

  /** The demotion is the best possible: the number of Aces left high is the
      largest number that can count 11 without passing 21 (none if even the
      hard total is over 21). */
  lemma HighAcesIsLargestSafe(cards: seq<Score>, k: nat)
    requires k <= AceCount(cards)
    requires HardTotal(cards) + AceDemotion * k <= Limit
    ensures k <= HighAces(cards)
    ensures Total(cards) <= Limit
  {
    TotalIsHardPlusHighAces(cards);
    var v := Valuate(cards);
    if v.highAces < AceCount(cards) {
      // some Ace was demoted, so the total with one more high Ace is over 21
      assert v.total + AceDemotion > Limit by {
        assert v == Reduce(RawSum(cards), AceCount(cards));
      }
    }
  }

  /** A hand is soft exactly when some Ace can count 11 without busting. */
  lemma SoftIffAceCanCountHigh(cards: seq<Score>)
    ensures Soft(cards) <==> AceCount(cards) > 0 && HardTotal(cards) + AceDemotion <= Limit
  {
    TotalIsHardPlusHighAces(cards);
    if AceCount(cards) > 0 && HardTotal(cards) + AceDemotion <= Limit {
      HighAcesIsLargestSafe(cards, 1);
    }
  }

  /** A hand is bust exactly when its hard total is over 21. */
  lemma BustIffHardOver(cards: seq<Score>)
    ensures Bust(cards) <==> HardTotal(cards) > Limit
  {
    TotalIsHardPlusHighAces(cards);
  }

  /** Once bust, a hand stays bust whatever card is added. */
  lemma BustIsFinal(cards: seq<Score>, c: Score)
    requires Bust(cards)
    ensures Bust(cards + [c])
  { }

  /** Two cards never bust: only two Aces reach 22, and one of them is demoted. */
  lemma TwoCardsNeverBust(cards: seq<Score>)
    requires |cards| == 2
    ensures !Bust(cards)
  {
    assert cards == [cards[0]] + [cards[1]];
    assert [cards[0]] == [] + [cards[0]];
    HardTotalAppend([], cards[0]);
    HardTotalAppend([cards[0]], cards[1]);
    BustIffHardOver(cards);
  }

  /** Two Aces and a nine: 31 is reduced once, to 21, with one Ace still high. */
  lemma TwoAcesAndNine()
    ensures Total([11, 11, 9]) == 21 && HighAces([11, 11, 9]) == 1 && Soft([11, 11, 9])
  {
    assert [11, 11, 9][..2] == [11, 11];
    assert [11, 11][..1] == [11];
    assert [11][..0] == [];
  }

  /** Hitting can lower the value: Ace and nine is 20, and a five makes it 15. */
  lemma HitCanLowerTotal()
    ensures Total([11, 9]) == 20 && Total([11, 9, 5]) == 15
  {
    assert [11, 9, 5][..2] == [11, 9];
    assert [11, 9][..1] == [11];
    assert [11][..0] == [];
  }
}
