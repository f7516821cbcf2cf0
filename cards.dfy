/** Cards as the hand and player logic sees them: only by their score. */
module Cards {

  /** The score of one card: 2..10 for number and face cards, 11 for an Ace
      (an Ace is always scored high here; demotion to 1 happens in the hand). */
  type Score = s: int | 2 <= s <= 11 witness 2

  /** The score an Ace carries on the card itself. */
  const AceScore: Score := 11

  /** An already shuffled deck, seen only through "deal the next card".
      `source(n)` is the score of the n-th card to come out of the deck, and
      `dealt` is how many cards have been dealt so far. */
  class Deck {
    const source: nat -> Score
    var dealt: nat

    constructor (order: nat -> Score)
      ensures source == order && dealt == 0
    {
      source := order;
      dealt := 0;
    }

    /** The score of the card `i` places after the next one to be dealt. */
    function Upcoming(i: nat): Score
      reads this
    {
      source(dealt + i)
    }

    /** The scores of the cards dealt from position `from` up to `to`. */
    function Run(from: nat, to: nat): (r: seq<Score>)
      requires from <= to
      ensures |r| == to - from
      ensures forall i :: 0 <= i < to - from ==> r[i] == source(from + i)
    {
      seq(to - from, i requires 0 <= i < to - from => source(from + i))
    }

    /** Dealing one more card extends the run by that card. */
    lemma RunGrows(from: nat, to: nat)
      requires from <= to
      ensures Run(from, to + 1) == Run(from, to) + [source(to)]
    {
    }

    /** Deals one card: the next one in the shuffled order. */
    method NextCard() returns (c: Score)
      modifies this
      ensures c == old(Upcoming(0))
      ensures dealt == old(dealt) + 1
    {
      c := source(dealt);
      dealt := dealt + 1;
    }
  }
}
