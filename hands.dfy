/** One hand: its cards, its wager and its two flags, updated in place. */
module Hands {
  import opened Cards
  import opened Scoring

  /** The value of a hand at one moment: what the player-level
      specification quantifies over. */
  datatype HandState = HandState(cards: seq<Score>, wager: int, surrendered: bool, isSet: bool)
  {
    predicate Busted() { Bust(cards) }

    /** A hand is lost once surrendered or bust, that is, once surrendered
        or over 21 with every Ace counted as 1. */
    predicate Lost()
      ensures Lost() <==> surrendered || HardTotal(cards) > Limit
    {
      BustIffHardOver(cards);
      surrendered || Busted()
    }
  }

  /** Split is allowed on exactly two cards of equal score (score, not rank:
      a King and a Queen may be split). */
  predicate SplitEligible(cards: seq<Score>)
  {
    |cards| == 2 && cards[0] == cards[1]
  }

  /** The dealer draws while its value is below this. */
  const DealerStands := 17

  /** Every hand value reached from `start` cards on, before the last card,
      was below 17: the dealer only ever drew below 17. */
  predicate DrawnBelowStand(cards: seq<Score>, start: nat)
  {
    forall n :: start <= n < |cards| ==> Total(cards[..n]) < DealerStands
  }

  /** One more dealer draw, made below 17: the drawing rule still holds, the
      new card joins the run, and the hard total (the loop's measure) grows. */
  lemma DealerDrawStep(start: seq<Score>, run: seq<Score>, c: Score)
    requires DrawnBelowStand(start + run, |start|)
    requires Total(start + run) < DealerStands
    ensures DrawnBelowStand(start + run + [c], |start|)
    ensures start + run + [c] == start + (run + [c])
    ensures HardTotal(start + run) < DealerStands
    ensures HardTotal(start + run) < HardTotal(start + run + [c])
  {
    var cards := start + run;
    forall n | |start| <= n < |cards + [c]|
      ensures Total((cards + [c])[..n]) < DealerStands
    {
      if n < |cards| {
        assert (cards + [c])[..n] == cards[..n];
      } else {
        assert (cards + [c])[..n] == cards;
      }
    }
    TotalIsHardPlusHighAces(cards);
    HardTotalAppend(cards, c);
  }

  class Hand {
    var cards: seq<Score>
    var surrendered: bool
    /** The hand can no longer be acted on. */
    var isSet: bool
    var wager: int

    function State(): HandState
      reads this
    {
      HandState(cards, wager, surrendered, isSet)
    }

    predicate Busted()
      reads this
    {
      State().Busted()
    }

    predicate Lost()
      reads this
    {
      State().Lost()
    }

    predicate IsSoft()
      reads this
    {
      Soft(cards)
    }

    /** A fresh hand: two cards dealt from the deck, both flags clear. */
    constructor (wager: int, deck: Deck)
      modifies deck
      ensures cards == [deck.source(old(deck.dealt)), deck.source(old(deck.dealt) + 1)]
      ensures this.wager == wager && !surrendered && !isSet
      ensures deck.dealt == old(deck.dealt) + 2
    {
      cards := [];
      surrendered := false;
      isSet := false;
      this.wager := wager;
      new;
      for i := 0 to 2
        invariant deck.dealt == old(deck.dealt) + i
        invariant this.wager == wager && !surrendered && !isSet
        invariant |cards| == i
        invariant forall j :: 0 <= j < i ==> cards[j] == deck.source(old(deck.dealt) + j)
      {
        var c := deck.NextCard();
        cards := cards + [c];
      }
    }

    /** The hand split off by Split: the given cards, the given wager, both
        flags clear. */
    constructor SplitOff(cards: seq<Score>, wager: int)
      ensures this.cards == cards && this.wager == wager && !surrendered && !isSet
    {
      this.cards := cards;
      surrendered := false;
      isSet := false;
      this.wager := wager;
    }

    /** The hand's value, or (with getAces) the number of Aces still counted
        as 11: sums the scores, then demotes Aces while over 21. */
    method Value(getAces: bool) returns (r: nat)
      ensures r == if getAces then HighAces(cards) else Total(cards)
    {
      var total: nat := 0;
      var aces: nat := 0;
      for i := 0 to |cards|
        invariant total == RawSum(cards[..i])
        invariant aces == AceCount(cards[..i])
      {
        var value := cards[i];
        if value == AceScore {
          aces := aces + 1;
        }
        total := total + value;
        assert cards[..i + 1] == cards[..i] + [cards[i]];
        HardTotalAppend(cards[..i], cards[i]);
      }
      assert cards[..|cards|] == cards;
      while total > Limit && aces > 0
        invariant Reduce(total, aces) == Valuate(cards)
        decreases aces
      {
        total := total - AceDemotion;
        aces := aces - 1;
      }
      r := if getAces then aces else total;
    }

    method Set()
      modifies this
      ensures isSet
      ensures cards == old(cards) && wager == old(wager) && surrendered == old(surrendered)
    {
      isSet := true;
    }

    /** Marks the hand surrendered; it does not finish it. */
    method Surrender()
      modifies this
      ensures surrendered
      ensures cards == old(cards) && wager == old(wager) && isSet == old(isSet)
    {
      surrendered := true;
    }

    /** Deals one more card and reports whether the hand is now bust. */
    method Hit(deck: Deck) returns (busted: bool)
      modifies this, deck
      ensures cards == old(cards) + [deck.source(old(deck.dealt))]
      ensures wager == old(wager) && surrendered == old(surrendered) && isSet == old(isSet)
      ensures deck.dealt == old(deck.dealt) + 1
      ensures busted <==> Total(cards) > Limit
    {
      var c := deck.NextCard();
      cards := cards + [c];
      busted := Busted();
    }

    /** On two cards of equal score: the second card moves to a new hand with
        the same wager, and both hands are refilled from the deck (this hand
        first). Otherwise nothing changes and there is no new hand. */
    method Split(deck: Deck) returns (newHand: Hand?)
      modifies this, deck
      ensures (newHand != null) == SplitEligible(old(cards))
      ensures newHand != null ==>
        fresh(newHand) &&
        cards == [old(cards)[0], deck.source(old(deck.dealt))] &&
        newHand.cards == [old(cards)[1], deck.source(old(deck.dealt) + 1)] &&
        newHand.wager == wager && !newHand.surrendered && !newHand.isSet &&
        deck.dealt == old(deck.dealt) + 2
      ensures newHand == null ==> cards == old(cards) && deck.dealt == old(deck.dealt)
      ensures wager == old(wager) && surrendered == old(surrendered) && isSet == old(isSet)
    {
      newHand := null;
      if |cards| == 2 {
        if cards[0] == cards[1] {
          var card := cards[1];
          var c := deck.NextCard();
          cards := cards[1 := c];
          var d := deck.NextCard();
          newHand := new Hand.SplitOff([card, d], wager);
        }
      }
    }

    /** Doubles the wager, finishes the hand, then deals exactly one card,
        whether or not it busts the hand. */
    method DoubleWager(deck: Deck) returns (busted: bool)
      modifies this, deck
      ensures wager == 2 * old(wager) && isSet && surrendered == old(surrendered)
      ensures cards == old(cards) + [deck.source(old(deck.dealt))]
      ensures deck.dealt == old(deck.dealt) + 1
      ensures busted <==> Total(cards) > Limit
    {
      wager := wager * 2;
      isSet := true;
      busted := Hit(deck);
    }

    /** The dealer's drawing rule: hit while the value is below 17. Every
        card dealt here was drawn while the hand was below 17, and the hand
        ends at 17 or more. */
    method DrawAsDealer(deck: Deck)
      modifies this, deck
      ensures deck.dealt >= old(deck.dealt)
      ensures cards == old(cards) + deck.Run(old(deck.dealt), deck.dealt)
      ensures wager == old(wager) && surrendered == old(surrendered) && isSet == old(isSet)
      ensures Total(cards) >= DealerStands
      ensures DrawnBelowStand(cards, |old(cards)|)
    {
      var value := Value(false);
      ghost var start := cards;
      ghost var from := deck.dealt;
      while value < DealerStands
        invariant value == Total(cards)
        invariant from <= deck.dealt
        invariant cards == start + deck.Run(from, deck.dealt)
        invariant wager == old(wager) && surrendered == old(surrendered) && isSet == old(isSet)
        invariant DrawnBelowStand(cards, |start|)
        decreases DealerStands - HardTotal(cards)
      {
        ghost var run := deck.Run(from, deck.dealt);
        DealerDrawStep(start, run, deck.Upcoming(0));
        deck.RunGrows(from, deck.dealt);
        var _ := Hit(deck);
        value := Value(false);
      }
    }
  }
}
