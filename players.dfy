/** A player (or the dealer): its hands, its balance and its standing, with
    every decision routed to the playing hand and the round settled against
    the dealer's value. */
module Players {
  import opened Cards
  import opened Scoring
  import opened Hands

  /** Half of `w`, rounded toward zero (machine integer division). */
  function TruncHalf(w: int): (r: int)
    ensures 0 <= w ==> 0 <= w - 2 * r <= 1
    ensures w < 0 ==> -1 <= w - 2 * r <= 0
  {
    if w >= 0 then w / 2 else -((-w) / 2)
  }

  /** Some hand can still be acted on. */
  predicate AnyUnset(hs: seq<HandState>)
  {
    exists i :: 0 <= i < |hs| && !hs[i].isSet
  }

  /** The playing hand: the first hand not yet finished. */
  function FirstUnset(hs: seq<HandState>): (k: nat)
    requires AnyUnset(hs)
    ensures k < |hs| && !hs[k].isSet
    ensures forall j :: 0 <= j < k ==> hs[j].isSet
  {
    if !hs[0].isSet then 0
    else
      assert AnyUnset(hs[1..]) by {
        var i :| 0 <= i < |hs| && !hs[i].isSet;
        assert hs[1..][i - 1] == hs[i];
      }
      1 + FirstUnset(hs[1..])
  }

  /** The playing hand depends only on the finished flags. */
  lemma SameFlagsSamePlayingHand(a: seq<HandState>, b: seq<HandState>)
    requires |a| == |b| && AnyUnset(a)
    requires forall i :: 0 <= i < |a| ==> a[i].isSet == b[i].isSet
    ensures AnyUnset(b) && FirstUnset(b) == FirstUnset(a)
  { }

  predicate AnyBusted(hs: seq<HandState>)
  {
    exists i :: 0 <= i < |hs| && hs[i].Busted()
  }

  predicate AllLost(hs: seq<HandState>)
  {
    forall i :: 0 <= i < |hs| ==> hs[i].Lost()
  }

  /** The invariant the player's own decisions keep: a bust hand is finished,
      so it is never the playing hand again. */
  predicate BustedAreSet(hs: seq<HandState>)
  {
    forall i :: 0 <= i < |hs| && hs[i].Busted() ==> hs[i].isSet
  }

  /** What one hand wins (positive) or loses (negative) against the dealer. */
  function HandDelta(h: HandState, dealerValue: nat): (d: int)
    ensures h.Lost() ==> d == -h.wager
    ensures !h.Lost() && Total(h.cards) > dealerValue ==> d == h.wager
    ensures !h.Lost() && Total(h.cards) < dealerValue ==> d == -h.wager
    ensures !h.Lost() && Total(h.cards) == dealerValue ==> d == 0
  {
    var value := Total(h.cards);
    if value > dealerValue && !h.Lost() then h.wager
    else if value < dealerValue || h.Lost() then -h.wager
    else 0
  }

  /** The net result of a round: the sum of the per-hand results. */
  function Settlement(hs: seq<HandState>, dealerValue: nat): int
  {
    if hs == [] then 0
    else Settlement(hs[..|hs| - 1], dealerValue) + HandDelta(hs[|hs| - 1], dealerValue)
  }

  function TotalWager(hs: seq<HandState>): int
  {
    if hs == [] then 0 else TotalWager(hs[..|hs| - 1]) + hs[|hs| - 1].wager
  }

  /** Hands are settled independently: the result of a round is additive. */
  lemma {:induction false} SettlementAppend(a: seq<HandState>, b: seq<HandState>, dealerValue: nat)
    ensures Settlement(a + b, dealerValue) == Settlement(a, dealerValue) + Settlement(b, dealerValue)
    decreases |b|
  {
    if b == [] {
      assert a + b == a;
    } else {
      var b' := b[..|b| - 1];
      assert (a + b)[..|a + b| - 1] == a + b';
      SettlementAppend(a, b', dealerValue);
    }
  }

  /** A hand that is lost (bust or surrendered) always loses its wager, even
      when the dealer has bust; if every hand is lost, every wager is lost. */
  lemma {:induction false} AllLostLosesEveryWager(hs: seq<HandState>, dealerValue: nat)
    requires AllLost(hs)
    ensures Settlement(hs, dealerValue) == -TotalWager(hs)
  {
    if hs != [] {
      AllLostLosesEveryWager(hs[..|hs| - 1], dealerValue);
    }
  }

  /** With non-negative wagers a round never moves more than the total stake. */
  lemma {:induction false} SettlementBounded(hs: seq<HandState>, dealerValue: nat)
    requires forall i :: 0 <= i < |hs| ==> hs[i].wager >= 0
    ensures -TotalWager(hs) <= Settlement(hs, dealerValue) <= TotalWager(hs)
  {
    if hs != [] {
      SettlementBounded(hs[..|hs| - 1], dealerValue);
    }
  }

  /** Against a bust dealer (value 0) every hand that is not lost wins its
      wager and every lost hand loses it: there are no pushes. */
  lemma DealerBustDelta(h: HandState)
    requires |h.cards| > 0
    ensures HandDelta(h, 0) == if h.Lost() then -h.wager else h.wager
  { }

  /** A 19 with wager 50 wins 50 against 18, loses 50 against 20 and pushes
      against 19; a surrender of 41 costs 20. */
  lemma SettlementExamples()
    ensures var h := HandState([10, 9], 50, false, true);
      HandDelta(h, 18) == 50 && HandDelta(h, 20) == -50 && HandDelta(h, 19) == 0
    ensures TruncHalf(41) == 20 && TruncHalf(40) == 20
  {
    assert [10, 9][..1] == [10];
    assert [10][..0] == [];
  }

  /** When a decision changed only the playing hand, the player's view of
      its hands changes at that index alone, ownership and the two-card
      minimum still hold, and the busted-hands invariant survives if the
      playing hand keeps it. */
  twostate lemma OnlyPlayingHandChanged(p: Player)
    requires old(p.Valid()) && old(p.IsPlaying()) && p.hands == old(p.hands)
    requires forall h :: h in p.hands && h != p.hands[old(p.PlayingIndex())] ==> unchanged(h)
    requires |p.hands[old(p.PlayingIndex())].cards| >= 2
    ensures p.Valid()
    ensures var k := old(p.PlayingIndex());
      p.Hands() == old(p.Hands())[k := p.hands[k].State()]
    ensures var k := old(p.PlayingIndex());
      old(p.BustedHandsAreSet()) && (p.hands[k].Busted() ==> p.hands[k].isSet) ==> p.BustedHandsAreSet()
  {
    var k := old(p.PlayingIndex());
    forall j | 0 <= j < |p.hands| && j != k
      ensures p.hands[j].State() == old(p.hands[j].State())
    {
      assert p.hands[j] in p.hands && p.hands[j] != p.hands[k];
    }
  }

  class Player {
    const name: string
    const isDealer: bool
    var hands: seq<Hand>
    var balance: int
    var standing: int

    /** Each hand is owned by this player alone, and has at least its two
        dealt cards. */
    ghost predicate Valid()
      reads this`hands, hands
    {
      (forall i, j :: 0 <= i < j < |hands| ==> hands[i] != hands[j]) &&
      (forall i :: 0 <= i < |hands| ==> |hands[i].cards| >= 2)
    }

    /** The hands' current values, in creation order. */
    function Hands(): seq<HandState>
      reads this`hands, hands
    {
      var hs := hands;
      seq(|hs|, i requires 0 <= i < |hs| reads hs => hs[i].State())
    }

    /** Some hand is not finished. */
    predicate IsPlaying()
      reads this`hands, hands
      ensures IsPlaying() <==> exists i :: 0 <= i < |hands| && !hands[i].isSet
    {
      assert forall i :: 0 <= i < |hands| ==> Hands()[i] == hands[i].State();
      AnyUnset(Hands())
    }

    /** Some hand is bust. */
    predicate HasBusted()
      reads this`hands, hands
      ensures HasBusted() <==> exists i :: 0 <= i < |hands| && hands[i].Busted()
    {
      assert forall i :: 0 <= i < |hands| ==> Hands()[i] == hands[i].State();
      AnyBusted(Hands())
    }

    /** Every hand is lost: surrendered, or over 21 with every Ace as 1. */
    predicate HasLost()
      reads this`hands, hands
      ensures HasLost() <==> forall i :: 0 <= i < |hands| ==> hands[i].surrendered || HardTotal(hands[i].cards) > Limit
    {
      assert forall i :: 0 <= i < |hands| ==> Hands()[i] == hands[i].State();
      AllLost(Hands())
    }

    predicate BustedHandsAreSet()
      reads this`hands, hands
    {
      BustedAreSet(Hands())
    }

    function PlayingIndex(): nat
      reads this`hands, hands
      requires IsPlaying()
    {
      FirstUnset(Hands())
    }

    /** The playing hand is soft: it holds an Ace that can count 11
        without passing 21. */
    predicate HandIsSoft()
      reads this`hands, hands
      requires IsPlaying()
      ensures var c := hands[PlayingIndex()].cards;
        HandIsSoft() <==> AceCount(c) > 0 && HardTotal(c) + AceDemotion <= Limit
    {
      SoftIffAceCanCountHigh(hands[PlayingIndex()].cards);
      Soft(Hands()[PlayingIndex()].cards)
    }

    /** 0 when some hand is bust, otherwise the value of the first hand. */
    function FirstHandValue(): (r: nat)
      reads this`hands, hands
      requires Valid() && |hands| > 0
      ensures r == 0 <==> HasBusted()
      ensures r <= Limit
      ensures !HasBusted() ==> r == Total(hands[0].cards)
    {
      if HasBusted() then 0
      else
        HardTotalAtLeastCount(hands[0].cards);
        TotalIsHardPlusHighAces(hands[0].cards);
        assert !Hands()[0].Busted();
        Total(hands[0].cards)
    }

    constructor (name: string, isDealer: bool, balance: int)
      ensures this.name == name && this.isDealer == isDealer
      ensures hands == [] && this.balance == balance && standing == 0
    {
      this.name := name;
      this.isDealer := isDealer;
      hands := [];
      this.balance := balance;
      standing := 0;
    }

    method Win(amount: int)
      modifies this`balance, this`standing
      ensures balance == old(balance) + amount && standing == old(standing) + amount
      ensures hands == old(hands)
    {
      balance := balance + amount;
      standing := standing + amount;
    }

    method Lose(amount: int)
      modifies this`balance, this`standing
      ensures balance == old(balance) - amount && standing == old(standing) - amount
      ensures hands == old(hands)
    {
      Win(-amount);
    }

    /** The linear search for the first unfinished hand. */
    method PlayingHand() returns (hand: Hand)
      requires IsPlaying()
      ensures hand == hands[PlayingIndex()]
    {
      var i := 0;
      while hands[i].isSet
        invariant i <= PlayingIndex()
        decreases PlayingIndex() - i
      {
        assert Hands()[i].isSet;
        i := i + 1;
      }
      assert !Hands()[i].isSet;
      hand := hands[i];
    }

    /** Appends a hand of at least two cards that this player does not
        already hold. */
    method AddHand(hand: Hand)
      requires Valid() && hand !in hands && |hand.cards| >= 2
      modifies this`hands
      ensures Valid() && hands == old(hands) + [hand]
      ensures Hands() == old(Hands()) + [hand.State()]
      ensures old(BustedHandsAreSet()) && !hand.Busted() ==> BustedHandsAreSet()
    {
      hands := hands + [hand];
      assert Hands()[..|old(hands)|] == old(Hands());
    }

    /** Deals a fresh hand with the given wager. */
    method Bet(wager: int, deck: Deck)
      requires Valid()
      modifies this`hands, deck
      ensures Valid()
      ensures Hands() == old(Hands()) + [HandState([deck.source(old(deck.dealt)), deck.source(old(deck.dealt) + 1)], wager, false, false)]
      ensures hands[..|old(hands)|] == old(hands)
      ensures deck.dealt == old(deck.dealt) + 2
      ensures balance == old(balance) && standing == old(standing)
      ensures old(BustedHandsAreSet()) ==> BustedHandsAreSet()
    {
      var hand := new Hand(wager, deck);
      TwoCardsNeverBust(hand.cards);
      AddHand(hand);
    }

    /** Hits the playing hand, finishing it exactly when the card busts it;
        every other hand is untouched. */
    method Hit(deck: Deck) returns (busted: bool)
      requires Valid() && IsPlaying()
      modifies hands, deck
      ensures Valid() && hands == old(hands)
      ensures var k := old(PlayingIndex()); var h := old(Hands())[k];
        Hands() == old(Hands())[k := h.(cards := h.cards + [deck.source(old(deck.dealt))], isSet := busted)] &&
        busted == Hands()[k].Busted()
      ensures deck.dealt == old(deck.dealt) + 1
      ensures balance == old(balance) && standing == old(standing)
      ensures old(BustedHandsAreSet()) ==> BustedHandsAreSet()
    {
      ghost var k := PlayingIndex();
      var hand := PlayingHand();
      busted := hand.Hit(deck);
      if busted {
        hand.Set();
      }
      OnlyPlayingHandChanged(this);
    }

    /** Finishes the playing hand and changes nothing else. */
    method Stand()
      requires Valid() && IsPlaying()
      modifies hands
      ensures Valid() && hands == old(hands)
      ensures var k := old(PlayingIndex());
        Hands() == old(Hands())[k := old(Hands())[k].(isSet := true)]
      ensures balance == old(balance) && standing == old(standing)
      ensures old(BustedHandsAreSet()) ==> BustedHandsAreSet()
    {
      ghost var k := PlayingIndex();
      var hand := PlayingHand();
      hand.Set();
      OnlyPlayingHandChanged(this);
    }

    /** Surrenders the playing hand and pays half its wager at once. The hand
        is not finished: it stays the playing hand. */
    method Surrender()
      requires Valid() && IsPlaying()
      modifies this`balance, this`standing, hands
      ensures Valid() && hands == old(hands)
      ensures var k := old(PlayingIndex()); var h := old(Hands())[k];
        Hands() == old(Hands())[k := h.(surrendered := true)] &&
        balance == old(balance) - TruncHalf(h.wager) &&
        standing == old(standing) - TruncHalf(h.wager)
      ensures IsPlaying() && PlayingIndex() == old(PlayingIndex())
      ensures old(BustedHandsAreSet()) ==> BustedHandsAreSet()
    {
      ghost var k := PlayingIndex();
      ghost var h := Hands()[k];
      var hand := PlayingHand();
      hand.Surrender();
      Lose(TruncHalf(hand.wager));
      OnlyPlayingHandChanged(this);
      assert hands[k].State() == h.(surrendered := true);
      SameFlagsSamePlayingHand(old(Hands()), Hands());
    }

    /** Splits the playing hand when it is eligible, appending the new hand;
        otherwise changes nothing. */
    method Split(deck: Deck) returns (ok: bool)
      requires Valid() && IsPlaying()
      modifies this`hands, hands, deck
      ensures Valid() && |hands| >= |old(hands)| && hands[..|old(hands)|] == old(hands)
      ensures ok == SplitEligible(old(Hands())[old(PlayingIndex())].cards)
      ensures ok ==> var k := old(PlayingIndex()); var h := old(Hands())[k];
        Hands() == old(Hands())[k := h.(cards := [h.cards[0], deck.source(old(deck.dealt))])]
                   + [HandState([h.cards[1], deck.source(old(deck.dealt) + 1)], h.wager, false, false)]
      ensures ok ==> deck.dealt == old(deck.dealt) + 2
      ensures !ok ==> Hands() == old(Hands()) && deck.dealt == old(deck.dealt)
      ensures balance == old(balance) && standing == old(standing)
      ensures old(BustedHandsAreSet()) ==> BustedHandsAreSet()
    {
      ghost var k := PlayingIndex();
      ghost var h := Hands()[k];
      var hand := PlayingHand();
      assert hand.State() == h;
      var newHand := hand.Split(deck);
      assert (newHand != null) == SplitEligible(h.cards);
      OnlyPlayingHandChanged(this);
      ghost var updated := Hands();
      assert updated == old(Hands())[k := h.(cards := hand.cards)];
      if newHand != null {
        assert hand.cards == [h.cards[0], deck.source(old(deck.dealt))];
        assert newHand.State() == HandState([h.cards[1], deck.source(old(deck.dealt) + 1)], h.wager, false, false);
        TwoCardsNeverBust(hand.cards);
        TwoCardsNeverBust(newHand.cards);
        AddHand(newHand);
        ok := true;
      } else {
        ok := false;
      }
    }

    /** Doubles down on the playing hand: double wager, finished, one card. */
    method Double(deck: Deck) returns (busted: bool)
      requires Valid() && IsPlaying()
      modifies hands, deck
      ensures Valid() && hands == old(hands)
      ensures var k := old(PlayingIndex()); var h := old(Hands())[k];
        Hands() == old(Hands())[k := h.(cards := h.cards + [deck.source(old(deck.dealt))], wager := 2 * h.wager, isSet := true)] &&
        busted == Hands()[k].Busted()
      ensures deck.dealt == old(deck.dealt) + 1
      ensures balance == old(balance) && standing == old(standing)
      ensures old(BustedHandsAreSet()) ==> BustedHandsAreSet()
    {
      ghost var k := PlayingIndex();
      var hand := PlayingHand();
      busted := hand.DoubleWager(deck);
      OnlyPlayingHandChanged(this);
    }

    /** The dealer's turn: hit the first hand while its value is below 17.
        Yields 0 if some hand is bust, else the first hand's value. */
    method PlayAsDealer(deck: Deck) returns (r: nat)
      requires Valid() && |hands| > 0
      modifies hands[0], deck
      ensures Valid() && hands == old(hands)
      ensures deck.dealt >= old(deck.dealt)
      ensures hands[0].cards == old(hands[0].cards) + deck.Run(old(deck.dealt), deck.dealt)
      ensures hands[0].wager == old(hands[0].wager) && hands[0].surrendered == old(hands[0].surrendered)
      ensures hands[0].isSet == old(hands[0].isSet)
      ensures forall j :: 0 < j < |hands| ==> hands[j].State() == old(hands[j].State())
      ensures Total(hands[0].cards) >= DealerStands
      ensures DrawnBelowStand(hands[0].cards, |old(hands[0].cards)|)
      ensures r == 0 <==> HasBusted()
      ensures r != 0 ==> DealerStands <= r <= Limit && r == Total(hands[0].cards)
      ensures balance == old(balance) && standing == old(standing)
    {
      var hand := hands[0];
      hand.DrawAsDealer(deck);
      r := if HasBusted() then 0 else FirstHandValue();
    }

    /** Settles the round: a player's net result over all hands goes to both
        balance and standing; a dealer's hands are only cleared. */
    method GameOver(dealerValue: nat)
      modifies this
      ensures hands == [] && Valid() && !IsPlaying()
      ensures isDealer ==> balance == old(balance) && standing == old(standing)
      ensures !isDealer ==>
        var delta := Settlement(old(Hands()), dealerValue);
        balance == old(balance) + delta && standing == old(standing) + delta
    {
      if isDealer {
        hands := [];
        return;
      }
      ghost var hs := Hands();
      var totalDelta := 0;
      for i := 0 to |hands|
        invariant hands == old(hands) && hs == Hands()
        invariant balance == old(balance) && standing == old(standing)
        invariant totalDelta == Settlement(hs[..i], dealerValue)
      {
        var hand := hands[i];
        var value := hand.Value(false);
        var wager := hand.wager;
        if value > dealerValue && !hand.Lost() {
          totalDelta := totalDelta + wager;
        } else if value < dealerValue || hand.Lost() {
          totalDelta := totalDelta - wager;
        }
        assert hs[..i + 1][..i] == hs[..i];
      }
      assert hs[..|hands|] == hs;
      Win(totalDelta);
      hands := [];
    }
}
}
