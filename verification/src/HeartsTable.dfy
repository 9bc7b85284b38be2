/**
 games/hearts as it runs: setup deals, playCard and resolveTrick change the state in place, enumerate and gameEndIf read
 it.
 */
module HeartsTable {
  import opened Engine
  import opened Hearts
  import opened Shuffling
  import Z = Zones

  class Table {
    var hands: seq<seq<Card>>
    var trick: seq<Card>
    var won: seq<seq<Card>>
    var leader: nat
    var plays: seq<Play>
    var lead: Option<Suit>
    var broken: bool
    var scores: seq<int>
    var tricksLeft: int

    function Value(): Hand
      reads this
    {
      Hand(hands, trick, won, leader, plays, lead, broken, scores, tricksLeft)
    }

    /** setup, for the seed that puts out `draw`: shuffle the deck, deal it round, note who holds the two of clubs. */
    constructor (draw: Stream)
      ensures Inv(Value()) && MovesMade(Value()) == 0 && !broken && DealtFrom(hands, Shuffled(Deck(), draw, 0))
    {
      var dealt, first := Deal(draw);
      hands, won, leader, plays := dealt, [[], [], [], []], first, [];
      trick, lead, broken, scores, tricksLeft := [], None, false, [0, 0, 0, 0], 13;
      new;
      NothingWon();
    }

    /** playCard's rule checks, in its order. */
    method Allowed(seat: nat, card: Card) returns (ok: bool)
      requires Shaped(Value()) && seat < 4
      ensures ok <==> Legal(Value(), seat, card)
    {
      if seat != Current(Value()) { return false; }
      if card !in hands[seat] { return false; }
      if tricksLeft == 13 && plays == [] && !(SuitOf(card) == Clubs && RankOf(card) == 2) { return false; }
      if plays == [] {
        if SuitOf(card) == Hearts && !broken && !OnlyHearts(hands[seat]) { return false; }
      } else {
        if Some(SuitOf(card)) != lead && HasSuit(hands[seat], lead) { return false; }
      }
      return true;
    }

    /** The card moves from the hand to the trick. */
    method Lay(seat: nat, card: Card)
      requires Shaped(Value()) && seat == Current(Value())
      modifies this
      ensures Value() == Laid(old(Value()), card)
    {
      hands := hands[seat := Z.Cut(hands[seat], card)];
      trick := trick + [card];
      if plays == [] { lead := Some(SuitOf(card)); }
      if SuitOf(card) == Hearts { broken := true; }
      plays := plays + [Play(seat, card)];
    }

    /** playCard: it accepts exactly the legal cards, and a refused play changes nothing. */
    method PlayCard(seat: nat, card: Card) returns (ok: bool)
      requires Inv(Value()) && seat < 4
      modifies this
      ensures ok <==> Legal(old(Value()), seat, card)
      ensures Value() == (if ok then Played(old(Value()), card) else old(Value())) && Inv(Value())
    {
      hide AllCards, HandSizes, Points, Legal, Laid, Winner, Resolved;
      ok := Allowed(seat, card);
      if ok {
        ghost var g := Value();
        assert seat == Current(g) && Legal(g, Current(g), card) by { OnTurn(g, seat, card); }
        PlayedKeeps(g, card);
        LaidKeeps(g, card);
        Lay(seat, card);
        WinnerPlayed(plays, lead);
        if |plays| == 4 {
          ResolveTrick();
        }
      }
    }

    /** The first half of resolveTrick: the highest card of the lead suit takes the trick. */
    method FindWinner() returns (winner: Play)
      requires plays != []
      ensures winner == Winner(plays, lead)
    {
      winner := plays[0];
      for i := 1 to |plays|
        invariant winner == Winner(plays[..i], lead)
      {
        assert plays[..i + 1][..i] == plays[..i];
        if Some(SuitOf(plays[i].card)) == lead && RankOf(plays[i].card) > RankOf(winner.card) { winner := plays[i]; }
      }
      assert plays[..|plays|] == plays;
    }

    /** The loop of resolveTrick: card by card to the winner's pile, counting penalty points. */
    method Collect(w: nat) returns (points: int)
      requires w < |won| && trick == CardsOf(plays)
      modifies this`trick, this`won
      ensures points == Worth(plays) && trick == [] && won == old(won)[w := old(won)[w] + old(trick)]
    {
      points := 0;
      ghost var all, pile := trick, won[w];
      for i := 0 to |plays|
        invariant points == Worth(plays[..i]) && trick == all[i..]
        invariant |won| == |old(won)| && won[w] == pile + all[..i]
        invariant forall j | 0 <= j < |won| && j != w :: won[j] == old(won)[j]
      {
        assert plays[..i + 1][..i] == plays[..i];
        assert trick[0] == plays[i].card && all[..i + 1] == all[..i] + [trick[0]];
        won := won[w := won[w] + [plays[i].card]];
        trick := Z.Cut(trick, plays[i].card);
        if SuitOf(plays[i].card) == Hearts { points := points + 1; }
        if SuitOf(plays[i].card) == Spades && RankOf(plays[i].card) == QUEEN { points := points + 13; }
      }
      assert plays[..|plays|] == plays && all[..|plays|] == all;
    }

    /** resolveTrick. */
    method ResolveTrick()
      requires Shaped(Value()) && plays != [] && trick == CardsOf(plays) && Winner(plays, lead).seat < 4
      modifies this
      ensures Value() == Resolved(old(Value()))
    {
      var winner := FindWinner();
      var w := winner.seat;
      var points := Collect(w);
      scores := scores[w := scores[w] + points];
      leader, lead, plays, tricksLeft := w, None, [], tricksLeft - 1;
    }

    /** enumerate: exactly the cards playCard accepts, in hand order. */
    method Enumerate(seat: nat) returns (out: seq<Card>)
      requires Shaped(Value()) && seat < 4
      ensures forall c :: c in out <==> Legal(Value(), seat, c)
      ensures out == LegalOf(Value(), seat, Value().hands[seat])
    {
      if seat != Current(Value()) {
        NothingPlayable(Value(), seat, hands[seat]);
        return [];
      }
      var hand := hands[seat];
      var leading := plays == [];
      var mustFollow := !leading && HasSuit(hand, lead);
      var onlyHearts := leading && OnlyHearts(hand);
      var opening := tricksLeft == 13 && leading;
      out := [];
      for i := 0 to |hand|
        invariant forall c :: c in out <==> c in hand[..i] && Legal(Value(), seat, c)
        invariant out == LegalOf(Value(), seat, hand[..i])
      {
        var c := hand[i];
        assert hand[..i + 1][..i] == hand[..i];
        assert hand[..i + 1] == hand[..i] + [c];
        var offer :=
          if opening then SuitOf(c) == Clubs && RankOf(c) == 2
          else if mustFollow then Some(SuitOf(c)) == lead
          else !(leading && SuitOf(c) == Hearts && !broken && !onlyHearts);
        if offer { out := out + [c]; }
      }
      assert hand[..|hand|] == hand;
    }

    /** gameEndIf: once the tricks are over, the seats with the lowest score in seat order, and the scores. */
    method GameEndIf() returns (winners: Option<seq<nat>>, final: seq<int>)
      requires Shaped(Value()) && forall i | 0 <= i < 4 :: scores[i] >= 0
      ensures winners.None? <==> tricksLeft > 0
      ensures winners.Some? ==> winners.value != [] && forall s: nat | s < 4 ::
                s in winners.value <==> forall i | 0 <= i < 4 :: scores[s] <= scores[i]
      ensures winners.Some? ==> (forall s | s in winners.value :: s < 4) && Rising(winners.value) && final == scores
    {
      if tricksLeft > 0 { return None, []; }
      var low := -1;
      for i := 0 to 4
        invariant i == 0 ==> low < 0
        invariant i > 0 ==> 0 <= low && exists j | 0 <= j < i :: scores[j] == low
        invariant forall j | 0 <= j < i :: low <= scores[j]
      {
        if low < 0 || scores[i] < low { low := scores[i]; }
      }
      var best: seq<nat> := [];
      for i := 0 to 4
        invariant (forall s: nat | s < i :: s in best <==> scores[s] == low) && (forall s | s in best :: s < i) && Rising(best)
      {
        assert forall k | 0 <= k < |best| :: best[k] in best;
        if scores[i] == low { best := best + [i]; }
      }
      var j :| 0 <= j < 4 && scores[j] == low;
      assert j in best;
      return Some(best), scores;
    }
  }

  /** Seat by seat, each at most once. */
  predicate Rising(seats: seq<nat>) {
    forall i, j | 0 <= i < j < |seats| :: seats[i] < seats[j]
  }

  /** The cards of a list that the seat may play, in order. */
  function LegalOf(g: Hand, seat: nat, cards: seq<Card>): seq<Card>
    requires Shaped(g) && seat < 4
  {
    if cards == [] then []
    else
      var last := cards[|cards| - 1];
      LegalOf(g, seat, cards[..|cards| - 1]) + if Legal(g, seat, last) then [last] else []
  }

  /** Off turn nothing is playable. */
  lemma {:induction false} NothingPlayable(g: Hand, seat: nat, cards: seq<Card>)
    requires Shaped(g) && seat < 4 && seat != Current(g)
    ensures LegalOf(g, seat, cards) == []
  {
    if cards != [] { NothingPlayable(g, seat, cards[..|cards| - 1]); }
  }

  lemma NothingWon()
    ensures Joined([[], [], [], []]) == [] && Points([]) == 0 && CardsOf([]) == []
  {
    NoPoints(52);
    var four: seq<seq<Card>> := [[], [], [], []];
    var three: seq<seq<Card>> := [[], [], []];
    var two: seq<seq<Card>> := [[], []];
    var one: seq<seq<Card>> := [[]];
    assert four[..3] == three && three[..2] == two && two[..1] == one && one[..0] == [];
    assert Joined(one) == [] && Joined(two) == [] && Joined(three) == [];
  }

  /** A full hand of cards dealt to a seat so far. */
  predicate DealtSizes(hands: seq<seq<Card>>, i: nat) {
    |hands| == 4 && forall s | 0 <= s < 4 :: |hands[s]| == i / 4 + if s < i % 4 then 1 else 0
  }

  /** Each seat's cards in the order they were dealt: one each, round the seats, off the end of the deck. */
  predicate DealtFrom(hands: seq<seq<Card>>, deck: seq<Card>) {
    |deck| == 52 && |hands| == 4 && forall s, k | 0 <= s < 4 && 0 <= k < |hands[s]| :: 4 * k + s < 52 && hands[s][k] == deck[51 - (4 * k + s)]
  }

  lemma DealtNextFrom(hands: seq<seq<Card>>, deck: seq<Card>, i: nat)
    requires i < 52 && |deck| == 52 && DealtFrom(hands, deck) && DealtSizes(hands, i)
    ensures DealtFrom(hands[i % 4 := hands[i % 4] + [deck[51 - i]]], deck)
  {
    var seat := i % 4;
    assert |hands[seat]| == i / 4 && 4 * |hands[seat]| + seat == i;
  }

  /** After i cards: the sizes, no card lost, and the leader holds the two of clubs once it is out. */
  ghost predicate DealtOk(hands: seq<seq<Card>>, deck: seq<Card>, leader: nat, i: nat) {
    && |deck| == 52 - i && DealtSizes(hands, i) && leader < 4
    && multiset(Joined(hands)) + multiset(deck) == multiset(Deck())
    && (TWO_OF_CLUBS in deck || TWO_OF_CLUBS in hands[leader])
  }

  lemma DealtNext(hands: seq<seq<Card>>, deck: seq<Card>, leader: nat, i: nat)
    requires DealtOk(hands, deck, leader, i) && i < 52
    ensures
      var n, seat := |deck| - 1, i % 4;
      var card := deck[n];
      var two := SuitOf(card) == Clubs && RankOf(card) == 2;
      DealtOk(hands[seat := hands[seat] + [card]], deck[..n], if two then seat else leader, i + 1)
  {
    hide Deck, Joined, RankOf, SuitOf, DealtSizes;
    FourHands(hands, i);
    DealStep(hands, deck, i);
    IsTwoOfClubs(deck[|deck| - 1]);
  }

  lemma FourHands(hands: seq<seq<Card>>, i: nat)
    requires DealtSizes(hands, i)
    ensures |hands| == 4
  {
  }

  lemma DealStarts(deck: seq<Card>)
    requires |deck| == 52 && multiset(deck) == multiset(Deck())
    ensures DealtOk([[], [], [], []], deck, 0, 0)
  {
    hide Deck, Joined;
    NothingDealt();
    DeckCards(TWO_OF_CLUBS);
    assert TWO_OF_CLUBS in multiset(deck);
  }

  lemma DealEnds(hands: seq<seq<Card>>, deck: seq<Card>, leader: nat)
    requires DealtOk(hands, deck, leader, 52)
    ensures DealtSizes(hands, 52) && |hands| == 4 && multiset(Joined(hands)) == multiset(Deck())
    ensures leader < 4 && TWO_OF_CLUBS in hands[leader]
  {
    hide Deck, Joined;
    assert deck == [];
  }

  method ShuffledDeck(draw: Stream) returns (deck: seq<Card>)
    ensures |deck| == 52 && multiset(deck) == multiset(Deck()) && deck == Shuffled(Deck(), draw, 0)
  {
    hide Deck;
    var used: nat;
    deck, used := Shuffle(Deck(), draw, 0);
    ShufflePermutes(Deck(), 51, draw, 0);
    assert |multiset(deck)| == |deck| && |multiset(Deck())| == |Deck()|;
  }

  /** The deal: shuffle, then draw 52 cards off the end of the deck, round the seats. */
  method Deal(draw: Stream) returns (hands: seq<seq<Card>>, leader: nat)
    ensures DealtSizes(hands, 52) && multiset(Joined(hands)) == multiset(Deck())
    ensures leader < 4 && TWO_OF_CLUBS in hands[leader] && DealtFrom(hands, Shuffled(Deck(), draw, 0))
  {
    hide Deck, Joined, RankOf, SuitOf, DealtSizes, DealtOk, DealtFrom;
    var deck := ShuffledDeck(draw);
    ghost var whole := deck;
    hands, leader := [[], [], [], []], 0;
    DealStarts(deck);
    NothingFrom(whole);
    for i := 0 to 52
      invariant |deck| == 52 - i && |hands| == 4 && DealtOk(hands, deck, leader, i)
      invariant deck == whole[..52 - i] && DealtFrom(hands, whole)
    {
      var n, seat := |deck| - 1, i % 4;
      var card := deck[n];
      SizesOf(hands, deck, leader, i);
      DealtNextFrom(hands, whole, i);
      DealtNext(hands, deck, leader, i);
      hands, deck := hands[seat := hands[seat] + [card]], deck[..n];
      if SuitOf(card) == Clubs && RankOf(card) == 2 { leader := seat; }
    }
    DealEnds(hands, deck, leader);
  }

  lemma NothingFrom(deck: seq<Card>)
    requires |deck| == 52
    ensures DealtFrom([[], [], [], []], deck)
  {
  }

  lemma SizesOf(hands: seq<seq<Card>>, deck: seq<Card>, leader: nat, i: nat)
    requires DealtOk(hands, deck, leader, i)
    ensures DealtSizes(hands, i)
  {
  }

  /** One card from the end of the deck to the next seat. */
  lemma DealStep(hands: seq<seq<Card>>, deck: seq<Card>, i: nat)
    requires DealtSizes(hands, i) && deck != []
    ensures
      var n := |deck| - 1;
      var next := hands[i % 4 := hands[i % 4] + [deck[n]]];
      && DealtSizes(next, i + 1)
      && multiset(Joined(next)) + multiset(deck[..n]) == multiset(Joined(hands)) + multiset(deck)
      && (forall c :: c in deck ==> c in deck[..n] || c == deck[n])
      && (forall s, c | 0 <= s < 4 && c in hands[s] :: c in next[s]) && deck[n] in next[i % 4]
  {
    hide Joined;
    var n := |deck| - 1;
    assert deck == deck[..n] + [deck[n]];
    DealOne(hands, i % 4, deck[n]);
    DealtOneMore(hands, i, deck[n]);
    assert multiset(deck) == multiset(deck[..n]) + multiset{deck[n]};
  }

  lemma NothingDealt()
    ensures Joined([[], [], [], []]) == [] && DealtSizes([[], [], [], []], 0)
  {
    NothingWon();
  }

  lemma DealOne(hands: seq<seq<Card>>, seat: nat, card: Card)
    requires seat < |hands|
    ensures multiset(Joined(hands[seat := hands[seat] + [card]])) == multiset(Joined(hands)) + multiset{card}
  {
    var pile := hands[seat] + [card];
    JoinedUpdate(hands, seat, pile);
    Cancel(multiset(Joined(hands[seat := pile])), multiset(Joined(hands)) + multiset{card}, multiset(hands[seat]));
  }

  lemma DealtOneMore(hands: seq<seq<Card>>, i: nat, card: Card)
    requires DealtSizes(hands, i)
    ensures DealtSizes(hands[i % 4 := hands[i % 4] + [card]], i + 1)
  {
  }

  lemma OnTurn(g: Hand, seat: nat, card: Card)
    requires Shaped(g) && Legal(g, seat, card)
    ensures seat == Current(g) && Legal(g, Current(g), card)
  {
  }

  lemma IsTwoOfClubs(card: Card)
    ensures SuitOf(card) == Clubs && RankOf(card) == 2 ==> card == TWO_OF_CLUBS
    ensures SuitOf(TWO_OF_CLUBS) == Clubs && RankOf(TWO_OF_CLUBS) == 2
  {
  }
}
