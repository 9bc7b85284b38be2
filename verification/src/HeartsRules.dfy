/**
 The rules of Hearts over whole hands, said of the cards played so far: which card is accepted next, what a play changes,
 and who takes a trick.
 */
module HeartsRules {
  import opened Engine
  import opened Hearts
  import Z = Zones
  import T = Transitions

  /** The cards of the trick that is being played. */
  function Running(cards: seq<Card>): (r: seq<Card>)
    ensures |r| == |cards| % 4
  {
    cards[|cards| - |cards| % 4..]
  }

  predicate HeartPlayed(cards: seq<Card>) {
    exists i | 0 <= i < |cards| :: SuitOf(cards[i]) == Hearts
  }

  /** A dealt hand before its first play. */
  ghost predicate Fresh(g: Hand) {
    Inv(g) && MovesMade(g) == 0 && !g.broken
  }

  // ---- one more play ----------------------------------------------------------------------------------------

  /** What the hand looks like after accepted plays. */
  ghost predicate Follows(g: Hand, cards: seq<Card>) {
    && Inv(g) && MovesMade(g) == |cards| && CardsOf(g.plays) == Running(cards) && (g.broken <==> HeartPlayed(cards))
  }

  lemma {:induction false} PlayAllThen(g: Hand, cards: seq<Card>, card: Card)
    requires Inv(g)
    ensures
      var r := PlayAll(g, cards);
      && (r.Some? ==> Inv(r.value))
      && PlayAll(g, cards + [card]) ==
         if r.Some? && Legal(r.value, Current(r.value), card) then Some(Played(r.value, card)) else None
    decreases |cards|
  {
    hide AllCards, HandSizes, Points, Legal, Played, Inv;
    InvShape(g);
    if cards == [] {
      assert ([] + [card])[1..] == [];
      if Legal(g, Current(g), card) {
        PlayedKeeps(g, card);
        InvShape(Played(g, card));
        assert PlayAll(Played(g, card), []) == Some(Played(g, card));
      }
    } else {
      assert (cards + [card])[1..] == cards[1..] + [card];
      if Legal(g, Current(g), cards[0]) {
        PlayedKeeps(g, cards[0]);
        PlayAllThen(Played(g, cards[0]), cards[1..], card);
      }
    }
  }

  lemma InvShape(g: Hand)
    requires Inv(g)
    ensures Shaped(g) && g.trick == CardsOf(g.plays) && |g.plays| < 4
  {
  }

  lemma RunningGrows(cards: seq<Card>, card: Card)
    ensures Running(cards + [card]) == if |cards| % 4 == 3 then [] else Running(cards) + [card]
  {
    var all := cards + [card];
    if |cards| % 4 < 3 {
      assert |all| - |all| % 4 == |cards| - |cards| % 4;
    }
  }

  lemma HeartGrows(cards: seq<Card>, card: Card)
    ensures HeartPlayed(cards + [card]) <==> HeartPlayed(cards) || SuitOf(card) == Hearts
  {
    var all := cards + [card];
    assert all[|cards|] == card;
    if HeartPlayed(cards) {
      var i :| 0 <= i < |cards| && SuitOf(cards[i]) == Hearts;
      assert all[i] == cards[i];
    }
  }

  lemma MadeIs(g: Hand, n: nat)
    requires Inv(g) && MovesMade(g) == n
    ensures |g.plays| == n % 4 && g.tricksLeft == 13 - n / 4
  {
  }

  lemma OnePlayFollows(g: Hand, cards: seq<Card>, card: Card)
    requires Follows(g, cards) && Legal(g, Current(g), card)
    ensures Follows(Played(g, card), cards + [card])
  {
    hide AllCards, HandSizes, Points, Legal, Winner, Running, HeartPlayed, Inv;
    InvShape(g);
    PlayedKeeps(g, card);
    MadeIs(g, |cards|);
    RunningGrows(cards, card);
    HeartGrows(cards, card);
    var laid := Laid(g, card);
    WinnerPlayed(laid.plays, laid.lead);
    assert CardsOf(laid.plays) == CardsOf(g.plays) + [card];
  }

  lemma {:induction false} RunFollows(start: Hand, cards: seq<Card>)
    requires Fresh(start) && PlayAll(start, cards).Some?
    ensures Follows(PlayAll(start, cards).value, cards)
    decreases |cards|
  {
    hide AllCards, HandSizes, Points, Legal, Played;
    if cards == [] {
      assert CardsOf(start.plays) == [];
    } else {
      var n := |cards| - 1;
      assert cards == cards[..n] + [cards[n]];
      PlayAllThen(start, cards[..n], cards[n]);
      RunFollows(start, cards[..n]);
      OnePlayFollows(PlayAll(start, cards[..n]).value, cards[..n], cards[n]);
    }
  }

  // ---- which card is accepted -------------------------------------------------------------------------------

  /**
   After any accepted plays, the next is accepted exactly when the player holds the card and the rules let it be played: the
   two of clubs first of all; to lead a heart, one must have been played before unless the player holds nothing else; and
   who follows plays the suit of the trick's first card if they can.
   */
  lemma AcceptedExactly(start: Hand, cards: seq<Card>, card: Card)
    requires Fresh(start) && PlayAll(start, cards).Some?
    ensures
      var g := PlayAll(start, cards).value;
      Shaped(g) &&
      var mine, trick := g.hands[Current(g)], Running(cards);
      PlayAll(start, cards + [card]).Some? <==>
        && card in mine && (cards == [] ==> card == 1)
        && (if trick == [] then SuitOf(card) == Hearts ==> HeartPlayed(cards) || forall c | c in mine :: SuitOf(c) == Hearts
            else SuitOf(card) == SuitOf(trick[0]) || forall c | c in mine :: SuitOf(c) != SuitOf(trick[0]))
  {
    hide AllCards, HandSizes, Points, Played, PlayAll, HeartPlayed;
    RunFollows(start, cards);
    PlayAllThen(start, cards, card);
    var g := PlayAll(start, cards).value;
    MadeIs(g, |cards|);
    var mine := g.hands[Current(g)];
    assert forall c :: c in mine <==> exists i | 0 <= i < |mine| :: mine[i] == c;
    assert Running(cards) != [] ==> Running(cards)[0] == g.plays[0].card;
  }

  // ---- what a play changes ----------------------------------------------------------------------------------

  /** One hand loses one copy of the card, and the others stay. */
  ghost predicate HandsAfter(before: seq<seq<Card>>, after: seq<seq<Card>>, seat: nat, card: Card)
    requires seat < |before|
  {
    && |after| == |before| && (forall s | 0 <= s < |before| && s != seat :: after[s] == before[s])
    && exists i | 0 <= i < |before[seat]| :: before[seat][i] == card && after[seat] == before[seat][..i] + before[seat][i + 1..]
  }

  lemma CutIsOneOut(xs: seq<Card>, c: Card)
    requires c in xs
    ensures exists i | 0 <= i < |xs| :: xs[i] == c && Z.Cut(xs, c) == xs[..i] + xs[i + 1..]
  {
    var i := T.IndexOf(xs, c);
    Z.CutAt(xs, c, i);
  }

  lemma HandLosesCard(g: Hand, card: Card)
    requires Shaped(g) && g.trick == CardsOf(g.plays) && card in g.hands[Current(g)]
    ensures HandsAfter(g.hands, Played(g, card).hands, Current(g), card)
  {
    CutIsOneOut(g.hands[Current(g)], card);
    var laid := Laid(g, card);
    WinnerPlayed(laid.plays, laid.lead);
  }

  /** The card beats every other of the trick that follows suit. */
  predicate Takes(four: seq<Card>, w: nat)
    requires w < |four|
  {
    && SuitOf(four[w]) == SuitOf(four[0])
    && forall j | 0 <= j < |four| && j != w && SuitOf(four[j]) == SuitOf(four[0]) :: RankOf(four[j]) < RankOf(four[w])
  }

  /** The first three cards of a trick: the piles, the scores and the tricks left stay, and the next seat is on turn. */
  lemma TrickGoesOn(start: Hand, cards: seq<Card>, card: Card)
    requires Fresh(start) && PlayAll(start, cards + [card]).Some? && |cards| % 4 < 3
    ensures PlayAll(start, cards).Some?
    ensures
      var g, t := PlayAll(start, cards).value, PlayAll(start, cards + [card]).value;
      && Shaped(g) && Shaped(t) && HandsAfter(g.hands, t.hands, Current(g), card)
      && t.won == g.won && t.scores == g.scores && t.tricksLeft == g.tricksLeft && Current(t) == (Current(g) + 1) % 4
  {
    hide AllCards, HandSizes, Points, PlayAll, HandsAfter;
    PlayAllThen(start, cards, card);
    RunFollows(start, cards);
    var g := PlayAll(start, cards).value;
    MadeIs(g, |cards|);
    HandLosesCard(g, card);
  }

  /** Two cards of one suit and rank are one card. */
  lemma SameFace(a: Card, b: Card)
    requires 1 <= a <= 52 && 1 <= b <= 52 && SuitOf(a) == SuitOf(b) && RankOf(a) == RankOf(b)
    ensures a == b
  {
    hide RankOf;
    RankIs(a);
    RankIs(b);
  }

  lemma RankIs(c: Card)
    requires 1 <= c <= 52
    ensures RankOf(c) == c + 1 - if c <= 13 then 0 else if c <= 26 then 13 else if c <= 39 then 26 else 39
  {
  }

  /** No card comes twice in a trick. */
  lemma TrickDistinct(g: Hand, i: nat, j: nat)
    requires AllCards(g) == multiset(Deck()) && i < j < |g.trick|
    ensures g.trick[i] != g.trick[j] && 1 <= g.trick[i] <= 52 && 1 <= g.trick[j] <= 52
  {
    hide Deck, Joined;
    TrickInDeck(g);
    var c := g.trick[i];
    assert c in g.trick && g.trick[j] in g.trick;
    DeckCards(c);
    TwoAreTwo(g.trick, i, j);
  }

  lemma TwoAreTwo(xs: seq<Card>, i: nat, j: nat)
    requires i < j < |xs|
    ensures xs[i] == xs[j] ==> multiset(xs)[xs[i]] >= 2
  {
    assert xs == xs[..i] + [xs[i]] + xs[i + 1..];
    assert xs[i + 1..][j - i - 1] == xs[j];
    assert multiset(xs)[xs[i]] == multiset(xs[..i])[xs[i]] + 1 + multiset(xs[i + 1..])[xs[i]];
    assert xs[j] in multiset(xs[i + 1..]);
  }

  /** The winner of a full trick beats the rest of it. */
  lemma WinnerTakes(g: Hand)
    requires LaidInv(g) && |g.plays| == 4
    ensures
      exists w | 0 <= w < 4 :: Winner(g.plays, g.lead) == g.plays[w] && Takes(g.trick, w)
  {
    hide AllCards, HandSizes, Points, RankOf, SuitOf, Winner, Deck;
    WinnerPlayed(g.plays, g.lead);
    WinnerIsHighest(g.plays, g.lead);
    var p := Winner(g.plays, g.lead);
    var w :| 0 <= w < 4 && g.plays[w] == p;
    forall j | 0 <= j < 4 && j != w && SuitOf(g.trick[j]) == SuitOf(g.trick[0])
      ensures RankOf(g.trick[j]) < RankOf(g.trick[w])
    {
      assert g.plays[j] in g.plays;
      if j < w { TrickDistinct(g, j, w); } else { TrickDistinct(g, w, j); }
      if RankOf(g.trick[j]) == RankOf(g.trick[w]) { SameFace(g.trick[j], g.trick[w]); }
    }
    assert Takes(g.trick, w);
  }

  /** The seat that laid card w of a trick, seen from the one about to lay its fourth. */
  function Layer(last: nat, w: nat): (s: nat)
    ensures s < 4
  {
    (last + 1 + w) % 4
  }

  /** The whole effect of the fourth card. */
  ghost predicate TrickTakenBy(g: Hand, t: Hand, four: seq<Card>, w: nat)
    requires Shaped(g) && Shaped(t) && |four| == 4 && w < 4
  {
    var s := Layer(Current(g), w);
    && Takes(four, w) && t.won == g.won[s := g.won[s] + four] && t.scores == g.scores[s := g.scores[s] + Points(four)]
    && Current(t) == s && t.tricksLeft == g.tricksLeft - 1 && t.trick == []
  }

  /**
   The fourth card of a trick: the highest card of the suit of the first one takes all four, in the order they were laid, and
   their points, and its player leads next. Everybody else's pile and score stay.
   */
  lemma TrickTaken(start: Hand, cards: seq<Card>, card: Card)
    requires Fresh(start) && PlayAll(start, cards + [card]).Some? && |cards| % 4 == 3
    ensures PlayAll(start, cards).Some?
    ensures
      var g, t, four := PlayAll(start, cards).value, PlayAll(start, cards + [card]).value, Running(cards) + [card];
      && Shaped(g) && Shaped(t) && HandsAfter(g.hands, t.hands, Current(g), card)
      && exists w | 0 <= w < 4 :: TrickTakenBy(g, t, four, w)
  {
    hide AllCards, HandSizes, Points, PlayAll, HandsAfter, RankOf, SuitOf, Winner, Takes, Legal, Worth;
    PlayAllThen(start, cards, card);
    RunFollows(start, cards);
    var g := PlayAll(start, cards).value;
    MadeIs(g, |cards|);
    OnTurnHolds(g, card);
    HandLosesCard(g, card);
    LaidKeeps(g, card);
    var laid := Laid(g, card);
    WinnerPlayed(laid.plays, laid.lead);
    WinnerTakes(laid);
    var w :| 0 <= w < 4 && Winner(laid.plays, laid.lead) == laid.plays[w] && Takes(laid.trick, w);
    CurrentIs(g);
    TrickInDeck(laid);
    WorthIsPoints(laid.plays);
    LayerIs(g.leader, w);
    assert TrickTakenBy(g, Played(g, card), Running(cards) + [card], w);
  }

  lemma OnTurnHolds(g: Hand, card: Card)
    requires Shaped(g) && Legal(g, Current(g), card)
    ensures card in g.hands[Current(g)]
  {
  }

  lemma LayerIs(leader: nat, w: nat)
    requires leader < 4 && w < 4
    ensures Layer(SeatAt(leader, 3), w) == SeatAt(leader, w)
  {
  }

  /** The faces of the deck: hearts are worth 1, the queen of spades (card 50) 13, everything else nothing. */
  lemma CardValues(c: Card)
    requires 1 <= c <= 52
    ensures Hearts.Value(c) == if 27 <= c <= 39 then 1 else if c == 50 then 13 else 0
    ensures SuitOf(c) == [Clubs, Diamonds, Hearts, Spades][(c - 1) / 13] && RankOf(c) == 2 + (c - 1) % 13
  {
  }
}
