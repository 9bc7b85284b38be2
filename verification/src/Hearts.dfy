/**
 games/hearts: one hand of four-player Hearts, thirteen tricks. A card is its entity ID, 1 to 52, in the order setup mints
 them; seats are positions in PlayOrder.
 */
module Hearts {
  import opened Engine
  import Z = Zones
  import opened Shuffling

  type Card = nat

  datatype Suit = Clubs | Diamonds | Hearts | Spades

  function SuitOf(c: Card): Suit {
    if c <= 13 then Clubs else if c <= 26 then Diamonds else if c <= 39 then Hearts else Spades
  }

  function RankOf(c: Card): int {
    2 + (c - 1) % 13
  }

  const TWO_OF_CLUBS: Card := 1
  const QUEEN := 12

  function Value(c: Card): int {
    if SuitOf(c) == Hearts then 1 else if SuitOf(c) == Spades && RankOf(c) == QUEEN then 13 else 0
  }

  /** TrickPlay; suit and rank are the card's. */
  datatype Play = Play(seat: nat, card: Card)

  /** The Hearts G: hands, the trick, won piles by seat, and the trick state. */
  datatype Hand = Hand(
    hands: seq<seq<Card>>, trick: seq<Card>, won: seq<seq<Card>>, leader: nat, plays: seq<Play>, lead: Option<Suit>,
    broken: bool, scores: seq<int>, tricksLeft: int)

  predicate Shaped(g: Hand) {
    |g.hands| == |g.won| == |g.scores| == 4 && g.leader < 4 && forall p | p in g.plays :: p.seat < 4
  }

  /** trickTurnOrder: the leader between tricks, else the seat after the last play. */
  function Current(g: Hand): (s: nat)
    requires Shaped(g)
    ensures s < 4
  {
    if g.plays == [] then g.leader else (g.plays[|g.plays| - 1].seat + 1) % 4
  }

  /** The seat that plays so many places after the leader. */
  function SeatAt(leader: nat, i: nat): (s: nat)
    ensures s < 4
  {
    (leader + i) % 4
  }

  predicate HasSuit(hand: seq<Card>, suit: Option<Suit>) {
    exists i | 0 <= i < |hand| :: Some(SuitOf(hand[i])) == suit
  }

  predicate OnlyHearts(hand: seq<Card>) {
    hand != [] && forall i | 0 <= i < |hand| :: SuitOf(hand[i]) == Hearts
  }

  // ---- what a play may be, and what it does -----------------------------------------------------------------

  /** The rules of the game for the player on turn. */
  predicate Legal(g: Hand, seat: nat, card: Card)
    requires Shaped(g)
  {
    && seat == Current(g) && card in g.hands[seat]
    && (g.tricksLeft == 13 && g.plays == [] ==> SuitOf(card) == Clubs && RankOf(card) == 2)
    && (if g.plays == [] then SuitOf(card) == Hearts && !g.broken ==> OnlyHearts(g.hands[seat])
        else Some(SuitOf(card)) == g.lead || !HasSuit(g.hands[seat], g.lead))
  }

  /** Of the plays so far, the highest of the lead suit. */
  function Winner(plays: seq<Play>, lead: Option<Suit>): Play
    requires plays != []
  {
    if |plays| == 1 then plays[0]
    else
      var best := Winner(plays[..|plays| - 1], lead);
      var p := plays[|plays| - 1];
      if Some(SuitOf(p.card)) == lead && RankOf(p.card) > RankOf(best.card) then p else best
  }

  function Worth(plays: seq<Play>): int {
    if plays == [] then 0 else Worth(plays[..|plays| - 1]) + Value(plays[|plays| - 1].card)
  }

  function CardsOf(plays: seq<Play>): (r: seq<Card>)
    ensures |r| == |plays| && forall i | 0 <= i < |plays| :: r[i] == plays[i].card
  {
    seq(|plays|, i requires 0 <= i < |plays| => plays[i].card)
  }

  /** resolveTrick: the winner takes the trick and its points and leads next. */
  function Resolved(g: Hand): Hand
    requires Shaped(g) && g.plays != [] && g.trick == CardsOf(g.plays) && Winner(g.plays, g.lead).seat < 4
  {
    var w := Winner(g.plays, g.lead).seat;
    g.(trick := [], won := g.won[w := g.won[w] + g.trick], leader := w, plays := [], lead := None,
       scores := g.scores[w := g.scores[w] + Worth(g.plays)], tricksLeft := g.tricksLeft - 1)
  }

  /** playCard's effect before the trick is resolved. */
  function Laid(g: Hand, card: Card): Hand
    requires Shaped(g)
  {
    var seat := Current(g);
    g.(hands := g.hands[seat := Z.Cut(g.hands[seat], card)], trick := g.trick + [card],
       plays := g.plays + [Play(seat, card)], lead := if g.plays == [] then Some(SuitOf(card)) else g.lead,
       broken := g.broken || SuitOf(card) == Hearts)
  }

  function Played(g: Hand, card: Card): Hand
    requires Shaped(g) && g.trick == CardsOf(g.plays)
  {
    var laid := Laid(g, card);
    WinnerPlayed(laid.plays, laid.lead);
    if |laid.plays| == 4 then Resolved(laid) else laid
  }

  lemma {:induction false} WinnerPlayed(plays: seq<Play>, lead: Option<Suit>)
    requires plays != []
    ensures Winner(plays, lead) in plays
  {
    if |plays| > 1 { WinnerPlayed(plays[..|plays| - 1], lead); }
  }

  /** The winner is a highest card of the suit that was led. */
  lemma {:induction false} WinnerIsHighest(plays: seq<Play>, lead: Option<Suit>)
    requires plays != [] && Some(SuitOf(plays[0].card)) == lead
    ensures Some(SuitOf(Winner(plays, lead).card)) == lead
    ensures forall p | p in plays && Some(SuitOf(p.card)) == lead :: RankOf(p.card) <= RankOf(Winner(plays, lead).card)
  {
    if |plays| > 1 {
      var n := |plays| - 1;
      WinnerIsHighest(plays[..n], lead);
      assert forall p :: p in plays <==> p in plays[..n] || p == plays[n];
    }
  }

  // ---- points -----------------------------------------------------------------------------------------------

  /** The points of the cards 1 to n of a multiset. */
  function PointsTo(cards: multiset<Card>, n: nat): int {
    if n == 0 then 0 else PointsTo(cards, n - 1) + cards[n] * Value(n)
  }

  function Points(cards: seq<Card>): int {
    PointsTo(multiset(cards), 52)
  }

  lemma {:induction false} PointsAdd(a: multiset<Card>, b: multiset<Card>, n: nat)
    ensures PointsTo(a + b, n) == PointsTo(a, n) + PointsTo(b, n)
  {
    if n > 0 {
      PointsAdd(a, b, n - 1);
      assert (a + b)[n] * Value(n) == a[n] * Value(n) + b[n] * Value(n);
    }
  }

  lemma {:induction false} PointsOfOne(c: Card, n: nat)
    ensures PointsTo(multiset{c}, n) == if 1 <= c <= n then Value(c) else 0
  {
    if n > 0 { PointsOfOne(c, n - 1); }
  }

  lemma PointsJoin(a: seq<Card>, b: seq<Card>)
    ensures Points(a + b) == Points(a) + Points(b)
  {
    PointsAdd(multiset(a), multiset(b), 52);
  }

  predicate InDeck(cards: seq<Card>) {
    forall c | c in cards :: 1 <= c <= 52
  }

  lemma {:induction false} WorthIsPoints(plays: seq<Play>)
    requires InDeck(CardsOf(plays))
    ensures Worth(plays) == Points(CardsOf(plays))
  {
    if plays == [] {
      NoPoints(52);
    } else {
      var n := |plays| - 1;
      var c := plays[n].card;
      assert CardsOf(plays) == CardsOf(plays[..n]) + [c];
      assert forall x | x in CardsOf(plays[..n]) :: x in CardsOf(plays);
      WorthIsPoints(plays[..n]);
      PointsJoin(CardsOf(plays[..n]), [c]);
      assert c in CardsOf(plays);
      PointsOfOne(c, 52);
    }
  }

  lemma {:induction false} NoPoints(n: nat)
    ensures PointsTo(multiset{}, n) == 0
  {
    if n > 0 { NoPoints(n - 1); }
  }

  /** The deck, in the order setup mints it. */
  function Deck(): (d: seq<Card>)
    ensures |d| == 52 && forall i | 0 <= i < 52 :: d[i] == i + 1
  {
    seq(52, i => i + 1)
  }

  function DeckTo(n: nat): (d: seq<Card>)
    ensures |d| == n && forall i | 0 <= i < n :: d[i] == i + 1
  {
    seq(n, i => i + 1)
  }

  lemma {:induction false} DeckHasOnce(n: nat)
    ensures forall c :: multiset(DeckTo(n))[c] == if 1 <= c <= n then 1 else 0
  {
    if n > 0 {
      DeckHasOnce(n - 1);
      assert DeckTo(n) == DeckTo(n - 1) + [n];
    }
  }

  /** A deck is worth 13 hearts and the queen of spades. */
  lemma {:induction false} DeckPoints(cards: multiset<Card>, n: nat)
    requires n <= 52 && forall c | 1 <= c <= 52 :: cards[c] == 1
    ensures PointsTo(cards, n) == if n <= 26 then 0 else if n <= 39 then n - 26 else if n < 50 then 13 else 26
  {
    if n > 0 { DeckPoints(cards, n - 1); }
  }

  // ---- the invariant ----------------------------------------------------------------------------------------

  function Joined(piles: seq<seq<Card>>): seq<Card> {
    if piles == [] then [] else Joined(piles[..|piles| - 1]) + piles[|piles| - 1]
  }

  /** Every card on the table or in a hand. */
  function AllCards(g: Hand): multiset<Card> {
    multiset(Joined(g.hands)) + multiset(g.trick) + multiset(Joined(g.won))
  }

  /** How many cards a seat holds: one a trick left, less if it has played to this one. */
  predicate HandSizes(g: Hand)
    requires Shaped(g)
  {
    forall i | 0 <= i < 4 :: |g.hands[SeatAt(g.leader, i)]| == g.tricksLeft - if i < |g.plays| then 1 else 0
  }

  ghost predicate Inv(g: Hand) {
    && Shaped(g) && 0 <= g.tricksLeft <= 13 && |g.plays| < 4
    && AllCards(g) == multiset(Deck())
    && g.trick == CardsOf(g.plays) && (forall i | 0 <= i < |g.plays| :: g.plays[i].seat == SeatAt(g.leader, i))
    && HandSizes(g)
    && g.lead == (if g.plays == [] then None else Some(SuitOf(g.plays[0].card)))
    && (forall i | 0 <= i < 4 :: g.scores[i] == Points(g.won[i]))
    && (g.tricksLeft == 13 && g.plays == [] ==> TWO_OF_CLUBS in g.hands[g.leader])
    && (g.tricksLeft == 0 ==> g.plays == [])
  }

  lemma {:induction false} JoinedUpdate(piles: seq<seq<Card>>, i: nat, pile: seq<Card>)
    requires i < |piles|
    ensures multiset(Joined(piles[i := pile])) + multiset(piles[i]) == multiset(Joined(piles)) + multiset(pile)
  {
    var n := |piles| - 1;
    if i == n {
      assert piles[i := pile][..n] == piles[..n];
    } else {
      var next := piles[i := pile];
      assert next[..n] == piles[..n][i := pile];
      JoinedUpdate(piles[..n], i, pile);
      assert multiset(Joined(next)) == multiset(Joined(piles[..n][i := pile])) + multiset(piles[n]) by {
        assert next[n] == piles[n];
      }
      assert multiset(Joined(piles)) == multiset(Joined(piles[..n])) + multiset(piles[n]);
      assert piles[..n][i] == piles[i];
      Exchange(multiset(Joined(piles[..n][i := pile])), multiset(Joined(piles[..n])), multiset(piles[i]), multiset(pile),
               multiset(piles[n]));
    }
  }

  lemma DeckCards(c: Card)
    ensures multiset(Deck())[c] == if 1 <= c <= 52 then 1 else 0
  {
    assert Deck() == DeckTo(52);
    DeckHasOnce(52);
  }

  /** Laying a card moves it from the hand to the trick. */
  lemma LaidConserves(g: Hand, card: Card)
    requires Shaped(g) && card in g.hands[Current(g)]
    ensures AllCards(Laid(g, card)) == AllCards(g)
  {
    var seat := Current(g);
    var cut := Z.Cut(g.hands[seat], card);
    JoinedUpdate(g.hands, seat, cut);
    Z.CutOne(g.hands[seat], card);
    var a, b, m := multiset(Joined(Laid(g, card).hands)), multiset(Joined(g.hands)), multiset(cut);
    assert a + (m + multiset{card}) == b + m;
    Cancel(a + multiset{card}, b, m);
    assert multiset(g.trick + [card]) == multiset(g.trick) + multiset{card};
  }

  lemma ResolvedConserves(g: Hand)
    requires Shaped(g) && g.plays != [] && g.trick == CardsOf(g.plays) && Winner(g.plays, g.lead).seat < 4
    ensures AllCards(Resolved(g)) == AllCards(g)
  {
    var w := Winner(g.plays, g.lead).seat;
    var grown := g.won[w] + g.trick;
    JoinedUpdate(g.won, w, grown);
    var a, b, m := multiset(Joined(g.won[w := grown])), multiset(Joined(g.won)), multiset(g.won[w]);
    assert a + m == b + multiset(g.trick) + m;
    Cancel(a, b + multiset(g.trick), m);
  }

  lemma CurrentIs(g: Hand)
    requires Inv(g)
    ensures Current(g) == SeatAt(g.leader, |g.plays|)
  {
  }

  /** After a card is laid, but before a full trick is resolved. */
  ghost predicate LaidInv(g: Hand) {
    && Shaped(g) && 1 <= g.tricksLeft <= 13 && 1 <= |g.plays| <= 4
    && AllCards(g) == multiset(Deck())
    && g.trick == CardsOf(g.plays) && (forall i | 0 <= i < |g.plays| :: g.plays[i].seat == SeatAt(g.leader, i))
    && HandSizes(g) && g.lead == Some(SuitOf(g.plays[0].card))
    && (forall i | 0 <= i < 4 :: g.scores[i] == Points(g.won[i]))
  }

  lemma HandsLeft(g: Hand)
    requires Inv(g)
    ensures g.hands[Current(g)] == [] <==> g.tricksLeft == 0
  {
    CurrentIs(g);
    assert |g.hands[SeatAt(g.leader, |g.plays|)]| == g.tricksLeft;
  }

  lemma LaidSizes(g: Hand, card: Card)
    requires Inv(g) && card in g.hands[Current(g)]
    ensures HandSizes(Laid(g, card))
  {
    hide AllCards;
    CurrentIs(g);
    Z.CutOne(g.hands[Current(g)], card);
    var t, n := Laid(g, card), |g.plays|;
    forall i | 0 <= i < 4
      ensures |t.hands[SeatAt(t.leader, i)]| == t.tricksLeft - if i < |t.plays| then 1 else 0
    {
      assert |g.hands[SeatAt(g.leader, i)]| == g.tricksLeft - if i < n then 1 else 0;
      SeatsDiffer(g.leader, i, n);
    }
  }

  lemma SeatsDiffer(leader: nat, i: nat, j: nat)
    requires leader < 4 && i < 4 && j < 4
    ensures SeatAt(leader, i) == SeatAt(leader, j) <==> i == j
  {
  }

  lemma LaidKeeps(g: Hand, card: Card)
    requires Inv(g) && Legal(g, Current(g), card)
    ensures LaidInv(Laid(g, card))
  {
    hide Points, AllCards, HandSizes;
    HandsLeft(g);
    LaidConserves(g, card);
    LaidSizes(g, card);
    CurrentIs(g);
    assert CardsOf(g.plays + [Play(Current(g), card)]) == CardsOf(g.plays) + [card];
  }

  lemma ResolvedKeeps(g: Hand)
    requires LaidInv(g) && |g.plays| == 4 && Winner(g.plays, g.lead).seat < 4
    ensures Inv(Resolved(g))
  {
    hide AllCards, Winner, Worth, Points;
    var w, t := Winner(g.plays, g.lead).seat, Resolved(g);
    ResolvedConserves(g);
    TrickInDeck(g);
    WorthIsPoints(g.plays);
    PointsJoin(g.won[w], g.trick);
    forall i | 0 <= i < 4 ensures |t.hands[SeatAt(t.leader, i)]| == t.tricksLeft {
      var j := (t.leader + i + 4 - g.leader) % 4;
      assert SeatAt(g.leader, j) == SeatAt(t.leader, i);
      assert |g.hands[SeatAt(g.leader, j)]| == g.tricksLeft - 1;
    }
  }

  lemma TrickInDeck(g: Hand)
    requires AllCards(g) == multiset(Deck())
    ensures InDeck(g.trick)
  {
    forall c | c in g.trick ensures 1 <= c <= 52 {
      assert c in multiset(g.trick) && c in AllCards(g);
      DeckCards(c);
    }
  }

  /** Every legal play keeps the invariant, and ends a trick with its fourth card. */
  lemma PlayedKeeps(g: Hand, card: Card)
    requires Inv(g) && Legal(g, Current(g), card)
    ensures Inv(Played(g, card))
    ensures MovesMade(Played(g, card)) == MovesMade(g) + 1
  {
    hide AllCards, Winner, HandSizes, Points, Legal, Resolved;
    var laid := Laid(g, card);
    LaidKeeps(g, card);
    WinnerPlayed(laid.plays, laid.lead);
    assert MovesMade(laid) == MovesMade(g) + 1;
    if |laid.plays| == 4 {
      ResolvedKeeps(laid);
      ResolvedCounts(laid);
    } else {
      LaidIsInv(laid);
    }
  }

  lemma LaidIsInv(g: Hand)
    requires LaidInv(g) && |g.plays| < 4
    ensures Inv(g)
  {
  }

  lemma ResolvedCounts(g: Hand)
    requires Shaped(g) && |g.plays| == 4 && g.trick == CardsOf(g.plays) && Winner(g.plays, g.lead).seat < 4
    ensures MovesMade(Resolved(g)) == MovesMade(g)
  {
  }

  /** The plays of finished tricks and of the running one. */
  function MovesMade(g: Hand): int {
    4 * (13 - g.tricksLeft) + |g.plays|
  }

  // ---- main results -----------------------------------------------------------------------------------------

  function PlayAll(g: Hand, cards: seq<Card>): Option<Hand>
    requires Shaped(g) && g.trick == CardsOf(g.plays)
    decreases |cards|
  {
    if cards == [] then Some(g)
    else if !Legal(g, Current(g), cards[0]) then None
    else
      var next := Played(g, cards[0]);
      PlayedShape(g, cards[0]);
      PlayAll(next, cards[1..])
  }

  lemma PlayedShape(g: Hand, card: Card)
    requires Shaped(g) && g.trick == CardsOf(g.plays)
    ensures Shaped(Played(g, card)) && Played(g, card).trick == CardsOf(Played(g, card).plays)
  {
    var laid := Laid(g, card);
    WinnerPlayed(laid.plays, laid.lead);
    assert CardsOf(laid.plays) == CardsOf(g.plays) + [card];
  }

  /** Over every run of accepted plays the invariant holds and each play is counted. */
  lemma {:induction false} RunKeeps(g: Hand, cards: seq<Card>)
    requires Inv(g)
    ensures
      var r := PlayAll(g, cards);
      r.Some? ==> Inv(r.value) && MovesMade(r.value) == MovesMade(g) + |cards|
    decreases |cards|
  {
    hide AllCards, HandSizes, Points, Legal, Played;
    if cards != [] && Legal(g, Current(g), cards[0]) {
      PlayedKeeps(g, cards[0]);
      RunKeeps(Played(g, cards[0]), cards[1..]);
    }
  }

  /** Conservation: in every reachable state each card is in exactly one pile, and the points on and off the table are 26. */
  lemma Conserves(g: Hand)
    requires Inv(g)
    ensures forall c :: AllCards(g)[c] == if 1 <= c <= 52 then 1 else 0
    ensures g.scores[0] + g.scores[1] + g.scores[2] + g.scores[3] + Points(Joined(g.hands)) + Points(g.trick) == 26
  {
    forall c ensures AllCards(g)[c] == if 1 <= c <= 52 then 1 else 0 { DeckCards(c); }
    DeckPoints(AllCards(g), 52);
    PointsAdd(multiset(Joined(g.hands)) + multiset(g.trick), multiset(Joined(g.won)), 52);
    PointsAdd(multiset(Joined(g.hands)), multiset(g.trick), 52);
    WonPoints(g.won);
  }

  lemma WonPoints(won: seq<seq<Card>>)
    requires |won| == 4
    ensures Points(Joined(won)) == Points(won[0]) + Points(won[1]) + Points(won[2]) + Points(won[3])
  {
    assert won[..3][..2] == won[..2] && won[..2][..1] == won[..1] && won[..1][..0] == [];
    assert Joined(won[..1]) == won[0];
    assert Joined(won[..2]) == won[0] + won[1];
    assert Joined(won[..3]) == won[0] + won[1] + won[2];
    PointsJoin(won[0], won[1]);
    PointsJoin(won[0] + won[1], won[2]);
    PointsJoin(won[0] + won[1] + won[2], won[3]);
    assert Joined(won) == won[0] + won[1] + won[2] + won[3];
  }

  /** Until the hand is over the player on turn can play something. */
  lemma SomethingIsLegal(g: Hand) returns (card: Card)
    requires Inv(g) && g.tricksLeft > 0
    ensures Legal(g, Current(g), card)
  {
    hide AllCards, Points;
    HandsLeft(g);
    var hand := g.hands[Current(g)];
    if g.plays == [] {
      if g.tricksLeft == 13 {
        card := TWO_OF_CLUBS;
      } else if OnlyHearts(hand) || g.broken {
        card := hand[0];
      } else {
        var i :| 0 <= i < |hand| && SuitOf(hand[i]) != Hearts;
        card := hand[i];
      }
    } else if HasSuit(hand, g.lead) {
      var i :| 0 <= i < |hand| && Some(SuitOf(hand[i])) == g.lead;
      card := hand[i];
    } else {
      card := hand[0];
    }
  }

  /** A hand takes exactly 52 plays: it is over after 52 accepted ones, never before, and then nothing is legal. */
  lemma EndsAfter52(g: Hand, cards: seq<Card>, next: Card)
    requires Inv(g) && MovesMade(g) == 0 && PlayAll(g, cards).Some?
    ensures
      var r := PlayAll(g, cards).value;
      |cards| <= 52 && (r.tricksLeft == 0 <==> |cards| == 52) && Shaped(r) &&
      (|cards| == 52 ==> !Legal(r, Current(r), next))
  {
    hide AllCards, Points;
    RunKeeps(g, cards);
    HandsLeft(PlayAll(g, cards).value);
  }
}
