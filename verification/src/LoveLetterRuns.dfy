/**
 Love Letter over whole matches: between moves the sixteen cards are all there, the player on turn holds two cards, the
 other players still in one and the eliminated none; and a match of n players to T tokens ends within
 (n(T-1)+1)(15-n) moves.
 */
module LoveLetterRuns {
  import E = Engine
  import opened Shuffling
  import opened LoveLetter
  import Z = Zones

  // ---- the sixteen cards ------------------------------------------------------------------------------------

  function Own(p: Player): multiset<Card> {
    multiset(p.hand) + multiset(p.discard)
  }

  function Held(players: seq<Player>): multiset<Card> {
    if players == [] then multiset{} else Held(players[..|players| - 1]) + Own(players[|players| - 1])
  }

  function BurnedCard(c: Card): multiset<Card> {
    if c == 0 then multiset{} else multiset{c}
  }

  /** Deck, burned card, hands and discards. */
  function Everything(t: Table): multiset<Card> {
    Held(t.players) + multiset(t.deck) + BurnedCard(t.burned)
  }

  lemma {:induction false} HeldUpdate(players: seq<Player>, i: nat, p: Player)
    requires i < |players|
    ensures Held(players[i := p]) + Own(players[i]) == Held(players) + Own(p)
  {
    hide Own;
    var n := |players| - 1;
    var next := players[i := p];
    if i == n {
      assert next[..n] == players[..n];
    } else {
      assert next[..n] == players[..n][i := p] && next[n] == players[n];
      HeldUpdate(players[..n], i, p);
      Exchange(Held(players[..n][i := p]), Held(players[..n]), Own(players[i]), Own(p), Own(players[n]));
    }
  }

  /** A seat whose own cards stay the same changes nothing overall. */
  lemma SameOwn(t: Table, i: nat, p: Player)
    requires i < |t.players| && Own(p) == Own(t.players[i])
    ensures Everything(With(t, i, p)) == Everything(t)
  {
    hide Own;
    HeldUpdate(t.players, i, p);
    Cancel(Held(t.players[i := p]), Held(t.players), Own(p));
  }

  lemma DiscardedKeeps(t: Table, actor: nat, card: Card)
    requires actor < |t.players| && card in t.players[actor].hand
    ensures Everything(Discarded(t, actor, card)) == Everything(t)
  {
    hide Everything;
    var p := t.players[actor];
    Z.CutOne(p.hand, card);
    assert multiset(p.discard + [card]) == multiset(p.discard) + multiset{card};
    SameOwn(t, actor, p.(hand := Z.Cut(p.hand, card), discard := p.discard + [card]));
  }

  lemma EliminatedKeeps(t: Table, seat: nat)
    requires seat < |t.players|
    ensures Everything(Eliminated(t, seat)) == Everything(t)
  {
    hide Everything;
    var p := t.players[seat];
    if p.alive {
      assert multiset(p.discard + p.hand) == multiset(p.discard) + multiset(p.hand);
      SameOwn(t, seat, p.(alive := false, discard := p.discard + p.hand, hand := []));
    }
  }

  lemma HandDiscardedKeeps(t: Table, target: nat)
    requires target < |t.players| && |t.players[target].hand| == 1
    ensures Everything(HandDiscarded(t, target)) == Everything(t)
  {
    hide Everything;
    var p := t.players[target];
    assert p.hand == [p.hand[0]];
    assert multiset(p.discard + [p.hand[0]]) == multiset(p.discard) + multiset(p.hand);
    SameOwn(t, target, p.(hand := [], discard := p.discard + [p.hand[0]]));
  }

  lemma TookCard(t: Table, target: nat, c: Card)
    requires target < |t.players| && t.players[target].hand == []
    ensures Held(t.players[target := t.players[target].(hand := [c])]) == Held(t.players) + multiset{c}
  {
    var p := t.players[target];
    HeldUpdate(t.players, target, p.(hand := [c]));
    Given(Held(t.players[target := p.(hand := [c])]), Held(t.players), Own(p), c);
  }

  lemma FromDeck(held: multiset<Card>, deck: seq<Card>, burned: multiset<Card>)
    requires deck != []
    ensures held + multiset{deck[0]} + multiset(deck[1..]) + burned == held + multiset(deck) + burned
  {
    assert deck == [deck[0]] + deck[1..];
  }

  lemma ReplacedKeeps(t: Table, target: nat)
    requires target < |t.players| && t.players[target].hand == []
    ensures Everything(Replaced(t, target)) == Everything(t)
  {
    hide Held, Own;
    if t.deck != [] {
      TookCard(t, target, t.deck[0]);
      FromDeck(Held(t.players), t.deck, BurnedCard(t.burned));
    } else if t.burned != 0 {
      TookCard(t, target, t.burned);
    }
  }

  lemma Given(after: multiset<Card>, before: multiset<Card>, own: multiset<Card>, c: Card)
    requires after + own == before + (multiset{c} + own)
    ensures after == before + multiset{c}
  {
    Cancel(after, before + multiset{c}, own);
  }

  lemma KingKeeps(t: Table, actor: nat, target: nat)
    requires actor < |t.players| && target < |t.players| && actor != target
    ensures Everything(KingEffect(t, actor, target)) == Everything(t)
  {
    var a, b := t.players[actor], t.players[target];
    if !b.safe {
      var first := With(t, actor, a.(hand := b.hand));
      HeldUpdate(t.players, actor, a.(hand := b.hand));
      HeldUpdate(first.players, target, b.(hand := a.hand));
      Swap(Held(t.players), Held(first.players), Held(KingEffect(t, actor, target).players),
           multiset(a.hand), multiset(a.discard), multiset(b.hand), multiset(b.discard));
    }
  }

  lemma Swap(h0: multiset<Card>, h1: multiset<Card>, h2: multiset<Card>,
             ah: multiset<Card>, ad: multiset<Card>, bh: multiset<Card>, bd: multiset<Card>)
    requires h1 + (ah + ad) == h0 + (bh + ad)
    requires h2 + (bh + bd) == h1 + (ah + bd)
    ensures h2 == h0
  {
    assert h1 + (ah + ad) == h1 + ah + ad && h0 + (bh + ad) == h0 + bh + ad;
    Cancel(h1 + ah, h0 + bh, ad);
    assert h2 + (bh + bd) == h2 + bh + bd && h1 + (ah + bd) == h1 + ah + bd;
    Cancel(h2 + bh, h1 + ah, bd);
    Cancel(h2, h0, bh);
  }

  // ---- hand sizes -------------------------------------------------------------------------------------------

  /** Players still in hold one card, the player on turn `k`; eliminated players none. */
  predicate Sizes(t: Table, actor: nat, k: nat) {
    forall i: nat | i < |t.players| ::
      |t.players[i].hand| == if !t.players[i].alive then 0 else if i == actor then k else 1
  }

  /** Nobody comes back to life, and at most one player drops out. */
  predicate AtMostOneOut(before: Table, after: Table) {
    && |after.players| == |before.players|
    && (forall i: nat | i < |before.players| :: after.players[i].alive ==> before.players[i].alive)
    && (forall i: nat, j: nat | i < |before.players| && j < |before.players| && i != j ::
          before.players[i].alive && before.players[j].alive ==> after.players[i].alive || after.players[j].alive)
  }

  /** Nothing of a move touches the score or the round. */
  predicate SameScore(before: Table, after: Table) {
    && after == before.(players := after.players, deck := after.deck, burned := after.burned)
    && |after.players| == |before.players|
    && (forall i: nat | i < |before.players| :: after.players[i].tokens == before.players[i].tokens)
    && |after.deck| <= |before.deck|
  }

  predicate SameAlive(before: Table, after: Table) {
    |after.players| == |before.players| &&
    forall i: nat | i < |before.players| :: after.players[i].alive == before.players[i].alive
  }

  /** What a move leaves, seen from the table before it. */
  predicate Leaves(before: Table, after: Table, actor: nat) {
    Sizes(after, actor, 1) && AtMostOneOut(before, after) && SameScore(before, after)
  }

  lemma DiscardedSizes(t: Table, actor: nat, card: Card)
    requires actor < |t.players| && card in t.players[actor].hand && t.players[actor].alive && Sizes(t, actor, 2)
    ensures
      var d := Discarded(t, actor, card);
      Leaves(t, d, actor) && SameAlive(t, d) && d.deck == t.deck && d.burned == t.burned
  {
    Z.CutOne(t.players[actor].hand, card);
  }

  lemma EliminatedSizes(t: Table, d: Table, actor: nat, seat: nat)
    requires seat < |d.players| && Leaves(t, d, actor) && SameAlive(t, d)
    ensures Leaves(t, Eliminated(d, seat), actor)
  {
  }

  lemma KingSizes(t: Table, d: Table, actor: nat, target: nat)
    requires actor < |d.players| && target < |d.players| && actor != target
    requires Leaves(t, d, actor) && SameAlive(t, d) && t.players[actor].alive && t.players[target].alive
    ensures Leaves(t, KingEffect(d, actor, target), actor)
  {
  }

  lemma SeenSizes(t: Table, d: Table, actor: nat, target: nat)
    requires actor < |d.players| && target < |d.players| && Leaves(t, d, actor) && SameAlive(t, d)
    ensures Leaves(t, PriestEffect(d, actor, target), actor)
  {
  }

  lemma PrinceSizes(t: Table, d: Table, actor: nat, target: nat)
    requires actor < |t.players| && target < |t.players| && t.players[target].alive
    requires Leaves(t, d, actor) && SameAlive(t, d) && d.burned == t.burned != 0
    ensures
      var p := PrinceEffect(d, actor, target);
      Leaves(t, p, actor) && (p.burned == t.burned || p.deck == [])
  {
    var q := d.players[target];
    if !(target != actor && q.safe) && q.hand != [] && q.hand[0] != PRINCESS {
      DealtAgain(t, d, actor, target);
    }
  }

  lemma DealtAgain(t: Table, d: Table, actor: nat, target: nat)
    requires actor < |t.players| && target < |t.players| && t.players[target].alive && d.burned == t.burned != 0
    requires Leaves(t, d, actor) && SameAlive(t, d) && d.players[target].hand != []
    ensures
      var p := Replaced(HandDiscarded(d, target), target);
      Leaves(t, p, actor) && (p.burned == t.burned || p.deck == [])
  {
  }

  /** Every move leaves one card to everyone still in, and puts at most one player out. */
  lemma PlayedSizes(t: Table, actor: nat, move: Move)
    requires actor < |t.players| && Allowed(t, actor, move) && t.players[actor].alive && Sizes(t, actor, 2)
    requires t.burned != 0
    ensures
      var p := Played(t, actor, move);
      Leaves(t, p, actor) && (p.burned == t.burned || p.deck == [])
  {
    hide Discarded, Allowed, CountessForced, Leaves, SameAlive, Eliminated, KingEffect, PriestEffect, PrinceEffect;
    assert move.Card() in t.players[actor].hand by { HoldsIt(t, actor, move); }
    DiscardedSizes(t, actor, move.Card());
    TargetsOk(t, actor, move);
    var d := Discarded(t, actor, move.Card());
    assert |d.players| == |t.players| by { SameSize(t, actor, move.Card()); }
    match move
    case Guard(target, named) => EliminatedSizes(t, d, actor, target); BurnedStays(d, target);
    case Priest(target) => SeenSizes(t, d, actor, target); SeenStays(d, actor, target);
    case Baron(target) => BaronSizes(t, d, actor, target);
    case Handmaid => SafeSizes(t, d, actor);
    case Prince(target) => PrinceSizes(t, d, actor, target);
    case King(target) => KingSizes(t, d, actor, target); KingStays(d, actor, target);
    case Countess =>
    case Princess => EliminatedSizes(t, d, actor, actor); BurnedStays(d, actor);
  }

  lemma SameSize(t: Table, actor: nat, card: Card)
    requires actor < |t.players|
    ensures |Discarded(t, actor, card).players| == |t.players|
  {
  }

  lemma BurnedStays(t: Table, seat: nat)
    requires seat < |t.players|
    ensures Eliminated(t, seat).burned == t.burned
  {
  }

  lemma SeenStays(t: Table, actor: nat, target: nat)
    requires actor < |t.players| && target < |t.players|
    ensures PriestEffect(t, actor, target).burned == t.burned
  {
  }

  lemma KingStays(t: Table, actor: nat, target: nat)
    requires actor < |t.players| && target < |t.players|
    ensures KingEffect(t, actor, target).burned == t.burned
  {
  }

  lemma BaronSizes(t: Table, d: Table, actor: nat, target: nat)
    requires actor < |d.players| && target < |d.players| && Leaves(t, d, actor) && SameAlive(t, d)
    ensures Leaves(t, BaronEffect(d, actor, target), actor) && BaronEffect(d, actor, target).burned == d.burned
  {
    EliminatedSizes(t, d, actor, target);
    EliminatedSizes(t, d, actor, actor);
  }

  lemma SafeSizes(t: Table, d: Table, actor: nat)
    requires actor < |d.players| && Leaves(t, d, actor) && SameAlive(t, d)
    ensures Leaves(t, With(d, actor, d.players[actor].(safe := true)), actor)
  {
  }

  lemma HoldsIt(t: Table, actor: nat, move: Move)
    requires actor < |t.players| && Allowed(t, actor, move)
    ensures move.Card() in t.players[actor].hand
  {
  }

  lemma TargetsOk(t: Table, actor: nat, move: Move)
    requires actor < |t.players| && Allowed(t, actor, move)
    ensures move.Guard? || move.Priest? || move.Baron? || move.King? ==>
              move.target < |t.players| && move.target != actor && t.players[move.target].alive
    ensures move.Prince? ==> move.target < |t.players| && t.players[move.target].alive
  {
  }

  /** Every move conserves the sixteen cards. */
  lemma PlayedConserves(t: Table, actor: nat, move: Move)
    requires actor < |t.players| && Allowed(t, actor, move) && t.players[actor].alive && Sizes(t, actor, 2)
    ensures Everything(Played(t, actor, move)) == Everything(t)
  {
    hide Discarded, Allowed, Everything, Held, Own;
    assert move.Card() in t.players[actor].hand by { HoldsIt(t, actor, move); }
    DiscardedKeeps(t, actor, move.Card());
    DiscardedSizes(t, actor, move.Card());
    TargetsOk(t, actor, move);
    var d := Discarded(t, actor, move.Card());
    match move
    case Guard(target, named) => EliminatedKeeps(d, target);
    case Priest(target) => PriestKeeps(d, actor, target);
    case Baron(target) => EliminatedKeeps(d, target); EliminatedKeeps(d, actor);
    case Handmaid => SafeKeeps(d, actor);
    case Prince(target) => PrinceKeeps(d, actor, target);
    case King(target) => KingKeeps(d, actor, target);
    case Countess =>
    case Princess => EliminatedKeeps(d, actor);
  }

  lemma PriestKeeps(t: Table, actor: nat, target: nat)
    requires actor < |t.players| && target < |t.players|
    ensures Everything(PriestEffect(t, actor, target)) == Everything(t)
  {
    if !t.players[target].safe && t.players[target].hand != [] {
      SameOwn(t, actor, t.players[actor].(seen := t.players[actor].seen[target := t.players[target].hand[0]]));
    }
  }

  lemma SafeKeeps(t: Table, actor: nat)
    requires actor < |t.players|
    ensures Everything(With(t, actor, t.players[actor].(safe := true))) == Everything(t)
  {
    SameOwn(t, actor, t.players[actor].(safe := true));
  }

  lemma PrinceKeeps(t: Table, actor: nat, target: nat)
    requires actor < |t.players| && target < |t.players| && Sizes(t, actor, 1)
    ensures Everything(PrinceEffect(t, actor, target)) == Everything(t)
  {
    hide Everything;
    var p := t.players[target];
    if !(target != actor && p.safe) && p.hand != [] {
      HandDiscardedKeeps(t, target);
      EliminatedKeeps(HandDiscarded(t, target), target);
      ReplacedKeeps(HandDiscarded(t, target), target);
    }
  }

  // ---- rounds -----------------------------------------------------------------------------------------------

  ghost predicate TwoAlive(t: Table) {
    exists i: nat, j: nat :: i < j < |t.players| && t.players[i].alive && t.players[j].alive
  }

  lemma {:induction false} AliveAscends(players: seq<Player>, n: nat)
    requires n <= |players|
    ensures forall i, j | 0 <= i < j < |AliveTo(players, n)| :: AliveTo(players, n)[i] < AliveTo(players, n)[j]
  {
    if n > 0 {
      AliveAscends(players, n - 1);
      var before := AliveTo(players, n - 1);
      assert forall k | 0 <= k < |before| :: before[k] in before;
    }
  }

  lemma TwoListed(t: Table)
    requires |Alive(t)| >= 2
    ensures TwoAlive(t)
  {
    var a := Alive(t);
    AliveAscends(t.players, |t.players|);
    assert a[0] in a && a[1] in a && a[0] < a[1];
  }

  lemma SomeoneLeft(before: Table, after: Table)
    requires TwoAlive(before) && AtMostOneOut(before, after)
    ensures Alive(after) != []
  {
    var i: nat, j: nat :| i < j < |before.players| && before.players[i].alive && before.players[j].alive;
    assert i in Alive(after) || j in Alive(after);
  }

  /** A finished round has a winner. */
  lemma RoundHasWinner(t: Table, actor: nat)
    requires Sizes(t, actor, 1) && Alive(t) != []
    requires forall i: nat | i < |t.players| :: forall c | c in t.players[i].hand :: c > 0
    ensures RoundWinners(t) != []
  {
    var alive := Alive(t);
    if |alive| != 1 {
      var s := alive[0];
      assert s in alive;
      assert t.players[s].hand[0] in t.players[s].hand;
      var high := Highest(t.players, alive);
      assert high >= t.players[s].hand[0] > 0;
      var w: nat :| w in alive && w < |t.players| && t.players[w].hand != [] && t.players[w].hand[0] == high;
      assert w in Showing(t.players, alive, high);
    }
  }

  function TokenSum(players: seq<Player>): int {
    if players == [] then 0 else TokenSum(players[..|players| - 1]) + players[|players| - 1].tokens
  }

  lemma {:induction false} SumAwarded(before: seq<Player>, after: seq<Player>, winners: seq<nat>)
    requires |after| == |before|
    requires forall i | 0 <= i < |before| :: after[i].tokens == before[i].tokens + if i in winners then 1 else 0
    ensures TokenSum(after) >= TokenSum(before)
    ensures (exists i | 0 <= i < |before| :: i in winners) ==> TokenSum(after) >= TokenSum(before) + 1
  {
    if before != [] {
      SumAwarded(before[..|before| - 1], after[..|before| - 1], winners);
    }
  }

  lemma {:induction false} SumBounded(players: seq<Player>, most: int)
    requires forall i | 0 <= i < |players| :: players[i].tokens <= most
    ensures TokenSum(players) <= |players| * most
  {
    if players != [] { SumBounded(players[..|players| - 1], most); }
  }

  lemma {:induction false} SumSame(before: seq<Player>, after: seq<Player>)
    requires |after| == |before| && forall i | 0 <= i < |before| :: after[i].tokens == before[i].tokens
    ensures TokenSum(after) == TokenSum(before)
  {
    if before != [] { SumSame(before[..|before| - 1], after[..|before| - 1]); }
  }

  /** If anyone is still in, the turn order finds them. */
  lemma {:induction false} OrderFinds(players: seq<Player>, pos: nat, i: nat, k: nat)
    requires pos < |players| && i <= k <= |players| && players[(pos + k) % |players|].alive
    ensures NextAlive(players, pos, i).Some?
    decreases k - i
  {
    if i < k && !players[(pos + i) % |players|].alive { OrderFinds(players, pos, i + 1, k); }
  }

  lemma ComesRound(pos: nat, s: nat, n: nat)
    requires pos < n && s < n
    ensures (pos + if s > pos then s - pos else s - pos + n) % n == s
  {
    assert (s + n) % n == s;
  }

  lemma SomeoneIsNext(t: Table, pos: nat)
    requires pos < |t.players| && TwoAlive(t)
    ensures NextAlive(t.players, pos, 1).Some?
  {
    var s: nat, j: nat :| s < j < |t.players| && t.players[s].alive && t.players[j].alive;
    var n := |t.players|;
    var k := if s > pos then s - pos else s - pos + n;
    ComesRound(pos, s, n);
    OrderFinds(t.players, pos, 1, k);
  }

  // ---- dealing ----------------------------------------------------------------------------------------------

  lemma {:induction false} DealtHold(players: seq<Player>, mixed: seq<Card>, n: nat)
    requires n <= |players| < |mixed|
    ensures Held(DealtHands(players, mixed)[..n]) == multiset(mixed[1..1 + n])
  {
    hide DealtHands, Own;
    var d := DealtHands(players, mixed);
    if n > 0 {
      DealtHold(players, mixed, n - 1);
      LastOfPrefix(d, n);
      MoreCards(mixed, n);
      OneCard(d[n - 1], mixed[n]);
    } else {
      assert mixed[1..1] == [] && d[..0] == [];
    }
  }

  lemma LastOfPrefix(d: seq<Player>, n: nat)
    requires 0 < n <= |d|
    ensures Held(d[..n]) == Held(d[..n - 1]) + Own(d[n - 1])
  {
    hide Own;
    var s := d[..n];
    assert s[..n - 1] == d[..n - 1] && s[n - 1] == d[n - 1] && |s| == n;
  }

  lemma MoreCards(mixed: seq<Card>, n: nat)
    requires 0 < n < |mixed|
    ensures multiset(mixed[1..1 + n]) == multiset(mixed[1..n]) + multiset{mixed[n]}
  {
    assert mixed[1..1 + n] == mixed[1..n] + [mixed[n]];
  }

  lemma OneCard(p: Player, c: Card)
    requires p.hand == [c] && p.discard == []
    ensures Own(p) == multiset{c}
  {
  }

  lemma ThreeParts(mixed: seq<Card>, n: nat)
    requires n < |mixed|
    ensures multiset(mixed[1..1 + n]) + multiset(mixed[1 + n..]) + multiset{mixed[0]} == multiset(mixed)
  {
    assert mixed == [mixed[0]] + mixed[1..1 + n] + mixed[1 + n..];
  }

  lemma ResetHolds(t: Table, mixed: seq<Card>)
    requires |mixed| > |t.players| && mixed[0] != 0
    ensures Everything(Reset(t, mixed)) == multiset(mixed)
  {
    hide DealtHands, Held, Own;
    var n := |t.players|;
    var d := DealtHands(t.players, mixed);
    DealtHold(t.players, mixed, n);
    assert d[..n] == d;
    ThreeParts(mixed, n);
  }

  lemma BegunHolds(t: Table, seat: nat)
    requires seat < |t.players|
    ensures Everything(OnBegin(t, seat)) == Everything(t)
  {
    var p := t.players[seat].(safe := false);
    if t.deck == [] {
      SameOwn(t, seat, p);
    } else {
      var q := p.(hand := p.hand + [t.deck[0]]);
      HeldUpdate(t.players, seat, q);
      assert multiset(q.hand) == multiset(p.hand) + multiset{t.deck[0]};
      Drew(Held(t.players[seat := q]), Held(t.players), multiset(p.hand), multiset(p.discard), t.deck[0]);
      FromDeck(Held(t.players), t.deck, BurnedCard(t.burned));
    }
  }

  lemma Drew(after: multiset<Card>, before: multiset<Card>, hand: multiset<Card>, discard: multiset<Card>, c: Card)
    requires after + (hand + discard) == before + (hand + multiset{c} + discard)
    ensures after == before + multiset{c}
  {
    assert before + (hand + multiset{c} + discard) == before + multiset{c} + (hand + discard);
    Cancel(after, before + multiset{c}, hand + discard);
  }

  /** The score does not move cards. */
  lemma {:induction false} ScoreHolds(before: seq<Player>, after: seq<Player>)
    requires |after| == |before|
    requires forall i | 0 <= i < |before| :: after[i].hand == before[i].hand && after[i].discard == before[i].discard
    ensures Held(after) == Held(before)
  {
    if before != [] {
      ScoreHolds(before[..|before| - 1], after[..|before| - 1]);
    }
  }

  // ---- the invariant ----------------------------------------------------------------------------------------

  function WholeDeck(): multiset<Card> {
    multiset(FreshDeck())
  }

  lemma WholeDeckCards(c: Card)
    ensures c in WholeDeck() ==> 1 <= c <= 8
  {
    hide FreshDeck;
    var d := FreshDeck();
    if c in WholeDeck() { assert c in d; }
  }

  /** Sixteen printed cards, in whatever order. */
  predicate Printed(mixed: seq<Card>) {
    |mixed| == 16 && multiset(mixed) == WholeDeck()
  }

  predicate Scores(t: Table, most: int) {
    forall i | 0 <= i < |t.players| :: 0 <= t.players[i].tokens <= most
  }

  /** What holds of a match between two moves. */
  ghost predicate Inv(m: Match) {
    var t := m.t;
    && 2 <= |t.players| <= 4 && t.goal == Goal(|t.players|)
    && Everything(t) == WholeDeck()
    && m.over == t.matchOver
    && (if m.over then
          t.matchWinners != [] && forall s: nat :: s in t.matchWinners <==> s < |t.players| && t.players[s].tokens >= t.goal
        else
          && m.current < |t.players| && t.players[m.current].alive && Sizes(t, m.current, 2) && TwoAlive(t)
          && t.burned != 0 && !t.newRound && t.matchWinners == [] && Scores(t, t.goal - 1))
  }

  /** How many more moves the match can take: tokens still to give out, in rounds, and the turns left in this one. */
  function MovesLeft(m: Match): int {
    var n := |m.t.players|;
    if m.over then 0 else (n * (m.t.goal - 1) - TokenSum(m.t.players)) * (15 - n) + |m.t.deck| + 1
  }

  lemma {:induction false} InHeld(players: seq<Player>, i: nat, c: Card)
    requires i < |players| && c in players[i].hand
    ensures c in Held(players)
  {
    var n := |players| - 1;
    if i < n { InHeld(players[..n], i, c); }
  }

  lemma CardsPositive(t: Table)
    requires Everything(t) == WholeDeck()
    ensures forall i: nat | i < |t.players| :: forall c | c in t.players[i].hand :: c > 0
  {
    hide WholeDeck, Held;
    forall i: nat, c | i < |t.players| && c in t.players[i].hand ensures c > 0 {
      InHeld(t.players, i, c);
      assert c in Everything(t);
      WholeDeckCards(c);
    }
  }

  lemma PrintedPositive(mixed: seq<Card>)
    requires Printed(mixed)
    ensures mixed[0] != 0
  {
    hide WholeDeck, Everything;
    assert mixed[0] in multiset(mixed);
    WholeDeckCards(mixed[0]);
  }

  /** The table once a move and its award are done, with the round over and the match not. */
  ghost predicate Awaiting(t: Table) {
    && 2 <= |t.players| <= 4 && t.goal == Goal(|t.players|) && t.newRound && !t.matchOver && t.matchWinners == []
    && t.starter < |t.players| && Scores(t, t.goal - 1)
  }

  /** A new round, up to its first move. */
  lemma NewRoundKeeps(t: Table, mixed: seq<Card>)
    requires Awaiting(t) && Printed(mixed)
    ensures
      var ended := OnEnd(t, mixed);
      var next := Match(OnBegin(ended, t.starter), t.starter, false);
      Inv(next) && |next.t.deck| == 14 - |t.players|
      && TokenSum(next.t.players) == TokenSum(t.players)
  {
    hide WholeDeck, Everything;
    var ended := OnEnd(t, mixed);
    PrintedPositive(mixed);
    ResetHolds(t.(round := t.round + 1), mixed);
    BegunHolds(ended, t.starter);
    var begun := OnBegin(ended, t.starter);
    SumSame(t.players, begun.players);
    assert begun.players[0].alive && begun.players[1].alive;
  }

  /** The next player draws, and has two cards where the others have one. */
  lemma BegunSizes(p: Table, actor: nat, next: nat)
    requires next < |p.players| && p.players[next].alive && Sizes(p, actor, 1) && p.deck != []
    ensures Sizes(OnBegin(p, next), next, 2) && |OnBegin(p, next).deck| == |p.deck| - 1
    ensures forall i: nat | i < |p.players| ::
              OnBegin(p, next).players[i].alive == p.players[i].alive &&
              OnBegin(p, next).players[i].tokens == p.players[i].tokens
    ensures OnBegin(p, next) == p.(players := OnBegin(p, next).players, deck := OnBegin(p, next).deck, newRound := false)
  {
  }

  lemma StillTwo(p: Table, t: Table)
    requires TwoAlive(p) && SameAlive(p, t)
    ensures TwoAlive(t)
  {
    var i: nat, j: nat :| i < j < |p.players| && p.players[i].alive && p.players[j].alive;
    assert t.players[i].alive && t.players[j].alive;
  }

  /** The same round goes on. */
  lemma RoundGoesOn(m: Match, p: Table)
    requires Inv(m) && !m.over && Leaves(m.t, p, m.current) && Everything(p) == WholeDeck() && !RoundEnds(p)
    requires p.burned == m.t.burned || p.deck == []
    ensures
      var next := NextSeat(p, m.current);
      && next.Some? && next.value < |p.players|
      && Inv(Match(OnBegin(p, next.value), next.value, false))
      && MovesLeft(Match(OnBegin(p, next.value), next.value, false)) < MovesLeft(m)
  {
    hide WholeDeck, Everything, NextAlive, OnBegin, Sizes, TokenSum, TwoAlive, Alive, AtMostOneOut;
    TwoListed(p);
    SomeoneIsNext(p, m.current);
    var next := NextSeat(p, m.current).value;
    var t := OnBegin(p, next);
    BegunHolds(p, next);
    BegunSizes(p, m.current, next);
    StillTwo(p, t);
    SumSame(m.t.players, t.players);
  }

  lemma ScoreKeepsCards(p: Table, t: Table)
    requires |t.players| == |p.players| && t.deck == p.deck && t.burned == p.burned
    requires forall i | 0 <= i < |p.players| ::
               t.players[i].hand == p.players[i].hand && t.players[i].discard == p.players[i].discard
    ensures Everything(t) == Everything(p)
  {
    ScoreHolds(p.players, t.players);
  }

  /** The award of a finished round: everyone's cards as they were, at least one more token. */
  lemma Awards(m: Match, p: Table)
    requires Inv(m) && !m.over && Leaves(m.t, p, m.current) && Everything(p) == WholeDeck() && RoundEnds(p)
    ensures RoundWinners(p) != []
    ensures Everything(OnMove(p)) == WholeDeck() && TokenSum(OnMove(p).players) >= TokenSum(m.t.players) + 1
  {
    hide WholeDeck, Everything, RoundWinners, Sizes, TokenSum, TwoAlive, AtMostOneOut, RoundEnds;
    SomeoneLeft(m.t, p);
    CardsPositive(p);
    RoundHasWinner(p, m.current);
    var winners := RoundWinners(p);
    ScoreKeepsCards(p, OnMove(p));
    SumSame(m.t.players, p.players);
    assert winners[0] in winners;
    SumAwarded(p.players, Awarded(p.players, winners), winners);
  }

  /** Either the match is decided, or a new round is called for. */
  lemma AwardKeeps(m: Match, p: Table)
    requires Inv(m) && !m.over && Leaves(m.t, p, m.current) && Everything(p) == WholeDeck() && RoundEnds(p)
    ensures
      var t := OnMove(p);
      && Everything(t) == WholeDeck() && |t.players| == |m.t.players|
      && TokenSum(t.players) >= TokenSum(m.t.players) + 1
      && (t.matchOver ==> Inv(Match(t, m.current, true))) && (!t.matchOver ==> Awaiting(t))
  {
    hide WholeDeck, Everything, RoundWinners, Sizes, TokenSum, TwoAlive, AtMostOneOut, RoundEnds;
    Awards(m, p);
    var players := Awarded(p.players, RoundWinners(p));
    var reached := ReachedTo(players, p.goal, |players|);
    assert p.matchWinners + reached == reached;
    assert RoundWinners(p)[0] in RoundWinners(p);
    if reached == [] {
      forall i | 0 <= i < |players| ensures players[i].tokens <= p.goal - 1 {
        assert i !in reached;
      }
    }
  }

  lemma RoundCosts(n: int, goal: int, before: int, after: int, deck: int)
    requires 2 <= n <= 4 && after >= before + 1 && deck >= 0
    ensures (n * (goal - 1) - after) * (15 - n) + (14 - n) + 1 < (n * (goal - 1) - before) * (15 - n) + deck + 1
  {
    if n == 2 {
    } else if n == 3 {
    } else {
    }
  }

  lemma NeverNegative(m: Match)
    requires Inv(m)
    ensures MovesLeft(m) >= if m.over then 0 else 1
  {
    hide WholeDeck, Everything;
    if !m.over {
      var n := |m.t.players|;
      SumBounded(m.t.players, m.t.goal - 1);
      NonNegative(n * (m.t.goal - 1) - TokenSum(m.t.players), 15 - n);
    }
  }

  lemma NonNegative(a: int, b: int)
    requires a >= 0 && b >= 0
    ensures a * b >= 0
  {
  }

  /** Every accepted move keeps the invariant and uses up the budget. */
  lemma StepKeeps(m: Match, move: Move, mixed: seq<Card>)
    requires Inv(m) && !m.over && Allowed(m.t, m.current, move) && Printed(mixed)
    ensures Inv(Step(m, move, mixed)) && MovesLeft(Step(m, move, mixed)) < MovesLeft(m)
    ensures |Step(m, move, mixed).t.players| == |m.t.players|
  {
    hide WholeDeck, Everything, Played, Allowed, OnMove, OnBegin, Sizes, TokenSum;
    PlayedSizes(m.t, m.current, move);
    PlayedConserves(m.t, m.current, move);
    PlayedSize(m.t, m.current, move);
    var p := Played(m.t, m.current, move);
    NeverNegative(m);
    if RoundEnds(p) {
      AwardKeeps(m, p);
      var t := OnMove(p);
      if !t.matchOver {
        NewRoundKeeps(t, mixed);
        StarterIsNext(t, mixed, m.current);
        RoundCosts(|t.players|, t.goal, TokenSum(m.t.players), TokenSum(t.players), |m.t.deck|);
      }
    } else {
      StillOn(p);
      RoundGoesOn(m, p);
    }
  }

  lemma StillOn(p: Table)
    requires !RoundEnds(p)
    ensures OnMove(p) == p
  {
  }

  lemma StarterIsNext(t: Table, mixed: seq<Card>, pos: nat)
    requires Awaiting(t) && Printed(mixed) && pos < |t.players|
    ensures NextSeat(OnEnd(t, mixed), pos).Some? && NextSeat(OnEnd(t, mixed), pos).value == t.starter
  {
    hide WholeDeck, Everything;
  }

  // ---- main results -----------------------------------------------------------------------------------------

  lemma StartOk(n: nat, mixed: seq<Card>)
    requires 2 <= n <= 4 && Printed(mixed)
    ensures Inv(Start(n, mixed)) && |Start(n, mixed).t.players| == n
    ensures MovesLeft(Start(n, mixed)) == (n * (Goal(n) - 1) + 1) * (15 - n)
  {
    hide WholeDeck, Everything;
    var t := Table(seq(n, _ => Player([], [], 0, true, false, map[])), [], 0, 1, 0, false, [], false, [], Goal(n));
    PrintedPositive(mixed);
    ResetHolds(t, mixed);
    BegunHolds(Reset(t, mixed), 0);
    var m := Start(n, mixed);
    assert m.t.players[0].alive && m.t.players[1].alive;
    NoTokens(m.t.players);
  }

  lemma {:induction false} NoTokens(players: seq<Player>)
    requires forall i | 0 <= i < |players| :: players[i].tokens == 0
    ensures TokenSum(players) == 0
  {
    if players != [] { NoTokens(players[..|players| - 1]); }
  }

  /** A run of moves, each with the shuffle a new round would use; None once a move is refused. */
  function Run(m: Match, moves: seq<(Move, seq<Card>)>): E.Option<Match>
    requires 2 <= |m.t.players| <= 4 && m.current < |m.t.players|
    decreases |moves|
  {
    if moves == [] then E.Some(m)
    else if m.over || !Allowed(m.t, m.current, moves[0].0) || !Printed(moves[0].1) then E.None
    else Run(Step(m, moves[0].0, moves[0].1), moves[1..])
  }

  lemma {:induction false} RunKeeps(m: Match, moves: seq<(Move, seq<Card>)>)
    requires Inv(m) && m.current < |m.t.players|
    ensures
      var r := Run(m, moves);
      r.Some? ==> Inv(r.value) && MovesLeft(r.value) + |moves| <= MovesLeft(m)
    decreases |moves|
  {
    hide WholeDeck, Everything, Step, Allowed, Sizes, TokenSum, MovesLeft;
    if moves != [] && !m.over && Allowed(m.t, m.current, moves[0].0) && Printed(moves[0].1) {
      StepKeeps(m, moves[0].0, moves[0].1);
      RunKeeps(Step(m, moves[0].0, moves[0].1), moves[1..]);
    }
  }

  /**
   Love Letter: for 2 to 4 players and any shuffles, every run of accepted moves keeps the sixteen cards and the hand
   sizes, and has at most (n(T-1)+1)(15-n) moves.
   */
  lemma MatchInvariant(n: nat, mixed: seq<Card>, moves: seq<(Move, seq<Card>)>)
    requires 2 <= n <= 4 && Printed(mixed)
    ensures
      var r := Run(Start(n, mixed), moves);
      r.Some? ==> Inv(r.value) && |moves| <= (n * (Goal(n) - 1) + 1) * (15 - n)
  {
    hide WholeDeck, Everything, Start, Run, MovesLeft;
    StartOk(n, mixed);
    RunKeeps(Start(n, mixed), moves);
    if Run(Start(n, mixed), moves).Some? {
      NeverNegative(Run(Start(n, mixed), moves).value);
    }
  }

  /** Until the match is over the player on turn always has a move. */
  lemma SomeMoveAllowed(m: Match) returns (move: Move)
    requires Inv(m) && !m.over
    ensures Allowed(m.t, m.current, move)
  {
    hide WholeDeck, Everything;
    var t, hand := m.t, m.t.players[m.current].hand;
    var i: nat, j: nat :| i < j < |t.players| && t.players[i].alive && t.players[j].alive;
    var other := if i == m.current then j else i;
    CardsPositive(t);
    AtMostEight(t, m.current);
    var c := hand[0];
    assert c in hand;
    move :=
      if CountessForced(hand, c) then Countess
      else if c == GUARD then Guard(other, 2)
      else if c == PRIEST then Priest(other)
      else if c == BARON then Baron(other)
      else if c == HANDMAID then Handmaid
      else if c == PRINCE then Prince(other)
      else if c == KING then King(other)
      else if c == COUNTESS then Countess
      else Princess;
  }

  lemma AtMostEight(t: Table, seat: nat)
    requires Everything(t) == WholeDeck() && seat < |t.players|
    ensures forall c | c in t.players[seat].hand :: 1 <= c <= 8
  {
    hide WholeDeck, Held;
    forall c | c in t.players[seat].hand ensures 1 <= c <= 8 {
      InHeld(t.players, seat, c);
      assert c in Everything(t);
      WholeDeckCards(c);
    }
  }
}
