/**
 The rule book of Love Letter: what a move does to the table and how the round goes on, as relations between the table before
 and after, and that every accepted move of a match goes by it.
 */
module LoveLetterBook {
  import E = Engine
  import opened LoveLetter
  import opened LoveLetterRuns
  import opened LoveLetterRules
  import Z = Zones

  // ---- the printed game -------------------------------------------------------------------------------------

  /** The sixteen cards, and the tokens a match is played to. */
  lemma PrintedGame(c: Card, n: nat, mixed: seq<Card>)
    ensures multiset(FreshDeck())[c] ==
            if c == 1 then 5 else if 2 <= c <= 5 then 2 else if 6 <= c <= 8 then 1 else 0
    ensures 2 <= n <= 4 && |mixed| == 16 ==> Start(n, mixed).t.goal == [7, 5, 4][n - 2]
  {
    forall k: nat, x: Card { CopiesCount(x, k, c); }
    var d := Copies(1, 5) + Copies(2, 2) + Copies(3, 2) + Copies(4, 2) + Copies(5, 2) + Copies(6, 1) + Copies(7, 1) + Copies(8, 1);
    assert FreshDeck() == d;
  }

  /** The first deal: one card burned, one each, a second for the first seat; nobody has tokens, and nothing is known yet. */
  lemma FirstDeal(n: nat, mixed: seq<Card>)
    requires 2 <= n <= 4 && |mixed| == 16
    ensures
      var m := Start(n, mixed);
      && |m.t.players| == n && m.current == 0 && !m.over && m.t.round == 1
      && m.t.burned == mixed[0] && m.t.deck == mixed[n + 2..]
      && forall i | 0 <= i < n ::
           m.t.players[i] == Player([mixed[1 + i]] + if i == 0 then [mixed[n + 1]] else [], [], 0, true, false, map[])
  {
  }

  lemma {:induction false} CopiesCount(x: Card, k: nat, c: Card)
    ensures multiset(Copies(x, k))[c] == if c == x then k else 0
  {
    if k > 0 {
      CopiesCount(x, k - 1, c);
      assert Copies(x, k) == Copies(x, k - 1) + [x];
    } else {
      assert Copies(x, 0) == [];
    }
  }

  // ---- what a card does -------------------------------------------------------------------------------------

  /** The player has laid a card open and holds these. */
  predicate Laid(before: Player, after: Player, card: Card, hand: seq<Card>) {
    after == before.(hand := hand, discard := before.discard + [card])
  }

  /** The player is out, the rest of the hand shown. */
  predicate Out(before: Player, after: Player) {
    after == before.(hand := [], discard := before.discard + before.hand, alive := false)
  }

  /** The player who laid a card is out as well. */
  predicate LaidOut(before: Player, after: Player, card: Card, kept: Card) {
    after == before.(hand := [], discard := before.discard + [card] + [kept], alive := false)
  }

  /** Discarding by a Prince: out with the Princess, else a new card, off the deck or, failing that, the burned one. */
  predicate Redraws(t: Table, p: Table, seat: nat, shown: seq<Card>, last: Card)
    requires seat < |t.players| == |p.players|
  {
    var before, after := t.players[seat], p.players[seat];
    if last == 8 then
      && after == before.(hand := [], discard := shown + [last], alive := false) && p.deck == t.deck && p.burned == t.burned
    else if t.deck != [] then
      && after == before.(hand := [t.deck[0]], discard := shown + [last]) && p.deck == t.deck[1..] && p.burned == t.burned
    else after == before.(hand := [t.burned], discard := shown + [last]) && p.deck == t.deck && p.burned == 0
  }

  /** The seat a move is aimed at, or the player's own. */
  function Aim(actor: nat, move: Move): nat {
    if move.Guard? || move.Priest? || move.Baron? || move.Prince? || move.King? then move.target else actor
  }

  /** What the played card does, said of the tables before and after. The actor holds two cards and keeps one. */
  predicate Effect(t: Table, actor: nat, move: Move, p: Table)
    requires actor < |t.players| && |t.players[actor].hand| == 2 && Aim(actor, move) < |t.players| == |p.players|
    requires t.players[Aim(actor, move)].hand != []
  {
    var aim := Aim(actor, move);
    var kept := Kept(t.players[actor].hand, move.Card());
    var me, you := t.players[actor], t.players[aim];
    var me', you' := p.players[actor], p.players[aim];
    && p == t.(players := p.players, deck := p.deck, burned := p.burned)
    && (forall i | 0 <= i < |t.players| && i != actor && i != aim :: p.players[i] == t.players[i])
    && (!move.Prince? || (aim != actor && you.safe) ==> p.deck == t.deck && p.burned == t.burned)
    && match move
       case Guard(_, named) =>
         Laid(me, me', 1, [kept]) && if !you.safe && you.hand == [named] then Out(you, you') else you' == you
       case Priest(_) =>
         && you' == you
         && me' == me.(hand := [kept], discard := me.discard + [2],
                       seen := if you.safe then me.seen else me.seen[aim := you.hand[0]])
       case Baron(_) =>
         if you.safe || you.hand == [kept] then Laid(me, me', 3, [kept]) && you' == you
         else if you.hand[0] < kept then Laid(me, me', 3, [kept]) && Out(you, you')
         else LaidOut(me, me', 3, kept) && you' == you
       case Handmaid => me' == me.(hand := [kept], discard := me.discard + [4], safe := true)
       case Prince(_) =>
         if aim == actor then Redraws(t, p, actor, me.discard + [5], kept)
         else Laid(me, me', 5, [kept]) && if you.safe then you' == you else Redraws(t, p, aim, you.discard, you.hand[0])
       case King(_) =>
         if you.safe then Laid(me, me', 6, [kept]) && you' == you
         else Laid(me, me', 6, you.hand) && you' == you.(hand := [kept])
       case Countess => Laid(me, me', 7, [kept])
       case Princess => LaidOut(me, me', 8, kept)
  }

  /** The player on turn holds two cards, everybody else who is still in one. */
  predicate Ready(t: Table, actor: nat, move: Move) {
    && actor < |t.players| && Allowed(t, actor, move) && t.players[actor].alive && Sizes(t, actor, 2) && t.burned != 0
    && Aim(actor, move) < |t.players| && t.players[Aim(actor, move)].hand != []
  }

  lemma AimedOk(t: Table, actor: nat, move: Move)
    requires actor < |t.players| && Allowed(t, actor, move) && t.players[actor].alive && Sizes(t, actor, 2) && t.burned != 0
    ensures Ready(t, actor, move) && Z.Cut(t.players[actor].hand, move.Card()) == [Kept(t.players[actor].hand, move.Card())]
    ensures |Played(t, actor, move).players| == |t.players|
    ensures
      var aim := Aim(actor, move);
      aim != actor ==> t.players[aim].hand == [t.players[aim].hand[0]]
  {
    hide Z.Cut;
    PlayedSize(t, actor, move);
    KeptIs(t.players[actor].hand, move.Card());
  }

  lemma AimedByTheBook(t: Table, actor: nat, move: Move)
    requires actor < |t.players| && Allowed(t, actor, move) && t.players[actor].alive && Sizes(t, actor, 2) && t.burned != 0
    requires move.Guard? || move.Priest? || move.Baron? || move.King?
    ensures Ready(t, actor, move) && |Played(t, actor, move).players| == |t.players|
    ensures Effect(t, actor, move, Played(t, actor, move))
  {
    AimedOk(t, actor, move);
    hide Z.Cut, Sizes, CountessForced, Redraws;
  }

  lemma PrinceOnOneself(t: Table, actor: nat, move: Move)
    requires actor < |t.players| && Allowed(t, actor, move) && t.players[actor].alive && Sizes(t, actor, 2) && t.burned != 0
    requires move.Prince? && move.target == actor
    ensures Ready(t, actor, move) && |Played(t, actor, move).players| == |t.players|
    ensures Effect(t, actor, move, Played(t, actor, move))
  {
    AimedOk(t, actor, move);
    hide Z.Cut, Sizes, CountessForced, Allowed;
  }

  lemma PrinceOnAnother(t: Table, actor: nat, move: Move)
    requires actor < |t.players| && Allowed(t, actor, move) && t.players[actor].alive && Sizes(t, actor, 2) && t.burned != 0
    requires move.Prince? && move.target != actor
    ensures Ready(t, actor, move) && |Played(t, actor, move).players| == |t.players|
    ensures Effect(t, actor, move, Played(t, actor, move))
  {
    AimedOk(t, actor, move);
    hide Z.Cut, Sizes, CountessForced, Allowed;
  }

  lemma AloneByTheBook(t: Table, actor: nat, move: Move)
    requires actor < |t.players| && Allowed(t, actor, move) && t.players[actor].alive && Sizes(t, actor, 2) && t.burned != 0
    requires move.Handmaid? || move.Countess? || move.Princess?
    ensures Ready(t, actor, move) && |Played(t, actor, move).players| == |t.players|
    ensures Effect(t, actor, move, Played(t, actor, move))
  {
    AimedOk(t, actor, move);
    hide Z.Cut, Sizes, CountessForced, Redraws;
  }

  /** Every card's effect is the one in the book. */
  lemma PlayedByTheBook(t: Table, actor: nat, move: Move)
    requires actor < |t.players| && Allowed(t, actor, move) && t.players[actor].alive && Sizes(t, actor, 2) && t.burned != 0
    ensures Aim(actor, move) < |t.players| == |Played(t, actor, move).players| && t.players[Aim(actor, move)].hand != []
    ensures Effect(t, actor, move, Played(t, actor, move))
  {
    hide Played, Allowed, Effect, Sizes;
    if move.Prince? && move.target == actor { PrinceOnOneself(t, actor, move); }
    else if move.Prince? { PrinceOnAnother(t, actor, move); }
    else if move.Handmaid? || move.Countess? || move.Princess? { AloneByTheBook(t, actor, move); }
    else { AimedByTheBook(t, actor, move); }
  }

  // ---- what is accepted -------------------------------------------------------------------------------------

  /**
   Which moves a match accepts of the player on turn: a card they hold; not the Prince or the King next to the Countess; a
   Guard names anything but a Guard; and a target is still in and somebody else, but for the Prince.
   */
  lemma AcceptedExactly(m: Match, move: Move, mixed: seq<Card>)
    requires Inv(m) && m.current < |m.t.players|
    ensures
      var hand := m.t.players[m.current].hand;
      var aim := Aim(m.current, move);
      Run(m, [(move, mixed)]).Some? <==>
        && !m.over && Printed(mixed) && move.Card() in hand && !(7 in hand && (move.Prince? || move.King?))
        && (move.Guard? ==> 2 <= move.named <= 8)
        && aim < |m.t.players| && m.t.players[aim].alive
        && (aim == m.current ==> move.Handmaid? || move.Countess? || move.Princess? || move.Prince?)
  {
    hide Everything, WholeDeck, Step, Sizes;
    assert [(move, mixed)][1..] == [];
  }

  // ---- how the round goes on --------------------------------------------------------------------------------

  /** Who may win a round now: nobody still in holds a higher card. */
  predicate Wins(players: seq<Player>, seat: nat)
    requires seat < |players|
  {
    && players[seat].alive && |players[seat].hand| == 1
    && forall i | 0 <= i < |players| && players[i].alive && players[i].hand != [] :: players[i].hand[0] <= players[seat].hand[0]
  }

  predicate OneLeft(players: seq<Player>) {
    forall i, j | 0 <= i < j < |players| :: !(players[i].alive && players[j].alive)
  }

  function Scored(players: seq<Player>, seat: nat): int
    requires seat < |players|
  {
    players[seat].tokens + if Wins(players, seat) then 1 else 0
  }

  /** Exactly the round's winners, seat by seat. */
  ghost predicate ListsWinners(players: seq<Player>, winners: seq<nat>) {
    forall s: nat :: s in winners <==> s < |players| && Wins(players, s)
  }

  /** The player on turn loses protection and takes the top card. */
  predicate Begins(p: Table, t: Table, seat: nat)
    requires seat < |p.players| == |t.players| && p.deck != []
  {
    && t.players[seat] == p.players[seat].(safe := false, hand := p.players[seat].hand + [p.deck[0]])
    && t.deck == p.deck[1..] && (forall i | 0 <= i < |p.players| && i != seat :: t.players[i] == p.players[i])
  }

  /** So many seats on from a position. */
  function SeatFrom(pos: nat, k: nat, n: nat): (s: nat)
    requires n > 0
    ensures s < n
  {
    (pos + k) % n
  }

  /** The next seat still in, going round from a position. */
  predicate NextIn(players: seq<Player>, pos: nat, next: nat)
    requires players != []
  {
    exists k: nat | 1 <= k <= |players| ::
      && next == SeatFrom(pos, k, |players|) && players[next].alive
      && forall d: nat | 1 <= d < k :: !players[SeatFrom(pos, d, |players|)].alive
  }

  /** A fresh deal: one burned, one each, the starter draws; nothing of the last round is left but the tokens. */
  predicate Deals(p: Table, r: Match, mixed: seq<Card>)
    requires |mixed| == 16 && |p.players| == |r.t.players| <= 4 && r.current < |p.players|
  {
    var n := |p.players|;
    && r.t.burned == mixed[0] && r.t.deck == mixed[n + 2..] && r.t.round == p.round + 1
    && (forall i | 0 <= i < n ::
          r.t.players[i] == Player([mixed[1 + i]] + if i == r.current then [mixed[n + 1]] else [], [], Scored(p.players, i), true,
                                   false, map[]))
  }

  /** How the match stands after the table a move left. */
  ghost predicate GoesOn(p: Table, pos: nat, mixed: seq<Card>, r: Match)
    requires p.players != [] && |mixed| == 16 && |p.players| == |r.t.players| <= 4 && r.current < |p.players|
  {
    if !OneLeft(p.players) && p.deck != [] then
      && !r.over && NextIn(p.players, pos, r.current) && Begins(p, r.t, r.current)
      && r.t == p.(players := r.t.players, deck := r.t.deck, newRound := false)
    else
      && ListsWinners(p.players, r.t.winners)
      && (r.over <==> exists i: nat | i < |p.players| :: Scored(p.players, i) >= p.goal)
      && if r.over then
           && r.t.round == p.round
           && (forall i | 0 <= i < |p.players| :: r.t.players[i] == p.players[i].(tokens := Scored(p.players, i)))
           && (forall i: nat :: i in r.t.matchWinners <==> i < |p.players| && Scored(p.players, i) >= p.goal)
         else
           && Wins(p.players, r.current) && (forall i: nat | i < r.current :: !Wins(p.players, i))
           && Deals(p, r, mixed)
  }

  lemma EndsExactly(p: Table)
    ensures RoundEnds(p) <==> OneLeft(p.players) || p.deck == []
  {
    var alive := Alive(p);
    if |alive| >= 2 {
      AliveRises(p.players, |p.players|, 0, 1);
      assert alive[0] in alive && alive[1] in alive;
    }
    forall i, j | 0 <= i < j < |p.players| && p.players[i].alive && p.players[j].alive ensures |alive| >= 2 {
      TwoApart(alive, i, j);
    }
  }

  lemma TwoApart(seats: seq<nat>, i: nat, j: nat)
    requires i in seats && j in seats && i != j
    ensures |seats| >= 2
  {
  }

  lemma {:induction false} AliveRises(players: seq<Player>, n: nat, i: nat, j: nat)
    requires n <= |players| && i < j < |AliveTo(players, n)|
    ensures AliveTo(players, n)[i] < AliveTo(players, n)[j]
  {
    var before := AliveTo(players, n - 1);
    if j < |before| {
      AliveRises(players, n - 1, i, j);
    } else {
      assert before[i] in before;
    }
  }

  lemma {:induction false} ShowingRises(players: seq<Player>, seats: seq<nat>, card: Card, i: nat, j: nat)
    requires Seated(players, seats) && (forall x, y | 0 <= x < y < |seats| :: seats[x] < seats[y])
    requires i < j < |Showing(players, seats, card)|
    ensures Showing(players, seats, card)[i] < Showing(players, seats, card)[j]
  {
    var n := |seats| - 1;
    var before := Showing(players, seats[..n], card);
    if j < |before| {
      ShowingRises(players, seats[..n], card, i, j);
    } else {
      assert before[i] in before && before[i] in seats[..n];
    }
  }

  /** Exactly the players still in with the highest card win a finished round, in seat order. */
  lemma WinnersExactly(p: Table, actor: nat)
    requires Sizes(p, actor, 1) && (forall i: nat | i < |p.players| :: forall c | c in p.players[i].hand :: c > 0)
    ensures ListsWinners(p.players, RoundWinners(p))
    ensures forall i, j | 0 <= i < j < |RoundWinners(p)| :: RoundWinners(p)[i] < RoundWinners(p)[j]
  {
    hide Highest, Showing, AliveTo;
    var alive := Alive(p);
    forall i, j | 0 <= i < j < |alive| ensures alive[i] < alive[j] { AliveRises(p.players, |p.players|, i, j); }
    var top := Highest(p.players, alive);
    forall s: nat ensures s in RoundWinners(p) <==> s < |p.players| && Wins(p.players, s) {
      if s < |p.players| && p.players[s].alive {
        assert p.players[s].hand == [p.players[s].hand[0]] && p.players[s].hand[0] in p.players[s].hand;
        OnlyOne(alive, s);
      }
    }
    if |alive| != 1 {
      forall i, j | 0 <= i < j < |RoundWinners(p)| ensures RoundWinners(p)[i] < RoundWinners(p)[j] {
        ShowingRises(p.players, alive, top, i, j);
      }
    }
  }

  lemma OnlyOne(xs: seq<nat>, x: nat)
    requires x in xs
    ensures |xs| == 1 ==> xs == [x]
  {
  }

  lemma {:induction false} NextIsNearest(players: seq<Player>, pos: nat, i: nat)
    requires pos < |players| && 1 <= i <= |players| + 1
    requires forall d: nat | 1 <= d < i :: !players[SeatFrom(pos, d, |players|)].alive
    ensures NextAlive(players, pos, i).Some? ==> NextIn(players, pos, NextAlive(players, pos, i).value)
    decreases |players| + 1 - i
  {
    if i <= |players| && !players[SeatFrom(pos, i, |players|)].alive { NextIsNearest(players, pos, i + 1); }
  }

  /** The table a move left, with its round over and somebody to win it. */
  ghost predicate Closing(p: Table, actor: nat) {
    && 2 <= |p.players| <= 4 && p.matchWinners == [] && !p.matchOver && RoundEnds(p) && RoundWinners(p) != []
    && ListsWinners(p.players, RoundWinners(p))
    && forall i, j | 0 <= i < j < |RoundWinners(p)| :: RoundWinners(p)[i] < RoundWinners(p)[j]
  }

  lemma ClosingIs(m: Match, p: Table)
    requires Inv(m) && !m.over && Leaves(m.t, p, m.current) && Everything(p) == WholeDeck() && RoundEnds(p)
    ensures Closing(p, m.current)
  {
    hide Everything, WholeDeck, RoundWinners, RoundEnds, Sizes, AtMostOneOut, TokenSum, TwoAlive, Wins, ListsWinners;
    CardsPositive(p);
    LeavesSizes(m.t, p, m.current);
    WinnersExactly(p, m.current);
    Awards(m, p);
  }

  /** Tokens go to exactly the winners, and the match is over exactly when that takes somebody to the goal. */
  lemma AwardExactly(p: Table, actor: nat)
    requires Closing(p, actor)
    ensures
      var t := OnMove(p);
      && |t.players| == |p.players| && t.winners == RoundWinners(p) && t.round == p.round
      && (forall i: nat | i < |p.players| :: t.players[i] == p.players[i].(tokens := Scored(p.players, i)))
      && (t.matchOver <==> exists i: nat | i < |p.players| :: Scored(p.players, i) >= p.goal)
      && (t.matchOver ==> forall i: nat :: i in t.matchWinners <==> i < |p.players| && Scored(p.players, i) >= p.goal)
      && (!t.matchOver ==>
            t == p.(players := t.players, winners := t.winners, matchWinners := [], starter := t.winners[0], newRound := true))
  {
    hide RoundWinners, RoundEnds, Wins;
    var winners := RoundWinners(p);
    var players := Awarded(p.players, winners);
    var reached := ReachedTo(players, p.goal, |players|);
    assert p.matchWinners + reached == reached;
    forall i: nat | i < |p.players| ensures players[i].tokens == Scored(p.players, i) {
      assert i in winners <==> Wins(p.players, i);
    }
    if reached != [] {
      assert reached[0] in reached;
    } else {
      forall i: nat | i < |p.players| ensures Scored(p.players, i) < p.goal {
        assert i !in reached;
      }
    }
  }

  lemma FinishedRound(p: Table, actor: nat, mixed: seq<Card>, r: Match)
    requires Closing(p, actor) && |mixed| == 16 && |r.t.players| == |p.players| && r.current < |p.players|
    requires
      var t := OnMove(p);
      if t.matchOver then r.t == t && r.over
      else t.starter < |t.players| && r == Match(OnBegin(OnEnd(t, mixed), t.starter), t.starter, false)
    ensures GoesOn(p, actor, mixed, r)
  {
    hide RoundWinners, RoundEnds, Wins, OnMove, OnBegin, OnEnd, Deals;
    EndsExactly(p);
    AwardExactly(p, actor);
    var t := OnMove(p);
    if !t.matchOver {
      StarterWins(p, actor);
      DealsIt(p, t, mixed);
    }
  }

  /** The lowest seat among the winners starts. */
  lemma StarterWins(p: Table, actor: nat)
    requires Closing(p, actor)
    ensures
      var s := RoundWinners(p)[0];
      s < |p.players| && Wins(p.players, s) && forall i: nat | i < s :: !Wins(p.players, i)
  {
    hide RoundWinners, RoundEnds, Wins;
    var winners := RoundWinners(p);
    assert winners[0] in winners;
    forall i: nat | i < winners[0] ensures !Wins(p.players, i) {
      if i in winners { LeastFirst(winners, i); }
    }
  }

  lemma LeavesSizes(before: Table, p: Table, actor: nat)
    requires Leaves(before, p, actor)
    ensures Sizes(p, actor, 1)
  {
  }

  lemma LeastFirst(xs: seq<nat>, x: nat)
    requires x in xs && forall i, j | 0 <= i < j < |xs| :: xs[i] < xs[j]
    ensures xs[0] <= x
  {
  }

  lemma DealsIt(p: Table, t: Table, mixed: seq<Card>)
    requires 2 <= |p.players| <= 4 && |mixed| == 16 && |t.players| == |p.players|
    requires t == p.(players := t.players, winners := t.winners, matchWinners := [], starter := t.starter, newRound := true)
    requires !p.matchOver && t.starter < |t.players|
    requires forall i: nat | i < |p.players| :: t.players[i].tokens == Scored(p.players, i)
    ensures OnBegin(OnEnd(t, mixed), t.starter).winners == t.winners
    ensures Deals(p, Match(OnBegin(OnEnd(t, mixed), t.starter), t.starter, false), mixed)
  {
    hide Scored;
  }

  /** Every accepted move of a match goes by the book: the card's effect, then the round's end or the next turn. */
  lemma StepByTheBook(m: Match, move: Move, mixed: seq<Card>)
    requires Inv(m) && !m.over && Allowed(m.t, m.current, move) && Printed(mixed)
    ensures Aim(m.current, move) < |m.t.players| && |m.t.players[m.current].hand| == 2
    ensures m.t.players[Aim(m.current, move)].hand != []
    ensures
      var r := Step(m, move, mixed);
      exists p: Table | |p.players| == |m.t.players| :: Effect(m.t, m.current, move, p) && GoesOn(p, m.current, mixed, r)
  {
    hide Everything, WholeDeck, Played, Allowed, OnMove, OnEnd, OnBegin, Effect, GoesOn, TokenSum, NextAlive, RoundEnds;
    PlayedByTheBook(m.t, m.current, move);
    PlayedSizes(m.t, m.current, move);
    PlayedConserves(m.t, m.current, move);
    PlayedSize(m.t, m.current, move);
    StepKeeps(m, move, mixed);
    var p, r := Played(m.t, m.current, move), Step(m, move, mixed);
    if RoundEnds(p) {
      AwardKeeps(m, p);
      ClosingIs(m, p);
      if !OnMove(p).matchOver { StarterIsNext(OnMove(p), mixed, m.current); }
      FinishedRound(p, m.current, mixed, r);
    } else {
      StillOn(p);
      RoundGoesOn(m, p);
      SameRoundNext(m, p, mixed);
      SameRound(m, p, mixed, r);
    }
    assert Effect(m.t, m.current, move, p) && GoesOn(p, m.current, mixed, r);
  }

  lemma SameRound(m: Match, p: Table, mixed: seq<Card>, r: Match)
    requires Inv(m) && !m.over && |mixed| == 16 && Leaves(m.t, p, m.current) && !RoundEnds(p) && |p.players| == |m.t.players|
    requires |r.t.players| == |p.players| && r.current < |p.players|
    requires NextAlive(p.players, m.current, 1) == E.Some(r.current) && r == Match(OnBegin(p, r.current), r.current, false)
    ensures GoesOn(p, m.current, mixed, r)
  {
    hide Everything, WholeDeck, NextAlive, RoundEnds;
    EndsExactly(p);
    NextIsNearest(p.players, m.current, 1);
  }

  lemma SameRoundNext(m: Match, p: Table, mixed: seq<Card>)
    requires Inv(m) && !m.over && |mixed| == 16 && Leaves(m.t, p, m.current) && |p.players| == |m.t.players|
    ensures OnEnd(p, mixed) == p && NextSeat(p, m.current) == NextAlive(p.players, m.current, 1) && !p.matchOver
  {
    hide Everything, WholeDeck, Sizes, TwoAlive;
  }
}
