/**
 What the cards of Love Letter do, said without their code: who drops out, who is safe, and that a player whose Princess
 has been discarded is never in the round, in any state of any match.
 */
module LoveLetterRules {
  import opened LoveLetter
  import opened LoveLetterRuns
  import Z = Zones

  // ---- single plays -----------------------------------------------------------------------------------------

  /** The card a player on turn keeps when they play another. */
  function Kept(hand: seq<Card>, played: Card): Card
    requires |hand| == 2
  {
    if hand[0] == played then hand[1] else hand[0]
  }

  lemma KeptIs(hand: seq<Card>, played: Card)
    requires |hand| == 2 && played in hand
    ensures Z.Cut(hand, played) == [Kept(hand, played)]
  {
    assert hand == [hand[0], hand[1]];
    assert hand[1..] == [hand[1]];
    assert Z.Cut([hand[1]], played) == if hand[1] == played then [] else [hand[1]];
  }

  predicate DropsOut(before: Table, after: Table, seat: nat)
    requires seat < |before.players| == |after.players|
  {
    before.players[seat].alive && !after.players[seat].alive
  }

  /** A Guard puts its target out exactly when they are unprotected and hold the named card; nobody else drops out. */
  lemma GuardRule(t: Table, actor: nat, target: nat, named: int, seat: nat)
    requires actor < |t.players| && Allowed(t, actor, Guard(target, named)) && t.players[actor].alive && Sizes(t, actor, 2)
    requires seat < |t.players|
    ensures
      var p := Played(t, actor, Guard(target, named));
      |p.players| == |t.players| &&
      (DropsOut(t, p, seat) <==> seat == target && !t.players[target].safe && t.players[target].hand[0] == named)
  {
  }

  /** A Baron puts out exactly the lower of the two unprotected hands; equal hands put nobody out. */
  lemma BaronRule(t: Table, actor: nat, target: nat, seat: nat)
    requires actor < |t.players| && Allowed(t, actor, Baron(target)) && t.players[actor].alive && Sizes(t, actor, 2)
    requires seat < |t.players|
    ensures
      var p := Played(t, actor, Baron(target));
      var mine, theirs := Kept(t.players[actor].hand, BARON), t.players[target].hand[0];
      |p.players| == |t.players| &&
      (DropsOut(t, p, seat) <==>
         !t.players[target].safe && ((seat == target && theirs < mine) || (seat == actor && mine < theirs)))
  {
    KeptIs(t.players[actor].hand, BARON);
  }

  /** A King exchanges what is left of the two hands, unless the target is protected. */
  lemma KingRule(t: Table, actor: nat, target: nat)
    requires actor < |t.players| && Allowed(t, actor, King(target)) && t.players[actor].alive && Sizes(t, actor, 2)
    ensures
      var p := Played(t, actor, King(target));
      var mine, theirs := Kept(t.players[actor].hand, KING), t.players[target].hand[0];
      |p.players| == |t.players| &&
      (if t.players[target].safe then p.players[actor].hand == [mine] && p.players[target].hand == [theirs]
       else p.players[actor].hand == [theirs] && p.players[target].hand == [mine])
  {
    KeptIs(t.players[actor].hand, KING);
    assert t.players[target].hand == [t.players[target].hand[0]];
  }

  /** No card another player plays changes anything about a protected player. */
  lemma ProtectedUntouched(t: Table, actor: nat, move: Move, seat: nat)
    requires actor < |t.players| && Allowed(t, actor, move) && seat < |t.players| && seat != actor && t.players[seat].safe
    ensures |Played(t, actor, move).players| == |t.players|
    ensures Played(t, actor, move).players[seat] == t.players[seat]
  {
    PlayedSize(t, actor, move);
  }

  // ---- the Princess -----------------------------------------------------------------------------------------

  /** Whoever has discarded the Princess is out of the round. */
  predicate PrincessOut(t: Table) {
    forall i: nat | i < |t.players| && PRINCESS in t.players[i].discard :: !t.players[i].alive
  }

  lemma EliminatedPrincess(t: Table, seat: nat)
    requires seat < |t.players|
    requires forall i: nat | i < |t.players| && i != seat && PRINCESS in t.players[i].discard :: !t.players[i].alive
    ensures PrincessOut(Eliminated(t, seat))
  {
  }

  lemma PrinceKeepsPrincess(t: Table, actor: nat, target: nat)
    requires target < |t.players| && PrincessOut(t)
    ensures PrincessOut(PrinceEffect(t, actor, target))
  {
    var p := t.players[target];
    if !(target != actor && p.safe) && p.hand != [] && p.hand[0] == PRINCESS {
      EliminatedPrincess(HandDiscarded(t, target), target);
    }
  }

  lemma PlayedKeepsPrincess(t: Table, actor: nat, move: Move)
    requires actor < |t.players| && Allowed(t, actor, move) && PrincessOut(t)
    ensures PrincessOut(Played(t, actor, move))
  {
    hide PrinceEffect, Z.Cut;
    var d := Discarded(t, actor, move.Card());
    if move.Princess? {
      EliminatedPrincess(d, actor);
    } else {
      assert PrincessOut(d);
      if move.Guard? || move.Baron? || move.Prince? { PrinceKeepsPrincess(d, actor, move.target); }
    }
  }

  lemma OnMoveKeepsPrincess(t: Table)
    requires PrincessOut(t)
    ensures PrincessOut(OnMove(t))
  {
    hide RoundWinners, RoundEnds;
  }

  lemma StepKeepsPrincess(m: Match, move: Move, mixed: seq<Card>)
    requires Inv(m) && !m.over && Allowed(m.t, m.current, move) && Printed(mixed) && PrincessOut(m.t)
    ensures PrincessOut(Step(m, move, mixed).t)
  {
    hide Everything, Played, OnMove, NextAlive, Allowed, WholeDeck, TwoAlive, Sizes;
    PlayedSize(m.t, m.current, move);
    PlayedKeepsPrincess(m.t, m.current, move);
    OnMoveKeepsPrincess(Played(m.t, m.current, move));
  }

  lemma {:induction false} RunKeepsPrincess(m: Match, moves: seq<(Move, seq<Card>)>)
    requires Inv(m) && m.current < |m.t.players| && PrincessOut(m.t)
    ensures
      var r := Run(m, moves);
      r.Some? ==> PrincessOut(r.value.t)
    decreases |moves|
  {
    hide Everything, Step, Allowed, Sizes, WholeDeck, PrincessOut;
    if moves != [] && !m.over && Allowed(m.t, m.current, moves[0].0) && Printed(moves[0].1) {
      StepKeeps(m, moves[0].0, moves[0].1);
      StepKeepsPrincess(m, moves[0].0, moves[0].1);
      RunKeepsPrincess(Step(m, moves[0].0, moves[0].1), moves[1..]);
    }
  }

  lemma NobodyHasDiscarded(n: nat, mixed: seq<Card>)
    requires 2 <= n <= 4 && |mixed| == 16
    ensures PrincessOut(Start(n, mixed).t)
  {
  }

  /** From the deal on, in every state of every run, a player whose Princess has been discarded is out of the round. */
  lemma DiscardedPrincessIsOut(n: nat, mixed: seq<Card>, moves: seq<(Move, seq<Card>)>)
    requires 2 <= n <= 4 && Printed(mixed)
    ensures
      var r := Run(Start(n, mixed), moves);
      r.Some? ==> PrincessOut(r.value.t)
  {
    hide WholeDeck, Everything, Start, Run, PrincessOut;
    StartOk(n, mixed);
    NobodyHasDiscarded(n, mixed);
    RunKeepsPrincess(Start(n, mixed), moves);
  }
}
