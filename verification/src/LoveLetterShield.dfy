/**
 The Handmaid over whole matches: a player is protected exactly from their own Handmaid until their next turn begins or a
 new round is dealt, and as long as that lasts no move of anybody else changes anything about them.
 */
module LoveLetterShield {
  import E = Engine
  import opened LoveLetter
  import opened LoveLetterRuns
  import opened LoveLetterBook

  lemma {:induction false} RunThen(m: Match, moves: seq<(Move, seq<Card>)>, last: (Move, seq<Card>))
    requires Inv(m) && m.current < |m.t.players|
    ensures
      var r := Run(m, moves);
      && (r.Some? ==> Inv(r.value) && r.value.current < |r.value.t.players| == |m.t.players|)
      && Run(m, moves + [last]) ==
         if r.Some? && !r.value.over && Allowed(r.value.t, r.value.current, last.0) && Printed(last.1)
         then E.Some(Step(r.value, last.0, last.1)) else E.None
    decreases |moves|
  {
    hide WholeDeck, Everything, Step, Allowed, Inv;
    Players(m);
    if moves == [] {
      assert ([] + [last])[1..] == [];
      if !m.over && Allowed(m.t, m.current, last.0) && Printed(last.1) { StepKeeps(m, last.0, last.1); }
    } else {
      assert (moves + [last])[1..] == moves[1..] + [last];
      if !m.over && Allowed(m.t, m.current, moves[0].0) && Printed(moves[0].1) {
        StepKeeps(m, moves[0].0, moves[0].1);
        RunThen(Step(m, moves[0].0, moves[0].1), moves[1..], last);
      }
    }
  }

  lemma Players(m: Match)
    requires Inv(m)
    ensures 2 <= |m.t.players| <= 4
  {
  }

  /**
   Going back over the moves of a match: a new round or the player's own turn ends protection, the player's last move decides,
   and other players' moves do not count.
   */
  ghost predicate Shielded(start: Match, moves: seq<(Move, seq<Card>)>, seat: nat)
    requires 2 <= |start.t.players| <= 4 && start.current < |start.t.players|
    decreases |moves|
  {
    if moves == [] then false
    else
      var n := |moves| - 1;
      var prev, now := Run(start, moves[..n]), Run(start, moves);
      if prev.None? || now.None? then false
      else if now.value.t.round != prev.value.t.round then false
      else if !now.value.over && now.value.current == seat then false
      else if prev.value.current == seat then moves[n].0.Handmaid?
      else Shielded(start, moves[..n], seat)
  }

  // ---- one move ---------------------------------------------------------------------------------------------

  /** A card protects its own player and only as a Handmaid. */
  lemma EffectShields(t: Table, actor: nat, move: Move, p: Table, seat: nat)
    requires actor < |t.players| && |t.players[actor].hand| == 2 && Aim(actor, move) < |t.players| == |p.players|
    requires t.players[Aim(actor, move)].hand != [] && Effect(t, actor, move, p) && seat < |t.players|
    ensures p.players[seat].safe <==> t.players[seat].safe || (seat == actor && move.Handmaid?)
    ensures seat != actor && t.players[seat].safe ==> p.players[seat] == t.players[seat]
    ensures p.round == t.round
  {
  }

  /** What one accepted move does to a player's protection, and to a protected player. */
  lemma StepShields(m: Match, move: Move, mixed: seq<Card>, seat: nat)
    requires Inv(m) && !m.over && Allowed(m.t, m.current, move) && Printed(mixed) && seat < |m.t.players|
    ensures
      var r := Step(m, move, mixed);
      var kept := r.t.round == m.t.round && (r.over || r.current != seat);
      && (r.t.players[seat].safe <==> kept && (m.t.players[seat].safe || (seat == m.current && move.Handmaid?)))
      && (kept && !r.over && seat != m.current && m.t.players[seat].safe ==> r.t.players[seat] == m.t.players[seat])
  {
    hide Everything, WholeDeck, Step, Allowed, Effect, TokenSum, Sizes, Wins;
    StepByTheBook(m, move, mixed);
    var r := Step(m, move, mixed);
    var p: Table :| |p.players| == |m.t.players| && Effect(m.t, m.current, move, p) && GoesOn(p, m.current, mixed, r);
    EffectShields(m.t, m.current, move, p, seat);
    NextShields(p, m.current, mixed, r, seat);
  }

  lemma NextShields(p: Table, pos: nat, mixed: seq<Card>, r: Match, seat: nat)
    requires p.players != [] && |mixed| == 16 && |p.players| == |r.t.players| <= 4 && r.current < |p.players|
    requires GoesOn(p, pos, mixed, r) && seat < |p.players|
    ensures
      var kept := r.t.round == p.round && (r.over || r.current != seat);
      && (r.t.players[seat].safe <==> kept && p.players[seat].safe)
      && (kept && !r.over ==> r.t.players[seat] == p.players[seat])
  {
    hide Wins, NextIn;
  }

  // ---- whole matches ----------------------------------------------------------------------------------------

  lemma StartUnshielded(n: nat, mixed: seq<Card>, seat: nat)
    requires 2 <= n <= 4 && |mixed| == 16 && seat < n
    ensures !Start(n, mixed).t.players[seat].safe
  {
  }

  lemma {:induction false} RunShields(n: nat, mixed: seq<Card>, moves: seq<(Move, seq<Card>)>, seat: nat)
    requires 2 <= n <= 4 && Printed(mixed) && seat < n && Run(Start(n, mixed), moves).Some?
    ensures
      var r := Run(Start(n, mixed), moves).value;
      |r.t.players| == n && (r.t.players[seat].safe <==> Shielded(Start(n, mixed), moves, seat))
    decreases |moves|
  {
    hide WholeDeck, Everything, Start, Step, Allowed, Inv;
    StartOk(n, mixed);
    StartUnshielded(n, mixed, seat);
    var start := Start(n, mixed);
    if moves != [] {
      var k := |moves| - 1;
      assert moves == moves[..k] + [moves[k]];
      RunThen(start, moves[..k], moves[k]);
      RunShields(n, mixed, moves[..k], seat);
      StepShields(Run(start, moves[..k]).value, moves[k].0, moves[k].1, seat);
    }
  }

  /** In every state of every match, exactly the shielded players are protected. */
  lemma ProtectedExactly(n: nat, mixed: seq<Card>, moves: seq<(Move, seq<Card>)>, seat: nat)
    requires 2 <= n <= 4 && Printed(mixed) && seat < n && Run(Start(n, mixed), moves).Some?
    ensures
      var r := Run(Start(n, mixed), moves).value;
      |r.t.players| == n && (r.t.players[seat].safe <==> Shielded(Start(n, mixed), moves, seat))
  {
    RunShields(n, mixed, moves, seat);
  }

  /** The same round goes on, and the seat has not come to its turn again. */
  predicate StillWaiting(first: Match, r: E.Option<Match>, seat: nat) {
    r.Some? && !r.value.over && r.value.t.round == first.t.round && r.value.current != seat
  }

  /**
   From an accepted Handmaid on, whatever the others play: as long as the round goes on and the player's own turn has not
   begun, they are protected and exactly as the Handmaid left them.
   */
  lemma {:induction false} HandmaidProtects(m: Match, mixed: seq<Card>, more: seq<(Move, seq<Card>)>)
    requires Inv(m) && !m.over && Allowed(m.t, m.current, Handmaid) && Printed(mixed)
    requires
      var first := Step(m, Handmaid, mixed);
      first.t.round == m.t.round && forall k | 0 <= k <= |more| :: StillWaiting(first, Run(first, more[..k]), m.current)
    ensures
      var first := Step(m, Handmaid, mixed);
      var r := Run(first, more);
      && r.Some? && |r.value.t.players| == |first.t.players| == |m.t.players|
      && r.value.t.players[m.current] == first.t.players[m.current] && first.t.players[m.current].safe
    decreases |more|
  {
    hide WholeDeck, Everything, Step, Allowed, Inv;
    OnTurn(m);
    var first := Step(m, Handmaid, mixed);
    StepKeeps(m, Handmaid, mixed);
    assert StillWaiting(first, Run(first, more[..0]), m.current) && more[..0] == [];
    StepShields(m, Handmaid, mixed, m.current);
    assert more[..|more|] == more;
    assert StillWaiting(first, Run(first, more[..|more|]), m.current);
    if more != [] {
      var n := |more| - 1;
      forall k | 0 <= k <= n ensures StillWaiting(first, Run(first, more[..n][..k]), m.current) {
        assert more[..n][..k] == more[..k];
      }
      HandmaidProtects(m, mixed, more[..n]);
      assert more == more[..n] + [more[n]];
      RunThen(first, more[..n], more[n]);
      assert StillWaiting(first, Run(first, more[..n]), m.current);
      StepShields(Run(first, more[..n]).value, more[n].0, more[n].1, m.current);
    }
  }

  lemma OnTurn(m: Match)
    requires Inv(m) && !m.over
    ensures m.current < |m.t.players| && 2 <= |m.t.players| <= 4
  {
  }
}
