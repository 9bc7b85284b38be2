/**
 Turn.MaxMoves in whole matches of two players, for any limit, initial G and seed: a turn has exactly as many counting moves
 as the limit allows, and then the next player is on turn.
 */
module LimitExamples {
  import opened Engine
  import opened Transitions
  import opened Reducer
  import opened Reachable
  import opened PlainGames

  function LimitedTurn(limit: nat): Turn {
    Turn(Default, None, None, None, None, 0, limit, None, map[])
  }

  /** One move, and a limit on how often a turn may make it. */
  function LimitGame(setup: (Ctx, Value) -> Value, limit: nat): Game {
    Game(2, 2, setup, map["go" := Playable(Plain((i: HookIn, args: seq<Value>) => Left(i, i.g, [], i.raised), false))],
         Some(LimitedTurn(limit)), map[], "", None, None, None, false, None)
  }

  /** A player's turn, with so many moves made in it and nothing pending. */
  ghost predicate OnTurnWith(s: State, pos: nat, made: nat, turn: int) {
    && pos < 2 && s.ctx.playOrder == ["0", "1"] && s.ctx.pos == pos && s.ctx.currentPlayer == ["0", "1"][pos]
    && s.ctx.numPlayers == 2 && s.ctx.numMoves == made && s.ctx.turn == turn && s.ctx.phase == "" && s.ctx.active.None?
    && s.ctx.gameover.None? && s.queue == [] && s.blocks == []
  }

  function Go(pos: nat): Request
    requires pos < 2
  {
    Asked(["0", "1"][pos], "go", [], "")
  }

  lemma GoAdmitted(setup: (Ctx, Value) -> Value, limit: nat, s: State, pos: nat, made: nat, turn: int)
    requires OnTurnWith(s, pos, made, turn)
    ensures
      var game := LimitGame(setup, limit);
      Admit(game, s, Go(pos)) == Admitted(s.(ctx := s.ctx.(nowMs := 0)), game.moves["go"].m, None)
  {
  }

  /** The last move of a turn passes it on. */
  lemma TurnPasses(setup: (Ctx, Value) -> Value, limit: nat, m: Machine, pos: nat, made: nat, turn: int)
    requires OnTurnWith(m.st, pos, made, turn)
    ensures
      var r := FinishTurn(LimitGame(setup, limit), m, "");
      OnTurnWith(r.st, 1 - pos, 0, turn + 1) && r.env == m.env && r.panicked == m.panicked
  {
  }

  /** One more move, made by the player on turn. */
  lemma OneGo(setup: (Ctx, Value) -> Value, limit: nat, s: State, pos: nat, made: nat, turn: int, rounds: nat)
    requires OnTurnWith(s, pos, made, turn)
    ensures
      var r := Apply(LimitGame(setup, limit), s, Go(pos), rounds);
      && r.Done?
      && if limit > 0 && made + 1 >= limit then OnTurnWith(r.value, 1 - pos, 0, turn + 1)
         else OnTurnWith(r.value, pos, made + 1, turn)
  {
    hide Admit, Apply, FinishTurn;
    var game := LimitGame(setup, limit);
    GoAdmitted(setup, limit, s, pos, made, turn);
    var m := Machine(Logged(s.(ctx := s.ctx.(nowMs := 0)), Go(pos), false, false), Env([], [], [], [], None), false);
    assert OnTurnWith(m.st, pos, made + 1, turn);
    TurnPasses(setup, limit, m, pos, made + 1, turn);
    EndsAs(game, s, Go(pos), rounds);
  }

  lemma SetUp(setup: (Ctx, Value) -> Value, limit: nat, setupData: Value, seed: int, rounds: nat)
    ensures
      var game := LimitGame(setup, limit);
      var first := FirstState(game, 2, setupData, seed);
      NewMatch(game, 2, setupData, seed, rounds) == Done(first) && OnTurnWith(first, 0, 0, 1)
  {
    var game := LimitGame(setup, limit);
    var first := FirstState(game, 2, setupData, seed);
    assert Itoa(0) == "0" && Itoa(1) == "1";
    assert first.ctx.playOrder == ["0", "1"];
    hide Itoa;
    var m := Machine(first, Env([], [], [], [], None), false);
    assert EnterPhase(game, m) == m;
  }

  function Times(pos: nat, k: nat): seq<Call>
    requires pos < 2
  {
    if k == 0 then [] else [External(Go(pos))] + Times(pos, k - 1)
  }

  lemma {:induction false} GoesOn(
    setup: (Ctx, Value) -> Value, limit: nat, s: State, made: nat, turn: int, pos: nat, k: nat, rounds: nat)
    requires OnTurnWith(s, pos, made, turn) && 0 < k <= limit - made
    ensures
      var r := After(LimitGame(setup, limit), s, Times(pos, k), rounds);
      && r.Done?
      && if made + k < limit then OnTurnWith(r.value, pos, made + k, turn) else OnTurnWith(r.value, 1 - pos, 0, turn + 1)
    decreases k
  {
    hide Apply, LimitGame, OnTurnWith;
    OneGo(setup, limit, s, pos, made, turn, rounds);
    SeatIs(s, pos, made, turn);
    var next := Apply(LimitGame(setup, limit), s, Go(pos), rounds).value;
    assert Times(pos, k)[1..] == Times(pos, k - 1);
    if k > 1 {
      GoesOn(setup, limit, next, made + 1, turn, pos, k - 1, rounds);
    } else {
      assert Times(pos, 0) == [];
      assert After(LimitGame(setup, limit), next, [], rounds) == Done(next);
    }
  }

  lemma SeatIs(s: State, pos: nat, made: nat, turn: int)
    requires OnTurnWith(s, pos, made, turn)
    ensures pos < 2
  {
  }

  /** A match with a limit of any size: player 0 makes so many moves; before the last allowed they are on turn, after it not. */
  lemma LimitMatch(setup: (Ctx, Value) -> Value, limit: nat, setupData: Value, seed: int, k: nat, rounds: nat)
    requires 0 < k <= limit
    ensures
      var r := Match(LimitGame(setup, limit), 2, setupData, seed, Times(0, k), rounds);
      && r.Done?
      && (k < limit ==> r.value.ctx.currentPlayer == "0" && r.value.ctx.turn == 1 && r.value.ctx.numMoves == k)
      && (k == limit ==> r.value.ctx.currentPlayer == "1" && r.value.ctx.turn == 2 && r.value.ctx.numMoves == 0)
  {
    hide NewMatch, After, LimitGame, FirstState;
    SetUp(setup, limit, setupData, seed, rounds);
    GoesOn(setup, limit, FirstState(LimitGame(setup, limit), 2, setupData, seed), 0, 1, 0, k, rounds);
  }
}
