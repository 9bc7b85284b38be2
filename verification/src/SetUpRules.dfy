/**
 How a match begins: the seats, the first phase and its first player, and the hooks that have seen G by the time anybody may
 move.
 */
module SetUpRules {
  import opened Engine
  import opened Transitions
  import opened Reducer
  import opened Gates
  import opened Reachable
  import opened EventRules
  import opened EndRules

  /** The number of seats: as many as asked for, or the nearest the game allows; unasked, the most, else the fewest, else two. */
  lemma SeatsExactly(game: Game, requested: int)
    ensures
      var n, min, max := game.PlayerCount(requested), game.minPlayers, game.maxPlayers;
      && n >= 1 && (max > 0 ==> n <= max) && (min > 0 && (max > 0 ==> min <= max) ==> n >= min)
      && (requested > 0 && min <= requested && (max > 0 ==> requested <= max) ==> n == requested)
      && (max > 0 && requested > max ==> n == max) && (0 < requested < min && (max > 0 ==> min <= max) ==> n == min)
      && (requested <= 0 ==> n == if max > 0 then max else if min > 0 then min else 2)
  {
  }

  /** What every new match has before its first hook: numbered seats, turn 1 of the first phase, and nothing made yet. */
  predicate Fresh(game: Game, n: nat, seed: int, t: State) {
    && t.ctx.numPlayers == n && t.ctx.turn == 1 && t.ctx.numMoves == 0 && t.ctx.phase == game.start
    && t.ctx.gameover.None? && t.ctx.seed == seed && t.stateID == 0 && t.undone == [] && t.snapshots == []
  }

  /**
   A new match of a game whose hooks queue nothing, under any built-in order: the order's first seat is on turn, the turn's
   active set is in force, and G is what Setup made for the numbered seats, then the phase's OnBegin, then the turn's.
   */
  lemma MatchBegins(game: Game, requested: int, setupData: Value, seed: int, rounds: nat)
    requires CalmGame(game) && BuiltIn(game.ScopeTurn(game.start))
    ensures
      var r, n := NewMatch(game, requested, setupData, seed, rounds), game.PlayerCount(requested);
      && (r.Done? || r.Panicked?) && (r.Panicked? ==> OrderIn(game, game.start).Custom?)
      && (r.Done? && n > 0 ==>
            && Fresh(game, if OrderIn(game, game.start).Custom? then |r.value.ctx.playOrder| else n, seed, r.value)
            && (!OrderIn(game, game.start).Custom? ==>
                  |r.value.ctx.playOrder| == n && forall i | 0 <= i < n :: r.value.ctx.playOrder[i] == Itoa(i))
            && r.value.queue == [] && StartsWith(game.ScopeTurn(game.start), r.value)
            && exists ctx: Ctx ::
                 && ctx.numPlayers == n && ctx.playOrder == DefaultOrder(n) && ctx.pos == 0 && ctx.currentPlayer == "0"
                 && SeatedBy(OrderIn(game, game.start), ctx, r.value.ctx)
                 && Begins(game, Tale(game.setup(ctx, setupData), []), r.value))
  {
    hide EnterPhase, DrainEvents, Flush, FirstState, StartsWith, Begins, CalmGame, DrainQueue, PluginApi;
    FirstIs(game, requested, setupData, seed);
    var s := FirstState(game, requested, setupData, seed);
    var m := Machine(s, Env([], [], [], [], PluginApi(game, s, "")), false);
    var begun := EnterPhase(game, m);
    EnterStill(game, m);
    PhaseEntered(game, m);
    SeatsPanic(game, m);
    assert DrainEvents(game, Drain(begun, "", 0), rounds) == Some(Drain(begun, "", 0)) by { NothingDrains(game, begun, rounds); }
    var t := Flush(game, begun.st, begun.env.api);
    FlushKept(game, begun.st, begun.env.api);
    BegunKept(game, s, begun.st, t, begun.env);
    RestsAtOnce(game, Harvest(t, begun.env), rounds);
    EnterKeepsRest(game, m);
  }

  /** With no event queued there is nothing to drain. */
  lemma NothingDrains(game: Game, m: Machine, rounds: nat)
    requires m.env.events == []
    ensures DrainEvents(game, Drain(m, "", 0), rounds) == Some(Drain(m, "", 0))
  {
  }

  lemma RestsAtOnce(game: Game, s: State, rounds: nat)
    requires s.queue == []
    ensures DrainQueue(game, s, -1, 0, rounds) == Done(s)
  {
  }

  lemma FlushKept(game: Game, s: State, api: Option<Value>)
    ensures Flush(game, s, api) == s.(plugins := Flush(game, s, api).plugins)
  {
  }

  lemma FirstIs(game: Game, requested: int, setupData: Value, seed: int)
    ensures
      var s, n := FirstState(game, requested, setupData, seed), game.PlayerCount(requested);
      && s.ctx == Ctx(n, "0", DefaultOrder(Max(n, 0)), 0, 1, game.start, None, None, 0, 0, seed)
      && EventRules.Bare(s) && s.g == game.setup(s.ctx, setupData) && s.log == [] && s.queue == [] && s.stateID == 0
      && s.undone == [] && s.snapshots == [] && s.ctx.gameover.None?
  {
    assert Itoa(0) == "0";
  }

  /** Seating a built-in order goes wrong only where the order lists seats of its own. */
  lemma SeatsPanic(game: Game, m: Machine)
    requires BuiltIn(game.ScopeTurn(m.st.ctx.phase)) && m.st.ctx.pos == 0 && !m.panicked
    ensures EnterPhase(game, m).panicked ==> OrderIn(game, m.st.ctx.phase).Custom?
  {
    hide ApplyActiveFromTurn;
  }

  lemma EnterKeepsRest(game: Game, m: Machine)
    ensures
      var s, t := m.st, EnterPhase(game, m).st;
      && t.stateID == s.stateID && t.undone == s.undone && t.snapshots == s.snapshots && t.ctx.seed == s.ctx.seed
  {
  }

  lemma BegunKept(game: Game, s: State, begun: State, t: State, env: Env)
    requires StartsWith(game.ScopeTurn(s.ctx.phase), begun) && Begins(game, TaleOf(s), begun) && t == begun.(plugins := t.plugins)
    ensures
      var h := Harvest(t, env);
      StartsWith(game.ScopeTurn(s.ctx.phase), h) && Begins(game, TaleOf(s), h) && h.ctx == begun.ctx
  {
    var h := Harvest(t, env);
    assert forall p: Pid :: SeatOf(h, p) == SeatOf(begun, p);
    assert TaleOf(h) == TaleOf(begun);
  }

  /** A setup whose cascade fails keeps the match as it was before the first step, with every pushed move still queued. */
  lemma FailedSetUp(game: Game, requested: int, setupData: Value, seed: int, rounds: nat)
    requires SetUp(game, requested, setupData, seed, rounds).Done?
    ensures
      var m := SetUp(game, requested, setupData, seed, rounds).value;
      var r := NewMatch(game, requested, setupData, seed, rounds);
      var start := m.st.(queue := m.st.queue + m.env.pending, blocks := m.st.blocks + m.env.raised);
      r == if DrainQueue(game, start, -1, 0, rounds).Refused? then Done(start) else DrainQueue(game, start, -1, 0, rounds)
  {
    hide DrainQueue, SetUp;
  }
}
