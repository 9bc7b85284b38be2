/**
 Active-player chains in whole matches of three players, for any initial G and seed: one that ends in a set nobody can
 leave, and one whose second link never comes.
 */
module ChainExamples {
  import opened Engine
  import opened Transitions
  import opened Reducer
  import opened Reachable
  import opened UndoRedo
  import opened PlainGames
  import opened ActiveChains

  /** "chain" and "interrupt" install a configuration each, without counting as moves; "go" is a move that counts. */
  function ChainGame(setup: (Ctx, Value) -> Value, chain: Cfg, interrupt: Cfg): Game {
    Game(3, 3, setup,
         map["chain" := Playable(Announcing(SetActivePlayers(chain), false, true)),
             "interrupt" := Playable(Announcing(SetActivePlayers(interrupt), false, true)),
             "go" := Playable(Plain((i: HookIn, args: seq<Value>) => Left(i, i.g, [], i.raised), false))],
         None, map[], "", None, None, None, false, None)
  }

  /** Nothing is pending. */
  predicate Ready(s: State) {
    s.ctx.gameover.None? && s.ctx.phase == "" && s.queue == [] && s.blocks == []
  }

  /** The same active set, with all that decides what becomes of it. */
  predicate SameSets(s: State, t: State) {
    && Live(s) == Live(t) && s.stack == t.stack && s.pendingNext == t.pendingNext
    && s.ctx.playOrder == t.ctx.playOrder && s.ctx.currentPlayer == t.ctx.currentPlayer
  }

  lemma CountedAlike(s: State, t: State, pid: Pid)
    requires SameSets(s, t)
    ensures SameSets(Counted(s, pid), Counted(t, pid))
  {
    hide Bump, AutoEnd, SameSets;
    BumpedAlike(s, t, pid);
    EndedAlike(Bump(s, pid), Bump(t, pid));
  }

  lemma BumpedAlike(s: State, t: State, pid: Pid)
    requires SameSets(s, t)
    ensures SameSets(Bump(s, pid), Bump(t, pid))
  {
  }

  lemma EndedAlike(s: State, t: State)
    requires SameSets(s, t)
    ensures SameSets(AutoEnd(s), AutoEnd(t))
  {
    hide DrainActive, LeaveAll, Spent;
    if s.ctx.active.Some? {
      SpentAlike(s, t);
      LeftAlike(s, t, Spent(s));
      DrainedAlike(LeaveAll(s, Spent(s)), LeaveAll(t, Spent(s)));
    }
  }

  lemma SpentAlike(s: State, t: State)
    requires SameSets(s, t) && s.ctx.active.Some?
    ensures t.ctx.active.Some? && Spent(s) == Spent(t)
  {
  }

  lemma LeftAlike(s: State, t: State, gone: set<Pid>)
    requires SameSets(s, t)
    ensures SameSets(LeaveAll(s, gone), LeaveAll(t, gone))
  {
  }

  lemma DrainedAlike(s: State, t: State)
    requires SameSets(s, t)
    ensures SameSets(DrainActive(s), DrainActive(t))
  {
  }

  lemma InstalledAlike(s: State, t: State, cfg: Cfg)
    requires SameSets(s, t)
    ensures SameSets(Install(s, cfg), Install(t, cfg))
  {
  }

  lemma Admits(setup: (Ctx, Value) -> Value, chain: Cfg, interrupt: Cfg, s: State, pid: Pid, name: string)
    requires Ready(s) && AuthorizedStage(s.ctx, pid) == ("", None) && name in {"chain", "interrupt", "go"}
    ensures
      var game := ChainGame(setup, chain, interrupt);
      Admit(game, s, Asked(pid, name, [], "")) == Admitted(s.(ctx := s.ctx.(nowMs := 0)), game.moves[name].m, None)
  {
  }

  /** An installing move does what installing does. */
  lemma Installs(setup: (Ctx, Value) -> Value, chain: Cfg, interrupt: Cfg, s: State, pid: Pid, first: bool, rounds: nat)
    requires rounds >= 1 && Ready(s) && AuthorizedStage(s.ctx, pid) == ("", None)
    ensures
      var r := Apply(ChainGame(setup, chain, interrupt), s, Asked(pid, if first then "chain" else "interrupt", [], ""), rounds);
      r.Done? && Ready(r.value) && SameSets(r.value, Install(s, if first then chain else interrupt))
  {
    hide Admit, Apply, Install;
    var game, cfg := ChainGame(setup, chain, interrupt), if first then chain else interrupt;
    var req := Asked(pid, if first then "chain" else "interrupt", [], "");
    Admits(setup, chain, interrupt, s, pid, req.move);
    var st := Logged(s.(ctx := s.ctx.(nowMs := 0)), req, false, true);
    NothingSpent(game, Machine(Install(st, cfg), Env([], [], [], [], None), false), st, cfg, pid);
    Announces(game, s, req, SetActivePlayers(cfg), false, true, rounds);
    InstalledAlike(st, s, cfg);
  }

  /** Right after an install nobody has used up their moves. */
  lemma NothingSpent(game: Game, m: Machine, s: State, cfg: Cfg, pid: Pid)
    requires Hookless(game) && m.st == Install(s, cfg)
    ensures CheckEnds(game, m, pid, Announcing(SetActivePlayers(cfg), false, true)) == m
  {
    assert m.st.counts.None?;
    assert m.st.ctx.active.Some? ==> Spent(m.st) == {};
  }

  /** A counting move does what counting does. */
  lemma Goes(setup: (Ctx, Value) -> Value, chain: Cfg, interrupt: Cfg, s: State, pid: Pid, rounds: nat)
    requires Ready(s) && AuthorizedStage(s.ctx, pid) == ("", None)
    ensures
      var r := Apply(ChainGame(setup, chain, interrupt), s, Asked(pid, "go", [], ""), rounds);
      r.Done? && Ready(r.value) && SameSets(r.value, Counted(s, pid))
  {
    hide Admit, Apply, AutoEnd;
    var game, req := ChainGame(setup, chain, interrupt), Asked(pid, "go", [], "");
    Admits(setup, chain, interrupt, s, pid, "go");
    CountsOnly(game, s, req, rounds);
    var st := s.(ctx := s.ctx.(nowMs := 0));
    var logged := Logged(st, req, false, true).(ctx := st.ctx.(numMoves := st.ctx.numMoves + 1));
    CountedAlike(logged, s, pid);
  }

  lemma ChainSetUp(setup: (Ctx, Value) -> Value, chain: Cfg, interrupt: Cfg, setupData: Value, seed: int, rounds: nat)
    ensures
      var game := ChainGame(setup, chain, interrupt);
      var first := FirstState(game, 3, setupData, seed);
      && NewMatch(game, 3, setupData, seed, rounds) == Done(first) && Ready(first) && first.stack == []
      && AuthorizedStage(first.ctx, "0") == ("", None) && first.ctx.currentPlayer == "0"
  {
    var game := ChainGame(setup, chain, interrupt);
    assert Itoa(0) == "0";
    SetsUpQuietly(game, 3, setupData, seed, rounds);
  }

  // ---- locked out -------------------------------------------------------------------------------------------

  /** One move for player 0, then, by Next, one for player 1 with Revert set. After both, every request is refused. */
  lemma MatchLocksEveryoneOut(setup: (Ctx, Value) -> Value, setupData: Value, seed: int, req: Request, rounds: nat)
    requires rounds >= 1
    ensures
      var game := ChainGame(setup, RevertInChain("0", "1"), EMPTY_CFG);
      var calls := [External(Asked("0", "chain", [], "")), External(Asked("0", "go", [], "")), External(Asked("1", "go", [], ""))];
      var r := Match(game, 3, setupData, seed, calls, rounds);
      r.Done? && r.value.ctx.active == Some(map[]) && Apply(game, r.value, req, rounds).Refused?
  {
    hide Apply, NewMatch, FirstState, Install, Counted, RevertInChain, ChainGame, AuthorizedStage;
    var chain := RevertInChain("0", "1");
    var game := ChainGame(setup, chain, EMPTY_CFG);
    var c0, c1, c2 := External(Asked("0", "chain", [], "")), External(Asked("0", "go", [], "")), External(Asked("1", "go", [], ""));
    ChainSetUp(setup, chain, EMPTY_CFG, setupData, seed, rounds);
    var first := FirstState(game, 3, setupData, seed);
    Installs(setup, chain, EMPTY_CFG, first, "0", true, rounds);
    var s1 := Apply(game, first, c0.req, rounds).value;
    ChainedRevertLocksEveryoneOut(first, "0", "1", req.pid);
    OneActive(s1, "0");
    Goes(setup, chain, EMPTY_CFG, s1, "0", rounds);
    var s2 := Apply(game, s1, c1.req, rounds).value;
    CountedAlike(s1, Install(first, chain), "0");
    OneActive(s2, "1");
    Goes(setup, chain, EMPTY_CFG, s2, "1", rounds);
    var s3 := Apply(game, s2, c2.req, rounds).value;
    CountedAlike(s2, Counted(Install(first, chain), "0"), "1");
    AfterTwo(game, first, s1, s2, c0, c1, [c2], rounds);
    assert [c0, c1] + [c2] == [c0, c1, c2] && [c2][1..] == [];
    EmptySetRefuses(setup, chain, s3, req, rounds);
  }

  lemma OneActive(s: State, pid: Pid)
    requires s.ctx.active == Some(map[pid := ""])
    ensures AuthorizedStage(s.ctx, pid) == ("", None)
  {
  }

  lemma EmptySetRefuses(setup: (Ctx, Value) -> Value, chain: Cfg, s: State, req: Request, rounds: nat)
    requires Ready(s) && s.ctx.active == Some(map[])
    ensures Apply(ChainGame(setup, chain, EMPTY_CFG), s, req, rounds).Refused?
  {
    hide PlayMove, CountMove, Settle, Cascade;
  }

  // ---- the lost link ----------------------------------------------------------------------------------------

  /** A chain over players 0 and 1, interrupted by a Revert install for player 2: player 1 never gets to move. */
  lemma MatchLosesChain(setup: (Ctx, Value) -> Value, setupData: Value, seed: int, rounds: nat)
    requires rounds >= 1
    ensures
      var game := ChainGame(setup, InOrder(["0", "1"], "", 0, 1), Link("2", "", 0, 1, None).(revert := true));
      var calls := [External(Asked("0", "chain", [], "")), External(Asked("0", "interrupt", [], "")),
                    External(Asked("2", "go", [], "")), External(Asked("0", "go", [], ""))];
      var r := Match(game, 3, setupData, seed, calls, rounds);
      && r.Done? && r.value.ctx.active.None? && r.value.pendingNext.None? && r.value.ctx.currentPlayer == "0"
  {
    hide Apply, NewMatch, FirstState, Install, Counted, ChainGame, AuthorizedStage;
    var chain, cut := InOrder(["0", "1"], "", 0, 1), Link("2", "", 0, 1, None).(revert := true);
    var game := ChainGame(setup, chain, cut);
    var c0, c1 := External(Asked("0", "chain", [], "")), External(Asked("0", "interrupt", [], ""));
    var c2, c3 := External(Asked("2", "go", [], "")), External(Asked("0", "go", [], ""));
    ChainSetUp(setup, chain, cut, setupData, seed, rounds);
    var first := FirstState(game, 3, setupData, seed);
    InterruptedChainIsLost(first, "0", "1", "2");
    Installs(setup, chain, cut, first, "0", true, rounds);
    var s1 := Apply(game, first, c0.req, rounds).value;
    OneActive(s1, "0");
    Installs(setup, chain, cut, s1, "0", false, rounds);
    var s2 := Apply(game, s1, c1.req, rounds).value;
    InstalledAlike(s1, Install(first, chain), cut);
    OneActive(s2, "2");
    Goes(setup, chain, cut, s2, "2", rounds);
    var s3 := Apply(game, s2, c2.req, rounds).value;
    CountedAlike(s2, Install(Install(first, chain), cut), "2");
    OneActive(s3, "0");
    Goes(setup, chain, cut, s3, "0", rounds);
    CountedAlike(s3, Counted(Install(Install(first, chain), cut), "2"), "0");
    var s4 := Apply(game, s3, c3.req, rounds).value;
    AfterTwo(game, first, s1, s2, c0, c1, [c2, c3], rounds);
    AfterTwo(game, s2, s3, s4, c2, c3, [], rounds);
    assert [c0, c1] + [c2, c3] == [c0, c1, c2, c3] && [c2, c3] + [] == [c2, c3];
  }
}
