/**
 Laws a game's code may obey, and what the engine then guarantees in every reachable state.

 Each law constrains only what the game's own functions return. Under it, every transition of the engine keeps the
 matching invariant:
   - tame: no active-player configuration chains (via Next) a configuration that has Revert set. Then the live active
     set and every Revert frame is nil or non-empty.
   - orders: turn orders are built-in ones over distinct seats. Then CurrentPlayer is PlayOrder[PlayOrderPos], or a
     player forced from outside PlayOrder, and nothing panics, whoever is forced or removed.
   - reserved: custom log entries never take these kinds, "move" or "drain-step". Then only the engine writes them.
   - unchained: no Events.RunMove. Then StateID moves only with external moves and forced turn ends.
   - final: no EndGame(nil). Then a game that is over stays over, and only a turn end wipes the undo stack.
   - flat: the game has no phases. Then every turn end wipes the undo stack.
 */
module Laws {
  import opened Engine
  import opened Transitions

  datatype Law = Law(tame: bool, orders: bool, reserved: set<string>, unchained: bool, final: bool, flat: bool)

  /** Turn orders are the built-in ones, over distinct seats. */
  const BUILT_IN := Law(false, true, {}, false, false, false)

  // ---- what the game promises -------------------------------------------------------------------------------

  /** Nothing reached through Next has Revert set. */
  predicate TameChain(next: Option<Cfg>) {
    next.Some? ==> !next.value.revert && TameChain(next.value.next)
  }

  ghost predicate EventOk(k: Law, e: Event) {
    && (k.tame && e.SetActivePlayers? ==> TameChain(e.cfg.next))
    && (k.unchained ==> !e.RunMove?)
    && (k.final && e.EndGame? ==> e.result.Some?)
  }

  ghost predicate EventsOk(k: Law, events: seq<Event>) {
    forall e | e in events :: EventOk(k, e)
  }

  ghost predicate OutOk(k: Law, o: HookOut) {
    EventsOk(k, o.events) && forall n | n in o.notes :: n.kind !in k.reserved
  }

  ghost predicate HookOk(k: Law, h: Option<Hook>) {
    h.Some? ==> forall i :: OutOk(k, h.value(i))
  }

  ghost predicate MoveOk(k: Law, m: Move) {
    (forall i, args :: OutOk(k, m.run(i, args).out)) && (forall i, args :: OutOk(k, m.raw(i, args).out))
  }

  ghost predicate TableOk(k: Law, table: map<string, MoveEntry>) {
    forall n | n in table :: table[n].Playable? ==> MoveOk(k, table[n].m)
  }

  ghost predicate OrderOk(k: Law, o: TurnOrder) {
    k.orders ==>
      && (o.UserOrder? ==> o.IsDefault())
      && (o.Custom? ==> Distinct(o.order))
      && (o.CustomFrom? ==> forall g :: Distinct(o.getter(g)))
  }

  ghost predicate StageOk(k: Law, s: Stage) {
    TableOk(k, s.moves) && HookOk(k, s.onBegin) && HookOk(k, s.onEnd)
  }

  ghost predicate TurnEndIfOk(k: Law, f: Option<HookIn -> Check<(bool, Pid)>>) {
    f.Some? ==> forall i :: OutOk(k, f.value(i).out)
  }

  ghost predicate TurnOk(k: Law, t: Turn) {
    && OrderOk(k, t.order) && HookOk(k, t.onBegin) && HookOk(k, t.onEnd) && HookOk(k, t.onMove)
    && TurnEndIfOk(k, t.endIf)
    && (k.tame && t.active.Some? ==> TameChain(t.active.value.next))
    && (forall n | n in t.stages :: StageOk(k, t.stages[n]))
  }

  ghost predicate PhaseOk(k: Law, p: Phase) {
    && HookOk(k, p.onBegin) && HookOk(k, p.onEnd)
    && (p.endIf.Some? ==> forall i :: OutOk(k, p.endIf.value(i).out))
    && (p.moves.Some? ==> TableOk(k, p.moves.value))
    && (p.turn.Some? ==> TurnOk(k, p.turn.value))
  }

  ghost predicate GameOk(k: Law, game: Game) {
    && k.reserved <= {"move", "drain-step"} && (k.flat ==> game.phases == map[])
    && TableOk(k, game.moves) && (game.turn.Some? ==> TurnOk(k, game.turn.value))
    && (forall n | n in game.phases :: PhaseOk(k, game.phases[n]))
    && (game.endIf.Some? ==> forall i :: OutOk(k, game.endIf.value(i).out))
    && HookOk(k, game.onEnd)
  }

  // ---- what the engine then keeps ---------------------------------------------------------------------------

  /** A nil set lets the current player move; an empty one would refuse every seat. */
  predicate NilOrNonEmpty(m: StageMap) {
    m.Some? ==> m.value != map[]
  }

  predicate LiveSetsOk(s: State) {
    NilOrNonEmpty(s.ctx.active) && FramesOk(s.stack)
  }

  predicate FramesOk(stack: seq<Frame>) {
    forall f | f in stack :: NilOrNonEmpty(f.active)
  }

  /** The cursor is on a seat, seats are distinct, and the player count is not below the seats left. */
  ghost predicate SeatedOk(ctx: Ctx) {
    && (ctx.playOrder != [] ==> 0 <= ctx.pos < |ctx.playOrder|)
    && |ctx.playOrder| <= ctx.numPlayers && Distinct(ctx.playOrder)
  }

  /** The cursor names the current player. */
  ghost predicate CursorOk(ctx: Ctx) {
    SeatedOk(ctx) && (ctx.playOrder != [] ==> ctx.currentPlayer == ctx.playOrder[ctx.pos])
  }

  /** The cursor names the current player, unless that player has no seat. */
  ghost predicate LooseCursor(ctx: Ctx) {
    SeatedOk(ctx) && (ctx.currentPlayer in ctx.playOrder ==> ctx.currentPlayer == ctx.playOrder[ctx.pos])
  }

  ghost predicate StateOk(k: Law, s: State) {
    && (k.tame ==> LiveSetsOk(s) && TameChain(s.pendingNext))
    && (k.orders ==> LooseCursor(s.ctx))
  }

  ghost predicate SnapshotsOk(k: Law, snapshots: seq<State>) {
    forall x | x in snapshots :: StateOk(k, x) && x.snapshots == []
  }

  /** A state between calls; an undo snapshot never outlives the log entry Undo would pop. */
  ghost predicate StateInv(k: Law, s: State) {
    StateOk(k, s) && SnapshotsOk(k, s.snapshots) && |s.snapshots| <= |s.log|
  }

  ghost predicate Inv(k: Law, m: Machine) {
    StateInv(k, m.st) && EventsOk(k, m.env.events) && (k.orders ==> !m.panicked)
  }

  /** No entry past the first log has one of these kinds. */
  predicate Unwritten(kinds: set<string>, before: seq<LogEntry>, after: seq<LogEntry>) {
    forall i | |before| <= i < |after| :: after[i].kind !in kinds
  }

  predicate NotesOk(k: Law, notes: seq<LogEntry>) {
    forall i | 0 <= i < |notes| :: notes[i].kind !in k.reserved
  }

  /**
   What becomes of the undo and redo stacks: each is kept or wiped. For the undo stack the turn number and a game over show
   which.
   */
  predicate StackRule(k: Law, s: State, t: State) {
    && (t.snapshots == s.snapshots || t.snapshots == []) && (t.undone == s.undone || t.undone == [])
    && s.ctx.turn <= t.ctx.turn
    && (k.final && s.ctx.gameover.Some? ==> t.ctx.gameover.Some?)
    && (k.final && t.ctx.turn == s.ctx.turn && t.ctx.gameover.None? ==> t.snapshots == s.snapshots)
    && (k.flat && t.ctx.turn != s.ctx.turn ==> t.snapshots == [])
  }

  /** Everything else a transition keeps. */
  ghost predicate Carries(k: Law, m: Machine, r: Machine) {
    && Inv(k, r) && Unwritten(k.reserved, m.st.log, r.st.log) && (k.unchained ==> r.st.stateID == m.st.stateID)
    && m.env.pending <= r.env.pending && m.env.drops <= r.env.drops
  }

  ghost predicate Evolves(k: Law, m: Machine, r: Machine) {
    Carries(k, m, r) && StackRule(k, m.st, r.st)
  }

  // ---- hooks and plain updates ------------------------------------------------------------------------------

  lemma AbsorbOk(k: Law, env: Env, o: HookOut)
    requires EventsOk(k, env.events) && OutOk(k, o)
    ensures EventsOk(k, Absorb(env, o).events)
  {
  }

  lemma NotedOk(k: Law, o: HookOut, ctx: Ctx)
    requires OutOk(k, o) && k.reserved <= {"move", "drain-step"}
    ensures NotesOk(k, AllNoted(o.notes, ctx))
  {
    forall i | 0 <= i < |o.notes| ensures AllNoted(o.notes, ctx)[i].kind !in k.reserved {
      assert o.notes[i] in o.notes;
    }
  }

  lemma RunHookKeeps(k: Law, hook: Option<Hook>, m: Machine, pid: Pid)
    requires HookOk(k, hook) && Inv(k, m) && k.reserved <= {"move", "drain-step"}
    ensures Evolves(k, m, RunHook(hook, m, pid))
  {
    if hook.Some? {
      var o := hook.value(Input(m, pid));
      AbsorbOk(k, m.env, o);
      NotedOk(k, o, m.st.ctx);
    }
  }

  lemma ScopeTurnOk(k: Law, game: Game, phase: string)
    requires GameOk(k, game)
    ensures game.ScopeTurn(phase).Some? ==> TurnOk(k, game.ScopeTurn(phase).value)
  {
  }

  lemma LookupStageOk(k: Law, game: Game, phase: string, stage: string)
    requires GameOk(k, game)
    ensures game.LookupStage(phase, stage).Some? ==> StageOk(k, game.LookupStage(phase, stage).value)
  {
  }

  lemma ScopeMovesOk(k: Law, game: Game, phase: string)
    requires GameOk(k, game)
    ensures TableOk(k, game.ScopeMoves(phase))
  {
  }

  lemma TurnOnBeginKeeps(k: Law, game: Game, m: Machine)
    requires GameOk(k, game) && Inv(k, m)
    ensures Evolves(k, m, RunTurnOnBegin(game, m))
  {
    ScopeTurnOk(k, game, m.st.ctx.phase);
    var turn := game.ScopeTurn(m.st.ctx.phase);
    if turn.Some? { RunHookKeeps(k, turn.value.onBegin, m, ""); }
  }

  lemma TurnOnEndKeeps(k: Law, game: Game, m: Machine)
    requires GameOk(k, game) && Inv(k, m)
    ensures Evolves(k, m, RunTurnOnEnd(game, m))
  {
    ScopeTurnOk(k, game, m.st.ctx.phase);
    var turn := game.ScopeTurn(m.st.ctx.phase);
    if turn.Some? { RunHookKeeps(k, turn.value.onEnd, m, ""); }
  }

  lemma PhaseOnBeginKeeps(k: Law, game: Game, m: Machine)
    requires GameOk(k, game) && Inv(k, m)
    ensures Evolves(k, m, RunPhaseOnBegin(game, m))
  {
    var phase := m.st.ctx.phase;
    if phase != "" && phase in game.phases { RunHookKeeps(k, game.phases[phase].onBegin, m, ""); }
  }

  lemma Chain(k: Law, a: Machine, b: Machine, c: Machine)
    requires Evolves(k, a, b) && Evolves(k, b, c) && a.st.log <= b.st.log <= c.st.log
    ensures Evolves(k, a, c)
  {
  }

  // ---- active sets ------------------------------------------------------------------------------------------

  lemma InstallKeeps(k: Law, s: State, cfg: Cfg)
    requires StateOk(k, s) && (k.tame ==> TameChain(cfg.next))
    ensures StateOk(k, Install(s, cfg)) && Install(s, cfg).snapshots == s.snapshots && Install(s, cfg).undone == s.undone
  {
  }

  /**
   The set has just emptied. Popping, installing or clearing leaves good sets behind exactly when the pending
   configuration is not a Revert one: that one would save the emptied, non-nil map as the frame to return to.
   */
  lemma DrainActiveExact(s: State)
    requires s.ctx.active == Some(map[]) && FramesOk(s.stack)
    ensures LiveSetsOk(DrainActive(s)) <==> !(s.stack == [] && s.pendingNext.Some? && s.pendingNext.value.revert)
  {
    if s.stack == [] && s.pendingNext.Some? && s.pendingNext.value.revert {
      var t := DrainActive(s);
      assert t.stack[0] in t.stack && t.stack[0].active == Some(map[]);
    }
  }

  lemma DrainActiveKeeps(k: Law, s: State)
    requires s.ctx.active == Some(map[])
    requires k.tame ==> FramesOk(s.stack) && TameChain(s.pendingNext)
    requires k.orders ==> LooseCursor(s.ctx)
    ensures StateOk(k, DrainActive(s))
  {
    if k.tame { DrainActiveExact(s); }
  }

  lemma ActiveFromTurnKeeps(k: Law, game: Game, m: Machine)
    requires GameOk(k, game) && Inv(k, m)
    ensures Evolves(k, m, ApplyActiveFromTurn(game, m))
  {
    ScopeTurnOk(k, game, m.st.ctx.phase);
    var turn := game.ScopeTurn(m.st.ctx.phase);
    if turn.Some? && turn.value.active.Some? { InstallKeeps(k, m.st, turn.value.active.value); }
  }

  lemma EnterStageKeeps(k: Law, game: Game, m: Machine, pid: Pid, stage: string)
    requires GameOk(k, game) && Inv(k, m)
    ensures Evolves(k, m, EnterStage(game, m, pid, stage))
  {
    var seats := if m.st.ctx.active.None? then map[] else m.st.ctx.active.value;
    assert pid in seats[pid := stage];
    var s := m.st.(ctx := m.st.ctx.(active := Some(seats[pid := stage])), counts := Without(m.st.counts, pid));
    LookupStageOk(k, game, s.ctx.phase, stage);
    var config := game.LookupStage(s.ctx.phase, stage);
    if config.Some? { RunHookKeeps(k, config.value.onBegin, m.(st := s), pid); }
  }

  lemma DepartedKeeps(k: Law, s: State, pid: Pid)
    requires StateOk(k, s) && s.ctx.active.Some?
    ensures StateOk(k, Departed(s, pid))
  {
    var left := Leave(s, pid);
    if left.ctx.active == Some(map[]) { DrainActiveKeeps(k, left); }
  }

  lemma EndedStageKeeps(k: Law, game: Game, m: Machine, pid: Pid)
    requires GameOk(k, game) && Inv(k, m)
    ensures Evolves(k, m, EndedStage(game, m, pid))
  {
    var stage := StageOf(m.st.ctx, pid);
    LookupStageOk(k, game, m.st.ctx.phase, stage);
    var config := game.LookupStage(m.st.ctx.phase, stage);
    if config.Some? { RunHookKeeps(k, config.value.onEnd, m, pid); }
  }

  lemma LeaveStageKeeps(k: Law, game: Game, m: Machine, pid: Pid)
    requires GameOk(k, game) && Inv(k, m)
    ensures Evolves(k, m, LeaveStage(game, m, pid))
  {
    hide GameOk, EnterStage, EndedStage;
    if m.st.ctx.active.Some? {
      var ended := EndedStage(game, m, pid);
      EndedStageKeeps(k, game, m, pid);
      var next := game.NextStage(m.st.ctx.phase, StageOf(m.st.ctx, pid));
      if next != "" {
        EnterStageKeeps(k, game, ended, pid, next);
        Chain(k, m, ended, EnterStage(game, ended, pid, next));
      } else {
        DepartedKeeps(k, ended.st, pid);
      }
    }
  }

  // ---- turns and phases -------------------------------------------------------------------------------------

  lemma NextPosOk(k: Law, game: Game, turn: Option<Turn>, m: Machine)
    requires turn.Some? ==> TurnOk(k, turn.value)
    requires Inv(k, m) && m.st.ctx.playOrder != []
    ensures k.orders ==>
      var (answer, divides) := NextPos(EffectiveOrder(turn), m.st.ctx, Input(m, ""));
      !divides && (answer.choice.Some? ==> 0 <= answer.choice.value)
  {
  }

  lemma SeatKeeps(k: Law, m: Machine, n: int)
    requires Inv(k, m) && m.st.ctx.playOrder != [] && (k.orders ==> 0 <= n)
    ensures Evolves(k, m, Seat(m, n))
  {
  }

  lemma AdvanceKeeps(k: Law, game: Game, m: Machine, turn: Option<Turn>)
    requires GameOk(k, game) && Inv(k, m) && (turn.Some? ==> TurnOk(k, turn.value))
    ensures Evolves(k, m, Advance(game, m, turn))
    decreases if m.st.ctx.phase == "" then 1 else 3
  {
    if m.st.ctx.playOrder != [] {
      NextPosOk(k, game, turn, m);
      var (answer, divides) := NextPos(EffectiveOrder(turn), m.st.ctx, Input(m, ""));
      var asked := m.(env := m.env.(api := answer.api), panicked := m.panicked || divides);
      if answer.choice.None? { LeavePhaseKeeps(k, game, asked, ""); } else { SeatKeeps(k, asked, answer.choice.value); }
    }
  }

  lemma SeatFirstKeeps(k: Law, game: Game, m: Machine)
    requires GameOk(k, game) && Inv(k, m)
    ensures Evolves(k, m, SeatFirst(game, m))
  {
    ScopeTurnOk(k, game, m.st.ctx.phase);
    var r := SeatFirst(game, m);
    assert r.st.stack == m.st.stack && r.st.pendingNext == m.st.pendingNext && r.st.ctx.active == m.st.ctx.active;
    assert r.env.events == m.env.events && r.st.snapshots == m.st.snapshots;
  }

  lemma EnterPhaseKeeps(k: Law, game: Game, m: Machine)
    requires GameOk(k, game) && Inv(k, m)
    ensures Evolves(k, m, EnterPhase(game, m))
  {
    var seated := SeatFirst(game, m);
    SeatFirstKeeps(k, game, m);
    var active := ApplyActiveFromTurn(game, seated);
    ActiveFromTurnKeeps(k, game, seated);
    Chain(k, m, seated, active);
    var begun := RunPhaseOnBegin(game, active);
    PhaseOnBeginKeeps(k, game, active);
    Chain(k, m, active, begun);
    TurnOnBeginKeeps(k, game, begun);
    Chain(k, m, begun, RunTurnOnBegin(game, begun));
  }

  /** A turn begins over a wiped undo stack. */
  lemma BeginTurnKeeps(k: Law, game: Game, m: Machine)
    requires GameOk(k, game) && Inv(k, m) && m.st.snapshots == []
    ensures Evolves(k, m, BeginTurn(game, m))
  {
    hide GameOk, ApplyActiveFromTurn, RunTurnOnBegin;
    var counted := m.(st := m.st.(ctx := m.st.ctx.(turn := m.st.ctx.turn + 1)));
    assert Evolves(k, m, counted);
    var active := ApplyActiveFromTurn(game, counted);
    ActiveFromTurnKeeps(k, game, counted);
    Chain(k, m, counted, active);
    TurnOnBeginKeeps(k, game, active);
    Chain(k, m, active, RunTurnOnBegin(game, active));
  }

  lemma EndedPhaseKeeps(k: Law, game: Game, m: Machine, nextPhase: string)
    requires GameOk(k, game) && Inv(k, m) && m.st.ctx.phase in game.phases
    ensures Evolves(k, m, EndedPhase(game, m, nextPhase))
  {
    var phase := m.st.ctx.phase;
    var turnEnded := RunTurnOnEnd(game, m);
    TurnOnEndKeeps(k, game, m);
    var answer := game.phases[phase].next(Input(turnEnded, ""));
    var asked := if nextPhase != "" then turnEnded else turnEnded.(env := turnEnded.env.(api := answer.api));
    assert Evolves(k, m, asked);
    var ended := RunHook(game.phases[phase].onEnd, asked, "");
    RunHookKeeps(k, game.phases[phase].onEnd, asked, "");
    Chain(k, m, asked, ended);
  }

  lemma LeavePhaseKeeps(k: Law, game: Game, m: Machine, nextPhase: string)
    requires GameOk(k, game) && Inv(k, m)
    ensures Evolves(k, m, LeavePhase(game, m, nextPhase))
    decreases if m.st.ctx.phase == "" then 0 else 2
  {
    hide GameOk, Inv, EnterPhase, EndedPhase, Advance, RunTurnOnBegin, ApplyActiveFromTurn;
    var phase := m.st.ctx.phase;
    if phase == "" {
      if nextPhase != "" {
        var entered := m.(st := m.st.(ctx := m.st.ctx.(phase := nextPhase)));
        PhaseNamed(k, m, nextPhase);
        EnterPhaseKeeps(k, game, entered);
        Chain(k, m, entered, EnterPhase(game, entered));
      }
    } else if phase in game.phases {
      EndedPhaseKeeps(k, game, m, nextPhase);
      LeftPhaseKeeps(k, game, m, EndedPhase(game, m, nextPhase));
    }
  }

  lemma PhaseNamed(k: Law, m: Machine, phase: string)
    requires Inv(k, m)
    ensures Evolves(k, m, m.(st := m.st.(ctx := m.st.ctx.(phase := phase))))
  {
  }

  /** The second half of endPhase. */
  lemma LeftPhaseKeeps(k: Law, game: Game, m: Machine, moved: Machine)
    requires GameOk(k, game) && Evolves(k, m, moved) && m.st.log <= moved.st.log
    ensures moved.st.ctx.phase != "" ==> Evolves(k, m, EnterPhase(game, moved))
    ensures moved.st.ctx.phase == "" ==>
      Evolves(k, m, RunTurnOnBegin(game, ApplyActiveFromTurn(game, Advance(game, moved, game.turn))))
    decreases 2, 0
  {
    if moved.st.ctx.phase == "" {
      var advanced := Advance(game, moved, game.turn);
      AdvanceKeeps(k, game, moved, game.turn);
      Chain(k, m, moved, advanced);
      var active := ApplyActiveFromTurn(game, advanced);
      ActiveFromTurnKeeps(k, game, advanced);
      Chain(k, m, advanced, active);
      TurnOnBeginKeeps(k, game, active);
      Chain(k, m, active, RunTurnOnBegin(game, active));
    } else {
      EnterPhaseKeeps(k, game, moved);
      Chain(k, m, moved, EnterPhase(game, moved));
    }
  }

  lemma EndedTurnKeeps(k: Law, game: Game, m: Machine)
    requires GameOk(k, game) && Inv(k, m)
    ensures Carries(k, m, EndedTurn(game, m))
  {
    TurnOnEndKeeps(k, game, m);
  }

  lemma ForcePlayerKeeps(k: Law, m: Machine, pid: Pid)
    requires Inv(k, m)
    ensures Evolves(k, m, ForcePlayer(m, pid))
  {
  }

  /** From the wiped stack to the end of endTurn: a new turn has begun, or the game was over. */
  lemma TurnEndKeeps(k: Law, m: Machine, wiped: Machine, r: Machine)
    requires Carries(k, m, wiped) && wiped.st.snapshots == [] && wiped.st.undone == [] && Evolves(k, wiped, r)
    requires m.st.log <= wiped.st.log <= r.st.log
    requires wiped.st.ctx.turn == m.st.ctx.turn && wiped.st.ctx.gameover == m.st.ctx.gameover
    requires r.st.ctx.turn > m.st.ctx.turn || r.st.ctx.gameover.Some?
    ensures Evolves(k, m, r)
  {
  }

  lemma FinishTurnKeeps(k: Law, game: Game, m: Machine, next: Pid)
    requires GameOk(k, game) && Inv(k, m)
    ensures Evolves(k, m, FinishTurn(game, m, next))
  {
    hide Inv, GameOk, EndedTurn, Advance, BeginTurn;
    var wiped := EndedTurn(game, m);
    EndedTurnKeeps(k, game, m);
    WipedStack(game, m);
    if next != "" {
      var forced := ForcePlayer(wiped, next);
      ForcePlayerKeeps(k, wiped, next);
      BeginTurnKeeps(k, game, forced);
      Chain(k, wiped, forced, BeginTurn(game, forced));
      TurnEndKeeps(k, m, wiped, BeginTurn(game, forced));
    } else {
      ScopeTurnOk(k, game, m.st.ctx.phase);
      var advanced := Advance(game, wiped, game.ScopeTurn(m.st.ctx.phase));
      AdvanceKeeps(k, game, wiped, game.ScopeTurn(m.st.ctx.phase));
      if advanced.st.ctx.gameover.None? {
        BeginTurnKeeps(k, game, advanced);
        Chain(k, wiped, advanced, BeginTurn(game, advanced));
        TurnEndKeeps(k, m, wiped, BeginTurn(game, advanced));
      } else {
        TurnEndKeeps(k, m, wiped, advanced);
      }
    }
  }

  lemma WipedStack(game: Game, m: Machine)
    ensures EndedTurn(game, m).st.snapshots == [] && EndedTurn(game, m).st.undone == []
  {
  }

  /** Unseating a player points the cursor and the current player at the same seat, even if they were apart before. */
  lemma UnseatKeeps(ctx: Ctx, idx: int)
    requires 0 <= idx < |ctx.playOrder| && SeatedOk(ctx)
    ensures CursorOk(Unseat(ctx, idx)) && 0 <= Unseat(ctx, idx).pos
    ensures idx != ctx.pos ==> Unseat(ctx, idx).currentPlayer == ctx.playOrder[ctx.pos]
  {
    assert Unseat(ctx, idx).playOrder == ctx.playOrder[..idx] + ctx.playOrder[idx + 1..];
  }

  lemma UnseatedKeeps(k: Law, m: Machine, idx: int)
    requires Inv(k, m) && 0 <= idx < |m.st.ctx.playOrder|
    ensures Evolves(k, m, Unseated(m, idx))
  {
    if k.orders { UnseatKeeps(m.st.ctx, idx); }
  }

  lemma StruckKeeps(k: Law, m: Machine, pid: Pid)
    requires Inv(k, m)
    ensures Evolves(k, m, m.(st := Struck(m.st, pid)))
  {
  }

  lemma EliminateKeeps(k: Law, game: Game, m: Machine, pid: Pid)
    requires GameOk(k, game) && Inv(k, m)
    ensures Evolves(k, m, Eliminate(game, m, pid))
  {
    var idx := IndexOf(m.st.ctx.playOrder, pid);
    if idx >= 0 {
      var unseated := Unseated(m, idx);
      UnseatedKeeps(k, m, idx);
      if unseated.st.ctx.playOrder != [] {
        hide GameOk, Inv, Unseated, FinishTurn, Struck;
        var rotated := if m.st.ctx.currentPlayer == pid then FinishTurn(game, unseated, "") else unseated;
        if m.st.ctx.currentPlayer == pid {
          FinishTurnKeeps(k, game, unseated, "");
          Chain(k, m, unseated, rotated);
        }
        StruckKeeps(k, rotated, pid);
        Chain(k, m, rotated, rotated.(st := Struck(rotated.st, pid)));
      }
    }
  }

  // ---- events -----------------------------------------------------------------------------------------------

  lemma RunChainedKeeps(k: Law, game: Game, m: Machine, pid: Pid, name: string, args: seq<Value>)
    requires GameOk(k, game) && Inv(k, m) && !k.unchained
    ensures Evolves(k, m, RunChained(game, m, pid, name, args))
  {
    ScopeMovesOk(k, game, m.st.ctx.phase);
    hide GameOk;
    var table := game.ScopeMoves(m.st.ctx.phase);
    if name in table && table[name].Playable? {
      var o := table[name].m.raw(Input(m, pid), args);
      assert OutOk(k, o.out);
      AbsorbOk(k, m.env, o.out);
      NotedOk(k, o.out, m.st.ctx);
    }
  }

  lemma HandleKeeps(k: Law, game: Game, d: Drain, ev: Event)
    requires GameOk(k, game) && Inv(k, d.m) && EventOk(k, ev)
    ensures Evolves(k, d.m, Handle(game, d, ev).m)
  {
    hide FinishTurn, LeavePhase, LeaveStage, EnterStage, Install, Eliminate, RunChained;
    match ev
    case EndTurn(next) => FinishTurnKeeps(k, game, d.m, next);
    case EndPhase => LeavePhaseKeeps(k, game, d.m, "");
    case SetPhase(phase) => LeavePhaseKeeps(k, game, d.m, phase);
    case EndStage => LeaveStageKeeps(k, game, d.m, d.pid);
    case SetStage(stage) => EnterStageKeeps(k, game, d.m, d.pid, stage);
    case SetStageLong(stage, min, max) => EnterStageKeeps(k, game, d.m, d.pid, stage);
    case EndGame(result) =>
      var over := d.m.(st := d.m.st.(ctx := d.m.st.ctx.(gameover := result)));
      RunHookKeeps(k, game.onEnd, over, "");
    case SetActivePlayers(cfg) => InstallKeeps(k, d.m.st, cfg);
    case RemovePlayer(pid) => EliminateKeeps(k, game, d.m, pid);
    case RunMove(name, args) => RunChainedKeeps(k, game, d.m, d.pid, name, args);
  }

  lemma {:induction false} HandleAllKeeps(k: Law, game: Game, d: Drain, batch: seq<Event>)
    requires GameOk(k, game) && Inv(k, d.m) && EventsOk(k, batch)
    ensures Evolves(k, d.m, HandleAll(game, d, batch).m)
    decreases |batch|
  {
    if batch != [] {
      var first := Handle(game, d, batch[0]);
      HandleKeeps(k, game, d, batch[0]);
      HandleAllKeeps(k, game, first, batch[1..]);
      Chain(k, d.m, first.m, HandleAll(game, first, batch[1..]).m);
    }
  }

  /** An event drain of any length keeps what the game's law promises. */
  lemma {:induction false} DrainEventsKeeps(k: Law, game: Game, d: Drain, rounds: nat)
    requires GameOk(k, game) && Inv(k, d.m) && DrainEvents(game, d, rounds).Some?
    ensures Evolves(k, d.m, DrainEvents(game, d, rounds).value.m)
    decreases rounds
  {
    hide HandleAll, GameOk;
    var batch := d.m.env.events;
    if batch != [] && !d.m.panicked {
      var taken := d.(m := d.m.(env := d.m.env.(events := [])));
      assert Evolves(k, d.m, taken.m);
      var handled := HandleAll(game, taken, batch);
      HandleAllKeeps(k, game, taken, batch);
      Chain(k, d.m, taken.m, handled.m);
      DrainEventsKeeps(k, game, handled, rounds - 1);
      Chain(k, d.m, handled.m, DrainEvents(game, handled, rounds - 1).value.m);
    }
  }
}
