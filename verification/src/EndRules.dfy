/**
 What ends a turn, a phase or the game after an accepted move: Turn.MaxMoves, the EndIf predicates, and a queued EndTurn
 against Turn.MinMoves. The theorems speak of the state before and after the move, for every game whose hooks queue no events
 and push no moves.
 */
module EndRules {
  import opened Engine
  import opened Transitions
  import opened Reducer
  import opened Laws
  import opened TurnRotation
  import opened UndoRedo

  // ---- calm games -------------------------------------------------------------------------------------------

  /** Game code that queues no event and pushes no move. */
  ghost predicate Calm(o: HookOut) {
    o.events == [] && o.pushes == []
  }

  ghost predicate CalmHook(h: Option<Hook>) {
    h.Some? ==> forall i :: Calm(h.value(i))
  }

  ghost predicate CalmTurn(t: Option<Turn>) {
    t.Some? ==>
      && CalmHook(t.value.onBegin) && CalmHook(t.value.onEnd) && CalmHook(t.value.onMove)
      && (t.value.endIf.Some? ==> forall i :: Calm(t.value.endIf.value(i).out))
  }

  ghost predicate CalmPhase(p: Phase) {
    CalmHook(p.onBegin) && CalmHook(p.onEnd) && CalmTurn(p.turn) && (p.endIf.Some? ==> forall i :: Calm(p.endIf.value(i).out))
  }

  /** No hook and no EndIf predicate of the game queues an event or pushes a move. */
  ghost predicate CalmGame(game: Game) {
    && CalmTurn(game.turn) && CalmHook(game.onEnd) && (forall n | n in game.phases :: CalmPhase(game.phases[n]))
    && (game.endIf.Some? ==> forall i :: Calm(game.endIf.value(i).out))
  }

  /** A move that queues just these events. */
  ghost predicate Queues(m: Move, events: seq<Event>) {
    forall i, args :: m.run(i, args).out.events == events && m.run(i, args).out.pushes == []
  }

  lemma CalmScope(game: Game, phase: string)
    requires CalmGame(game)
    ensures CalmTurn(game.ScopeTurn(phase))
  {
  }

  // ---- what the hooks are asked -----------------------------------------------------------------------------

  /** The context right after the move was counted. */
  function CountedCtx(s: State, req: Request, move: Move): Ctx {
    s.ctx.(nowMs := req.nowMs, numMoves := if move.noLimit then s.ctx.numMoves else s.ctx.numMoves + 1)
  }

  /** The two contexts agree but for the active set. */
  predicate SameCtx(a: Ctx, b: Ctx) {
    a.(active := None) == b.(active := None)
  }

  /** Game.EndIf, asked by the player who moved and in this context, answers so. */
  ghost predicate GameAnswers(game: Game, ctx: Ctx, pid: Pid, v: Option<Value>) {
    if game.endIf.None? then v.None?
    else forall i: HookIn | SameCtx(i.ctx, ctx) && i.pid == pid :: game.endIf.value(i).verdict == v
  }

  /** The phase's EndIf, asked in this context, answers so. */
  ghost predicate PhaseAnswers(game: Game, ctx: Ctx, v: (bool, string)) {
    if ctx.phase == "" || ctx.phase !in game.phases || game.phases[ctx.phase].endIf.None? then v == (false, "")
    else forall i: HookIn | SameCtx(i.ctx, ctx) :: game.phases[ctx.phase].endIf.value(i).verdict == v
  }

  /** The turn's EndIf, asked in this context, answers so. */
  ghost predicate TurnAnswers(game: Game, ctx: Ctx, v: (bool, Pid)) {
    var turn := game.ScopeTurn(ctx.phase);
    if turn.None? || turn.value.endIf.None? then v == (false, "")
    else forall i: HookIn | SameCtx(i.ctx, ctx) :: turn.value.endIf.value(i).verdict == v
  }

  /** A turn's limit on counting moves. */
  function MaxMoves(game: Game, phase: string): int {
    if game.ScopeTurn(phase).None? then 0 else game.ScopeTurn(phase).value.maxMoves
  }

  function MinMoves(game: Game, phase: string): int {
    if game.ScopeTurn(phase).None? then 0 else game.ScopeTurn(phase).value.minMoves
  }

  /** The turn is over: the named player's, or the next seat's, has begun. */
  function TurnOver(ctx: Ctx, next: Pid): Ctx
    requires ctx.playOrder != []
  {
    var pos := if next == "" then (ctx.pos + 1) % |ctx.playOrder|
               else if next in ctx.playOrder then IndexOf(ctx.playOrder, next) else ctx.pos;
    ctx.(turn := ctx.turn + 1, numMoves := 0, pos := pos,
         currentPlayer := if next != "" then next else if 0 <= pos < |ctx.playOrder| then ctx.playOrder[pos] else "")
  }

  // ---- the steps of a move ----------------------------------------------------------------------------------

  /** Quiet queues: nothing to drain and nothing to run. */
  predicate Still(m: Machine) {
    m.env.events == [] && m.env.pending == [] && !m.panicked
  }

  lemma HookStill(h: Option<Hook>, m: Machine, pid: Pid)
    requires CalmHook(h)
    ensures
      var r := RunHook(h, m, pid);
      && r.env.events == m.env.events && r.env.pending == m.env.pending && r.panicked == m.panicked
      && r.st.ctx == m.st.ctx && r.st.queue == m.st.queue
  {
  }

  lemma BeginStill(game: Game, m: Machine)
    requires CalmGame(game) && Still(m)
    ensures
      var r := BeginTurn(game, m);
      Still(r) && SameCtx(r.st.ctx, m.st.ctx.(turn := m.st.ctx.turn + 1)) && r.st.queue == m.st.queue
  {
    CalmScope(game, m.st.ctx.phase);
    var counted := m.(st := m.st.(ctx := m.st.ctx.(turn := m.st.ctx.turn + 1)));
    var turn := game.ScopeTurn(m.st.ctx.phase);
    if turn.Some? { HookStill(turn.value.onBegin, ApplyActiveFromTurn(game, counted), ""); }
  }

  /** endTurn in a calm game whose order goes round. */
  lemma FinishStill(game: Game, m: Machine, next: Pid)
    requires CalmGame(game) && Still(m) && CursorOk(m.st.ctx) && m.st.ctx.playOrder != [] && m.st.ctx.gameover.None?
    requires game.ScopeTurn(m.st.ctx.phase).Some? ==> RoundRobin(game.ScopeTurn(m.st.ctx.phase).value.order)
    ensures
      var r := FinishTurn(game, m, next);
      Still(r) && SameCtx(r.st.ctx, TurnOver(m.st.ctx, next)) && r.st.queue == m.st.queue
  {
    hide BeginTurn, Advance, NextPos;
    CalmScope(game, m.st.ctx.phase);
    var turn := game.ScopeTurn(m.st.ctx.phase);
    if turn.Some? { HookStill(turn.value.onEnd, m, ""); }
    var wiped := EndedTurn(game, m);
    if next == "" {
      RoundRobinRotates(game, wiped, turn);
      AdvanceStill(game, wiped, turn);
      BeginStill(game, Advance(game, wiped, turn));
    } else {
      BeginStill(game, ForcePlayer(wiped, next));
    }
  }

  /** A round-robin order asks nobody and moves nothing but the cursor. */
  lemma AdvanceStill(game: Game, m: Machine, turn: Option<Turn>)
    requires CursorOk(m.st.ctx) && m.st.ctx.playOrder != [] && (turn.Some? ==> RoundRobin(turn.value.order))
    ensures
      var r := Advance(game, m, turn);
      && r.env == m.env && r.panicked == m.panicked && r.st.queue == m.st.queue
      && r.st.ctx == m.st.ctx.(pos := r.st.ctx.pos, currentPlayer := r.st.ctx.currentPlayer)
  {
    hide LeavePhase;
    GoModNat(m.st.ctx.pos + 1, |m.st.ctx.playOrder|);
    GoModNat(m.st.ctx.pos + 1, m.st.ctx.numPlayers);
  }

  lemma GoModNat(a: int, b: int)
    requires a >= 0 && b > 0
    ensures 0 <= GoMod(a, b) < b
  {
  }

  /** The four checks when neither the game's nor the phase's EndIf fires. */
  lemma ChecksStill(game: Game, m: Machine, pid: Pid, move: Move, v: (bool, Pid))
    requires CalmGame(game) && Still(m) && CursorOk(m.st.ctx) && m.st.ctx.playOrder != [] && m.st.ctx.gameover.None?
    requires game.ScopeTurn(m.st.ctx.phase).Some? ==> RoundRobin(game.ScopeTurn(m.st.ctx.phase).value.order)
    requires GameAnswers(game, m.st.ctx, pid, None) && PhaseAnswers(game, m.st.ctx, (false, ""))
    requires TurnAnswers(game, m.st.ctx, v)
    ensures
      var r, max := CheckEnds(game, m, pid, move), MaxMoves(game, m.st.ctx.phase);
      var limit := max > 0 && !move.noLimit && m.st.ctx.numMoves >= max;
      && Still(r) && r.st.queue == m.st.queue
      && SameCtx(r.st.ctx, if v.0 then TurnOver(m.st.ctx, v.1) else if limit then TurnOver(m.st.ctx, "") else m.st.ctx)
  {
    hide FinishTurn, CheckGameEnd, CheckPhaseEnd, AutoEnd, GameAnswers, PhaseAnswers, CalmGame;
    var ended := CheckGameEnd(game, m, pid);
    GameGoesOn(game, m, pid);
    var phased := CheckPhaseEnd(game, ended);
    PhaseGoesOn(game, ended);
    var auto := phased.(st := AutoEnd(phased.st));
    CalmScope(game, auto.st.ctx.phase);
    var turn := game.ScopeTurn(auto.st.ctx.phase);
    if turn.Some? {
      var (asked, next) := TurnVerdict(turn.value, auto, move);
      if next.Some? { FinishStill(game, asked, next.value); }
    }
  }

  lemma GameGoesOn(game: Game, m: Machine, pid: Pid)
    requires CalmGame(game) && Still(m) && GameAnswers(game, m.st.ctx, pid, None) && m.st.ctx.gameover.None?
    ensures CheckGameEnd(game, m, pid).st == m.st && Still(CheckGameEnd(game, m, pid))
  {
  }

  lemma PhaseGoesOn(game: Game, m: Machine)
    requires CalmGame(game) && Still(m) && PhaseAnswers(game, m.st.ctx, (false, ""))
    ensures CheckPhaseEnd(game, m).st == m.st && Still(CheckPhaseEnd(game, m))
  {
    hide LeavePhase;
    var phase := m.st.ctx.phase;
    if phase != "" && phase in game.phases { assert CalmPhase(game.phases[phase]); }
  }

  // ---- the whole move ---------------------------------------------------------------------------------------

  /** The machine a calm move leaves once it is counted, its own events still queued. */
  lemma CountedStill(game: Game, s: State, req: Request, events: seq<Event>)
    requires CalmGame(game) && Admit(game, s, req).Admitted? && PlayMove(game, Admit(game, s, req), req).Done?
    requires Queues(Admit(game, s, req).move, events)
    ensures
      var a := Admit(game, s, req);
      var d := CountMove(game, a, PlayMove(game, a, req).value, req).d;
      && d.m.env.events == events && d.m.env.pending == [] && !d.m.panicked && d.pid == req.pid && d.chained == 0
      && d.m.st.queue == s.queue && d.m.st.ctx == CountedCtx(s, req, a.move)
  {
    hide Admit, PlayMove, CountMove, CalmGame;
    var a := Admit(game, s, req);
    AdmittedState(game, s, req);
    CalmScope(game, s.ctx.phase);
    PlayedStill(game, a, req, events);
    CountedEnv(game, a, PlayMove(game, a, req).value, req);
  }

  lemma PlayedStill(game: Game, a: Admission, req: Request, events: seq<Event>)
    requires a.Admitted? && PlayMove(game, a, req).Done? && Queues(a.move, events)
    ensures
      var p := PlayMove(game, a, req).value;
      p.env.events == events && p.env.pending == [] && p.st.ctx == a.st.ctx && p.st.queue == a.st.queue
  {
  }

  lemma CountedEnv(game: Game, a: Admission, p: Played, req: Request)
    requires a.Admitted? && CalmTurn(game.ScopeTurn(p.st.ctx.phase))
    ensures
      var d := CountMove(game, a, p, req).d;
      && d.m.env.events == p.env.events && d.m.env.pending == p.env.pending
      && d.m.st.ctx.numMoves == p.st.ctx.numMoves + (if a.move.noLimit then 0 else 1)
      && d.m.st.queue == p.st.queue
  {
    var turn := game.ScopeTurn(p.st.ctx.phase);
    var hook := if turn.None? then None else turn.value.onMove;
    if hook.Some? {
      assert Calm(hook.value(HookIn(p.st.g, p.st.ctx, req.pid, a.resuming, p.env.raised, p.env.api)));
    }
  }

  lemma BumpCtx(s: State, pid: Pid)
    ensures Bump(s, pid) == s.(counts := Bump(s, pid).counts)
  {
  }

  /** From the end of both drains on: with nothing queued the move is over. */
  lemma Settled(game: Game, r: Running, move: Move, first: Drain, rounds: nat)
    requires DrainEvents(game, r.d, rounds) == Some(first) && Still(CheckEnds(game, first.m, r.d.pid, move))
    requires CheckEnds(game, first.m, r.d.pid, move).st.queue == []
    ensures
      var out := Settle(game, r, move, rounds);
      && out.Done? && out.value.st.ctx == CheckEnds(game, first.m, r.d.pid, move).st.ctx
      && out.value.st.g == CheckEnds(game, first.m, r.d.pid, move).st.g
      && Cascade(game, out.value.st, out.value.env, 0, rounds).Done?
      && forall parent: int ::
           var t := Cascade(game, out.value.st, out.value.env, parent, rounds);
           t.Done? && t.value.ctx == out.value.st.ctx && t.value.g == out.value.st.g
  {
    hide CheckEnds, WithoutBlocksFor;
    var checked := CheckEnds(game, first.m, r.d.pid, move);
    assert DrainEvents(game, first.(m := checked), rounds) == Some(first.(m := checked));
  }

  /** Both EndIf predicates above the turn's stay silent, and the turn order goes round. */
  ghost predicate Ordinary(game: Game, s: State, req: Request, move: Move) {
    var ctx := CountedCtx(s, req, move);
    && CalmGame(game) && s.queue == [] && CursorOk(s.ctx) && s.ctx.playOrder != []
    && (game.ScopeTurn(s.ctx.phase).Some? ==> RoundRobin(game.ScopeTurn(s.ctx.phase).value.order))
    && GameAnswers(game, ctx, req.pid, None) && PhaseAnswers(game, ctx, (false, ""))
  }

  /** Whether a counting move has used up its turn. */
  predicate UsedUp(game: Game, s: State, move: Move) {
    var max := MaxMoves(game, s.ctx.phase);
    max > 0 && !move.noLimit && s.ctx.numMoves + 1 >= max
  }

  /**
   An accepted move that queues nothing. Its turn is over exactly when the turn's EndIf says so, and then the player it names
   is on turn, or else when the move is a counting one and the last that MaxMoves allows, and then the next seat is. Otherwise
   the turn goes on, with one more counting move made.
   */
  lemma MoveEndsTurn(game: Game, s: State, req: Request, rounds: nat, v: (bool, Pid))
    requires Apply(game, s, req, rounds).Done? && Admit(game, s, req).Admitted?
    requires
      var move := Admit(game, s, req).move;
      Ordinary(game, s, req, move) && Queues(move, []) && TurnAnswers(game, CountedCtx(s, req, move), v)
    ensures
      var t, move := Apply(game, s, req, rounds).value, Admit(game, s, req).move;
      var ctx := CountedCtx(s, req, move);
      SameCtx(t.ctx, if v.0 then TurnOver(ctx, v.1) else if UsedUp(game, s, move) then TurnOver(ctx, "") else ctx)
  {
    hide Admit, PlayMove, CountMove, Settle, Cascade, CheckEnds, CalmGame, GameAnswers, PhaseAnswers, TurnAnswers, TurnOver;
    var a := Admit(game, s, req);
    AdmittedState(game, s, req);
    CountedStill(game, s, req, []);
    var r := CountMove(game, a, PlayMove(game, a, req).value, req);
    ChecksStill(game, r.d.m, req.pid, a.move, v);
    assert DrainEvents(game, r.d, rounds) == Some(r.d);
    Settled(game, r, a.move, r.d, rounds);
  }

  /** Such a move always finishes: once its function has run there is nothing left to refuse it. */
  lemma CalmMoveIsDone(game: Game, s: State, req: Request, rounds: nat, v: (bool, Pid))
    requires Admit(game, s, req).Admitted? && PlayMove(game, Admit(game, s, req), req).Done?
    requires
      var move := Admit(game, s, req).move;
      Ordinary(game, s, req, move) && Queues(move, []) && TurnAnswers(game, CountedCtx(s, req, move), v)
    ensures Apply(game, s, req, rounds).Done?
  {
    hide Admit, PlayMove, CountMove, Settle, Cascade, CheckEnds, CalmGame, GameAnswers, PhaseAnswers, TurnAnswers, TurnOver;
    var a := Admit(game, s, req);
    AdmittedState(game, s, req);
    CountedStill(game, s, req, []);
    var r := CountMove(game, a, PlayMove(game, a, req).value, req);
    ChecksStill(game, r.d.m, req.pid, a.move, v);
    assert DrainEvents(game, r.d, rounds) == Some(r.d);
    Settled(game, r, a.move, r.d, rounds);
  }

  // ---- a queued EndTurn -------------------------------------------------------------------------------------

  /** No EndIf predicate anywhere. */
  predicate Unasked(game: Game, phase: string) {
    && game.endIf.None? && (phase == "" || phase !in game.phases || game.phases[phase].endIf.None?)
    && (game.ScopeTurn(phase).None? || game.ScopeTurn(phase).value.endIf.None?)
  }

  lemma UnaskedAnswers(game: Game, ctx: Ctx, pid: Pid)
    requires Unasked(game, ctx.phase)
    ensures GameAnswers(game, ctx, pid, None) && PhaseAnswers(game, ctx, (false, "")) && TurnAnswers(game, ctx, (false, ""))
  {
  }

  /**
   A move that queues EndTurn(next) and nothing else, in a game without EndIf predicates. The turn is over exactly when enough
   counting moves have been made, with the named player next, or else when the limit is reached, with the next seat. Short of
   MinMoves the event is dropped.
   */
  lemma QueuedEndTurn(game: Game, s: State, req: Request, rounds: nat, next: Pid)
    requires rounds >= 1 && Apply(game, s, req, rounds).Done? && Admit(game, s, req).Admitted?
    requires
      var move := Admit(game, s, req).move;
      Ordinary(game, s, req, move) && Queues(move, [EndTurn(next)]) && Unasked(game, s.ctx.phase)
    ensures
      var t, move := Apply(game, s, req, rounds).value, Admit(game, s, req).move;
      var ctx, min := CountedCtx(s, req, move), MinMoves(game, s.ctx.phase);
      var early := min > 0 && ctx.numMoves < min;
      SameCtx(t.ctx, if !early then TurnOver(ctx, next) else if UsedUp(game, s, move) then TurnOver(ctx, "") else ctx)
  {
    hide Admit, PlayMove, CountMove, Settle, Cascade, CheckEnds, CalmGame, GameAnswers, PhaseAnswers, TurnAnswers, TurnOver,
         FinishTurn;
    var a := Admit(game, s, req);
    AdmittedState(game, s, req);
    CountedStill(game, s, req, [EndTurn(next)]);
    var r := CountMove(game, a, PlayMove(game, a, req).value, req);
    var taken := r.d.(m := r.d.m.(env := r.d.m.env.(events := [])));
    var d := Handle(game, taken, EndTurn(next));
    UnaskedAnswers(game, r.d.m.st.ctx, req.pid);
    FinishStill(game, taken.m, next);
    DrainsOne(game, r.d, EndTurn(next), rounds);
    OverCtx(r.d.m.st.ctx, next);
    if d.m == taken.m {
      ChecksStill(game, taken.m, req.pid, a.move, (false, ""));
    } else {
      UnaskedAnswers(game, d.m.st.ctx, req.pid);
      OnceMore(game, d.m, req.pid, a.move);
    }
    Settled(game, r, a.move, d, rounds);
  }

  lemma DrainsOne(game: Game, d: Drain, ev: Event, rounds: nat)
    requires rounds >= 1 && d.m.env.events == [ev] && !d.m.panicked
    requires Still(Handle(game, d.(m := d.m.(env := d.m.env.(events := []))), ev).m)
    ensures DrainEvents(game, d, rounds) == Some(Handle(game, d.(m := d.m.(env := d.m.env.(events := []))), ev))
  {
    hide Handle;
    var taken := d.(m := d.m.(env := d.m.env.(events := [])));
    assert [ev][1..] == [];
    assert HandleAll(game, taken, [ev]) == Handle(game, taken, ev);
  }

  /** A turn that has only begun is in its phase still, and no limit is reached. */
  lemma OverCtx(ctx: Ctx, next: Pid)
    requires ctx.playOrder != []
    ensures TurnOver(ctx, next).phase == ctx.phase && TurnOver(ctx, next).numMoves == 0
    ensures TurnOver(ctx, next).gameover == ctx.gameover
  {
  }

  /** Nothing ends a turn that has just begun in a game without EndIf predicates. */
  lemma OnceMore(game: Game, m: Machine, pid: Pid, move: Move)
    requires Still(m) && m.st.ctx.gameover.None? && m.st.ctx.numMoves == 0 && Unasked(game, m.st.ctx.phase)
    ensures
      var r := CheckEnds(game, m, pid, move);
      Still(r) && r.st.queue == m.st.queue && SameCtx(r.st.ctx, m.st.ctx)
  {
    hide FinishTurn, AutoEnd;
  }

  /** A turn ended from outside: the next seat's begins, whatever the limits say, and StateID goes up by one. */
  lemma TimeOutEndsTurn(game: Game, s: State, rounds: nat)
    requires CalmGame(game) && s.queue == [] && CursorOk(s.ctx) && s.ctx.playOrder != []
    requires game.ScopeTurn(s.ctx.phase).Some? ==> RoundRobin(game.ScopeTurn(s.ctx.phase).value.order)
    ensures
      var r := ForceEndTurn(game, s, rounds);
      if s.ctx.gameover.Some? then r == Refused(GameOver)
      else r.Done? && SameCtx(r.value.ctx, TurnOver(s.ctx, "")) && r.value.stateID == s.stateID + 1
  {
    if s.ctx.gameover.None? {
      hide FinishTurn, CalmGame, TurnOver, WithoutBlocksFor, PluginApi;
      var m := Machine(s, Env([], [], [], [], PluginApi(game, s, "")), false);
      FinishStill(game, m, "");
      var ended := FinishTurn(game, m, "");
      assert DrainEvents(game, Drain(ended, "", 0), rounds) == Some(Drain(ended, "", 0));
      var forced := ForcedTurn(game, s, rounds).value;
      assert Cascade(game, forced.st, forced.env, -1, rounds) == Done(Harvest(forced.st, forced.env));
    }
  }

  // ---- the end of a game and of a phase ---------------------------------------------------------------------

  /** Game.EndIf, asked after the move is counted, ends the game there and then: turn and phase stay as they are. */
  lemma MoveEndsGame(game: Game, s: State, req: Request, rounds: nat, result: Value)
    requires Apply(game, s, req, rounds).Done? && Admit(game, s, req).Admitted?
    requires
      var move := Admit(game, s, req).move;
      && CalmGame(game) && s.queue == [] && Queues(move, [])
      && GameAnswers(game, CountedCtx(s, req, move), req.pid, Some(result))
    ensures
      Apply(game, s, req, rounds).value.ctx == CountedCtx(s, req, Admit(game, s, req).move).(gameover := Some(result))
  {
    hide Admit, PlayMove, CountMove, Settle, Cascade, CheckEnds, CalmGame, GameAnswers;
    var a := Admit(game, s, req);
    AdmittedState(game, s, req);
    CountedStill(game, s, req, []);
    var r := CountMove(game, a, PlayMove(game, a, req).value, req);
    GameIsOver(game, r.d.m, req.pid, a.move, result);
    assert DrainEvents(game, r.d, rounds) == Some(r.d);
    Settled(game, r, a.move, r.d, rounds);
  }

  lemma GameIsOver(game: Game, m: Machine, pid: Pid, move: Move, result: Value)
    requires CalmGame(game) && Still(m) && m.st.ctx.gameover.None? && GameAnswers(game, m.st.ctx, pid, Some(result))
    ensures
      var r := CheckEnds(game, m, pid, move);
      Still(r) && r.st.queue == m.st.queue && r.st.ctx == m.st.ctx.(gameover := Some(result))
  {
    hide CheckPhaseEnd, CheckTurnEnd, AutoEnd;
  }

  /** No turn of this scope ends by itself when it has only begun. */
  ghost predicate NeverAtOnce(game: Game, phase: string) {
    var turn := game.ScopeTurn(phase);
    turn.Some? && turn.value.endIf.Some? ==> forall i :: !turn.value.endIf.value(i).verdict.0
  }

  /** The phase's EndIf, asked after the move is counted, ends turn and phase and goes on to the phase it names. */
  lemma MoveEndsPhase(game: Game, s: State, req: Request, rounds: nat, next: string)
    requires Apply(game, s, req, rounds).Done? && Admit(game, s, req).Admitted?
    requires
      var move := Admit(game, s, req).move;
      var ctx := CountedCtx(s, req, move);
      && CalmGame(game) && s.queue == [] && Queues(move, []) && GameAnswers(game, ctx, req.pid, None)
      && PhaseAnswers(game, ctx, (true, next)) && next != "" && NeverAtOnce(game, next)
    ensures
      var ctx, t := CountedCtx(s, req, Admit(game, s, req).move), Apply(game, s, req, rounds).value.ctx;
      t.phase == next && t.turn == ctx.turn + 1 && t.numMoves == 0 && t.gameover == ctx.gameover
  {
    hide Admit, PlayMove, CountMove, Settle, Cascade, CheckEnds, CalmGame, GameAnswers, PhaseAnswers;
    var a := Admit(game, s, req);
    AdmittedState(game, s, req);
    CountedStill(game, s, req, []);
    var r := CountMove(game, a, PlayMove(game, a, req).value, req);
    PhaseIsOver(game, r.d.m, req.pid, a.move, next);
    assert DrainEvents(game, r.d, rounds) == Some(r.d);
    if CheckEnds(game, r.d.m, req.pid, a.move).panicked {
      StaysPanicked(game, r, a.move, rounds);
    } else {
      Settled(game, r, a.move, r.d, rounds);
    }
  }

  lemma StaysPanicked(game: Game, r: Running, move: Move, rounds: nat)
    requires DrainEvents(game, r.d, rounds) == Some(r.d) && CheckEnds(game, r.d.m, r.d.pid, move).panicked
    ensures Settle(game, r, move, rounds).Panicked?
  {
    hide CheckEnds;
  }

  lemma PhaseIsOver(game: Game, m: Machine, pid: Pid, move: Move, next: string)
    requires CalmGame(game) && Still(m) && m.st.ctx.gameover.None? && next != "" && NeverAtOnce(game, next)
    requires GameAnswers(game, m.st.ctx, pid, None) && PhaseAnswers(game, m.st.ctx, (true, next))
    ensures
      var r := CheckEnds(game, m, pid, move);
      && r.env.events == [] && r.env.pending == [] && r.st.queue == m.st.queue && r.st.ctx.gameover == m.st.ctx.gameover
      && r.st.ctx.phase == next && r.st.ctx.turn == m.st.ctx.turn + 1 && r.st.ctx.numMoves == 0
  {
    hide CheckGameEnd, CheckPhaseEnd, AutoEnd, FinishTurn, GameAnswers, PhaseAnswers, CalmGame;
    var ended := CheckGameEnd(game, m, pid);
    GameGoesOn(game, m, pid);
    PhaseLeft(game, ended, next);
    var phased := CheckPhaseEnd(game, ended);
    CalmScope(game, next);
  }

  lemma PhaseLeft(game: Game, m: Machine, next: string)
    requires CalmGame(game) && Still(m) && next != "" && PhaseAnswers(game, m.st.ctx, (true, next))
    ensures
      var r := CheckPhaseEnd(game, m);
      && r.env.events == [] && r.env.pending == [] && r.st.queue == m.st.queue && r.st.ctx.gameover == m.st.ctx.gameover
      && r.st.ctx.phase == next && r.st.ctx.turn == m.st.ctx.turn + 1 && r.st.ctx.numMoves == 0
  {
    hide EnterPhase, EndedPhase, Advance;
    var phase := m.st.ctx.phase;
    assert CalmPhase(game.phases[phase]);
    var c := game.phases[phase].endIf.value(Input(m, ""));
    var asked := m.(env := Absorb(m.env, c.out));
    EndedStill(game, asked, next);
    EnterStill(game, EndedPhase(game, asked, next));
  }

  lemma EndedStill(game: Game, m: Machine, next: string)
    requires CalmGame(game) && m.st.ctx.phase in game.phases && next != ""
    ensures
      var r := EndedPhase(game, m, next);
      && r.env.events == m.env.events && r.env.pending == m.env.pending && r.st.queue == m.st.queue
      && r.st.ctx == m.st.ctx.(phase := next, turn := m.st.ctx.turn + 1, numMoves := 0, active := None)
  {
    CalmScope(game, m.st.ctx.phase);
    assert CalmPhase(game.phases[m.st.ctx.phase]);
    var turn := game.ScopeTurn(m.st.ctx.phase);
    if turn.Some? { HookStill(turn.value.onEnd, m, ""); }
    HookStill(game.phases[m.st.ctx.phase].onEnd, RunTurnOnEnd(game, m), "");
  }

  lemma EnterStill(game: Game, m: Machine)
    requires CalmGame(game)
    ensures
      var r := EnterPhase(game, m);
      && r.env.events == m.env.events && r.env.pending == m.env.pending && r.st.queue == m.st.queue
      && r.st.ctx.phase == m.st.ctx.phase && r.st.ctx.turn == m.st.ctx.turn && r.st.ctx.numMoves == m.st.ctx.numMoves
  {
    hide Seating, CalmGame;
    CalmScope(game, m.st.ctx.phase);
    var active := ApplyActiveFromTurn(game, SeatFirst(game, m));
    var phase := m.st.ctx.phase;
    PhaseHookCalm(game, phase);
    if phase != "" && phase in game.phases { HookStill(game.phases[phase].onBegin, active, ""); }
    var turn := game.ScopeTurn(phase);
    if turn.Some? { HookStill(turn.value.onBegin, RunPhaseOnBegin(game, active), ""); }
  }

  lemma PhaseHookCalm(game: Game, phase: string)
    requires CalmGame(game)
    ensures phase in game.phases ==> CalmHook(game.phases[phase].onBegin) && CalmHook(game.phases[phase].onEnd)
  {
    if phase in game.phases { assert CalmPhase(game.phases[phase]); }
  }

  // ---- the hooks' order -------------------------------------------------------------------------------------

  /** What a hook does to G. */
  ghost predicate WorksAs(h: Option<Hook>, f: Value -> Value) {
    if h.None? then forall g :: f(g) == g else forall i :: h.value(i).g == f(i.g)
  }

  /** The G of a turn's hooks, in this scope. */
  ghost predicate TurnWorksAs(game: Game, phase: string, onMove: Value -> Value, onEnd: Value -> Value, onBegin: Value -> Value) {
    var turn := game.ScopeTurn(phase);
    turn.Some? && WorksAs(turn.value.onMove, onMove) && WorksAs(turn.value.onEnd, onEnd) && WorksAs(turn.value.onBegin, onBegin)
  }

  lemma FinishG(game: Game, m: Machine, next: Pid, onMove: Value -> Value, onEnd: Value -> Value, onBegin: Value -> Value)
    requires CursorOk(m.st.ctx) && m.st.ctx.playOrder != [] && m.st.ctx.gameover.None?
    requires TurnWorksAs(game, m.st.ctx.phase, onMove, onEnd, onBegin)
    requires RoundRobin(game.ScopeTurn(m.st.ctx.phase).value.order)
    ensures FinishTurn(game, m, next).st.g == onBegin(onEnd(m.st.g))
  {
    hide Advance, NextPos;
    var turn := game.ScopeTurn(m.st.ctx.phase);
    var wiped := EndedTurn(game, m);
    if next == "" {
      RoundRobinRotates(game, wiped, turn);
      AdvanceStill(game, wiped, turn);
      AdvanceG(game, wiped, turn);
    }
  }

  lemma AdvanceG(game: Game, m: Machine, turn: Option<Turn>)
    requires CursorOk(m.st.ctx) && m.st.ctx.playOrder != [] && (turn.Some? ==> RoundRobin(turn.value.order))
    ensures Advance(game, m, turn).st.g == m.st.g
  {
    hide LeavePhase;
    GoModNat(m.st.ctx.pos + 1, |m.st.ctx.playOrder|);
    GoModNat(m.st.ctx.pos + 1, m.st.ctx.numPlayers);
  }

  lemma ChecksG(
    game: Game, m: Machine, pid: Pid, move: Move, v: (bool, Pid),
    onMove: Value -> Value, onEnd: Value -> Value, onBegin: Value -> Value)
    requires CalmGame(game) && Still(m) && CursorOk(m.st.ctx) && m.st.ctx.playOrder != [] && m.st.ctx.gameover.None?
    requires TurnWorksAs(game, m.st.ctx.phase, onMove, onEnd, onBegin)
    requires RoundRobin(game.ScopeTurn(m.st.ctx.phase).value.order)
    requires GameAnswers(game, m.st.ctx, pid, None) && PhaseAnswers(game, m.st.ctx, (false, ""))
    requires TurnAnswers(game, m.st.ctx, v)
    ensures
      var max := MaxMoves(game, m.st.ctx.phase);
      var limit := max > 0 && !move.noLimit && m.st.ctx.numMoves >= max;
      CheckEnds(game, m, pid, move).st.g == if v.0 || limit then onBegin(onEnd(m.st.g)) else m.st.g
  {
    hide FinishTurn, CheckGameEnd, CheckPhaseEnd, AutoEnd, GameAnswers, PhaseAnswers, CalmGame, WorksAs;
    var ended := CheckGameEnd(game, m, pid);
    GameGoesOn(game, m, pid);
    PhaseGoesOn(game, ended);
    var auto := CheckPhaseEnd(game, ended).(st := AutoEnd(CheckPhaseEnd(game, ended).st));
    var turn := game.ScopeTurn(auto.st.ctx.phase).value;
    var (asked, next) := TurnVerdict(turn, auto, move);
    if next.Some? { FinishG(game, asked, next.value, onMove, onEnd, onBegin); }
  }

  lemma CountedG(game: Game, a: Admission, req: Request, run: Value -> Value, onMove: Value -> Value, phase: string)
    requires a.Admitted? && PlayMove(game, a, req).Done? && a.st.ctx.phase == phase
    requires forall i: HookIn :: a.move.run(i, req.args).out.g == run(i.g)
    requires game.ScopeTurn(phase).Some? && WorksAs(game.ScopeTurn(phase).value.onMove, onMove)
    ensures CountMove(game, a, PlayMove(game, a, req).value, req).d.m.st.g == onMove(run(a.st.g))
  {
    hide Bump;
    PlayedG(game, a, req, run);
    forall x: State { BumpCtx(x, req.pid); }
  }

  lemma PlayedG(game: Game, a: Admission, req: Request, run: Value -> Value)
    requires a.Admitted? && PlayMove(game, a, req).Done?
    requires forall i: HookIn :: a.move.run(i, req.args).out.g == run(i.g)
    ensures PlayMove(game, a, req).value.st.g == run(a.st.g)
  {
  }

  /**
   G through an accepted move: the move's own function, then Turn.OnMove, and if the turn ends Turn.OnEnd and then the next
   turn's OnBegin, each once and in this order.
   */
  lemma HooksInOrder(
    game: Game, s: State, req: Request, rounds: nat, v: (bool, Pid),
    run: Value -> Value, onMove: Value -> Value, onEnd: Value -> Value, onBegin: Value -> Value)
    requires Apply(game, s, req, rounds).Done? && Admit(game, s, req).Admitted?
    requires
      var move := Admit(game, s, req).move;
      && Ordinary(game, s, req, move) && Queues(move, []) && TurnAnswers(game, CountedCtx(s, req, move), v)
      && (forall i: HookIn :: move.run(i, req.args).out.g == run(i.g))
    requires TurnWorksAs(game, s.ctx.phase, onMove, onEnd, onBegin)
    ensures
      var move, moved := Admit(game, s, req).move, onMove(run(s.g));
      Apply(game, s, req, rounds).value.g == if v.0 || UsedUp(game, s, move) then onBegin(onEnd(moved)) else moved
  {
    hide Admit, PlayMove, CountMove, Settle, Cascade, CheckEnds, CalmGame, GameAnswers, PhaseAnswers, TurnAnswers, TurnOver,
         WorksAs;
    var a := Admit(game, s, req);
    AdmittedState(game, s, req);
    CountedStill(game, s, req, []);
    CountedG(game, a, req, run, onMove, s.ctx.phase);
    var r := CountMove(game, a, PlayMove(game, a, req).value, req);
    ChecksStill(game, r.d.m, req.pid, a.move, v);
    ChecksG(game, r.d.m, req.pid, a.move, v, onMove, onEnd, onBegin);
    assert DrainEvents(game, r.d, rounds) == Some(r.d);
    Settled(game, r, a.move, r.d, rounds);
  }
}
