/**
 Who plays next, exactly. Eliminations leave NumPlayers behind, and the built-in orders are written in terms of it:
 the round-robin ones still rotate over the seats that are left, TurnOrderOnce does not notice that its round is over.
 */
module TurnRotation {
  import opened Engine
  import opened Transitions
  import opened Laws

  /** The orders that rotate for ever. */
  predicate RoundRobin(o: TurnOrder) {
    o.Unset? || o.Default? || o.Reset? || o.Continue? || o.Custom? || o.CustomFrom?
  }

  lemma GoModWraps(pos: int, n: nat, players: int)
    requires 0 <= pos < n <= players
    ensures
      var next := GoMod(pos + 1, players);
      (if next >= n then next % n else next) == (pos + 1) % n
  {
    if pos + 1 < n {
      assert (pos + 1) % players == pos + 1 && (pos + 1) % n == pos + 1;
    } else if players == n {
    } else {
      assert (pos + 1) % players == pos + 1;
    }
  }

  /**
   With any number of eliminations behind it (NumPlayers still counts the dead), a round-robin order moves the cursor
   from a seat to the one after it among those left, wrapping at the end, and the phase goes on.
   */
  lemma RoundRobinRotates(game: Game, m: Machine, turn: Option<Turn>)
    requires CursorOk(m.st.ctx) && m.st.ctx.playOrder != []
    requires turn.Some? ==> RoundRobin(turn.value.order)
    ensures
      var before, after := m.st.ctx, Advance(game, m, turn).st.ctx;
      && after.pos == (before.pos + 1) % |before.playOrder|
      && after.currentPlayer == before.playOrder[after.pos]
      && after.playOrder == before.playOrder && after.phase == before.phase
  {
    GoModWraps(m.st.ctx.pos, |m.st.ctx.playOrder|, m.st.ctx.numPlayers);
    GoModWraps(m.st.ctx.pos, |m.st.ctx.playOrder|, |m.st.ctx.playOrder|);
  }

  predicate LastSeat(ctx: Ctx) {
    ctx.pos == |ctx.playOrder| - 1
  }

  /** A turn scoped to TurnOrderOnce. */
  predicate IsOnce(turn: Option<Turn>) {
    turn.Some? && turn.value.order.Once?
  }

  /** The cursor on another seat, and nothing else changed. */
  function Pointed(m: Machine, pos: nat): Machine
    requires pos < |m.st.ctx.playOrder|
  {
    m.(st := m.st.(ctx := m.st.ctx.(pos := pos, currentPlayer := m.st.ctx.playOrder[pos])))
  }

  /** Asking TurnOrderOnce ends the phase after the last seat if nobody is missing, and else rotates. */
  lemma OnceAdvances(game: Game, m: Machine, turn: Option<Turn>)
    requires CursorOk(m.st.ctx) && m.st.ctx.playOrder != [] && IsOnce(turn)
    ensures
      var ctx := m.st.ctx;
      Advance(game, m, turn) ==
      if LastSeat(ctx) && ctx.numPlayers == |ctx.playOrder| then LeavePhase(game, m, "")
      else Pointed(m, (ctx.pos + 1) % |ctx.playOrder|)
  {
    hide LeavePhase, NextPos, Seat, Pointed;
    var ctx := m.st.ctx;
    OnceAnswers(ctx, Input(m, ""));
    assert EffectiveOrder(turn) == Once;
    if !(LastSeat(ctx) && ctx.numPlayers == |ctx.playOrder|) { SeatsNext(m); }
  }

  lemma OnceAnswers(ctx: Ctx, input: HookIn)
    requires CursorOk(ctx) && ctx.playOrder != []
    ensures
      var ends := LastSeat(ctx) && ctx.numPlayers == |ctx.playOrder|;
      NextPos(Once, ctx, input) == (Answer(if ends then None else Some(ctx.pos + 1), input.api), false)
  {
  }

  lemma SeatsNext(m: Machine)
    requires 0 <= m.st.ctx.pos < |m.st.ctx.playOrder|
    ensures Seat(m, m.st.ctx.pos + 1) == Pointed(m, (m.st.ctx.pos + 1) % |m.st.ctx.playOrder|)
  {
    var next, n := m.st.ctx.pos + 1, |m.st.ctx.playOrder|;
    assert next < n ==> next % n == next;
  }

  /** Ending a phase counts the turn; nothing else in it does. */
  lemma LeavingCountsTurn(game: Game, m: Machine)
    requires m.st.ctx.phase != "" && m.st.ctx.phase in game.phases
    ensures LeavePhase(game, m, "").st.ctx.turn == m.st.ctx.turn + 1
  {
    hide SeatFirst, ApplyActiveFromTurn, RunTurnOnBegin, RunPhaseOnBegin, EndedPhase, Advance;
    var moved := EndedPhase(game, m, "");
    EndedPhaseTurn(game, m);
    SeatFirstTurn(game, moved);
    if moved.st.ctx.phase == "" { GlobalAdvanceTurn(game, moved, game.turn); }
  }

  lemma GlobalAdvanceTurn(game: Game, m: Machine, turn: Option<Turn>)
    requires m.st.ctx.phase == ""
    ensures Advance(game, m, turn).st.ctx.turn == m.st.ctx.turn
  {
    hide NextPos, EnterPhase;
  }

  lemma EndedPhaseTurn(game: Game, m: Machine)
    requires m.st.ctx.phase in game.phases
    ensures EndedPhase(game, m, "").st.ctx.turn == m.st.ctx.turn + 1
  {
  }

  lemma SeatFirstTurn(game: Game, m: Machine)
    ensures SeatFirst(game, m).st.ctx.turn == m.st.ctx.turn
  {
  }

  /**
   TurnOrderOnce should end its phase after the last seat. At the last seat it does so exactly when nobody has been
   eliminated; otherwise the first seat left plays again and the phase goes on.
   */
  lemma OnceEndsExactly(game: Game, m: Machine, turn: Option<Turn>)
    requires CursorOk(m.st.ctx) && m.st.ctx.playOrder != [] && IsOnce(turn) && LastSeat(m.st.ctx)
    requires m.st.ctx.phase != "" && m.st.ctx.phase in game.phases
    ensures
      var before, r := m.st.ctx, Advance(game, m, turn);
      && (r == LeavePhase(game, m, "") <==> before.numPlayers == |before.playOrder|)
      && (before.numPlayers > |before.playOrder| ==> r == Pointed(m, 0))
  {
    hide LeavePhase, Advance;
    OnceAdvances(game, m, turn);
    LeavingCountsTurn(game, m);
    assert (m.st.ctx.pos + 1) % |m.st.ctx.playOrder| == 0;
    assert Pointed(m, 0).st.ctx.turn == m.st.ctx.turn;
  }

  /** Forcing the next player keeps the cursor right exactly when that player is seated. */
  lemma ForcedNextExact(game: Game, m: Machine, next: Pid)
    requires CursorOk(m.st.ctx) && m.st.ctx.playOrder != [] && next != ""
    ensures FinishTurn(game, m, next).st.ctx.currentPlayer == next
    ensures CursorOk(FinishTurn(game, m, next).st.ctx) <==> next in m.st.ctx.playOrder
  {
    var forced := ForcePlayer(EndedTurn(game, m), next);
    assert FinishTurn(game, m, next).st.ctx ==
      forced.st.ctx.(turn := forced.st.ctx.turn + 1, active := FinishTurn(game, m, next).st.ctx.active);
  }

  lemma UnseatAnother(ctx: Ctx, idx: int)
    requires CursorOk(ctx) && 0 <= idx < |ctx.playOrder| && ctx.playOrder[idx] != ctx.currentPlayer
    ensures
      var r := Unseat(ctx, idx);
      && CursorOk(r) && r.pos >= 0 && ctx.playOrder[idx] !in r.playOrder && r.currentPlayer == ctx.currentPlayer
      && r.playOrder != []
  {
    UnseatKeeps(ctx, idx);
  }

  /** Eliminating someone else leaves the current player on turn and the cursor on them. */
  lemma RemovingAnotherKeepsTurn(game: Game, m: Machine, pid: Pid)
    requires CursorOk(m.st.ctx) && pid != m.st.ctx.currentPlayer
    ensures
      var after := Eliminate(game, m, pid).st.ctx;
      && pid !in after.playOrder && CursorOk(after)
      && (m.st.ctx.playOrder != [] ==> after.currentPlayer == m.st.ctx.currentPlayer && after.turn == m.st.ctx.turn)
  {
    hide FinishTurn, IndexOf, Unseat;
    var idx := IndexOf(m.st.ctx.playOrder, pid);
    if idx >= 0 { UnseatAnother(m.st.ctx, idx); }
  }

  /** Whoever is left once the current player is gone. */
  function Others(ctx: Ctx): seq<Pid>
    requires 0 <= ctx.pos < |ctx.playOrder|
  {
    ctx.playOrder[..ctx.pos] + ctx.playOrder[ctx.pos + 1..]
  }

  /** The place among them of the seat after the current one. */
  function Successor(ctx: Ctx): int
    requires 0 <= ctx.pos < |ctx.playOrder|
  {
    if ctx.pos == |ctx.playOrder| - 1 then 0 else ctx.pos
  }

  /** Unseating the current player already points the cursor at the successor. */
  lemma CurrentUnseated(m: Machine)
    requires CursorOk(m.st.ctx) && |m.st.ctx.playOrder| >= 2
    ensures
      var ctx := m.st.ctx;
      var left := Others(ctx);
      && IndexOf(ctx.playOrder, ctx.currentPlayer) == ctx.pos && Distinct(left)
      && Unseated(m, ctx.pos).st.ctx == ctx.(playOrder := left, pos := Successor(ctx), currentPlayer := left[Successor(ctx)])
      && CursorOk(Unseated(m, ctx.pos).st.ctx)
  {
    hide IndexOf;
    IndexIsPos(m.st.ctx);
    UnseatKeeps(m.st.ctx, m.st.ctx.pos);
  }

  /** Ending the turn advances from there, in every built-in order once somebody has been eliminated. */
  lemma EndingAdvances(game: Game, m: Machine)
    requires CursorOk(m.st.ctx) && m.st.ctx.playOrder != [] && m.st.ctx.gameover.None?
    requires m.st.ctx.numPlayers > |m.st.ctx.playOrder|
    requires game.ScopeTurn(m.st.ctx.phase).Some? ==>
               var order := game.ScopeTurn(m.st.ctx.phase).value.order; RoundRobin(order) || order.Once?
    ensures FinishTurn(game, m, "").st.ctx.currentPlayer == m.st.ctx.playOrder[(m.st.ctx.pos + 1) % |m.st.ctx.playOrder|]
  {
    hide Advance, BeginTurn, EndedTurn, NextPos;
    var wiped := EndedTurn(game, m);
    var turn := game.ScopeTurn(m.st.ctx.phase);
    if IsOnce(turn) { OnceAdvances(game, wiped, turn); } else { RoundRobinRotates(game, wiped, turn); }
  }

  /**
   Eliminating the current player moves the cursor twice: removal already points it at the successor, and ending the
   turn then advances again, in every built-in order. So the successor plays next if and only if nobody else is left.
   */
  lemma RemovingCurrentSkipsSuccessor(game: Game, m: Machine)
    requires CursorOk(m.st.ctx) && |m.st.ctx.playOrder| >= 2 && m.st.ctx.gameover.None?
    requires game.ScopeTurn(m.st.ctx.phase).Some? ==>
               var order := game.ScopeTurn(m.st.ctx.phase).value.order; RoundRobin(order) || order.Once?
    ensures
      var left, successor := Others(m.st.ctx), Successor(m.st.ctx);
      var next := Eliminate(game, m, m.st.ctx.currentPlayer).st.ctx.currentPlayer;
      && next == left[(successor + 1) % |left|]
      && (next == left[successor] <==> |left| == 1)
  {
    hide FinishTurn, Unseated, IndexOf;
    CurrentUnseated(m);
    EndingAdvances(game, Unseated(m, m.st.ctx.pos));
    StepMoves(Successor(m.st.ctx), |Others(m.st.ctx)|);
  }

  lemma StepMoves(i: nat, n: nat)
    requires i < n
    ensures 0 <= (i + 1) % n < n && ((i + 1) % n == i <==> n == 1)
  {
  }

  lemma IndexIsPos(ctx: Ctx)
    requires CursorOk(ctx) && ctx.playOrder != []
    ensures IndexOf(ctx.playOrder, ctx.currentPlayer) == ctx.pos
  {
  }

  // ---- what every event does to the cursor ------------------------------------------------------------------

  /** A machine of a game with built-in orders whose cursor names the current player. */
  ghost predicate OnCursor(game: Game, m: Machine) {
    GameOk(BUILT_IN, game) && Inv(BUILT_IN, m) && CursorOk(m.st.ctx)
  }

  lemma SeatFirstStrict(game: Game, m: Machine)
    requires OnCursor(game, m)
    ensures CursorOk(SeatFirst(game, m).st.ctx)
  {
    ScopeTurnOk(BUILT_IN, game, m.st.ctx.phase);
  }

  lemma EnterPhaseStrict(game: Game, m: Machine)
    requires OnCursor(game, m)
    ensures CursorOk(EnterPhase(game, m).st.ctx)
  {
    hide SeatFirst, OnCursor;
    SeatFirstStrict(game, m);
  }

  lemma AdvanceStrict(game: Game, m: Machine, turn: Option<Turn>)
    requires OnCursor(game, m) && (turn.Some? ==> TurnOk(BUILT_IN, turn.value))
    ensures CursorOk(Advance(game, m, turn).st.ctx)
    decreases if m.st.ctx.phase == "" then 1 else 3
  {
    hide GameOk, TurnOk, NextPos, LeavePhase;
    if m.st.ctx.playOrder != [] {
      NextPosOk(BUILT_IN, game, turn, m);
      var (answer, divides) := NextPos(EffectiveOrder(turn), m.st.ctx, Input(m, ""));
      var asked := m.(env := m.env.(api := answer.api), panicked := m.panicked || divides);
      if answer.choice.None? { LeavePhaseStrict(game, asked, ""); }
    }
  }

  lemma EndedPhaseStrict(game: Game, m: Machine, nextPhase: string)
    requires OnCursor(game, m) && m.st.ctx.phase in game.phases
    ensures OnCursor(game, EndedPhase(game, m, nextPhase))
  {
    EndedPhaseKeeps(BUILT_IN, game, m, nextPhase);
  }

  lemma LeavePhaseStrict(game: Game, m: Machine, nextPhase: string)
    requires OnCursor(game, m)
    ensures CursorOk(LeavePhase(game, m, nextPhase).st.ctx)
    decreases if m.st.ctx.phase == "" then 0 else 2
  {
    hide EnterPhase, Advance, EndedPhase, GameOk;
    var phase := m.st.ctx.phase;
    if phase == "" {
      if nextPhase != "" { EnterPhaseStrict(game, m.(st := m.st.(ctx := m.st.ctx.(phase := nextPhase)))); }
    } else if phase in game.phases {
      var moved := EndedPhase(game, m, nextPhase);
      EndedPhaseStrict(game, m, nextPhase);
      if moved.st.ctx.phase != "" {
        EnterPhaseStrict(game, moved);
      } else {
        GlobalTurnOk(game);
        AdvanceStrict(game, moved, game.turn);
      }
    }
  }

  lemma GlobalTurnOk(game: Game)
    requires GameOk(BUILT_IN, game)
    ensures game.turn.Some? ==> TurnOk(BUILT_IN, game.turn.value)
  {
  }

  lemma FinishTurnStrict(game: Game, m: Machine, next: Pid)
    requires OnCursor(game, m) && (next != "" ==> next in m.st.ctx.playOrder)
    ensures CursorOk(FinishTurn(game, m, next).st.ctx)
  {
    hide GameOk, Advance, EndedTurn, BeginTurn;
    var wiped := EndedTurn(game, m);
    EndedTurnKeeps(BUILT_IN, game, m);
    if next == "" {
      ScopeTurnOk(BUILT_IN, game, m.st.ctx.phase);
      AdvanceStrict(game, wiped, game.ScopeTurn(m.st.ctx.phase));
    }
  }

  lemma EliminateStrict(game: Game, m: Machine, pid: Pid)
    requires OnCursor(game, m)
    ensures CursorOk(Eliminate(game, m, pid).st.ctx)
  {
    hide GameOk, FinishTurn, Unseat, IndexOf;
    var idx := IndexOf(m.st.ctx.playOrder, pid);
    if idx >= 0 {
      UnseatKeeps(m.st.ctx, idx);
      UnseatedKeeps(BUILT_IN, m, idx);
      var unseated := Unseated(m, idx);
      if unseated.st.ctx.playOrder != [] && m.st.ctx.currentPlayer == pid { FinishTurnStrict(game, unseated, ""); }
    }
  }

  /**
   With built-in orders, every event keeps the cursor on the current player, except a turn forced onto a player outside
   PlayOrder.
   */
  lemma EventsKeepCursor(game: Game, d: Drain, ev: Event)
    requires OnCursor(game, d.m) && (ev.EndTurn? && ev.next != "" ==> ev.next in d.m.st.ctx.playOrder)
    ensures CursorOk(Handle(game, d, ev).m.st.ctx)
  {
    hide FinishTurn, LeavePhase, LeaveStage, EnterStage, EnterStageLong, Install, Eliminate, RunChained, GameOk;
    match ev
    case EndTurn(next) => FinishTurnStrict(game, d.m, next);
    case EndPhase => LeavePhaseStrict(game, d.m, "");
    case SetPhase(phase) => LeavePhaseStrict(game, d.m, phase);
    case RemovePlayer(pid) => EliminateStrict(game, d.m, pid);
    case _ =>
  }
}
