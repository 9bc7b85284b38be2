/**
 Nothing but Undo and Redo looks at the undo and redo stacks: erasing both first and then running any transition, event
 drain, cascade or external move gives what running it first and erasing then gives.
 */
module UndoBlind {
  import opened Engine
  import opened Transitions
  import opened Reducer

  /** The state without its undo and redo stacks. */
  function Bare(s: State): State {
    s.(snapshots := [], undone := [])
  }

  function BareMachine(m: Machine): Machine {
    m.(st := Bare(m.st))
  }

  function BareDrain(d: Drain): Drain {
    d.(m := BareMachine(d.m))
  }

  function BareAnswer(d: Option<Drain>): Option<Drain> {
    if d.None? then None else Some(BareDrain(d.value))
  }

  function BareOutcome(r: Outcome<State>): Outcome<State> {
    if r.Done? then Done(Bare(r.value)) else r
  }

  function BareSettled(r: Outcome<Machine>): Outcome<Machine> {
    if r.Done? then Done(BareMachine(r.value)) else r
  }

  // ---- transitions ------------------------------------------------------------------------------------------

  lemma RunHookBlind(hook: Option<Hook>, m: Machine, pid: Pid)
    ensures RunHook(hook, BareMachine(m), pid) == BareMachine(RunHook(hook, m, pid))
  {
  }

  lemma TurnHooksBlind(game: Game, m: Machine)
    ensures RunTurnOnBegin(game, BareMachine(m)) == BareMachine(RunTurnOnBegin(game, m))
    ensures RunTurnOnEnd(game, BareMachine(m)) == BareMachine(RunTurnOnEnd(game, m))
    ensures RunPhaseOnBegin(game, BareMachine(m)) == BareMachine(RunPhaseOnBegin(game, m))
  {
    hide RunHook;
    forall hook { RunHookBlind(hook, m, ""); }
  }

  lemma InstallBlind(s: State, cfg: Cfg)
    ensures Install(Bare(s), cfg) == Bare(Install(s, cfg))
  {
  }

  lemma DepartedBlind(s: State, pid: Pid)
    ensures Departed(Bare(s), pid) == Bare(Departed(s, pid))
  {
  }

  lemma EnterStageBlind(game: Game, m: Machine, pid: Pid, stage: string)
    ensures EnterStage(game, BareMachine(m), pid, stage) == BareMachine(EnterStage(game, m, pid, stage))
  {
  }

  lemma EndedStageBlind(game: Game, m: Machine, pid: Pid)
    ensures EndedStage(game, BareMachine(m), pid) == BareMachine(EndedStage(game, m, pid))
  {
  }

  lemma LeaveStageBlind(game: Game, m: Machine, pid: Pid)
    ensures LeaveStage(game, BareMachine(m), pid) == BareMachine(LeaveStage(game, m, pid))
  {
    hide EndedStage, EnterStage, Departed;
    var ended := EndedStage(game, m, pid);
    EndedStageBlind(game, m, pid);
    EnterStageBlind(game, ended, pid, game.NextStage(m.st.ctx.phase, StageOf(m.st.ctx, pid)));
    DepartedBlind(ended.st, pid);
  }

  lemma ActiveFromTurnBlind(game: Game, m: Machine)
    ensures ApplyActiveFromTurn(game, BareMachine(m)) == BareMachine(ApplyActiveFromTurn(game, m))
  {
    hide Install;
    forall cfg { InstallBlind(m.st, cfg); }
  }

  lemma SeatFirstBlind(game: Game, m: Machine)
    ensures SeatFirst(game, BareMachine(m)) == BareMachine(SeatFirst(game, m))
  {
    hide Seating, EffectiveOrder;
  }

  lemma EnterPhaseBlind(game: Game, m: Machine)
    ensures EnterPhase(game, BareMachine(m)) == BareMachine(EnterPhase(game, m))
  {
    hide SeatFirst, ApplyActiveFromTurn, RunTurnOnBegin, RunPhaseOnBegin, BareMachine;
    var seated := SeatFirst(game, m);
    SeatFirstBlind(game, m);
    var active := ApplyActiveFromTurn(game, seated);
    ActiveFromTurnBlind(game, seated);
    TurnHooksBlind(game, active);
    TurnHooksBlind(game, RunPhaseOnBegin(game, active));
  }

  lemma BeginTurnBlind(game: Game, m: Machine)
    ensures BeginTurn(game, BareMachine(m)) == BareMachine(BeginTurn(game, m))
  {
    hide ApplyActiveFromTurn, RunTurnOnBegin;
    var next := m.(st := m.st.(ctx := m.st.ctx.(turn := m.st.ctx.turn + 1)));
    ActiveFromTurnBlind(game, next);
    TurnHooksBlind(game, ApplyActiveFromTurn(game, next));
  }

  lemma EndedTurnBlind(game: Game, m: Machine)
    ensures EndedTurn(game, BareMachine(m)) == BareMachine(EndedTurn(game, m))
  {
    hide RunTurnOnEnd;
    TurnHooksBlind(game, m);
  }

  lemma AdvanceBlind(game: Game, m: Machine, turn: Option<Turn>)
    ensures Advance(game, BareMachine(m), turn) == BareMachine(Advance(game, m, turn))
    decreases if m.st.ctx.phase == "" then 1 else 3
  {
    hide LeavePhase, EnterPhase, NextPos;
    if m.st.ctx.playOrder != [] {
      var (answer, divides) := NextPos(EffectiveOrder(turn), m.st.ctx, Input(m, ""));
      var asked := m.(env := m.env.(api := answer.api), panicked := m.panicked || divides);
      if answer.choice.None? { LeavePhaseBlind(game, asked, ""); }
    }
  }

  lemma EndedPhaseBlind(game: Game, m: Machine, nextPhase: string)
    requires m.st.ctx.phase in game.phases
    ensures EndedPhase(game, BareMachine(m), nextPhase) == BareMachine(EndedPhase(game, m, nextPhase))
  {
    hide RunTurnOnEnd;
    TurnHooksBlind(game, m);
  }

  lemma LeavePhaseBlind(game: Game, m: Machine, nextPhase: string)
    ensures LeavePhase(game, BareMachine(m), nextPhase) == BareMachine(LeavePhase(game, m, nextPhase))
    decreases if m.st.ctx.phase == "" then 0 else 2
  {
    hide EndedPhase, EnterPhase, Advance, RunTurnOnBegin, ApplyActiveFromTurn;
    var phase := m.st.ctx.phase;
    if phase == "" {
      EnterPhaseBlind(game, m.(st := m.st.(ctx := m.st.ctx.(phase := nextPhase))));
    } else if phase in game.phases {
      var moved := EndedPhase(game, m, nextPhase);
      EndedPhaseBlind(game, m, nextPhase);
      if moved.st.ctx.phase == "" {
        var advanced := Advance(game, moved, game.turn);
        AdvanceBlind(game, moved, game.turn);
        ActiveFromTurnBlind(game, advanced);
        TurnHooksBlind(game, ApplyActiveFromTurn(game, advanced));
      } else {
        EnterPhaseBlind(game, moved);
      }
    }
  }

  lemma FinishTurnBlind(game: Game, m: Machine, next: Pid)
    ensures FinishTurn(game, BareMachine(m), next) == BareMachine(FinishTurn(game, m, next))
  {
    hide EndedTurn, Advance, BeginTurn;
    var wiped := EndedTurn(game, m);
    EndedTurnBlind(game, m);
    AdvanceBlind(game, wiped, game.ScopeTurn(m.st.ctx.phase));
    BeginTurnBlind(game, ForcePlayer(wiped, next));
    BeginTurnBlind(game, Advance(game, wiped, game.ScopeTurn(m.st.ctx.phase)));
  }

  lemma EliminateBlind(game: Game, m: Machine, pid: Pid)
    ensures Eliminate(game, BareMachine(m), pid) == BareMachine(Eliminate(game, m, pid))
  {
    hide FinishTurn;
    var idx := IndexOf(m.st.ctx.playOrder, pid);
    if idx >= 0 { FinishTurnBlind(game, Unseated(m, idx), ""); }
  }

  lemma HandleBlind(game: Game, d: Drain, ev: Event)
    ensures Handle(game, BareDrain(d), ev) == BareDrain(Handle(game, d, ev))
  {
    hide FinishTurn, LeavePhase, LeaveStage, EnterStage, Eliminate;
    match ev
    case EndTurn(next) => FinishTurnBlind(game, d.m, next);
    case EndPhase => LeavePhaseBlind(game, d.m, "");
    case SetPhase(phase) => LeavePhaseBlind(game, d.m, phase);
    case EndStage => LeaveStageBlind(game, d.m, d.pid);
    case SetStage(stage) => EnterStageBlind(game, d.m, d.pid, stage);
    case SetStageLong(stage, _, _) => EnterStageBlind(game, d.m, d.pid, stage);
    case RemovePlayer(pid) => EliminateBlind(game, d.m, pid);
    case _ =>
  }

  lemma {:induction false} HandleAllBlind(game: Game, d: Drain, batch: seq<Event>)
    ensures HandleAll(game, BareDrain(d), batch) == BareDrain(HandleAll(game, d, batch))
    decreases |batch|
  {
    hide Handle;
    if batch != [] {
      HandleBlind(game, d, batch[0]);
      HandleAllBlind(game, Handle(game, d, batch[0]), batch[1..]);
    }
  }

  lemma {:induction false} DrainEventsBlind(game: Game, d: Drain, rounds: nat)
    ensures DrainEvents(game, BareDrain(d), rounds) == BareAnswer(DrainEvents(game, d, rounds))
    decreases rounds
  {
    hide HandleAll;
    var batch := d.m.env.events;
    if batch != [] && !d.m.panicked && rounds > 0 {
      var taken := d.(m := d.m.(env := d.m.env.(events := [])));
      HandleAllBlind(game, taken, batch);
      DrainEventsBlind(game, HandleAll(game, taken, batch), rounds - 1);
    }
  }

  // ---- the end rules and the cascade ------------------------------------------------------------------------

  lemma CheckEndsBlind(game: Game, m: Machine, pid: Pid, move: Move)
    ensures CheckEnds(game, BareMachine(m), pid, move) == BareMachine(CheckEnds(game, m, pid, move))
  {
    hide CheckGameEnd, CheckPhaseEnd, CheckTurnEnd, AutoEnd;
    CheckGameEndBlind(game, m, pid);
    var ended := CheckGameEnd(game, m, pid);
    if ended.st.ctx.gameover.None? {
      CheckPhaseEndBlind(game, ended);
      var phased := CheckPhaseEnd(game, ended);
      AutoEndBlind(phased.st);
      CheckTurnEndBlind(game, phased.(st := AutoEnd(phased.st)), move);
    }
  }

  lemma CheckGameEndBlind(game: Game, m: Machine, pid: Pid)
    ensures CheckGameEnd(game, BareMachine(m), pid) == BareMachine(CheckGameEnd(game, m, pid))
  {
  }

  lemma CheckPhaseEndBlind(game: Game, m: Machine)
    ensures CheckPhaseEnd(game, BareMachine(m)) == BareMachine(CheckPhaseEnd(game, m))
  {
    hide LeavePhase;
    var phase := m.st.ctx.phase;
    if phase != "" && phase in game.phases && game.phases[phase].endIf.Some? {
      var c := game.phases[phase].endIf.value(Input(m, ""));
      LeavePhaseBlind(game, m.(env := Absorb(m.env, c.out)), c.verdict.1);
    }
  }

  lemma AutoEndBlind(s: State)
    ensures AutoEnd(Bare(s)) == Bare(AutoEnd(s))
  {
  }

  lemma CheckTurnEndBlind(game: Game, m: Machine, move: Move)
    ensures CheckTurnEnd(game, BareMachine(m), move) == BareMachine(CheckTurnEnd(game, m, move))
  {
    hide FinishTurn;
    var turn := game.ScopeTurn(m.st.ctx.phase);
    if turn.Some? {
      var (asked, next) := TurnVerdict(turn.value, m, move);
      if next.Some? { FinishTurnBlind(game, asked, next.value); }
    }
  }

  lemma SettleBlind(game: Game, r: Running, move: Move, rounds: nat)
    ensures Settle(game, r.(d := BareDrain(r.d)), move, rounds) == BareSettled(Settle(game, r, move, rounds))
  {
    hide DrainEvents, CheckEnds, WithoutBlocksFor;
    DrainEventsBlind(game, r.d, rounds);
    var first := DrainEvents(game, r.d, rounds);
    if first.Some? {
      CheckEndsBlind(game, first.value.m, r.d.pid, move);
      DrainEventsBlind(game, first.value.(m := CheckEnds(game, first.value.m, r.d.pid, move)), rounds);
    }
  }

  lemma PluginsBlind(game: Game, s: State, pid: Pid, api: Option<Value>)
    ensures PluginApi(game, Bare(s), pid) == PluginApi(game, s, pid)
    ensures Flush(game, Bare(s), api) == Bare(Flush(game, s, api))
    ensures PluginVerdict(game, Bare(s)) == PluginVerdict(game, s)
  {
  }

  /** A drain step from the state its move function left, plugins flushed, to its harvest. */
  lemma StepDrainBlind(game: Game, flushed: State, env: Env, pid: Pid, rounds: nat)
    ensures DrainEvents(game, Drain(Machine(Bare(flushed), env, false), pid, 0), rounds) ==
            BareAnswer(DrainEvents(game, Drain(Machine(flushed, env, false), pid, 0), rounds))
  {
    DrainEventsBlind(game, Drain(Machine(flushed, env, false), pid, 0), rounds);
  }

  lemma StepBlind(game: Game, s: State, action: Action, parent: int, rounds: nat)
    ensures ApplyStep(game, Bare(s), action, parent, rounds) == BareOutcome(ApplyStep(game, s, action, parent, rounds))
  {
    hide DrainEvents, Resolve, PluginApi, Flush, PluginVerdict;
    var stage := StageOf(s.ctx, action.pid);
    var found := Resolve(game, s.ctx, stage, action.move);
    if found.Found? {
      var api := PluginApi(game, s, action.pid);
      var o := found.move.run(HookIn(s.g, s.ctx, action.pid, None, [], api), action.args);
      var env := Absorb(Env([], [], [], [], api), o.out);
      var moved := s.(g := o.out.g, log := s.log + [StepEntry(s, action, stage, parent)]);
      PluginsBlind(game, s, action.pid, api);
      PluginsBlind(game, moved, action.pid, env.api);
      PluginsBlind(game, Flush(game, moved, env.api), action.pid, env.api);
      StepDrainBlind(game, Flush(game, moved, env.api), env, action.pid, rounds);
    }
  }

  lemma {:induction false} CascadeBlind(game: Game, s: State, parent: int, depth: nat, rounds: nat)
    requires depth <= MAX_DRAIN_DEPTH
    ensures DrainQueue(game, Bare(s), parent, depth, rounds) == BareOutcome(DrainQueue(game, s, parent, depth, rounds))
    decreases MAX_DRAIN_DEPTH - depth
  {
    hide ApplyStep;
    if !Resting(s) && depth + 1 <= MAX_DRAIN_DEPTH {
      var popped := s.(queue := s.queue[1..]);
      StepBlind(game, popped, s.queue[0], parent, rounds);
      var step := ApplyStep(game, popped, s.queue[0], parent, rounds);
      if step.Done? { CascadeBlind(game, step.value, parent, depth + 1, rounds); }
    }
  }

  // ---- an external move -------------------------------------------------------------------------------------

  function BareAdmission(a: Admission): Admission {
    if a.Admitted? then a.(st := Bare(a.st)) else a
  }

  lemma AdmitBlind(game: Game, s: State, req: Request)
    ensures Admit(game, Bare(s), req) == BareAdmission(Admit(game, s, req))
  {
    hide FindBlock, Resolve, AuthorizedStage, RemoveAt;
  }

  /** The move plays alike; only the snapshot it takes shows what the stacks were. */
  lemma PlayMoveBlind(game: Game, a: Admission, req: Request)
    requires a.Admitted?
    ensures
      var p, q := PlayMove(game, a, req), PlayMove(game, BareAdmission(a), req);
      if p.Done? then q.Done? && q.value.(st := Bare(q.value.st)) == p.value.(st := Bare(p.value.st)) else q == p
  {
  }

  lemma CountMoveBlind(game: Game, a: Admission, p: Played, req: Request)
    requires a.Admitted?
    ensures
      var r := CountMove(game, a, p, req);
      CountMove(game, BareAdmission(a), p.(st := Bare(p.st)), req) == r.(d := BareDrain(r.d))
  {
  }

  /** An external move gets the same answer whatever the undo and redo stacks hold. */
  lemma ApplyBlind(game: Game, s: State, t: State, req: Request, rounds: nat)
    requires Bare(s) == Bare(t)
    ensures BareOutcome(Apply(game, s, req, rounds)) == BareOutcome(Apply(game, t, req, rounds))
  {
    ApplyBare(game, s, req, rounds);
    ApplyBare(game, t, req, rounds);
  }

  lemma ApplyBare(game: Game, s: State, req: Request, rounds: nat)
    ensures BareOutcome(Apply(game, s, req, rounds)) == BareOutcome(Apply(game, Bare(s), req, rounds))
  {
    hide Admit, PlayMove, CountMove, Settle, DrainQueue;
    var a := Admit(game, s, req);
    AdmitBlind(game, s, req);
    if a.Admitted? {
      PlayMoveBlind(game, a, req);
      if PlayMove(game, a, req).Done? {
        var p, q := PlayMove(game, a, req).value, PlayMove(game, BareAdmission(a), req).value;
        FinishBare(game, a, p, q, req, rounds);
      }
    }
  }

  /** The rest of a move, from two results of PlayMove that differ in their stacks only. */
  lemma FinishBare(game: Game, a: Admission, p: Played, q: Played, req: Request, rounds: nat)
    requires a.Admitted? && q.(st := Bare(q.st)) == p.(st := Bare(p.st))
    ensures
      var x := Settle(game, CountMove(game, a, p, req), a.move, rounds);
      var y := Settle(game, CountMove(game, BareAdmission(a), q, req), a.move, rounds);
      && BareSettled(x) == BareSettled(y)
      && (x.Done? ==>
            forall parent: int ::
              BareOutcome(Cascade(game, x.value.st, x.value.env, parent, rounds)) ==
              BareOutcome(Cascade(game, y.value.st, y.value.env, parent, rounds)))
  {
    hide CountMove, Settle, DrainQueue;
    var b := BareAdmission(a);
    assert BareAdmission(b) == b;
    CountMoveBlind(game, a, p, req);
    CountMoveBlind(game, b, q, req);
    SettleBlind(game, CountMove(game, a, p, req), a.move, rounds);
    SettleBlind(game, CountMove(game, b, q, req), a.move, rounds);
    var x := Settle(game, CountMove(game, a, p, req), a.move, rounds);
    var y := Settle(game, CountMove(game, b, q, req), a.move, rounds);
    if x.Done? {
      forall parent: int
        ensures BareOutcome(Cascade(game, x.value.st, x.value.env, parent, rounds)) ==
                BareOutcome(Cascade(game, y.value.st, y.value.env, parent, rounds))
      {
        var v, w := Harvest(x.value.st, x.value.env), Harvest(y.value.st, y.value.env);
        assert Bare(v) == Bare(w);
        CascadeBlind(game, v, parent, 0, rounds);
        CascadeBlind(game, w, parent, 0, rounds);
      }
    }
  }
}
