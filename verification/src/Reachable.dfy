/**
 Whole runs. A match starts with NewMatch and goes on by external moves, forced turn ends, undo and redo, in any
 order; a refused call changes nothing, except that Redo hands back its input with the entry already popped and the
 caller may go on from that. Under a law of the game, the law's invariant holds in every state of every
 such run, and with the `orders` law no call of any run panics.
 */
module Reachable {
  import opened Engine
  import opened Transitions
  import opened Reducer
  import opened Laws

  /** What one call or cascade step may do to a state under a law. */
  ghost predicate Steps(k: Law, s: State, r: Outcome<State>) {
    && (k.orders ==> !r.Panicked?)
    && (r.Done? ==>
          && StateInv(k, r.value) && s.log <= r.value.log && s.stateID <= r.value.stateID
          && ("move" in k.reserved ==> Unwritten({"move"}, s.log, r.value.log))
          && (k.unchained ==> r.value.stateID == s.stateID)
          && StackRule(k, s, r.value))
  }

  lemma ResolveOk(k: Law, game: Game, ctx: Ctx, stage: string, name: string)
    requires GameOk(k, game)
    ensures Resolve(game, ctx, stage, name).Found? ==> MoveOk(k, Resolve(game, ctx, stage, name).move)
  {
    LookupStageOk(k, game, ctx.phase, stage);
    ScopeMovesOk(k, game, ctx.phase);
  }

  // ---- cascade steps ----------------------------------------------------------------------------------------

  /** The machine a drain step hands to the event drain. */
  lemma StepMachineOk(k: Law, game: Game, s: State, action: Action, entry: LogEntry, o: HookOut, api: Option<Value>)
    requires GameOk(k, game) && StateInv(k, s) && OutOk(k, o)
    ensures
      var env := Absorb(Env([], [], [], [], api), o);
      Inv(k, Machine(Flush(game, s.(g := o.g, log := s.log + [entry]), env.api), env, false))
  {
    AbsorbOk(k, Env([], [], [], [], api), o);
  }

  lemma RunStepKeeps(k: Law, game: Game, s: State, action: Action, parent: int, rounds: nat)
    requires GameOk(k, game) && StateInv(k, s)
    ensures
      var r := RunStep(game, s, action, parent, rounds);
      Steps(k, s, if r.Done? then Done(r.value.0) else if r.Panicked? then Panicked else Unfinished)
  {
    hide DrainEvents, Resolve, PluginApi;
    var stage := StageOf(s.ctx, action.pid);
    var found := Resolve(game, s.ctx, stage, action.move);
    ResolveOk(k, game, s.ctx, stage, action.move);
    if found.Found? {
      var api := PluginApi(game, s, action.pid);
      var o := found.move.run(HookIn(s.g, s.ctx, action.pid, None, [], api), action.args);
      assert OutOk(k, o.out);
      var entry := StepEntry(s, action, stage, parent);
      StepMachineOk(k, game, s, action, entry, o.out, api);
      var env := Absorb(Env([], [], [], [], api), o.out);
      var m := Machine(Flush(game, s.(g := o.out.g, log := s.log + [entry]), env.api), env, false);
      var d := DrainEvents(game, Drain(m, action.pid, 0), rounds);
      if d.Some? {
        DrainEventsKeeps(k, game, Drain(m, action.pid, 0), rounds);
        NotedOk(k, o.out, s.ctx);
      }
    }
  }

  lemma ApplyStepKeeps(k: Law, game: Game, s: State, action: Action, parent: int, rounds: nat)
    requires GameOk(k, game) && StateInv(k, s)
    ensures Steps(k, s, ApplyStep(game, s, action, parent, rounds))
  {
    RunStepKeeps(k, game, s, action, parent, rounds);
  }

  lemma ThenSteps(k: Law, s: State, t: State, r: Outcome<State>)
    requires Steps(k, s, Done(t)) && Steps(k, t, r)
    ensures Steps(k, s, r)
  {
  }

  lemma {:induction false} DrainQueueKeeps(k: Law, game: Game, s: State, parent: int, depth: nat, rounds: nat)
    requires GameOk(k, game) && StateInv(k, s) && depth <= MAX_DRAIN_DEPTH
    ensures Steps(k, s, DrainQueue(game, s, parent, depth, rounds))
    decreases MAX_DRAIN_DEPTH - depth
  {
    hide ApplyStep, GameOk, StateInv;
    if !Resting(s) && depth + 1 <= MAX_DRAIN_DEPTH {
      var popped := s.(queue := s.queue[1..]);
      var step := ApplyStep(game, popped, s.queue[0], parent, rounds);
      QueueIsFree(k, s, popped.queue);
      ApplyStepKeeps(k, game, popped, s.queue[0], parent, rounds);
      PoppedSteps(k, s, step);
      if step.Done? {
        DrainQueueKeeps(k, game, step.value, parent, depth + 1, rounds);
        ThenSteps(k, s, step.value, DrainQueue(game, step.value, parent, depth + 1, rounds));
      }
    }
  }

  lemma QueueIsFree(k: Law, s: State, queue: seq<Action>)
    requires StateInv(k, s)
    ensures StateInv(k, s.(queue := queue))
  {
  }

  lemma PoppedSteps(k: Law, s: State, r: Outcome<State>)
    requires s.queue != [] && Steps(k, s.(queue := s.queue[1..]), r)
    ensures Steps(k, s, r)
  {
  }

  lemma CascadeKeeps(k: Law, game: Game, s: State, env: Env, parent: int, rounds: nat)
    requires GameOk(k, game) && StateInv(k, s)
    ensures Steps(k, s, Cascade(game, s, env, parent, rounds))
  {
    DrainQueueKeeps(k, game, Harvest(s, env), parent, 0, rounds);
  }

  // ---- an external move -------------------------------------------------------------------------------------

  lemma AdmitOk(k: Law, game: Game, s: State, req: Request)
    requires GameOk(k, game) && StateInv(k, s) && Admit(game, s, req).Admitted?
    ensures
      var a := Admit(game, s, req);
      MoveOk(k, a.move) && StateInv(k, a.st) && a.st.log == s.log && a.st.stateID == s.stateID
  {
    var ctx := s.ctx.(nowMs := req.nowMs);
    ResolveOk(k, game, ctx, AuthorizedStage(ctx, req.pid).0, req.move);
  }

  lemma PlayMoveKeeps(k: Law, game: Game, a: Admission, req: Request)
    requires GameOk(k, game) && a.Admitted? && MoveOk(k, a.move) && StateInv(k, a.st)
    requires PlayMove(game, a, req).Done?
    ensures
      var p := PlayMove(game, a, req).value;
      StateInv(k, p.st) && EventsOk(k, p.env.events) && NotesOk(k, p.notes)
  {
    var s := a.st;
    var api := PluginApi(game, s, req.pid);
    var o := a.move.run(HookIn(s.g, s.ctx, req.pid, a.resuming, [], api), req.args);
    assert OutOk(k, o.out);
    AbsorbOk(k, Env([], [], [], [], api), o.out);
    NotedOk(k, o.out, s.ctx);
    SnapshotKept(k, s);
  }

  lemma CountMoveKeeps(k: Law, game: Game, a: Admission, p: Played, req: Request)
    requires GameOk(k, game) && a.Admitted? && StateInv(k, p.st) && EventsOk(k, p.env.events)
    requires NotesOk(k, p.notes)
    ensures
      var r := CountMove(game, a, p, req);
      Inv(k, r.d.m) && NotesOk(k, r.extra)
  {
    ScopeTurnOk(k, game, p.st.ctx.phase);
    var turn := game.ScopeTurn(p.st.ctx.phase);
    var hook := if turn.None? then None else turn.value.onMove;
    var after := if hook.None? then HookOut(p.st.g, [], [], p.env.raised, [], [], p.env.api)
                 else hook.value(HookIn(p.st.g, p.st.ctx, req.pid, a.resuming, p.env.raised, p.env.api));
    assert OutOk(k, after);
    AbsorbOk(k, p.env, after);
    NotedOk(k, after, p.st.ctx);
  }

  lemma SnapshotKept(k: Law, s: State)
    requires StateInv(k, s)
    ensures SnapshotsOk(k, s.snapshots + [Snapshot(s)])
  {
  }

  lemma AutoEndKeeps(k: Law, s: State)
    requires StateInv(k, s)
    ensures StateInv(k, AutoEnd(s)) && AutoEnd(s).snapshots == s.snapshots && AutoEnd(s).undone == s.undone
  {
    if s.ctx.active.Some? && Spent(s) != {} {
      var left := LeaveAll(s, Spent(s));
      if left.ctx.active == Some(map[]) { DrainActiveKeeps(k, left); }
    }
  }

  lemma CheckGameEndKeeps(k: Law, game: Game, m: Machine, pid: Pid)
    requires GameOk(k, game) && Inv(k, m)
    ensures Evolves(k, m, CheckGameEnd(game, m, pid))
  {
    if m.st.ctx.gameover.None? && game.endIf.Some? {
      var c := game.endIf.value(Input(m, pid));
      AbsorbOk(k, m.env, c.out);
      var asked := m.(env := Absorb(m.env, c.out));
      if c.verdict.Some? {
        RunHookKeeps(k, game.onEnd, asked.(st := m.st.(ctx := m.st.ctx.(gameover := c.verdict))), "");
      }
    }
  }

  lemma AskedKeeps(k: Law, m: Machine, o: HookOut)
    requires Inv(k, m) && OutOk(k, o)
    ensures Evolves(k, m, m.(env := Absorb(m.env, o)))
  {
    AbsorbOk(k, m.env, o);
  }

  lemma CheckPhaseEndKeeps(k: Law, game: Game, m: Machine)
    requires GameOk(k, game) && Inv(k, m)
    ensures Evolves(k, m, CheckPhaseEnd(game, m))
  {
    hide Inv, LeavePhase, Evolves;
    var phase := m.st.ctx.phase;
    SameEvolves(k, m);
    if phase != "" && phase in game.phases && game.phases[phase].endIf.Some? {
      var c := game.phases[phase].endIf.value(Input(m, ""));
      AskedKeeps(k, m, c.out);
      var asked := m.(env := Absorb(m.env, c.out));
      if c.verdict.0 {
        EvolvedInv(k, m, asked);
        LeavePhaseKeeps(k, game, asked, c.verdict.1);
        Chain(k, m, asked, LeavePhase(game, asked, c.verdict.1));
      }
    }
  }

  lemma SameEvolves(k: Law, m: Machine)
    requires Inv(k, m)
    ensures Evolves(k, m, m)
  {
  }

  lemma EvolvedInv(k: Law, m: Machine, r: Machine)
    requires Evolves(k, m, r)
    ensures Inv(k, r)
  {
  }

  lemma TurnVerdictKeeps(k: Law, turn: Turn, m: Machine, move: Move)
    requires TurnOk(k, turn) && Inv(k, m)
    ensures
      var (asked, next) := TurnVerdict(turn, m, move);
      Evolves(k, m, asked)
  {
    if turn.endIf.Some? { AbsorbOk(k, m.env, turn.endIf.value(Input(m, "")).out); }
  }

  lemma CheckTurnEndKeeps(k: Law, game: Game, m: Machine, move: Move)
    requires GameOk(k, game) && Inv(k, m)
    ensures Evolves(k, m, CheckTurnEnd(game, m, move))
  {
    hide GameOk, Inv, FinishTurn, TurnOk, TurnVerdict;
    ScopeTurnOk(k, game, m.st.ctx.phase);
    var turn := game.ScopeTurn(m.st.ctx.phase);
    if turn.Some? {
      TurnVerdictKeeps(k, turn.value, m, move);
      var (asked, next) := TurnVerdict(turn.value, m, move);
      if next.Some? {
        FinishTurnKeeps(k, game, asked, next.value);
        Chain(k, m, asked, FinishTurn(game, asked, next.value));
      }
    }
  }

  lemma CheckEndsKeeps(k: Law, game: Game, m: Machine, pid: Pid, move: Move)
    requires GameOk(k, game) && Inv(k, m)
    ensures Evolves(k, m, CheckEnds(game, m, pid, move))
  {
    hide GameOk, CheckGameEnd, CheckPhaseEnd, CheckTurnEnd, AutoEnd;
    var ended := CheckGameEnd(game, m, pid);
    CheckGameEndKeeps(k, game, m, pid);
    if ended.st.ctx.gameover.None? {
      var phased := CheckPhaseEnd(game, ended);
      CheckPhaseEndKeeps(k, game, ended);
      Chain(k, m, ended, phased);
      var auto := phased.(st := AutoEnd(phased.st));
      AutoEndKeeps(k, phased.st);
      Chain(k, m, phased, auto);
      CheckTurnEndKeeps(k, game, auto, move);
      Chain(k, m, auto, CheckTurnEnd(game, auto, move));
    }
  }

  lemma SettleKeeps(k: Law, game: Game, r: Running, move: Move, rounds: nat)
    requires GameOk(k, game) && Inv(k, r.d.m)
    requires NotesOk(k, r.extra)
    ensures
      var out := Settle(game, r, move, rounds);
      && Steps(k, r.d.m.st, if out.Done? then Done(out.value.st) else if out.Panicked? then Panicked else Unfinished)
      && (out.Done? ==> r.d.m.env.pending <= out.value.env.pending && r.d.m.env.drops <= out.value.env.drops)
  {
    hide DrainEvents, CheckEnds, GameOk, WithoutBlocksFor;
    var first := DrainEvents(game, r.d, rounds);
    if first.Some? {
      DrainEventsKeeps(k, game, r.d, rounds);
      var checked := CheckEnds(game, first.value.m, r.d.pid, move);
      CheckEndsKeeps(k, game, first.value.m, r.d.pid, move);
      Chain(k, r.d.m, first.value.m, checked);
      var second := DrainEvents(game, first.value.(m := checked), rounds);
      if second.Some? {
        DrainEventsKeeps(k, game, first.value.(m := checked), rounds);
        Chain(k, r.d.m, checked, second.value.m);
      }
    }
  }

  /**
   What an accepted move does to a state under a law: the invariant is kept, exactly one "move" entry is written,
   right after the old log and built from the request, and StateID goes up by exactly one if no move is chained.
   */
  ghost predicate Accepts(k: Law, s: State, req: Request, r: Outcome<State>) {
    && (k.orders ==> !r.Panicked?)
    && (r.Done? ==>
          && StateInv(k, r.value) && s.log < r.value.log
          && r.value.log[|s.log|].kind == "move" && Recorded(r.value.log[|s.log|]) == Trimmed(req)
          && ("move" in k.reserved ==> Unwritten({"move"}, r.value.log[..|s.log| + 1], r.value.log))
          && (k.unchained ==> r.value.stateID == s.stateID + 1))
  }

  /** The request with what the log does not record removed. */
  function Trimmed(req: Request): Request {
    req.(stateID := 0, fromClient := false)
  }

  /** From the admitted state to the end of both event drains. */
  lemma MoveSettles(k: Law, game: Game, s: State, req: Request, rounds: nat)
    requires GameOk(k, game) && StateInv(k, s)
    requires Admit(game, s, req).Admitted? && PlayMove(game, Admit(game, s, req), req).Done?
    ensures
      var a := Admit(game, s, req);
      var p := PlayMove(game, a, req).value;
      var out := Settle(game, CountMove(game, a, p, req), a.move, rounds);
      && Steps(k, p.st, if out.Done? then Done(out.value.st) else if out.Panicked? then Panicked else Unfinished)
      && p.st.stateID == s.stateID + 1 && |p.st.log| == |s.log| + 1 && s.log <= p.st.log
      && p.st.ctx == s.ctx.(nowMs := req.nowMs)
      && p.st.log[|s.log|].kind == "move" && Recorded(p.st.log[|s.log|]) == Trimmed(req)
      && (out.Done? ==> p.env.pending <= out.value.env.pending && p.env.drops <= out.value.env.drops)
  {
    hide Admit, PlayMove, CountMove, Settle, GameOk, StateInv;
    var a := Admit(game, s, req);
    AdmitOk(k, game, s, req);
    PlayedEntry(game, s, req);
    var p := PlayMove(game, a, req).value;
    PlayMoveKeeps(k, game, a, req);
    CountMoveKeeps(k, game, a, p, req);
    SettleKeeps(k, game, CountMove(game, a, p, req), a.move, rounds);
    CountedPending(game, a, p, req);
  }

  /** PlayMove's own entry, and the context it leaves alone. */
  lemma PlayedEntry(game: Game, s: State, req: Request)
    requires Admit(game, s, req).Admitted? && PlayMove(game, Admit(game, s, req), req).Done?
    ensures
      var p := PlayMove(game, Admit(game, s, req), req).value;
      && p.st.stateID == s.stateID + 1 && |p.st.log| == |s.log| + 1 && s.log <= p.st.log
      && p.st.ctx == s.ctx.(nowMs := req.nowMs)
      && p.st.log[|s.log|].kind == "move" && Recorded(p.st.log[|s.log|]) == Trimmed(req)
  {
    hide PlayMove;
  }

  /** OnMove adds to the queues the move filled. */
  lemma CountedPending(game: Game, a: Admission, p: Played, req: Request)
    requires a.Admitted?
    ensures
      var env := CountMove(game, a, p, req).d.m.env;
      p.env.pending <= env.pending && p.env.drops <= env.drops
  {
    hide Bump;
  }

  lemma ApplyKeeps(k: Law, game: Game, s: State, req: Request, rounds: nat)
    requires GameOk(k, game) && StateInv(k, s)
    ensures Accepts(k, s, req, Apply(game, s, req, rounds))
  {
    hide Admit, PlayMove, Settle, Cascade, CountMove, GameOk, StateInv;
    var a := Admit(game, s, req);
    if a.Admitted? && PlayMove(game, a, req).Done? {
      MoveSettles(k, game, s, req, rounds);
      var p := PlayMove(game, a, req).value;
      var settled := Settle(game, CountMove(game, a, p, req), a.move, rounds);
      if settled.Done? {
        CascadeKeeps(k, game, settled.value.st, settled.value.env, |s.log|, rounds);
        ThenSteps(k, p.st, settled.value.st, Cascade(game, settled.value.st, settled.value.env, |s.log|, rounds));
      }
    }
  }

  // ---- the other calls --------------------------------------------------------------------------------------

  lemma ForcedTurnKeeps(k: Law, game: Game, s: State, rounds: nat)
    requires GameOk(k, game) && StateInv(k, s)
    ensures
      var out := ForcedTurn(game, s, rounds);
      Steps(k, s, if out.Done? then Done(out.value.st) else if out.Panicked? then Panicked else Unfinished)
  {
    hide FinishTurn, DrainEvents, PluginApi, GameOk, WithoutBlocksFor, IndexOf;
    var m := Machine(s, Env([], [], [], [], PluginApi(game, s, "")), false);
    var ended := FinishTurn(game, m, "");
    FinishTurnKeeps(k, game, m, "");
    var d := DrainEvents(game, Drain(ended, "", 0), rounds);
    if d.Some? {
      DrainEventsKeeps(k, game, Drain(ended, "", 0), rounds);
      Chain(k, m, ended, d.value.m);
      var drops := WithoutBlocksFor(d.value.m.st.blocks, [s.ctx.currentPlayer] + d.value.m.env.drops);
      hide Evolves, StateInv, KeepsMachine, KeepsDrain;
      FlushedSteps(k, game, m, d.value.m, drops);
    }
  }

  /** Plugin data and pending blocks are free. */
  lemma FlushedSteps(k: Law, game: Game, m: Machine, r: Machine, blocks: seq<Block>)
    requires Evolves(k, m, r) && m.st.log <= r.st.log && m.st.stateID <= r.st.stateID
    ensures Steps(k, m.st, Done(Flush(game, r.st, r.env.api).(blocks := blocks)))
  {
  }

  lemma ForceEndTurnKeeps(k: Law, game: Game, s: State, rounds: nat)
    requires GameOk(k, game) && StateInv(k, s)
    ensures
      var r := ForceEndTurn(game, s, rounds);
      && (k.orders ==> !r.Panicked?)
      && (r.Done? ==>
            StateInv(k, r.value) && s.log <= r.value.log && r.value.stateID == s.stateID + 1 && StackRule(k, s, r.value))
      && (r.Done? && "move" in k.reserved ==> Unwritten({"move"}, s.log, r.value.log))
  {
    hide ForcedTurn, Cascade, GameOk;
    if s.ctx.gameover.None? {
      var turned := ForcedTurn(game, s, rounds);
      ForcedTurnKeeps(k, game, s, rounds);
      if turned.Done? { CascadeKeeps(k, game, turned.value.st, turned.value.env, -1, rounds); }
    }
  }

  lemma UndoKeeps(k: Law, game: Game, s: State)
    requires StateInv(k, s)
    ensures !Undo(game, s).Panicked? && (Undo(game, s).Done? ==> StateInv(k, Undo(game, s).value))
  {
    if s.snapshots != [] {
      assert s.snapshots[|s.snapshots| - 1] in s.snapshots;
    }
  }

  // ---- match setup ------------------------------------------------------------------------------------------

  /** A numeral of two digits or more ends in its last digit, after the numeral of the rest. */
  lemma ItoaSplits(n: nat)
    requires n >= 10
    ensures
      var s := Itoa(n);
      |s| >= 2 && s[..|s| - 1] == Itoa(n / 10) && s[|s| - 1] == Digit(n % 10)
  {
    assert Itoa(n)[..|Itoa(n)| - 1] == Itoa(n / 10);
  }

  lemma DigitInjective(a: int, b: int)
    requires 0 <= a < 10 && 0 <= b < 10 && Digit(a) == Digit(b)
    ensures a == b
  {
  }

  lemma SameDigitsSame(a: nat, b: nat)
    requires a / 10 == b / 10 && a % 10 == b % 10
    ensures a == b
  {
  }

  lemma {:induction false} ItoaInjective(a: nat, b: nat)
    requires Itoa(a) == Itoa(b)
    ensures a == b
    decreases a
  {
    hide Digit;
    if a >= 10 { ItoaSplits(a); }
    if b >= 10 { ItoaSplits(b); }
    if a >= 10 && b >= 10 {
      hide Itoa;
      ItoaInjective(a / 10, b / 10);
      DigitInjective(a % 10, b % 10);
      SameDigitsSame(a, b);
    } else if a < 10 && b < 10 {
      DigitInjective(a, b);
    }
  }

  lemma DefaultOrderDistinct(n: nat)
    ensures Distinct(DefaultOrder(n))
  {
    forall i, j | 0 <= i < j < n ensures DefaultOrder(n)[i] != DefaultOrder(n)[j] {
      if Itoa(i) == Itoa(j) { ItoaInjective(i, j); }
    }
  }

  lemma PlayerCountPositive(game: Game, requested: int)
    ensures game.PlayerCount(requested) >= 1
  {
  }

  lemma FirstStateOk(k: Law, game: Game, requested: int, setupData: Value, seed: int)
    ensures StateInv(k, FirstState(game, requested, setupData, seed))
  {
    PlayerCountPositive(game, requested);
    DefaultOrderDistinct(game.PlayerCount(requested));
  }

  lemma SetUpKeeps(k: Law, game: Game, requested: int, setupData: Value, seed: int, rounds: nat)
    requires GameOk(k, game)
    ensures
      var out := SetUp(game, requested, setupData, seed, rounds);
      && (k.orders ==> !out.Panicked?)
      && (out.Done? ==>
            && StateInv(k, out.value.st) && out.value.st.snapshots == []
            && ("move" in k.reserved ==> Unwritten({"move"}, [], out.value.st.log)))
  {
    var s := FirstState(game, requested, setupData, seed);
    FirstStateOk(k, game, requested, setupData, seed);
    var m := Machine(s, Env([], [], [], [], PluginApi(game, s, "")), false);
    var begun := EnterPhase(game, m);
    EnterPhaseKeeps(k, game, m);
    var d := DrainEvents(game, Drain(begun, "", 0), rounds);
    if d.Some? {
      DrainEventsKeeps(k, game, Drain(begun, "", 0), rounds);
      Chain(k, m, begun, d.value.m);
    }
  }

  lemma NewMatchKeeps(k: Law, game: Game, requested: int, setupData: Value, seed: int, rounds: nat)
    requires GameOk(k, game)
    ensures
      var r := NewMatch(game, requested, setupData, seed, rounds);
      && (k.orders ==> !r.Panicked?)
      && (r.Done? ==>
            && StateInv(k, r.value) && r.value.snapshots == []
            && ("move" in k.reserved ==> Unwritten({"move"}, [], r.value.log)))
  {
    hide SetUp, GameOk;
    var m := SetUp(game, requested, setupData, seed, rounds);
    SetUpKeeps(k, game, requested, setupData, seed, rounds);
    if m.Done? { CascadeKeeps(k, game, m.value.st, m.value.env, -1, rounds); }
  }

  // ---- runs -------------------------------------------------------------------------------------------------

  /** `adopts`: after a refusal the caller goes on from the state Redo handed back with it. */
  datatype Call = External(req: Request) | TimeOut | UndoLast | RedoLast(adopts: bool)

  function Do(game: Game, s: State, call: Call, rounds: nat): Outcome<State> {
    match call
    case External(req) => Apply(game, s, req, rounds)
    case TimeOut => ForceEndTurn(game, s, rounds)
    case UndoLast => Undo(game, s)
    case RedoLast(_) => Redo(game, s, rounds)
  }

  /** The state a refused call leaves its caller with. */
  function LeftBy(game: Game, s: State, call: Call): State {
    if call.RedoLast? && call.adopts && !game.disableUndo && s.ctx.gameover.None? && s.undone != []
    then s.(undone := s.undone[..|s.undone| - 1]) else s
  }

  /** The state after a list of calls: a refused one takes no effect, a panic or an endless drain ends the run. */
  function After(game: Game, s: State, calls: seq<Call>, rounds: nat): Outcome<State>
    decreases |calls|
  {
    if calls == [] then Done(s)
    else
      var r := Do(game, s, calls[0], rounds);
      match r
      case Done(t) => After(game, t, calls[1..], rounds)
      case Refused(_) => After(game, LeftBy(game, s, calls[0]), calls[1..], rounds)
      case Panicked => Panicked
      case Unfinished => Unfinished
  }

  lemma DoKeeps(k: Law, game: Game, s: State, call: Call, rounds: nat)
    requires GameOk(k, game) && StateInv(k, s)
    ensures
      var r := Do(game, s, call, rounds);
      (k.orders ==> !r.Panicked?) && (r.Done? ==> StateInv(k, r.value))
  {
    match call
    case External(req) => ApplyKeeps(k, game, s, req, rounds);
    case TimeOut => ForceEndTurnKeeps(k, game, s, rounds);
    case UndoLast => UndoKeeps(k, game, s);
    case RedoLast(_) =>
      if !game.disableUndo && s.ctx.gameover.None? && s.undone != [] {
        var e := s.undone[|s.undone| - 1];
        ApplyKeeps(k, game, s.(undone := s.undone[..|s.undone| - 1]),
                   Request(e.pid, e.move, e.args, 0, "", 0, e.serverDispatch, false), rounds);
      }
  }

  lemma {:induction false} AfterKeeps(k: Law, game: Game, s: State, calls: seq<Call>, rounds: nat)
    requires GameOk(k, game) && StateInv(k, s)
    ensures
      var r := After(game, s, calls, rounds);
      (k.orders ==> !r.Panicked?) && (r.Done? ==> StateInv(k, r.value))
    decreases |calls|
  {
    if calls != [] {
      var r := Do(game, s, calls[0], rounds);
      DoKeeps(k, game, s, calls[0], rounds);
      if r.Done? { AfterKeeps(k, game, r.value, calls[1..], rounds); }
      else if r.Refused? { AfterKeeps(k, game, LeftBy(game, s, calls[0]), calls[1..], rounds); }
    }
  }

  /** A whole match: setup, then any calls. */
  function Match(game: Game, requested: int, setupData: Value, seed: int, calls: seq<Call>, rounds: nat): Outcome<State> {
    var s := NewMatch(game, requested, setupData, seed, rounds);
    if s.Done? then After(game, s.value, calls, rounds) else s
  }

  /** The law's invariant holds in every state of every match. */
  lemma MatchKeeps(k: Law, game: Game, requested: int, setupData: Value, seed: int, calls: seq<Call>, rounds: nat)
    requires GameOk(k, game)
    ensures
      var r := Match(game, requested, setupData, seed, calls, rounds);
      (k.orders ==> !r.Panicked?) && (r.Done? ==> StateInv(k, r.value))
  {
    hide NewMatch, After, GameOk, StateInv;
    NewMatchKeeps(k, game, requested, setupData, seed, rounds);
    var s := NewMatch(game, requested, setupData, seed, rounds);
    if s.Done? { AfterKeeps(k, game, s.value, calls, rounds); }
  }

  /** In every state of every match of a tame game, the active set and every Revert frame is nil or non-empty. */
  lemma ActiveSetsNeverEmpty(game: Game, requested: int, setupData: Value, seed: int, calls: seq<Call>, rounds: nat)
    requires GameOk(Law(true, false, {}, false, false, false), game)
    ensures
      var r := Match(game, requested, setupData, seed, calls, rounds);
      r.Done? ==> LiveSetsOk(r.value)
  {
    hide Match, GameOk;
    MatchKeeps(Law(true, false, {}, false, false, false), game, requested, setupData, seed, calls, rounds);
  }

  /**
   In every state of every match with built-in turn orders over distinct seats, whoever is forced or removed: the cursor is
   on a seat, NumPlayers has not fallen below the seats left, no call panics, and CurrentPlayer is PlayOrder[PlayOrderPos]
   if and only if CurrentPlayer is seated at all.
   */
  lemma CursorHolds(game: Game, requested: int, setupData: Value, seed: int, calls: seq<Call>, rounds: nat)
    requires GameOk(BUILT_IN, game)
    ensures
      var r := Match(game, requested, setupData, seed, calls, rounds);
      && !r.Panicked?
      && (r.Done? ==>
            && SeatedOk(r.value.ctx)
            && (CursorOk(r.value.ctx) <==> r.value.ctx.playOrder == [] || r.value.ctx.currentPlayer in r.value.ctx.playOrder))
  {
    hide Match, GameOk;
    MatchKeeps(BUILT_IN, game, requested, setupData, seed, calls, rounds);
  }

  /** The law that asks nothing, which every game obeys. */
  const FREE := Law(false, false, {}, false, false, false)

  lemma EveryOutIsFree(o: HookOut)
    ensures OutOk(FREE, o)
  {
  }

  lemma EveryTurnIsFree(turn: Turn)
    ensures TurnOk(FREE, turn)
  {
    hide OutOk;
    forall o { EveryOutIsFree(o); }
  }

  lemma EveryPhaseIsFree(phase: Phase)
    ensures PhaseOk(FREE, phase)
  {
    hide OutOk, TurnOk;
    forall o { EveryOutIsFree(o); }
    forall turn { EveryTurnIsFree(turn); }
  }

  lemma EveryGameIsFree(game: Game)
    ensures GameOk(FREE, game)
  {
    hide OutOk, TurnOk, PhaseOk;
    forall o { EveryOutIsFree(o); }
    forall turn { EveryTurnIsFree(turn); }
    forall phase { EveryPhaseIsFree(phase); }
  }
}
