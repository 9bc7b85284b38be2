/**
 core/reducer.go, core/timeout.go and core/undo.go as they run, on states that share containers.

 ApplyContext and ForceEndTurnE have no modifies clause: whatever happens at whatever depth, no stage map, Plugins map or
 Revert frame that existed before the call changes, whether it is reached from the caller's state, from one of its undo
 snapshots or from anywhere else. On any failure they hand back the very state they were given. On success every
 container of the new state is new, and the state means what the functions of Reducer say it does.
 */
module Isolation {
  import opened Engine
  import opened Containers
  import opened InPlace
  import T = Transitions
  import R = Reducer

  // ---- counters and plugins ---------------------------------------------------------------------------------

  method BumpSeat(f: Sets, pid: Pid) returns (r: Sets)
    requires OneFrame(f) && f.active != null && pid in f.active.m
    modifies Cells(f)
    ensures OneFrame(r) && fresh(Cells(r) - Cells(f))
    ensures
      var was := old(FrameOf(f));
      FrameOf(r) == was.(counts := Some((if was.counts.None? then map[] else was.counts.value)[
        pid := R.CountOf(was.counts, pid) + 1]))
  {
    var counts := f.counts;
    if counts == null {
      counts := new Counts(map[]);
    }
    counts.m := counts.m[pid := (if pid in counts.m then counts.m[pid] else 0) + 1];
    r := f.(counts := counts);
  }

  /** bumpStageMoveCount. */
  method Bump(b: Box, pid: Pid) returns (r: Box)
    requires Apart(b)
    modifies Cells(b.live)
    ensures Apart(r) && fresh(Foot(r) - Foot(b))
    ensures Opened(r) == R.Bump(old(Opened(b)), pid)
  {
    hide R.CountOf, R.Bump, OneFrame, StackApart, Opened, Assembled;
    r := b;
    IsAssembled(b);
    ghost var data, frames := DataOf(b.plugins), StackOf(b.stack);
    BumpedLive(b.rest, FrameOf(b.live), data, frames, pid);
    if b.live.active != null && pid in b.live.active.m {
      var live := BumpSeat(b.live, pid);
      assert StackOf(b.stack) == frames;
      r := b.(live := live);
      IsAssembled(r);
    }
  }

  /** A state put together from what its containers hold. */
  ghost function Assembled(rest: State, live: Frame, data: Option<map<string, Value>>, stack: seq<Frame>): State {
    rest.(ctx := rest.ctx.(active := live.active), counts := live.counts, stageMin := live.min, stageMax := live.max,
          plugins := data, stack := stack, snapshots := [])
  }

  lemma IsAssembled(b: Box)
    ensures Opened(b) == Assembled(b.rest, FrameOf(b.live), DataOf(b.plugins), StackOf(b.stack))
  {
  }

  /** Counting a move touches the live counts only. */
  lemma BumpedLive(rest: State, live: Frame, data: Option<map<string, Value>>, stack: seq<Frame>, pid: Pid)
    ensures
      R.Bump(Assembled(rest, live, data, stack), pid) ==
      if live.active.None? || pid !in live.active.value then Assembled(rest, live, data, stack)
      else
        var counts := if live.counts.None? then map[] else live.counts.value;
        Assembled(rest, live.(counts := Some(counts[pid := R.CountOf(live.counts, pid) + 1])), data, stack)
  {
  }

  lemma BumpMeans(s: State, pid: Pid, snapshots: seq<State>)
    ensures R.Bump(s.(snapshots := snapshots), pid) == R.Bump(s, pid).(snapshots := snapshots)
  {
  }

  method BumpIn(w: Work, pid: Pid) returns (r: Work)
    requires Valid(w)
    modifies w.own
    ensures Safe(w, r) && Meaning(r) == old(Meaning(w)).(st := R.Bump(old(Denoted(w.h)), pid))
  {
    hide Apart, R.Bump, Foot, Opened, OpenedAll, SavedFoot;
    BumpMeans(Opened(w.h.box), pid, OpenedAll(w.h.saved));
    var b := Bump(w.h.box, pid);
    Reboxed(w, b);
    r := Rebox(w, b);
  }

  /** Whether a seat's stage budget is used up, as the loop of autoEndStagesByMaxMoves asks it. */
  predicate SpentSeat(f: Frame, pid: Pid) {
    R.CountOf(f.max, pid) > 0 && R.CountOf(f.counts, pid) >= R.CountOf(f.max, pid)
  }

  function Minus(f: Frame, gone: set<Pid>): Frame {
    Frame(R.WithoutAll(f.active, gone), R.WithoutAll(f.counts, gone), R.WithoutAll(f.min, gone), R.WithoutAll(f.max, gone))
  }

  lemma MinusOneMore(f: Frame, gone: set<Pid>, pid: Pid)
    ensures
      var m := Minus(f, gone);
      Frame(T.Without(m.active, pid), T.Without(m.counts, pid), T.Without(m.min, pid), T.Without(m.max, pid)) ==
        Minus(f, gone + {pid})
  {
    assert f.active.Some? ==> f.active.value - gone - {pid} == f.active.value - (gone + {pid});
    assert f.counts.Some? ==> f.counts.value - gone - {pid} == f.counts.value - (gone + {pid});
    assert f.min.Some? ==> f.min.value - gone - {pid} == f.min.value - (gone + {pid});
    assert f.max.Some? ==> f.max.value - gone - {pid} == f.max.value - (gone + {pid});
  }

  lemma MinusNone(f: Frame)
    ensures Minus(f, {}) == f
  {
    assert f.active.Some? ==> f.active.value - {} == f.active.value;
    assert f.counts.Some? ==> f.counts.value - {} == f.counts.value;
    assert f.min.Some? ==> f.min.value - {} == f.min.value;
    assert f.max.Some? ==> f.max.value - {} == f.max.value;
  }

  /** The loop of autoEndStagesByMaxMoves: range over the active map, deleting spent seats from all four maps. */
  method DeleteSpent(f: Sets) returns (changed: bool)
    requires OneFrame(f) && f.active != null
    modifies Cells(f)
    ensures
      var was := old(FrameOf(f));
      var gone := set p | p in was.active.value && SpentSeat(was, p);
      FrameOf(f) == Minus(was, gone) && (changed <==> gone != {})
  {
    hide T.Without, R.WithoutAll;
    ghost var was := FrameOf(f);
    var todo := f.active.m.Keys;
    ghost var gone: set<Pid> := {};
    changed := false;
    MinusNone(was);
    while todo != {}
      invariant FrameOf(f) == Minus(was, gone) && todo <= was.active.value.Keys
      invariant gone == set p | p in was.active.value && p !in todo && SpentSeat(was, p)
      invariant changed <==> gone != {}
      decreases todo
    {
      var pid :| pid in todo;
      todo := todo - {pid};
      CountsUntouched(was, gone, pid);
      if R.CountOf(CountsOf(f.max), pid) > 0 && R.CountOf(CountsOf(f.counts), pid) >= R.CountOf(CountsOf(f.max), pid) {
        DeleteSeat(f, pid);
        MinusOneMore(was, gone, pid);
        gone := gone + {pid};
        changed := true;
      }
    }
    assert gone == set p | p in was.active.value && SpentSeat(was, p);
  }

  lemma CountsUntouched(f: Frame, gone: set<Pid>, pid: Pid)
    requires pid !in gone
    ensures R.CountOf(Minus(f, gone).max, pid) == R.CountOf(f.max, pid)
    ensures R.CountOf(Minus(f, gone).counts, pid) == R.CountOf(f.counts, pid)
  {
  }

  method DeleteSpentFrom(b: Box) returns (changed: bool)
    requires Apart(b) && b.live.active != null
    modifies Cells(b.live)
    ensures
      var s := old(Opened(b));
      Opened(b) == R.LeaveAll(s, R.Spent(s)) && (changed <==> R.Spent(s) != {}) && (!changed ==> Opened(b) == s)
  {
    hide R.WithoutAll, R.CountOf, StackApart;
    ghost var s, was := Opened(b), FrameOf(b.live);
    assert R.Spent(s) == set p | p in was.active.value && SpentSeat(was, p);
    changed := DeleteSpent(b.live);
    assert StackOf(b.stack) == old(StackOf(b.stack));
    MinusNone(was);
  }

  /** autoEndStagesByMaxMoves. */
  method AutoEnd(b: Box) returns (r: Box)
    requires Apart(b)
    modifies Cells(b.live)
    ensures Apart(r) && fresh(Foot(r) - Foot(b))
    ensures Opened(r) == R.AutoEnd(old(Opened(b)))
  {
    hide T.DrainActive, R.LeaveAll, R.Spent, Apart, Opened, Foot;
    r := b;
    OpenedActive(b);
    if b.live.active != null {
      var changed := DeleteSpentFrom(b);
      OpenedActive(b);
      if changed && b.live.active.m == map[] {
        r := DrainActive(b);
      }
    }
  }

  lemma AutoEndMeans(s: State, snapshots: seq<State>)
    ensures R.AutoEnd(s.(snapshots := snapshots)) == R.AutoEnd(s).(snapshots := snapshots)
  {
  }

  method AutoEndIn(w: Work) returns (r: Work)
    requires Valid(w)
    modifies w.own
    ensures Safe(w, r) && Meaning(r) == old(Meaning(w)).(st := R.AutoEnd(old(Denoted(w.h))))
  {
    hide Apart, R.AutoEnd, Foot, Opened, OpenedAll, SavedFoot;
    AutoEndMeans(Opened(w.h.box), OpenedAll(w.h.saved));
    var b := AutoEnd(w.h.box);
    Reboxed(w, b);
    r := Rebox(w, b);
  }

  /** Overwrite entries of the Plugins map, allocating it if nil. */
  method WritePlugins(b: Box, updates: map<string, Value>) returns (r: Box)
    requires Apart(b)
    modifies {b.plugins} - {null}
    ensures Apart(r) && fresh(Foot(r) - Foot(b))
    ensures
      var s := old(Opened(b));
      Opened(r) == s.(plugins := Some((if s.plugins.None? then map[] else s.plugins.value) + updates))
  {
    hide Apart;
    var data := b.plugins;
    if data == null {
      data := new Data(map[]);
    }
    data.m := data.m + updates;
    r := b.(plugins := data);
    assert StackOf(b.stack) == old(StackOf(b.stack));
    PluginsApart(b, data);
  }

  lemma PluginsApart(b: Box, data: Data)
    requires Apart(b)
    ensures Apart(b.(plugins := data))
  {
  }

  /** flushPlugins. */
  method FlushIn(game: Game, w: Work) returns (r: Work)
    requires Valid(w)
    modifies w.own
    ensures Safe(w, r) && Meaning(r) == old(Meaning(w)).(st := R.Flush(game, old(Denoted(w.h)), w.env.api))
  {
    hide Apart, Foot, Opened, OpenedAll, SavedFoot;
    r := w;
    if game.plugins.Some? {
      var s := Denoted(w.h);
      var data := if s.plugins.None? then map[] else s.plugins.value;
      var b := WritePlugins(w.h.box, game.plugins.value.flush(data, w.env.api, s.g, s.ctx));
      Reboxed(w, b);
      r := Rebox(w, b);
    }
  }

  // ---- auto-end rules ---------------------------------------------------------------------------------------

  method CheckPhaseEnd(game: Game, w: Work) returns (r: Work)
    requires Valid(w)
    modifies w.own
    ensures Safe(w, r) && Meaning(r) == R.CheckPhaseEnd(game, old(Meaning(w)))
  {
    hide Valid, T.LeavePhase, T.Absorb;
    var m := Meaning(w);
    var phase := m.st.ctx.phase;
    r := w;
    if phase != "" && phase in game.phases && game.phases[phase].endIf.Some? {
      var c := game.phases[phase].endIf.value(T.Input(m, ""));
      var asked := m.(env := T.Absorb(m.env, c.out));
      PlainMeans(w, asked);
      r := Plain(w, asked);
      if c.verdict.0 {
        r := LeavePhase(game, r, c.verdict.1);
      }
    }
  }

  method CheckTurnEnd(game: Game, w: Work, move: Move) returns (r: Work)
    requires Valid(w)
    modifies w.own
    ensures Safe(w, r) && Meaning(r) == R.CheckTurnEnd(game, old(Meaning(w)), move)
  {
    hide Valid, T.FinishTurn, R.TurnVerdict;
    var m := Meaning(w);
    var turn := game.ScopeTurn(m.st.ctx.phase);
    r := w;
    if turn.Some? {
      var (asked, next) := R.TurnVerdict(turn.value, m, move);
      PlainMeans(w, asked);
      r := Plain(w, asked);
      if next.Some? {
        r := FinishTurn(game, r, next.value);
      }
    }
  }

  /** Game.EndIf, phase.EndIf, the stage budgets, turn.EndIf and Turn.MaxMoves, in that order. */
  method CheckEnds(game: Game, w: Work, pid: Pid, move: Move) returns (r: Work)
    requires Valid(w)
    modifies w.own
    ensures Safe(w, r) && Meaning(r) == R.CheckEnds(game, old(Meaning(w)), pid, move)
  {
    hide Valid, R.CheckGameEnd, R.CheckPhaseEnd, R.CheckTurnEnd, R.AutoEnd;
    var ended := R.CheckGameEnd(game, Meaning(w), pid);
    CheckGameEndIsPlain(game, Meaning(w), pid);
    PlainMeans(w, ended);
    r := Plain(w, ended);
    if ended.st.ctx.gameover.None? {
      r := CheckPhaseEnd(game, r);
      r := AutoEndIn(r);
      r := CheckTurnEnd(game, r, move);
    }
  }

  lemma CheckGameEndIsPlain(game: Game, m: Machine, pid: Pid)
    ensures SameContainers(m.st, R.CheckGameEnd(game, m, pid).st)
  {
  }

  // ---- the cascade ------------------------------------------------------------------------------------------

  /** Start work on private copies of a state's containers. */
  method NewWork(b: Box, saved: seq<Box>, env: Env, ghost kept: set<object>) returns (r: Work)
    requires SavedFoot(saved) <= kept
    ensures Valid(r) && fresh(r.own) && r.kept == kept && r.h.saved == saved && r.env == env && !r.panicked
    ensures Denoted(r.h) == old(Opened(b)).(snapshots := old(OpenedAll(saved)))
  {
    hide Opened, Apart, SavedFoot;
    var own := OwnContainers(b);
    r := Work(Held(own, saved), env, false, Foot(own), kept);
  }

  /** applyStep, on containers the caller already owns. */
  method ApplyStep(game: Game, w: Work, action: Action, parent: int, ghost rounds: nat)
    returns (r: Work, out: Outcome<()>)
    requires Valid(w) && !R.ApplyStep(game, Denoted(w.h), action, parent, rounds).Unfinished?
    modifies w.own
    ensures out.Done? ==> Safe(w, r)
    ensures
      var expected := R.ApplyStep(game, old(Denoted(w.h)), action, parent, rounds);
      match out
      case Done(_) => expected == Done(Denoted(r.h))
      case Refused(e) => expected == Refused(e)
      case Panicked => expected == Panicked
      case Unfinished => false
  {
    hide Valid, T.DrainEvents, T.Absorb, R.Resolve, R.Flush, R.PluginVerdict, R.PluginApi;
    var s := Denoted(w.h);
    var stage := T.StageOf(s.ctx, action.pid);
    var found := R.Resolve(game, s.ctx, stage, action.move);
    r := w;
    if found.Missing? {
      return r, Refused(found.error);
    }
    var api := R.PluginApi(game, s, action.pid);
    var o := found.move.run(HookIn(s.g, s.ctx, action.pid, None, [], api), action.args);
    if o.error.Some? {
      return r, Refused(o.error.value);
    }
    var env := T.Absorb(Env([], [], [], [], api), o.out);
    var moved := Machine(s.(g := o.out.g, log := s.log + [R.StepEntry(s, action, stage, parent)]), env, false);
    PlainMeans(w, moved);
    r := FlushIn(game, Plain(w, moved));
    var verdict := R.PluginVerdict(game, Denoted(r.h));
    if verdict.Some? {
      return r, Refused(verdict.value);
    }
    var count: int;
    r, count := DrainEvents(game, r, action.pid, 0, rounds);
    if r.panicked {
      return r, Panicked;
    }
    var m := Meaning(r);
    var noted := m.st.(log := m.st.log + T.AllNoted(o.out.notes, s.ctx));
    var harvested := m.(st := R.Harvest(noted, m.env));
    PlainMeans(r, harvested);
    r := Plain(r, harvested);
    out := Done(());
  }

  /**
   drainCascade. The steps run on private copies, so when one fails the state as it stood after the harvest is still
   there to hand back.
   */
  method DrainCascade(game: Game, w: Work, parent: int, ghost rounds: nat) returns (r: Work, out: Outcome<()>)
    requires Valid(w) && !R.Cascade(game, Denoted(w.h), w.env, parent, rounds).Unfinished?
    ensures Valid(r) && r.kept == w.kept && (r.own == w.own || fresh(r.own))
    ensures
      var s := old(Denoted(w.h));
      var expected := R.Cascade(game, s, w.env, parent, rounds);
      match out
      case Done(_) => expected == Done(Denoted(r.h))
      case Refused(e) => expected == Refused(e) && Denoted(r.h) == R.Harvest(s, w.env)
      case Panicked => expected == Panicked
      case Unfinished => false
  {
    hide R.ApplyStep, Opened, OpenedAll, Apart;
    var harvested := R.Harvest(Denoted(w.h), w.env);
    PlainMeans(w, Machine(harvested, w.env, w.panicked));
    var start := Plain(w, Machine(harvested, w.env, w.panicked));
    if R.Resting(harvested) {
      return start, Done(());
    }
    var copy := NewWork(start.h.box, start.h.saved, w.env, w.kept);
    r, out := RunQueue(game, copy, parent, rounds);
    if !out.Done? {
      r := start;
    }
  }

  /** drainCascade's loop, on containers it owns. */
  method RunQueue(game: Game, w: Work, parent: int, ghost rounds: nat) returns (r: Work, out: Outcome<()>)
    requires Valid(w) && !R.DrainQueue(game, Denoted(w.h), parent, 0, rounds).Unfinished?
    modifies w.own
    ensures out.Done? ==> Safe(w, r)
    ensures
      var expected := R.DrainQueue(game, old(Denoted(w.h)), parent, 0, rounds);
      match out
      case Done(_) => expected == Done(Denoted(r.h))
      case Refused(e) => expected == Refused(e)
      case Panicked => expected == Panicked
      case Unfinished => false
  {
    hide R.ApplyStep, Denoted, Valid;
    r := w;
    ghost var s := Denoted(w.h);
    var depth := 0;
    while !R.Resting(Denoted(r.h))
      invariant 0 <= depth <= R.MAX_DRAIN_DEPTH && Safe(w, r)
      invariant R.DrainQueue(game, Denoted(r.h), parent, depth, rounds) == R.DrainQueue(game, s, parent, 0, rounds)
      decreases R.MAX_DRAIN_DEPTH - depth
    {
      if depth + 1 > R.MAX_DRAIN_DEPTH {
        return r, Refused(DrainOverflow);
      }
      depth := depth + 1;
      var m := Meaning(r);
      var popped := m.(st := m.st.(queue := m.st.queue[1..]));
      PlainMeans(r, popped);
      r, out := ApplyStep(game, Plain(r, popped), m.st.queue[0], parent, rounds);
      if !out.Done? {
        return;
      }
    }
    out := Done(());
  }

  // ---- an external move -------------------------------------------------------------------------------------

  /** Push this move's undo snapshot, whose containers are its own. */
  method PushSnapshot(w: Work) returns (r: Work)
    requires Valid(w)
    ensures Valid(r) && r.own == w.own && fresh(r.kept - w.kept)
    ensures
      var s := old(Denoted(w.h));
      Denoted(r.h) == s.(snapshots := s.snapshots + [R.Snapshot(s)]) && r.env == w.env && r.panicked == w.panicked
  {
    hide Apart, Opened;
    var box := OwnContainers(w.h.box);
    assert OpenedAll(w.h.saved) == old(OpenedAll(w.h.saved)) && Opened(w.h.box) == old(Opened(w.h.box));
    r := w.(h := w.h.(saved := w.h.saved + [box]), kept := w.kept + Foot(box));
    assert OpenedAll(w.h.saved + [box]) == OpenedAll(w.h.saved) + [Opened(box)];
  }

  /** Run the move, log it, flush and validate plugins. */
  method PlayMove(game: Game, w: Work, a: R.Admission, req: Request)
    returns (r: Work, notes: seq<LogEntry>, out: Outcome<()>)
    requires Valid(w) && !w.panicked && a.Admitted? && a.st == Denoted(w.h)
    modifies w.own
    ensures out.Done? ==> Valid(r) && fresh(r.own - w.own) && fresh(r.kept - w.kept) && !r.panicked
    ensures
      var expected := R.PlayMove(game, a, req);
      match out
      case Done(_) => expected == Done(R.Played(Denoted(r.h), r.env, notes))
      case Refused(e) => expected == Refused(e)
      case _ => false
  {
    hide Valid, T.Absorb, R.Flush, R.PluginVerdict, R.PluginApi, R.MoveEntryOf;
    var s, move := a.st, a.move;
    var api := R.PluginApi(game, s, req.pid);
    var input := HookIn(s.g, s.ctx, req.pid, a.resuming, [], api);
    var undoable := move.undoable(input) && !game.disableUndo;
    r, notes := w, [];
    if undoable {
      r := PushSnapshot(w);
    }
    var o := move.run(input, req.args);
    if o.error.Some? {
      return r, notes, Refused(o.error.value);
    }
    var t := Denoted(r.h);
    var env := T.Absorb(Env([], [], [], [], api), o.out);
    var entry := R.MoveEntryOf(s, req, move.redact(input), undoable);
    var moved := Machine(t.(g := o.out.g, stateID := s.stateID + 1, log := s.log + [entry], undone := []), env, false);
    PlainMeans(r, moved);
    r := FlushIn(game, Plain(r, moved));
    var verdict := R.PluginVerdict(game, Denoted(r.h));
    if verdict.Some? {
      return r, notes, Refused(verdict.value);
    }
    notes, out := T.AllNoted(o.out.notes, s.ctx), Done(());
  }

  /** Run turn.OnMove and count the move. */
  method CountMove(game: Game, w: Work, a: R.Admission, notes: seq<LogEntry>, req: Request)
    returns (r: Work, extra: seq<LogEntry>)
    requires Valid(w) && a.Admitted? && !w.panicked
    modifies w.own
    ensures Safe(w, r)
    ensures R.Running(Draining(r, req.pid, 0), extra) ==
            R.CountMove(game, a, R.Played(old(Denoted(w.h)), w.env, notes), req)
  {
    hide Valid, T.Absorb, R.Bump;
    var s := Denoted(w.h);
    var turn := game.ScopeTurn(s.ctx.phase);
    var hook := if turn.None? then None else turn.value.onMove;
    var after := if hook.None? then HookOut(s.g, [], [], w.env.raised, [], [], w.env.api)
                 else hook.value(HookIn(s.g, s.ctx, req.pid, a.resuming, w.env.raised, w.env.api));
    var numMoves := if a.move.noLimit then s.ctx.numMoves else s.ctx.numMoves + 1;
    var hooked := Machine(s.(g := after.g, ctx := s.ctx.(numMoves := numMoves)), T.Absorb(w.env, after), false);
    PlainMeans(w, hooked);
    r := Plain(w, hooked);
    if !a.move.noLimit {
      r := BumpIn(r, req.pid);
    }
    extra := notes + T.AllNoted(after.notes, s.ctx);
  }

  /** Both event drains with the end rules between them, the AddLog flush and the block drop. */
  method Settle(game: Game, w: Work, pid: Pid, extra: seq<LogEntry>, move: Move, ghost rounds: nat)
    returns (r: Work, out: Outcome<()>)
    requires Valid(w) && !R.Settle(game, R.Running(Draining(w, pid, 0), extra), move, rounds).Unfinished?
    modifies w.own
    ensures Safe(w, r)
    ensures
      var expected := R.Settle(game, R.Running(old(Draining(w, pid, 0)), extra), move, rounds);
      match out
      case Done(_) => expected == Done(Meaning(r))
      case Panicked => expected == Panicked
      case _ => false
  {
    hide Valid, T.DrainEvents, R.CheckEnds, R.WithoutBlocksFor, Denoted;
    var count: int;
    r, count := DrainEvents(game, w, pid, 0, rounds);
    r := CheckEnds(game, r, pid, move);
    r, count := DrainEvents(game, r, pid, count, rounds);
    if r.panicked {
      return r, Panicked;
    }
    var m := Meaning(r);
    var done := m.(st := m.st.(log := m.st.log + extra, blocks := R.WithoutBlocksFor(m.st.blocks, m.env.drops)));
    PlainMeans(r, done);
    r := Plain(r, done);
    out := Done(());
  }

  /** An admitted move up to its cascade. */
  ghost function MoveBody(game: Game, a: R.Admission, req: Request, rounds: nat): Outcome<Machine>
    requires a.Admitted?
  {
    var body := R.PlayMove(game, a, req);
    match body
    case Refused(e) => Refused(e)
    case Panicked => Panicked
    case Unfinished => Unfinished
    case Done(played) => R.Settle(game, R.CountMove(game, a, played, req), a.move, rounds)
  }

  lemma ApplyIsBodyThenCascade(game: Game, s: State, req: Request, rounds: nat)
    ensures
      var a := R.Admit(game, s, req);
      a.Admitted? ==>
        var body := MoveBody(game, a, req, rounds);
        R.Apply(game, s, req, rounds) ==
          match body
          case Refused(e) => Refused(e)
          case Panicked => Panicked
          case Unfinished => Unfinished
          case Done(m) => R.Cascade(game, m.st, m.env, |s.log|, rounds)
  {
    hide R.Admit, R.PlayMove, R.CountMove, R.Settle, R.Cascade;
  }

  /** The move, its events and the end rules, on containers this call owns. */
  method RunMove(game: Game, w: Work, a: R.Admission, req: Request, ghost rounds: nat)
    returns (r: Work, out: Outcome<()>)
    requires Valid(w) && !w.panicked && a.Admitted? && a.st == Denoted(w.h)
    requires !MoveBody(game, a, req, rounds).Unfinished?
    modifies w.own
    ensures out.Done? ==> Valid(r) && fresh(r.own - w.own) && fresh(r.kept - w.kept)
    ensures
      var expected := MoveBody(game, a, req, rounds);
      match out
      case Done(_) => expected == Done(Meaning(r))
      case Refused(e) => expected == Refused(e)
      case Panicked => expected == Panicked
      case Unfinished => false
  {
    hide R.PlayMove, R.CountMove, R.Settle, Denoted, Valid;
    var played, extra: seq<LogEntry>;
    r, played, out := PlayMove(game, w, a, req);
    if out.Done? {
      r, extra := CountMove(game, r, a, played, req);
      r, out := Settle(game, r, req.pid, extra, a.move, rounds);
    }
  }

  /**
   ApplyContext. It may be called on any state, however its containers are shared. Nothing that existed before changes;
   a failure hands the input back; a success means what Reducer.Apply says and owns all its containers.
   */
  method ApplyContext(game: Game, h: Held, req: Request, ghost rounds: nat) returns (r: Held, out: Outcome<()>)
    requires !R.Apply(game, Denoted(h), req, rounds).Unfinished?
    ensures !out.Done? ==> r == h
    ensures out.Done? ==> fresh(Foot(r.box)) && Good(r)
    ensures
      var expected := R.Apply(game, old(Denoted(h)), req, rounds);
      match out
      case Done(_) => expected == Done(Denoted(r))
      case Refused(e) => expected == Refused(e)
      case Panicked => expected == Panicked
      case Unfinished => false
  {
    hide R.Apply, R.Admit, MoveBody, R.Cascade, Denoted, Apart, Foot, SavedFoot;
    r := h;
    var s := Denoted(h);
    var a := R.Admit(game, s, req);
    if a.Denied? {
      DeniedIsRefused(game, s, req, rounds);
      return h, Refused(a.error);
    }
    AdmittedIsPlain(game, s, req);
    ApplyIsBodyThenCascade(game, s, req, rounds);
    var w := Admitted(h, a.st);
    w, out := RunMove(game, w, a, req, rounds);
    if !out.Done? {
      return h, out;
    }
    w, out := DrainCascade(game, w, |s.log|, rounds);
    if out.Done? {
      r := w.h;
    }
  }

  lemma DeniedIsRefused(game: Game, s: State, req: Request, rounds: nat)
    requires R.Admit(game, s, req).Denied?
    ensures R.Apply(game, s, req, rounds) == Refused(R.Admit(game, s, req).error)
  {
    hide R.Admit;
  }

  lemma AdmittedIsPlain(game: Game, s: State, req: Request)
    requires R.Admit(game, s, req).Admitted?
    ensures SameContainers(s, R.Admit(game, s, req).st)
  {
  }

  /** The admitted state on private copies of the caller's containers. */
  method Admitted(h: Held, s: State) returns (w: Work)
    requires SameContainers(Denoted(h), s)
    ensures Valid(w) && fresh(w.own) && !w.panicked && w.kept == SavedFoot(h.saved)
    ensures Denoted(w.h) == s
  {
    var copy := NewWork(h.box, h.saved, Env([], [], [], [], None), SavedFoot(h.saved));
    PlainMeans(copy, Machine(s, copy.env, false));
    w := Plain(copy, Machine(s, copy.env, false));
  }

  // ---- forced turn ends, undo, redo -------------------------------------------------------------------------

  /** ForceEndTurnE up to its cascade, on containers this call owns. */
  method ForcedTurn(game: Game, w: Work, ending: Pid, ghost rounds: nat) returns (r: Work, out: Outcome<()>)
    requires Valid(w) && !w.panicked && w.env == Env([], [], [], [], R.PluginApi(game, Denoted(w.h), ""))
    requires Denoted(w.h).ctx.currentPlayer == ending && !R.ForcedTurn(game, Denoted(w.h), rounds).Unfinished?
    modifies w.own
    ensures Safe(w, r)
    ensures
      var expected := R.ForcedTurn(game, old(Denoted(w.h)), rounds);
      match out
      case Done(_) => expected == Done(Meaning(r))
      case Panicked => expected == Panicked
      case _ => false
  {
    hide Valid, Denoted, T.FinishTurn, T.DrainEvents, R.WithoutBlocksFor, R.Flush, R.PluginApi;
    r := FinishTurn(game, w, "");
    var count: int;
    r, count := DrainEvents(game, r, "", 0, rounds);
    if r.panicked {
      return r, Panicked;
    }
    r := FlushIn(game, r);
    var m := Meaning(r);
    var done := m.(st := m.st.(blocks := R.WithoutBlocksFor(m.st.blocks, [ending] + m.env.drops)));
    PlainMeans(r, done);
    r := Plain(r, done);
    out := Done(());
  }

  /** ForceEndTurnE: as ApplyContext, for a turn the engine ends itself. */
  method ForceEndTurnE(game: Game, h: Held, ghost rounds: nat) returns (r: Held, out: Outcome<()>)
    requires !R.ForceEndTurn(game, Denoted(h), rounds).Unfinished?
    ensures !out.Done? ==> r == h
    ensures out.Done? ==> fresh(Foot(r.box)) && Good(r)
    ensures
      var expected := R.ForceEndTurn(game, old(Denoted(h)), rounds);
      match out
      case Done(_) => expected == Done(Denoted(r))
      case Refused(e) => expected == Refused(e)
      case Panicked => expected == Panicked
      case Unfinished => false
  {
    hide R.ForcedTurn, R.Cascade, Apart, Foot, SavedFoot, Denoted, R.PluginApi;
    r := h;
    var s := Denoted(h);
    if s.ctx.gameover.Some? {
      return h, Refused(GameOver);
    }
    var w := Forced(game, h);
    w, out := ForcedTurn(game, w, s.ctx.currentPlayer, rounds);
    if !out.Done? {
      return h, out;
    }
    w, out := DrainCascade(game, w, -1, rounds);
    if out.Done? {
      var done := Meaning(w).(st := Denoted(w.h).(stateID := s.stateID + 1));
      PlainMeans(w, done);
      w := Plain(w, done);
      r := w.h;
    }
  }

  /** The state on private copies of the caller's containers, with fresh queues for the hooks. */
  method Forced(game: Game, h: Held) returns (w: Work)
    ensures Valid(w) && fresh(w.own) && !w.panicked && w.kept == SavedFoot(h.saved)
    ensures Denoted(w.h) == old(Denoted(h))
    ensures w.env == Env([], [], [], [], R.PluginApi(game, old(Denoted(h)), ""))
  {
    hide R.PluginApi;
    w := NewWork(h.box, h.saved, Env([], [], [], [], R.PluginApi(game, Denoted(h), "")), SavedFoot(h.saved));
  }

  /**
   Undo hands out the top snapshot itself, containers and all. That is safe without a copy: no call here writes into a
   container it did not make.
   */
  method Undo(game: Game, h: Held) returns (r: Held, out: Outcome<()>)
    ensures !out.Done? ==> r == h
    ensures
      var expected := R.Undo(game, old(Denoted(h)));
      match out
      case Done(_) => expected == Done(Denoted(r))
      case Refused(e) => expected == Refused(e)
      case Panicked => expected == Panicked
      case Unfinished => false
  {
    hide Foot, SavedFoot;
    r := h;
    if game.disableUndo {
      return h, Refused(InvalidMove);
    }
    if h.box.rest.ctx.gameover.Some? {
      return h, Refused(GameOver);
    }
    if h.saved == [] {
      return h, Refused(InvalidMove);
    }
    var log := h.box.rest.log;
    if log == [] {
      return h, Panicked;
    }
    var last := h.saved[|h.saved| - 1];
    var s := Opened(last);
    var g := if game.onUndo.None? then s.g else game.onUndo.value(HookIn(s.g, s.ctx, "", None, [], None));
    var rest := s.(undone := h.box.rest.undone + [log[|log| - 1]], log := log[..|log| - 1], g := g);
    r, out := Held(last.(rest := rest), []), Done(());
  }

  /** The state without its newest undone entry. */
  function Popped(h: Held): Held
    requires h.box.rest.undone != []
  {
    var undone := h.box.rest.undone;
    h.(box := h.box.(rest := h.box.rest.(undone := undone[..|undone| - 1])))
  }

  /** Redo. A refused move leaves only the undone entry popped. */
  method Redo(game: Game, h: Held, ghost rounds: nat) returns (r: Held, out: Outcome<()>)
    requires !R.Redo(game, Denoted(h), rounds).Unfinished?
    ensures !out.Done? ==> r == h || (h.box.rest.undone != [] && r == Popped(h))
    ensures out.Done? ==> fresh(Foot(r.box)) && Good(r)
    ensures
      var expected := R.Redo(game, old(Denoted(h)), rounds);
      match out
      case Done(_) => expected == Done(Denoted(r))
      case Refused(e) => expected == Refused(e)
      case Panicked => expected == Panicked
      case Unfinished => false
  {
    hide R.Apply, Foot, SavedFoot;
    r := h;
    var undone := h.box.rest.undone;
    if game.disableUndo {
      return h, Refused(InvalidMove);
    }
    if h.box.rest.ctx.gameover.Some? {
      return h, Refused(GameOver);
    }
    if undone == [] {
      return h, Refused(InvalidMove);
    }
    var e := undone[|undone| - 1];
    r, out := ApplyContext(game, Popped(h), Request(e.pid, e.move, e.args, 0, "", 0, e.serverDispatch, false), rounds);
  }
}
