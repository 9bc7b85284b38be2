/**
 core/reducer.go, core/timeout.go, core/state.go, core/undo.go and core/replay.go as functions: the admission gates
 of an external move, the move itself, the auto-end rules, the cascade of queued moves, forced turn ends, match
 setup, undo and redo, and replay of a log.

 `rounds` bounds how many batches one event drain may take. It is not part of the engine: a game whose hooks keep
 queueing events never finishes, and the functions then answer Unfinished. EventDrain shows that the answer does not
 depend on `rounds` once it is given, and that 33 rounds suffice when no hook queues events.
 */
module Reducer {
  import opened Engine
  import opened Transitions

  const MAX_DRAIN_DEPTH := 200

  // ---- admission --------------------------------------------------------------------------------------------

  /** A block is answered by its addressee, with its tag, and with its named move if it names one. */
  predicate Answers(b: Block, tag: string, pid: Pid, move: string) {
    b.tag == tag && b.pid == pid && (b.move == "" || b.move == move)
  }

  /** findBlock: the first block the request may answer, or -1. */
  function FindBlock(blocks: seq<Block>, tag: string, pid: Pid, move: string): (i: int)
    ensures -1 <= i < |blocks|
    ensures i >= 0 ==> Answers(blocks[i], tag, pid, move)
    ensures forall j | 0 <= j < (if i < 0 then |blocks| else i) :: !Answers(blocks[j], tag, pid, move)
  {
    if blocks == [] then -1
    else if Answers(blocks[0], tag, pid, move) then 0
    else
      var i := FindBlock(blocks[1..], tag, pid, move);
      if i < 0 then -1 else i + 1
  }

  /** Which block a request consumes: -1 for none, whether because it carries no tag or no block matches. */
  function Consumed(s: State, req: Request): (i: int)
    ensures -1 <= i < |s.blocks|
    ensures i >= 0 ==> req.resumeTag != "" && Answers(s.blocks[i], req.resumeTag, req.pid, req.move)
  {
    if req.resumeTag == "" then -1 else FindBlock(s.blocks, req.resumeTag, req.pid, req.move)
  }

  function RemoveAt<T>(xs: seq<T>, i: int): seq<T>
    requires -1 <= i < |xs|
  {
    if i < 0 then xs else xs[..i] + xs[i + 1..]
  }

  /** authorizedStage: the caller's stage, and why they may not move if so. */
  function AuthorizedStage(ctx: Ctx, pid: Pid): (string, Option<Error>) {
    if ctx.active.Some? then
      if pid in ctx.active.value then (ctx.active.value[pid], None) else ("", Some(InactivePlayer))
    else if pid != ctx.currentPlayer then ("", Some(WrongPlayer)) else ("", None)
  }

  datatype Resolution = Found(move: Move, inStage: bool) | Missing(error: Error)

  function Entry(e: MoveEntry, inStage: bool): Resolution {
    if e.Unsupported? then Missing(UnsupportedMove) else Found(e.m, inStage)
  }

  /** resolveMove: the stage's table first, then the phase's or the game's. */
  function Resolve(game: Game, ctx: Ctx, stage: string, name: string): Resolution {
    var config := if stage == "" then None else game.LookupStage(ctx.phase, stage);
    if config.Some? && name in config.value.moves then Entry(config.value.moves[name], true)
    else if name in game.ScopeMoves(ctx.phase) then Entry(game.ScopeMoves(ctx.phase)[name], false)
    else Missing(UnknownMove)
  }

  /** exemptionsFor, its stageScope half. */
  predicate ScopeExempt(move: Move, resuming: Option<Block>, req: Request) {
    move.anyPlayer || move.ignoreBlocks || (resuming.Some? && resuming.value.move != "") || req.serverDispatch
  }

  datatype Admission = Admitted(st: State, move: Move, resuming: Option<Block>) | Denied(error: Error)

  /** Every check of applyExternal up to the point where it takes its own containers. */
  function Admit(game: Game, s: State, req: Request): Admission {
    if s.ctx.gameover.Some? then Denied(GameOver)
    else
      var i := Consumed(s, req);
      if req.resumeTag != "" && i < 0 then Denied(UnknownResumeTag)
      else
        var resuming := if i < 0 then None else Some(s.blocks[i]);
        var st := s.(ctx := s.ctx.(nowMs := req.nowMs), blocks := RemoveAt(s.blocks, i));
        var (stage, refusal) := AuthorizedStage(st.ctx, req.pid);
        var r := Resolve(game, st.ctx, stage, req.move);
        if req.fromClient && r.Found? && r.move.serverOnly then Denied(ServerOnly)
        else if resuming.None? && st.blocks != [] && r.Found? && !r.move.ignoreBlocks then Denied(Blocked)
        else if refusal.Some? && (r.Missing? || !(r.move.anyPlayer || resuming.Some?)) then Denied(refusal.value)
        else if r.Missing? then Denied(r.error)
        else if req.stateID > 0 && req.stateID != st.stateID && !r.move.ignoreStale then Denied(StaleState)
        else if stage != "" && !r.inStage && !ScopeExempt(r.move, resuming, req) &&
                game.LookupStage(st.ctx.phase, stage).Some? && game.LookupStage(st.ctx.phase, stage).value.exclusive
        then Denied(MoveNotInStage)
        else Admitted(st, r.move, resuming)
  }

  // ---- plugins and counters ---------------------------------------------------------------------------------

  function PluginApi(game: Game, s: State, pid: Pid): Option<Value> {
    if game.plugins.None? then None else Some(game.plugins.value.api(s.plugins, s.g, s.ctx, pid))
  }

  /** flushPlugins: each plugin's entry is overwritten in State.Plugins. */
  function Flush(game: Game, s: State, api: Option<Value>): State {
    if game.plugins.None? then s
    else
      var data := if s.plugins.None? then map[] else s.plugins.value;
      s.(plugins := Some(data + game.plugins.value.flush(data, api, s.g, s.ctx)))
  }

  function PluginVerdict(game: Game, s: State): Option<Error> {
    if game.plugins.None? then None else game.plugins.value.invalid(s.plugins, s.g, s.ctx)
  }

  function CountOf(counts: CountMap, pid: Pid): int {
    if counts.Some? && pid in counts.value then counts.value[pid] else 0
  }

  /** bumpStageMoveCount. */
  function Bump(s: State, pid: Pid): State {
    if s.ctx.active.None? || pid !in s.ctx.active.value then s
    else s.(counts := Some((if s.counts.None? then map[] else s.counts.value)[pid := CountOf(s.counts, pid) + 1]))
  }

  /** The seats whose stage move budget is used up. */
  function Spent(s: State): set<Pid>
    requires s.ctx.active.Some?
  {
    set p | p in s.ctx.active.value && CountOf(s.stageMax, p) > 0 && CountOf(s.counts, p) >= CountOf(s.stageMax, p)
  }

  function WithoutAll<V>(m: Option<map<Pid, V>>, pids: set<Pid>): Option<map<Pid, V>> {
    if m.None? then None else Some(m.value - pids)
  }

  /** The seats leave the set and its counters; nothing is drained yet. */
  function LeaveAll(s: State, gone: set<Pid>): State {
    s.(ctx := s.ctx.(active := WithoutAll(s.ctx.active, gone)), counts := WithoutAll(s.counts, gone),
       stageMin := WithoutAll(s.stageMin, gone), stageMax := WithoutAll(s.stageMax, gone))
  }

  /** autoEndStagesByMaxMoves: spent seats leave, and a set emptied by that is drained. */
  function AutoEnd(s: State): (t: State)
    ensures Keeps(s, t) && t.ctx == s.ctx.(active := t.ctx.active)
    ensures t.g == s.g && t.log == s.log && t.stateID == s.stateID
  {
    if s.ctx.active.None? || Spent(s) == {} then s
    else
      var left := LeaveAll(s, Spent(s));
      if left.ctx.active == Some(map[]) then DrainActive(left) else left
  }

  // ---- auto-end rules ---------------------------------------------------------------------------------------

  /** Game.EndIf, when the game is still on: a verdict ends it and runs OnEnd. */
  function CheckGameEnd(game: Game, m: Machine, pid: Pid): (r: Machine)
    ensures Keeps(m.st, r.st) && r.st.stateID == m.st.stateID && (m.panicked ==> r.panicked)
  {
    if m.st.ctx.gameover.Some? || game.endIf.None? then m
    else
      var c := game.endIf.value(Input(m, pid));
      var asked := m.(env := Absorb(m.env, c.out));
      if c.verdict.None? then asked
      else RunGameOnEnd(game, asked.(st := m.st.(ctx := m.st.ctx.(gameover := c.verdict))))
  }

  /** checkPhaseEndIf. */
  function CheckPhaseEnd(game: Game, m: Machine): (r: Machine)
    ensures KeepsMachine(m, r)
  {
    var phase := m.st.ctx.phase;
    if phase == "" || phase !in game.phases || game.phases[phase].endIf.None? then m
    else
      var c := game.phases[phase].endIf.value(Input(m, ""));
      var asked := m.(env := Absorb(m.env, c.out));
      if !c.verdict.0 then asked else LeavePhase(game, asked, c.verdict.1)
  }

  /** turn.EndIf, then Turn.MaxMoves for a counting move: what asking leaves, and who is forced next if the turn ends. */
  function TurnVerdict(turn: Turn, m: Machine, move: Move): (r: (Machine, Option<Pid>))
    ensures r.0.st == m.st && r.0.panicked == m.panicked
  {
    var spent := turn.maxMoves > 0 && m.st.ctx.numMoves >= turn.maxMoves && !move.noLimit;
    if turn.endIf.None? then (m, if spent then Some("") else None)
    else
      var c := turn.endIf.value(Input(m, ""));
      (m.(env := Absorb(m.env, c.out)), if c.verdict.0 then Some(c.verdict.1) else if spent then Some("") else None)
  }

  /** checkTurnAutoEnd. */
  function CheckTurnEnd(game: Game, m: Machine, move: Move): (r: Machine)
    ensures KeepsMachine(m, r)
  {
    var turn := game.ScopeTurn(m.st.ctx.phase);
    if turn.None? then m
    else
      var (asked, next) := TurnVerdict(turn.value, m, move);
      if next.None? then asked else FinishTurn(game, asked, next.value)
  }

  /** The four checks in the engine's order, each skipped once the game is over. */
  function CheckEnds(game: Game, m: Machine, pid: Pid, move: Move): (r: Machine)
    ensures Keeps(m.st, r.st) && r.st.stateID == m.st.stateID && (m.panicked ==> r.panicked)
  {
    var ended := CheckGameEnd(game, m, pid);
    if ended.st.ctx.gameover.Some? then ended
    else
      var phased := CheckPhaseEnd(game, ended);
      CheckTurnEnd(game, phased.(st := AutoEnd(phased.st)), move)
  }

  // ---- the cascade ------------------------------------------------------------------------------------------

  /** withoutBlocksFor. */
  function WithoutBlocksFor(blocks: seq<Block>, players: seq<Pid>): (r: seq<Block>)
    ensures forall b | b in r :: b in blocks && b.pid !in players
    ensures forall b | b in blocks && b.pid !in players :: b in r
  {
    if blocks == [] then []
    else (if blocks[0].pid in players then [] else [blocks[0]]) + WithoutBlocksFor(blocks[1..], players)
  }

  /** harvestQueue: what the move and its hooks pushed and raised follows what was already there. */
  function Harvest(s: State, env: Env): State {
    s.(queue := s.queue + env.pending, blocks := s.blocks + env.raised)
  }

  function StepEntry(s: State, action: Action, stage: string, parent: int): LogEntry {
    LogEntry("drain-step", action.move, action.pid, action.args, 0, s.ctx.turn, s.ctx.phase, stage, false, false,
             parent, "", false)
  }

  /** A cascade step up to its harvest: the state and the queues the step leaves. */
  function RunStep(game: Game, s: State, action: Action, parent: int, rounds: nat): (r: Outcome<(State, Env)>)
    ensures r.Done? ==> Keeps(s.(plugins := r.value.0.plugins), r.value.0)
  {
    var stage := StageOf(s.ctx, action.pid);
    var found := Resolve(game, s.ctx, stage, action.move);
    if found.Missing? then Refused(found.error)
    else
      var api := PluginApi(game, s, action.pid);
      var o := found.move.run(HookIn(s.g, s.ctx, action.pid, None, [], api), action.args);
      if o.error.Some? then Refused(o.error.value)
      else
        var env := Absorb(Env([], [], [], [], api), o.out);
        var moved := s.(g := o.out.g, log := s.log + [StepEntry(s, action, stage, parent)]);
        var flushed := Flush(game, moved, env.api);
        if PluginVerdict(game, flushed).Some? then Refused(PluginVerdict(game, flushed).value)
        else
          var d := DrainEvents(game, Drain(Machine(flushed, env, false), action.pid, 0), rounds);
          if d.None? then Unfinished
          else if d.value.m.panicked then Panicked
          else
            var drained := d.value.m.st;
            Done((drained.(log := drained.log + AllNoted(o.out.notes, s.ctx)), d.value.m.env))
  }

  /** applyStep. */
  function ApplyStep(game: Game, s: State, action: Action, parent: int, rounds: nat): Outcome<State> {
    var r := RunStep(game, s, action, parent, rounds);
    match r
    case Done(v) => Done(Harvest(v.0, v.1))
    case Refused(e) => Refused(e)
    case Panicked => Panicked
    case Unfinished => Unfinished
  }

  /** The cascade rests: nothing queued, a block pending, or the game over. */
  predicate Resting(s: State) {
    s.queue == [] || s.blocks != [] || s.ctx.gameover.Some?
  }

  /** drainCascade's loop: apply the queue's head until the cascade rests, at most MAX_DRAIN_DEPTH times. */
  function DrainQueue(game: Game, s: State, parent: int, depth: nat, rounds: nat): Outcome<State>
    requires depth <= MAX_DRAIN_DEPTH
    decreases MAX_DRAIN_DEPTH - depth
  {
    if Resting(s) then Done(s)
    else if depth + 1 > MAX_DRAIN_DEPTH then Refused(DrainOverflow)
    else
      var step := ApplyStep(game, s.(queue := s.queue[1..]), s.queue[0], parent, rounds);
      if step.Done? then DrainQueue(game, step.value, parent, depth + 1, rounds) else step
  }

  /** drainCascade. On a refusal the engine also hands back the harvested state, see NewMatch. */
  function Cascade(game: Game, s: State, env: Env, parent: int, rounds: nat): Outcome<State> {
    DrainQueue(game, Harvest(s, env), parent, 0, rounds)
  }

  // ---- an external move -------------------------------------------------------------------------------------

  function MoveEntryOf(s: State, req: Request, redact: bool, undoable: bool): LogEntry {
    LogEntry("move", req.move, req.pid, req.args, req.nowMs, s.ctx.turn, s.ctx.phase, StageOf(s.ctx, req.pid), redact,
             undoable, -1, req.resumeTag, req.serverDispatch)
  }

  /** cloneStateForSnapshot: the state without its own snapshots. */
  function Snapshot(s: State): State {
    s.(snapshots := [])
  }

  /** What the move function left: the logged and flushed state, the shared queues, the AddLog entries. */
  datatype Played = Played(st: State, env: Env, notes: seq<LogEntry>)

  /** Step 9: run the move, log it, flush and validate plugins. */
  function PlayMove(game: Game, a: Admission, req: Request): (r: Outcome<Played>)
    requires a.Admitted?
    ensures r.Done? || r.Refused?
    ensures r.Done? ==>
      var t := r.value.st;
      t.queue == a.st.queue && t.blocks == a.st.blocks && t.stateID == a.st.stateID + 1 && t.ctx == a.st.ctx &&
      exists redact, undoable ::
        && t.log == a.st.log + [MoveEntryOf(a.st, req, redact, undoable)]
        && t.snapshots == if undoable then a.st.snapshots + [Snapshot(a.st)] else a.st.snapshots
  {
    var s, move := a.st, a.move;
    var api := PluginApi(game, s, req.pid);
    var input := HookIn(s.g, s.ctx, req.pid, a.resuming, [], api);
    var undoable := move.undoable(input) && !game.disableUndo;
    var o := move.run(input, req.args);
    if o.error.Some? then Refused(o.error.value)
    else
      var entry := MoveEntryOf(s, req, move.redact(input), undoable);
      var moved := s.(g := o.out.g, stateID := s.stateID + 1, log := s.log + [entry], undone := [],
                      snapshots := if undoable then s.snapshots + [Snapshot(s)] else s.snapshots);
      var env := Absorb(Env([], [], [], [], api), o.out);
      var flushed := Flush(game, moved, env.api);
      if PluginVerdict(game, flushed).Some? then Refused(PluginVerdict(game, flushed).value)
      else Done(Played(flushed, env, AllNoted(o.out.notes, s.ctx)))
  }

  /** The move's own context while its events drain: the machine, the RunMove counter and the AddLog entries. */
  datatype Running = Running(d: Drain, extra: seq<LogEntry>)

  /** Step 10: run turn.OnMove in the move's own context and count the move unless it opted out. */
  function CountMove(game: Game, a: Admission, p: Played, req: Request): (r: Running)
    requires a.Admitted?
    ensures r.d.pid == req.pid && r.d.chained == 0 && !r.d.m.panicked && Keeps(p.st, r.d.m.st)
    ensures r.d.m.st.log == p.st.log && r.d.m.st.stateID == p.st.stateID && r.d.m.st.snapshots == p.st.snapshots
    ensures r.d.m.st.stack == p.st.stack && r.d.m.st.pendingNext == p.st.pendingNext && r.d.m.st.undone == p.st.undone
    ensures r.d.m.st.ctx == p.st.ctx.(numMoves := r.d.m.st.ctx.numMoves)
  {
    var turn := game.ScopeTurn(p.st.ctx.phase);
    var hook := if turn.None? then None else turn.value.onMove;
    var after := if hook.None? then HookOut(p.st.g, [], [], p.env.raised, [], [], p.env.api)
                 else hook.value(HookIn(p.st.g, p.st.ctx, req.pid, a.resuming, p.env.raised, p.env.api));
    var hooked := p.st.(g := after.g);
    var counted := if a.move.noLimit then hooked
                   else Bump(hooked.(ctx := hooked.ctx.(numMoves := hooked.ctx.numMoves + 1)), req.pid);
    Running(Drain(Machine(counted, Absorb(p.env, after), false), req.pid, 0),
            p.notes + AllNoted(after.notes, p.st.ctx))
  }

  /** Steps 11 and 12: drain, check the end rules, drain again; then flush AddLog and drop the named players' blocks. */
  function Settle(game: Game, r: Running, move: Move, rounds: nat): (out: Outcome<Machine>)
    ensures out.Done? ==>
      var s, t := r.d.m.st, out.value.st;
      t.queue == s.queue && t.blocks == WithoutBlocksFor(s.blocks, out.value.env.drops) && s.log <= t.log &&
      s.stateID <= t.stateID && !out.value.panicked && (t.snapshots == s.snapshots || t.snapshots == [])
  {
    var first := DrainEvents(game, r.d, rounds);
    if first.None? then Unfinished
    else
      var checked := CheckEnds(game, first.value.m, r.d.pid, move);
      var second := DrainEvents(game, first.value.(m := checked), rounds);
      if second.None? then Unfinished
      else if second.value.m.panicked then Panicked
      else
        var m := second.value.m;
        Done(m.(st := m.st.(log := m.st.log + r.extra, blocks := WithoutBlocksFor(m.st.blocks, m.env.drops))))
  }

  /** ApplyContext. */
  function Apply(game: Game, s: State, req: Request, rounds: nat): Outcome<State> {
    var a := Admit(game, s, req);
    if a.Denied? then Refused(a.error)
    else
      var body := PlayMove(game, a, req);
      match body
      case Refused(e) => Refused(e)
      case Panicked => Panicked
      case Unfinished => Unfinished
      case Done(played) =>
        var settled := Settle(game, CountMove(game, a, played, req), a.move, rounds);
        match settled
        case Refused(e) => Refused(e)
        case Panicked => Panicked
        case Unfinished => Unfinished
        case Done(m) => Cascade(game, m.st, m.env, |s.log|, rounds)
  }

  // ---- calls outside a move ---------------------------------------------------------------------------------

  /** ForceEndTurnE up to its cascade: the turn ends, events drain, plugins flush, the ending player's blocks expire. */
  function ForcedTurn(game: Game, s: State, rounds: nat): Outcome<Machine> {
    var ended := FinishTurn(game, Machine(s, Env([], [], [], [], PluginApi(game, s, "")), false), "");
    var d := DrainEvents(game, Drain(ended, "", 0), rounds);
    if d.None? then Unfinished
    else if d.value.m.panicked then Panicked
    else
      var m := d.value.m;
      var flushed := Flush(game, m.st, m.env.api);
      Done(m.(st := flushed.(blocks := WithoutBlocksFor(flushed.blocks, [s.ctx.currentPlayer] + m.env.drops))))
  }

  /** Up to its cascade a forced turn end drops blocks and nothing else of the queue, the blocks or the log. */
  lemma ForcedTurnFrame(game: Game, s: State, rounds: nat)
    requires ForcedTurn(game, s, rounds).Done?
    ensures
      var m := ForcedTurn(game, s, rounds).value;
      && m.st.queue == s.queue && s.log <= m.st.log && s.stateID <= m.st.stateID && !m.panicked
      && m.st.blocks == WithoutBlocksFor(s.blocks, [s.ctx.currentPlayer] + m.env.drops)
  {
    hide FinishTurn, DrainEvents, WithoutBlocksFor, PluginApi;
  }

  /** ForceEndTurnE. */
  function ForceEndTurn(game: Game, s: State, rounds: nat): Outcome<State> {
    if s.ctx.gameover.Some? then Refused(GameOver)
    else
      var turned := ForcedTurn(game, s, rounds);
      match turned
      case Refused(e) => Refused(e)
      case Panicked => Panicked
      case Unfinished => Unfinished
      case Done(m) =>
        var r := Cascade(game, m.st, m.env, -1, rounds);
        if r.Done? then Done(r.value.(stateID := s.stateID + 1)) else r
  }

  function Digit(n: int): char
    requires 0 <= n < 10
  {
    "0123456789"[n]
  }

  /** strconv.Itoa on naturals. */
  function Itoa(n: nat): (s: string)
    ensures s != ""
  {
    if n < 10 then [Digit(n)] else Itoa(n / 10) + [Digit(n % 10)]
  }

  /** defaultPlayOrder. */
  function DefaultOrder(n: nat): (r: seq<Pid>)
    ensures |r| == n && forall i | 0 <= i < n :: r[i] == Itoa(i)
  {
    seq(n, i requires 0 <= i => Itoa(i))
  }

  /** The state NewMatch starts from, before any hook has run. */
  function FirstState(game: Game, requested: int, setupData: Value, seed: int): State {
    var n := game.PlayerCount(requested);
    var ctx := Ctx(n, Itoa(0), DefaultOrder(Max(n, 0)), 0, 1, game.start, None, None, 0, 0, seed);
    var g := game.setup(ctx, setupData);
    var plugins := if game.plugins.None? then None else Some(game.plugins.value.setup(g, ctx));
    State(g, ctx, 0, plugins, [], [], [], [], [], [], None, None, None, None)
  }

  function Max(a: int, b: int): int { if a > b then a else b }

  /** NewMatchSeededE up to its cascade. */
  function SetUp(game: Game, requested: int, setupData: Value, seed: int, rounds: nat): (out: Outcome<Machine>)
    ensures out.Done? ==> !out.value.panicked
  {
    var s := FirstState(game, requested, setupData, seed);
    var begun := EnterPhase(game, Machine(s, Env([], [], [], [], PluginApi(game, s, "")), false));
    var d := DrainEvents(game, Drain(begun, "", 0), rounds);
    if d.None? then Unfinished
    else if d.value.m.panicked then Panicked
    else Done(d.value.m.(st := Flush(game, d.value.m.st, d.value.m.env.api)))
  }

  /** NewMatchSeeded: a failed setup cascade is rolled back to its harvested queue and otherwise ignored. */
  function NewMatch(game: Game, requested: int, setupData: Value, seed: int, rounds: nat): Outcome<State> {
    var m := SetUp(game, requested, setupData, seed, rounds);
    match m
    case Refused(e) => Refused(e)
    case Panicked => Panicked
    case Unfinished => Unfinished
    case Done(m) =>
      var r := Cascade(game, m.st, m.env, -1, rounds);
      if r.Refused? then Done(Harvest(m.st, m.env)) else r
  }

  // ---- undo, redo, replay -----------------------------------------------------------------------------------

  /** Undo. */
  function Undo(game: Game, s: State): Outcome<State> {
    if game.disableUndo then Refused(InvalidMove)
    else if s.ctx.gameover.Some? then Refused(GameOver)
    else if s.snapshots == [] then Refused(InvalidMove)
    else if s.log == [] then Panicked
    else
      var last := s.snapshots[|s.snapshots| - 1];
      var restored := last.(undone := s.undone + [s.log[|s.log| - 1]], log := s.log[..|s.log| - 1]);
      Done(if game.onUndo.None? then restored
           else restored.(g := game.onUndo.value(HookIn(last.g, last.ctx, "", None, [], None))))
  }

  /** Redo: the popped entry is applied again as a plain request, without its tag or timestamp. */
  function Redo(game: Game, s: State, rounds: nat): Outcome<State> {
    if game.disableUndo then Refused(InvalidMove)
    else if s.ctx.gameover.Some? then Refused(GameOver)
    else if s.undone == [] then Refused(InvalidMove)
    else
      var e := s.undone[|s.undone| - 1];
      Apply(game, s.(undone := s.undone[..|s.undone| - 1]),
            Request(e.pid, e.move, e.args, 0, "", 0, e.serverDispatch, false), rounds)
  }

  /** The request replay rebuilds from a log entry. */
  function Recorded(e: LogEntry): Request {
    Request(e.pid, e.move, e.args, 0, e.resumeTag, e.nowMs, e.serverDispatch, false)
  }

  /** ReplayUntilSeeded's loop from a state: `left` move entries still to apply, negative for all of them. */
  function ReplayFrom(game: Game, s: State, log: seq<LogEntry>, left: int, rounds: nat): Outcome<State>
    decreases |log|
  {
    if log == [] || left == 0 then Done(s)
    else if log[0].kind != "move" then ReplayFrom(game, s, log[1..], left, rounds)
    else
      var r := Apply(game, s, Recorded(log[0]), rounds);
      if r.Done? then ReplayFrom(game, r.value, log[1..], left - 1, rounds) else r
  }

  /** ReplayUntilSeeded. */
  function Replay(game: Game, log: seq<LogEntry>, until: int, requested: int, setupData: Value, seed: int, rounds: nat)
    : Outcome<State>
  {
    var s := NewMatch(game, requested, setupData, seed, rounds);
    if s.Done? then ReplayFrom(game, s.value, log, until, rounds) else s
  }
}
