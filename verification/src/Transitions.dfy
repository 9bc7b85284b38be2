/**
 core/transitions.go as functions: hooks, turn and phase rotation, stages, the active-player set with its Revert
 stack and PendingNext chain, player removal, and the event drain.

 The functions carry as postconditions what no transition ever does: touch the action queue or the pending blocks,
 drop a log entry, or lower StateID.
 */
module Transitions {
  import opened Engine

  /** Events.RunMove budget of one move. */
  const MAX_CHAINED_MOVES := 32

  // ---- what every transition keeps --------------------------------------------------------------------------

  /** Queue, blocks and plugin data are untouched, the log only grows, StateID never goes back, undo snapshots stay or go. */
  ghost predicate Keeps(s: State, t: State) {
    t.queue == s.queue && t.blocks == s.blocks && s.log <= t.log && s.stateID <= t.stateID &&
    (t.snapshots == s.snapshots || t.snapshots == []) && t.plugins == s.plugins
  }

  /** The hook queues no engine events. */
  ghost predicate QuietHook(hook: Option<Hook>) {
    hook.Some? ==> forall i :: hook.value(i).events == []
  }

  ghost predicate QuietTurn(t: Option<Turn>) {
    t.Some? ==>
      && QuietHook(t.value.onBegin) && QuietHook(t.value.onEnd)
      && forall n | n in t.value.stages :: QuietHook(t.value.stages[n].onBegin) && QuietHook(t.value.stages[n].onEnd)
  }

  /** No lifecycle hook queues engine events; moves and EndIf predicates may. */
  ghost predicate QuietHooks(game: Game) {
    && QuietTurn(game.turn) && QuietHook(game.onEnd)
    && forall n | n in game.phases ::
         QuietHook(game.phases[n].onBegin) && QuietHook(game.phases[n].onEnd) && QuietTurn(game.phases[n].turn)
  }

  // ---- hooks ------------------------------------------------------------------------------------------------

  function Input(m: Machine, pid: Pid): HookIn {
    HookIn(m.st.g, m.st.ctx, pid, None, m.env.raised, m.env.api)
  }

  /** The queues are shared, so what game code left there joins what was there. */
  function Absorb(env: Env, o: HookOut): Env {
    Env(env.events + o.events, env.pending + o.pushes, o.raised, env.drops + o.drops, o.api)
  }

  /** AddLog: an entry without a kind, turn or phase gets the defaults. */
  function Noted(e: LogEntry, ctx: Ctx): LogEntry {
    e.(kind := if e.kind == "" then "custom" else e.kind,
       turn := if e.turn == 0 then ctx.turn else e.turn,
       phase := if e.phase == "" then ctx.phase else e.phase)
  }

  function AllNoted(notes: seq<LogEntry>, ctx: Ctx): (r: seq<LogEntry>)
    ensures |r| == |notes| && forall i | 0 <= i < |r| :: r[i] == Noted(notes[i], ctx)
  {
    seq(|notes|, i requires 0 <= i < |notes| => Noted(notes[i], ctx))
  }

  /** Run one lifecycle hook, if configured, and flush what it logged. */
  function RunHook(hook: Option<Hook>, m: Machine, pid: Pid): (r: Machine)
    ensures Keeps(m.st, r.st) && r.st.ctx == m.st.ctx && r.st.stateID == m.st.stateID
    ensures r.st == m.st.(g := r.st.g, log := r.st.log)
    ensures QuietHook(hook) ==> r.env.events == m.env.events
  {
    if hook.None? then m
    else
      var o := hook.value(Input(m, pid));
      m.(st := m.st.(g := o.g, log := m.st.log + AllNoted(o.notes, m.st.ctx)), env := Absorb(m.env, o))
  }

  function RunTurnOnBegin(game: Game, m: Machine): (r: Machine)
    ensures r.st == m.st.(g := r.st.g, log := r.st.log) && Keeps(m.st, r.st)
    ensures QuietHooks(game) ==> r.env.events == m.env.events
  {
    var turn := game.ScopeTurn(m.st.ctx.phase);
    if turn.None? then m else RunHook(turn.value.onBegin, m, "")
  }

  function RunTurnOnEnd(game: Game, m: Machine): (r: Machine)
    ensures r.st == m.st.(g := r.st.g, log := r.st.log) && Keeps(m.st, r.st)
    ensures QuietHooks(game) ==> r.env.events == m.env.events
  {
    var turn := game.ScopeTurn(m.st.ctx.phase);
    if turn.None? then m else RunHook(turn.value.onEnd, m, "")
  }

  function RunPhaseOnBegin(game: Game, m: Machine): (r: Machine)
    ensures r.st == m.st.(g := r.st.g, log := r.st.log) && Keeps(m.st, r.st)
    ensures QuietHooks(game) ==> r.env.events == m.env.events
  {
    var phase := m.st.ctx.phase;
    if phase == "" || phase !in game.phases then m else RunHook(game.phases[phase].onBegin, m, "")
  }

  // ---- the active-player set --------------------------------------------------------------------------------

  /** Every seat of the order, or all but one, enters the stage on top of what is there. */
  function Filled(base: map<Pid, string>, order: seq<Pid>, except: Option<Pid>, stage: string): map<Pid, string> {
    base + map p | p in order && Some(p) != except :: stage
  }

  /** The seats a configuration activates, later clauses overriding earlier ones. */
  function Activated(ctx: Ctx, cfg: Cfg): map<Pid, string> {
    var all := if cfg.all.Some? then Filled(map[], ctx.playOrder, None, cfg.all.value) else map[];
    var others := if cfg.others.Some? then Filled(all, ctx.playOrder, Some(ctx.currentPlayer), cfg.others.value) else all;
    var current := if cfg.current.Some? then others[ctx.currentPlayer := cfg.current.value] else others;
    current + cfg.seats
  }

  /** The per-seat limits of an install: the per-player override, else the common one when positive. */
  function Limits(seats: map<Pid, string>, common: int, per: map<Pid, int>): map<Pid, int> {
    map p | p in seats && (p in per || common > 0) :: if p in per then per[p] else common
  }

  function NilIfEmpty<V>(m: map<Pid, V>): Option<map<Pid, V>> {
    if m == map[] then None else Some(m)
  }

  /** applySetActivePlayers: save a Revert frame if asked, install the set, arm PendingNext. */
  function Install(s: State, cfg: Cfg): (t: State)
    ensures Keeps(s, t)
    ensures t.ctx == s.ctx.(active := t.ctx.active)
    ensures t.g == s.g && t.log == s.log && t.stateID == s.stateID
  {
    var seats := Activated(s.ctx, cfg);
    s.(stack := if cfg.revert then s.stack + [Frame(s.ctx.active, s.counts, s.stageMin, s.stageMax)] else s.stack,
       pendingNext := cfg.next,
       ctx := s.ctx.(active := NilIfEmpty(seats)),
       counts := None,
       stageMin := NilIfEmpty(Limits(seats, cfg.minMoves, cfg.perMin)),
       stageMax := NilIfEmpty(Limits(seats, cfg.maxMoves, cfg.perMax)))
  }

  /** drainActivePlayers: the set just became empty; pop a Revert frame, else install PendingNext, else nil. */
  function DrainActive(s: State): (t: State)
    ensures Keeps(s, t)
    ensures t.ctx == s.ctx.(active := t.ctx.active)
    ensures t.g == s.g && t.log == s.log && t.stateID == s.stateID
  {
    if s.stack != [] then
      var top := s.stack[|s.stack| - 1];
      s.(stack := s.stack[..|s.stack| - 1], ctx := s.ctx.(active := top.active),
         counts := top.counts, stageMin := top.min, stageMax := top.max)
    else if s.pendingNext.Some? then
      Install(s.(pendingNext := None), s.pendingNext.value)
    else
      s.(ctx := s.ctx.(active := None), counts := None, stageMin := None, stageMax := None)
  }

  function ApplyActiveFromTurn(game: Game, m: Machine): (r: Machine)
    ensures Keeps(m.st, r.st)
    ensures r.env == m.env && r.panicked == m.panicked
    ensures r.st.ctx == m.st.ctx.(active := r.st.ctx.active) && r.st.g == m.st.g && r.st.log == m.st.log
    ensures r.st.stateID == m.st.stateID
  {
    var turn := game.ScopeTurn(m.st.ctx.phase);
    if turn.None? || turn.value.active.None? then m else m.(st := Install(m.st, turn.value.active.value))
  }

  function Without<V>(m: Option<map<Pid, V>>, pid: Pid): Option<map<Pid, V>> {
    if m.None? then None else Some(m.value - {pid})
  }

  /** The player leaves the set and its counters; nothing is drained yet. */
  function Leave(s: State, pid: Pid): State {
    s.(ctx := s.ctx.(active := Without(s.ctx.active, pid)), counts := Without(s.counts, pid),
       stageMin := Without(s.stageMin, pid), stageMax := Without(s.stageMax, pid))
  }

  /** setStage: enter the stage, forget the seat's move count, fire the stage's OnBegin. */
  function EnterStage(game: Game, m: Machine, pid: Pid, stage: string): (r: Machine)
    ensures Keeps(m.st, r.st)
    ensures r.st.ctx == m.st.ctx.(active := r.st.ctx.active)
    ensures QuietHooks(game) ==> r.env.events == m.env.events
  {
    var seats := if m.st.ctx.active.None? then map[] else m.st.ctx.active.value;
    var s := m.st.(ctx := m.st.ctx.(active := Some(seats[pid := stage])), counts := Without(m.st.counts, pid));
    var config := game.LookupStage(s.ctx.phase, stage);
    if config.None? then m.(st := s) else RunHook(config.value.onBegin, m.(st := s), pid)
  }

  function WithLimit(m: CountMap, pid: Pid, limit: Option<int>): CountMap {
    if limit.None? then m else Some((if m.None? then map[] else m.value)[pid := limit.value])
  }

  /** setStageLong: enter the stage, then set the given per-seat limits. */
  function EnterStageLong(game: Game, m: Machine, pid: Pid, stage: string, min: Option<int>, max: Option<int>)
    : (r: Machine)
    ensures Keeps(m.st, r.st)
    ensures r.st.ctx == m.st.ctx.(active := r.st.ctx.active)
    ensures QuietHooks(game) ==> r.env.events == m.env.events
  {
    var entered := EnterStage(game, m, pid, stage);
    entered.(st := entered.st.(stageMin := WithLimit(entered.st.stageMin, pid, min),
                               stageMax := WithLimit(entered.st.stageMax, pid, max)))
  }

  /** The stage a seat is in, "" when it is in none. */
  function StageOf(ctx: Ctx, pid: Pid): string {
    if ctx.active.Some? && pid in ctx.active.value then ctx.active.value[pid] else ""
  }

  /** The leaving stage's OnEnd. */
  function EndedStage(game: Game, m: Machine, pid: Pid): (r: Machine)
    ensures r.st == m.st.(g := r.st.g, log := r.st.log) && Keeps(m.st, r.st) && r.panicked == m.panicked
    ensures QuietHooks(game) ==> r.env.events == m.env.events
  {
    var config := game.LookupStage(m.st.ctx.phase, StageOf(m.st.ctx, pid));
    if config.None? then m else RunHook(config.value.onEnd, m, pid)
  }

  /** The seat leaves the active set; a set emptied by that is drained. */
  function Departed(s: State, pid: Pid): (t: State)
    ensures Keeps(s, t) && t.ctx == s.ctx.(active := t.ctx.active)
    ensures t.g == s.g && t.log == s.log && t.stateID == s.stateID
  {
    var left := Leave(s, pid);
    if left.ctx.active == Some(map[]) then DrainActive(left) else left
  }

  /** endStage: fire OnEnd, then move on to the stage's Next or leave the set, draining it if now empty. */
  function LeaveStage(game: Game, m: Machine, pid: Pid): (r: Machine)
    ensures Keeps(m.st, r.st)
    ensures r.st.ctx == m.st.ctx.(active := r.st.ctx.active)
    ensures QuietHooks(game) ==> r.env.events == m.env.events
  {
    if m.st.ctx.active.None? then m
    else
      var ended := EndedStage(game, m, pid);
      var next := game.NextStage(m.st.ctx.phase, StageOf(m.st.ctx, pid));
      if next != "" then EnterStage(game, ended, pid, next) else ended.(st := Departed(ended.st, pid))
  }

  // ---- turns and phases -------------------------------------------------------------------------------------

  /** Turn-scoped bookkeeping wiped when a turn or phase ends. */
  function ClearTurn(s: State): State {
    s.(ctx := s.ctx.(numMoves := 0, active := None), counts := None, stageMin := None, stageMax := None,
       stack := [], pendingNext := None)
  }

  /** The first index holding a value, or -1. */
  function IndexOf<T(==)>(xs: seq<T>, x: T): (i: int)
    ensures x in xs ==> 0 <= i < |xs| && xs[i] == x && x !in xs[..i]
    ensures x !in xs ==> i == -1
  {
    if xs == [] then -1 else if xs[0] == x then 0
    else
      var i := IndexOf(xs[1..], x);
      assert i >= 0 ==> xs[..i + 1] == [xs[0]] + xs[1..][..i];
      if i < 0 then -1 else i + 1
  }

  /** Go's remainder, whose sign is the dividend's. */
  function GoMod(a: int, b: int): int
    requires b != 0
  {
    if a >= 0 then a % b else -((-a) % b)
  }

  /** The seat index order.Next picks: None ends the phase. The second component is a division by zero. */
  function NextPos(order: TurnOrder, ctx: Ctx, input: HookIn): (Answer<Option<int>>, bool)
    requires ctx.playOrder != []
  {
    match order
    case Custom(_) => (Answer(Some(GoMod(ctx.pos + 1, |ctx.playOrder|)), input.api), false)
    case CustomFrom(_) => (Answer(Some(GoMod(ctx.pos + 1, |ctx.playOrder|)), input.api), false)
    case Once => (Answer(if ctx.pos + 1 >= ctx.numPlayers then None else Some(ctx.pos + 1), input.api), false)
    case UserOrder(_, next, _) =>
      if next.None? then (Answer(Some(GoMod(ctx.pos + 1, |ctx.playOrder|)), input.api), false)
      else (next.value(input), false)
    case _ =>
      if ctx.numPlayers == 0 then (Answer(Some(0), input.api), true)
      else (Answer(Some(GoMod(ctx.pos + 1, ctx.numPlayers)), input.api), false)
  }

  function EffectiveOrder(turn: Option<Turn>): TurnOrder {
    if turn.Some? && !turn.value.order.IsDefault() then turn.value.order else Default
  }

  /** Point the cursor at a position, wrapping past the end; a negative one panics. */
  function Seat(m: Machine, n: int): Machine {
    var s := m.st;
    var p := if n >= |s.ctx.playOrder| && s.ctx.playOrder != [] then n % |s.ctx.playOrder| else n;
    if 0 <= p < |s.ctx.playOrder| then m.(st := s.(ctx := s.ctx.(pos := p, currentPlayer := s.ctx.playOrder[p])))
    else m.(panicked := true)
  }

  ghost predicate KeepsMachine(m: Machine, r: Machine) {
    Keeps(m.st, r.st) && r.st.stateID == m.st.stateID &&
    (m.panicked ==> r.panicked) && r.st.ctx.gameover == m.st.ctx.gameover
  }

  /** advancePlayOrderPos: ask the turn order for the next seat; a nil answer ends the phase. */
  function Advance(game: Game, m: Machine, turn: Option<Turn>): (r: Machine)
    ensures KeepsMachine(m, r)
    ensures QuietHooks(game) ==> r.env.events == m.env.events
    decreases if m.st.ctx.phase == "" then 1 else 3
  {
    if m.st.ctx.playOrder == [] then m
    else
      var (answer, divides) := NextPos(EffectiveOrder(turn), m.st.ctx, Input(m, ""));
      var asked := m.(env := m.env.(api := answer.api), panicked := m.panicked || divides);
      if answer.choice.None? then LeavePhase(game, asked, "") else Seat(asked, answer.choice.value)
  }

  /** The seating a turn order asks for, the plugin state its callbacks leave, and whether the first place is out of range. */
  function Seating(order: TurnOrder, input: HookIn): (r: (Ctx, Option<Value>, bool))
    ensures r.0 == input.ctx.(playOrder := r.0.playOrder, numPlayers := r.0.numPlayers, pos := r.0.pos,
                              currentPlayer := r.0.currentPlayer)
  {
    var ctx := input.ctx;
    var (listed, api) :=
      match order
      case Custom(seats) => (Some(seats), input.api)
      case CustomFrom(getter) => (Some(getter(input.g)), input.api)
      case UserOrder(_, _, playOrder) =>
        if playOrder.None? then (None, input.api)
        else var a := playOrder.value(input); (Some(a.choice), a.api)
      case _ => (None, input.api);
    var reordered := if listed.None? then ctx else ctx.(playOrder := listed.value, numPlayers := |listed.value|);
    var (first, api') :=
      match order
      case Continue => (ctx.pos, api)
      case UserOrder(f, _, _) =>
        if f.None? then (0, api) else var a := f.value(input.(api := api)); (a.choice, a.api)
      case _ => (0, api);
    var at := reordered.(pos := first);
    if at.playOrder == [] then (at, api', false)
    else if 0 <= first < |at.playOrder| then (at.(currentPlayer := at.playOrder[first]), api', false)
    else (at, api', true)
  }

  /** applyTurnOrderFirst: on entering a scope, override PlayOrder if the order says so and seat the first player. */
  function SeatFirst(game: Game, m: Machine): (r: Machine)
    ensures KeepsMachine(m, r) && r.st.ctx.phase == m.st.ctx.phase && r.st.g == m.st.g && r.st.log == m.st.log
    ensures r.st == m.st.(ctx := r.st.ctx) && r.st.ctx.active == m.st.ctx.active && r.env.events == m.env.events
  {
    var (ctx, api, off) := Seating(EffectiveOrder(game.ScopeTurn(m.st.ctx.phase)), Input(m, ""));
    m.(st := m.st.(ctx := ctx), env := m.env.(api := api), panicked := m.panicked || off)
  }

  /** runPhaseEnter: the entry sequence of the phase named in the context. */
  function EnterPhase(game: Game, m: Machine): (r: Machine)
    ensures KeepsMachine(m, r)
    ensures QuietHooks(game) ==> r.env.events == m.env.events
  {
    var seated := SeatFirst(game, m);
    var active := ApplyActiveFromTurn(game, seated);
    RunTurnOnBegin(game, RunPhaseOnBegin(game, active))
  }

  /** The first half of endPhase: the turn and the phase end, and the context names the phase to come. */
  function EndedPhase(game: Game, m: Machine, nextPhase: string): (r: Machine)
    requires m.st.ctx.phase in game.phases
    ensures KeepsMachine(m, r)
    ensures QuietHooks(game) ==> r.env.events == m.env.events
  {
    var phase := m.st.ctx.phase;
    var turnEnded := RunTurnOnEnd(game, m);
    var answer := game.phases[phase].next(Input(turnEnded, ""));
    var target := if nextPhase != "" then nextPhase else answer.choice;
    var asked := if nextPhase != "" then turnEnded else turnEnded.(env := turnEnded.env.(api := answer.api));
    var ended := RunHook(game.phases[phase].onEnd, asked, "");
    var s := ClearTurn(ended.st);
    ended.(st := s.(ctx := s.ctx.(phase := target, turn := s.ctx.turn + 1)))
  }

  /** endPhase: end the turn and phase, resolve the next phase, and enter it or rotate in the global scope. */
  function LeavePhase(game: Game, m: Machine, nextPhase: string): (r: Machine)
    ensures KeepsMachine(m, r)
    ensures QuietHooks(game) ==> r.env.events == m.env.events
    decreases if m.st.ctx.phase == "" then 0 else 2
  {
    var phase := m.st.ctx.phase;
    if phase == "" then
      if nextPhase == "" then m else EnterPhase(game, m.(st := m.st.(ctx := m.st.ctx.(phase := nextPhase))))
    else if phase !in game.phases then m
    else
      var moved := EndedPhase(game, m, nextPhase);
      if moved.st.ctx.phase == "" then
        RunTurnOnBegin(game, ApplyActiveFromTurn(game, Advance(game, moved, game.turn)))
      else EnterPhase(game, moved)
  }

  /** The new turn starts: count it, install Turn.ActivePlayers, run OnBegin. */
  function BeginTurn(game: Game, m: Machine): (r: Machine)
    ensures KeepsMachine(m, r)
    ensures r.st.ctx == m.st.ctx.(turn := m.st.ctx.turn + 1, active := r.st.ctx.active)
    ensures QuietHooks(game) ==> r.env.events == m.env.events
  {
    RunTurnOnBegin(game, ApplyActiveFromTurn(game, m.(st := m.st.(ctx := m.st.ctx.(turn := m.st.ctx.turn + 1)))))
  }

  /** The named player is made current; the cursor follows if they are seated. */
  function ForcePlayer(m: Machine, pid: Pid): Machine {
    var i := IndexOf(m.st.ctx.playOrder, pid);
    m.(st := m.st.(ctx := m.st.ctx.(currentPlayer := pid, pos := if i < 0 then m.st.ctx.pos else i)))
  }

  /** The first half of endTurn: OnEnd runs, then the turn's bookkeeping and the undo stack are wiped. */
  function EndedTurn(game: Game, m: Machine): (r: Machine)
    ensures KeepsMachine(m, r) && r.st.ctx == m.st.ctx.(numMoves := 0, active := None)
    ensures QuietHooks(game) ==> r.env.events == m.env.events
  {
    var ended := RunTurnOnEnd(game, m);
    ended.(st := ClearTurn(ended.st).(snapshots := [], undone := []))
  }

  /** endTurn: OnEnd, wipe the turn's bookkeeping and undo stack, pick the next player, begin their turn. */
  function FinishTurn(game: Game, m: Machine, next: Pid): (r: Machine)
    ensures KeepsMachine(m, r)
    ensures QuietHooks(game) ==> r.env.events == m.env.events
  {
    var wiped := EndedTurn(game, m);
    if next != "" then BeginTurn(game, ForcePlayer(wiped, next))
    else
      var advanced := Advance(game, wiped, game.ScopeTurn(m.st.ctx.phase));
      if advanced.st.ctx.gameover.Some? then advanced else BeginTurn(game, advanced)
  }

  /** Splice a seat out of PlayOrder and re-point the cursor; turn end and active set are left alone. */
  function Unseat(ctx: Ctx, idx: int): (r: Ctx)
    requires 0 <= idx < |ctx.playOrder|
    ensures r == ctx.(playOrder := r.playOrder, currentPlayer := r.currentPlayer, pos := r.pos)
  {
    var order := ctx.playOrder[..idx] + ctx.playOrder[idx + 1..];
    var shifted := if idx < ctx.pos then ctx.pos - 1 else ctx.pos;
    if order == [] then ctx.(playOrder := order, currentPlayer := "", pos := 0)
    else
      var p := if shifted >= |order| then 0 else shifted;
      ctx.(playOrder := order, pos := p, currentPlayer := if 0 <= p then order[p] else "")
  }

  /** The seat is deleted from the active map without draining it; an emptied map becomes nil. */
  function Struck(s: State, pid: Pid): (t: State)
    ensures Keeps(s, t) && t.ctx == s.ctx.(active := t.ctx.active) && t.stateID == s.stateID
    ensures t == s.(ctx := t.ctx)
  {
    if s.ctx.active.None? then s else s.(ctx := s.ctx.(active := NilIfEmpty(s.ctx.active.value - {pid})))
  }

  function Unseated(m: Machine, idx: int): (r: Machine)
    requires 0 <= idx < |m.st.ctx.playOrder|
    ensures KeepsMachine(m, r)
  {
    var ctx := Unseat(m.st.ctx, idx);
    m.(st := m.st.(ctx := ctx), panicked := m.panicked || ctx.pos < 0)
  }

  /** removePlayer: unseat the player, end the turn if it was theirs, strike them from the active set. */
  function Eliminate(game: Game, m: Machine, pid: Pid): (r: Machine)
    ensures KeepsMachine(m, r)
    ensures QuietHooks(game) ==> r.env.events == m.env.events
  {
    var idx := IndexOf(m.st.ctx.playOrder, pid);
    if idx < 0 then m
    else
      var unseated := Unseated(m, idx);
      if unseated.st.ctx.playOrder == [] then unseated
      else
        var rotated := if m.st.ctx.currentPlayer == pid then FinishTurn(game, unseated, "") else unseated;
        rotated.(st := Struck(rotated.st, pid))
  }

  /** runGameOnEnd. */
  function RunGameOnEnd(game: Game, m: Machine): (r: Machine)
    ensures KeepsMachine(m, r) && r.st.ctx == m.st.ctx
    ensures QuietHooks(game) ==> r.env.events == m.env.events
  {
    RunHook(game.onEnd, m, "")
  }

  // ---- the event drain --------------------------------------------------------------------------------------

  /** The drain's working context: the machine, whose move it is, and the RunMove counter. */
  datatype Drain = Drain(m: Machine, pid: Pid, chained: int)

  ghost predicate KeepsDrain(d: Drain, r: Drain) {
    Keeps(d.m.st, r.m.st) && (d.m.panicked ==> r.m.panicked) &&
    r.pid == d.pid
  }

  /** runChainedMove: an Events.RunMove. What a failing move queued stays queued; its G and log do not. */
  function RunChained(game: Game, m: Machine, pid: Pid, name: string, args: seq<Value>): (r: Machine)
    ensures Keeps(m.st, r.st) && r.st.ctx == m.st.ctx && r.st.stack == m.st.stack && r.panicked == m.panicked
    ensures r.st.stateID <= m.st.stateID + 1
  {
    var table := game.ScopeMoves(m.st.ctx.phase);
    if name !in table || table[name].Unsupported? then m
    else
      var o := table[name].m.raw(Input(m, pid), args);
      var absorbed := m.(env := Absorb(m.env, o.out));
      if o.error.Some? then absorbed
      else
        var entry := LogEntry("chained-move", name, pid, args, 0, m.st.ctx.turn, m.st.ctx.phase, "", false, false,
                              0, "", false);
        absorbed.(st := m.st.(g := o.out.g, stateID := m.st.stateID + 1,
                              log := m.st.log + [entry] + AllNoted(o.out.notes, m.st.ctx)))
  }

  /** One event of a batch. */
  function Handle(game: Game, d: Drain, ev: Event): (r: Drain)
    ensures KeepsDrain(d, r)
  {
    var m := d.m;
    match ev
    case EndTurn(next) =>
      var turn := game.ScopeTurn(m.st.ctx.phase);
      if turn.Some? && turn.value.minMoves > 0 && m.st.ctx.numMoves < turn.value.minMoves then d
      else d.(m := FinishTurn(game, m, next))
    case EndPhase => d.(m := LeavePhase(game, m, ""))
    case SetPhase(phase) => d.(m := LeavePhase(game, m, phase))
    case EndStage => d.(m := LeaveStage(game, m, d.pid))
    case SetStage(stage) => d.(m := EnterStage(game, m, d.pid, stage))
    case SetStageLong(stage, min, max) => d.(m := EnterStageLong(game, m, d.pid, stage, min, max))
    case EndGame(result) => d.(m := RunGameOnEnd(game, m.(st := m.st.(ctx := m.st.ctx.(gameover := result)))))
    case SetActivePlayers(cfg) => d.(m := m.(st := Install(m.st, cfg)))
    case RemovePlayer(pid) => d.(m := Eliminate(game, m, pid))
    case RunMove(name, args) =>
      if d.chained + 1 > MAX_CHAINED_MOVES then d.(chained := d.chained + 1)
      else d.(m := RunChained(game, m, d.pid, name, args), chained := d.chained + 1)
  }

  /** The events of one batch, in order. */
  function HandleAll(game: Game, d: Drain, batch: seq<Event>): (r: Drain)
    ensures KeepsDrain(d, r)
    decreases |batch|
  {
    if batch == [] then d else HandleAll(game, Handle(game, d, batch[0]), batch[1..])
  }

  /** drainEvents: batch after batch until the queue is empty; None when `rounds` batches were not enough. */
  function DrainEvents(game: Game, d: Drain, rounds: nat): (r: Option<Drain>)
    ensures r.Some? ==> KeepsDrain(d, r.value) && (r.value.m.env.events == [] || r.value.m.panicked)
    decreases rounds
  {
    var batch := d.m.env.events;
    if batch == [] || d.m.panicked then Some(d)
    else if rounds == 0 then None
    else DrainEvents(game, HandleAll(game, d.(m := d.m.(env := d.m.env.(events := []))), batch), rounds - 1)
  }
}
