/**
 The values the engine works on: Ctx, State, the log, the action queue, pending blocks, active-player
 configurations, and the Game definition itself.

 A game's own code (moves, hooks, EndIf predicates, turn orders, plugins) is a total function from what a
 MoveContext lets it read to what it may produce: a new G, queued events, pushed moves, the block buffer of the
 surrounding move, players whose blocks are dropped, custom log entries and the plugin API state. Every theorem
 about the engine therefore ranges over every deterministic game.
 */
module Engine {

  datatype Option<+T> = None | Some(value: T)

  /** A seat ID; "" names no seat. */
  type Pid = string

  /** Anything the engine never looks inside: G, move arguments, plugin data, game-over results, block payloads. */
  type Value(!new)

  /** Why a request was refused. `GameError` is an error the game's own code returned. */
  datatype Error =
    | GameOver | WrongPlayer | InactivePlayer | UnknownMove | UnsupportedMove | StaleState | Blocked
    | UnknownResumeTag | MoveNotInStage | ServerOnly | DrainOverflow | InvalidMove | GameError(reason: Value)

  /** No value comes twice. */
  predicate Distinct<T(==)>(xs: seq<T>) {
    forall i, j | 0 <= i < j < |xs| :: xs[i] != xs[j]
  }

  // ---- engine data ------------------------------------------------------------------------------------------

  /** ActivePlayersConfig. */
  datatype Cfg = Cfg(
    current: Option<string>, others: Option<string>, all: Option<string>, seats: map<Pid, string>,
    minMoves: int, maxMoves: int, perMin: map<Pid, int>, perMax: map<Pid, int>, revert: bool, next: Option<Cfg>)

  const EMPTY_CFG := Cfg(None, None, None, map[], 0, 0, map[], map[], false, None)

  /** One queued engine transition. Events.Pass is EndTurn(""). */
  datatype Event =
    | EndTurn(next: Pid) | EndPhase | SetPhase(phase: string) | EndStage | SetStage(stage: string)
    | SetStageLong(longStage: string, min: Option<int>, max: Option<int>) | EndGame(result: Option<Value>)
    | SetActivePlayers(cfg: Cfg) | RemovePlayer(pid: Pid) | RunMove(name: string, args: seq<Value>)

  /** QueuedAction: one server-driven move waiting in the cascade. */
  datatype Action = Action(pid: Pid, move: string, args: seq<Value>)

  /** BlockSpec; `payload` stands for Order, Data, Target and Assignment. */
  datatype Block = Block(tag: string, pid: Pid, move: string, payload: Value)

  datatype LogEntry = LogEntry(
    kind: string, move: string, pid: Pid, args: seq<Value>, nowMs: int, turn: int, phase: string, stage: string,
    redact: bool, undoable: bool, parent: int, resumeTag: string, serverDispatch: bool)

  /** A nil Go map is None; a non-nil map, empty or not, is Some. */
  type StageMap = Option<map<Pid, string>>
  type CountMap = Option<map<Pid, int>>

  /** activeFrame: what a Revert install saves. */
  datatype Frame = Frame(active: StageMap, counts: CountMap, min: CountMap, max: CountMap)

  datatype Ctx = Ctx(
    numPlayers: int, currentPlayer: Pid, playOrder: seq<Pid>, pos: int, turn: int, phase: string,
    active: StageMap, gameover: Option<Value>, numMoves: int, nowMs: int, seed: int)

  datatype State = State(
    g: Value, ctx: Ctx, stateID: int, plugins: Option<map<string, Value>>, log: seq<LogEntry>, undone: seq<LogEntry>,
    snapshots: seq<State>, queue: seq<Action>, blocks: seq<Block>, stack: seq<Frame>, pendingNext: Option<Cfg>,
    counts: CountMap, stageMin: CountMap, stageMax: CountMap)

  /** MoveRequest. */
  datatype Request = Request(
    pid: Pid, move: string, args: seq<Value>, stateID: int, resumeTag: string, nowMs: int,
    serverDispatch: bool, fromClient: bool)

  // ---- game code --------------------------------------------------------------------------------------------

  /** What a MoveContext lets game code read. `raised` is Queue.PendingBlocks, `api` the plugin table. */
  datatype HookIn = HookIn(
    g: Value, ctx: Ctx, pid: Pid, resuming: Option<Block>, raised: seq<Block>, api: Option<Value>)

  /** What game code may leave behind. `raised` replaces the block buffer, which covers Block and Unblock. */
  datatype HookOut = HookOut(
    g: Value, events: seq<Event>, pushes: seq<Action>, raised: seq<Block>, drops: seq<Pid>, notes: seq<LogEntry>,
    api: Option<Value>)

  type Hook = HookIn -> HookOut

  /** A move may fail after having queued events or blocks, so its effects are there either way. */
  datatype MoveOut = MoveOut(error: Option<Error>, out: HookOut)

  /** An EndIf predicate's verdict; its `out.g` and `out.notes` go nowhere. */
  datatype Check<+T> = Check(verdict: T, out: HookOut)

  /** `run` is the move wrapped by the plugins, `raw` the bare function Events.RunMove calls. */
  datatype Move = Move(
    run: (HookIn, seq<Value>) -> MoveOut, raw: (HookIn, seq<Value>) -> MoveOut, undoable: HookIn -> bool,
    redact: HookIn -> bool, serverOnly: bool, noLimit: bool, ignoreStale: bool, ignoreBlocks: bool, anyPlayer: bool)

  /** A Moves table value: a move, or something asMove refuses. */
  datatype MoveEntry = Playable(m: Move) | Unsupported

  datatype Stage = Stage(
    moves: map<string, MoveEntry>, exclusive: bool, next: string, onBegin: Option<Hook>, onEnd: Option<Hook>)

  /** The answer of a "who or what is next?" callback, and the plugin state it leaves. */
  datatype Answer<+T> = Answer(choice: T, api: Option<Value>)

  /** The zero TurnOrder, the built-in orders, and a user-written one. */
  datatype TurnOrder =
    | Unset | Default | Reset | Continue | Once | Custom(order: seq<Pid>) | CustomFrom(getter: Value -> seq<Pid>)
    | UserOrder(first: Option<HookIn -> Answer<int>>, next: Option<HookIn -> Answer<Option<int>>>,
                playOrder: Option<HookIn -> Answer<seq<Pid>>>)
  {
    predicate IsDefault() {
      Unset? || (UserOrder? && first.None? && next.None? && playOrder.None?)
    }
  }

  datatype Turn = Turn(
    order: TurnOrder, onBegin: Option<Hook>, onEnd: Option<Hook>, onMove: Option<Hook>,
    endIf: Option<HookIn -> Check<(bool, Pid)>>, minMoves: int, maxMoves: int, active: Option<Cfg>,
    stages: map<string, Stage>)

  datatype Phase = Phase(
    onBegin: Option<Hook>, onEnd: Option<Hook>, endIf: Option<HookIn -> Check<(bool, string)>>,
    moves: Option<map<string, MoveEntry>>, turn: Option<Turn>, next: HookIn -> Answer<string>)

  /** The plugin list, folded into the four things the engine asks of it. */
  datatype Plugins = Plugins(
    setup: (Value, Ctx) -> map<string, Value>,
    api: (Option<map<string, Value>>, Value, Ctx, Pid) -> Value,
    flush: (map<string, Value>, Option<Value>, Value, Ctx) -> map<string, Value>,
    invalid: (Option<map<string, Value>>, Value, Ctx) -> Option<Error>)

  datatype Game = Game(
    minPlayers: int, maxPlayers: int, setup: (Ctx, Value) -> Value, moves: map<string, MoveEntry>,
    turn: Option<Turn>, phases: map<string, Phase>, start: string, endIf: Option<HookIn -> Check<Option<Value>>>,
    onEnd: Option<Hook>, onUndo: Option<HookIn -> Value>, disableUndo: bool, plugins: Option<Plugins>)
  {
    /** scopeTurn: the phase's turn config, else the game's. */
    function ScopeTurn(phase: string): Option<Turn> {
      if phase != "" && phase in phases && phases[phase].turn.Some? then phases[phase].turn else turn
    }

    /** scopeMoves: the phase's table when it has one, else the game's. */
    function ScopeMoves(phase: string): map<string, MoveEntry> {
      if phase != "" && phase in phases && phases[phase].moves.Some? then phases[phase].moves.value else moves
    }

    /** lookupStage: the phase's stage of that name wins over the game's. */
    function LookupStage(phase: string, stage: string): Option<Stage> {
      if phase != "" && phase in phases && phases[phase].turn.Some? && stage in phases[phase].turn.value.stages then
        Some(phases[phase].turn.value.stages[stage])
      else if turn.Some? && stage in turn.value.stages then
        Some(turn.value.stages[stage])
      else
        None
    }

    /** The stage EndStage moves on to: the phase's Next when non-empty, else the game's. */
    function NextStage(phase: string, stage: string): string {
      var fromPhase :=
        if phase != "" && phase in phases && phases[phase].turn.Some? && stage in phases[phase].turn.value.stages
        then phases[phase].turn.value.stages[stage].next else "";
      if fromPhase == "" && turn.Some? && stage in turn.value.stages then turn.value.stages[stage].next else fromPhase
    }

    /** PlayerCount: the requested count, defaulted and clamped to the game's bounds. */
    function PlayerCount(requested: int): int {
      var n := if requested > 0 then requested
               else if maxPlayers > 0 then maxPlayers else if minPlayers > 0 then minPlayers else 2;
      var low := if minPlayers > 0 && n < minPlayers then minPlayers else n;
      if maxPlayers > 0 && low > maxPlayers then maxPlayers else low
    }
  }

  // ---- running machine --------------------------------------------------------------------------------------

  /** hookEnv: the queues every hook of one Apply shares, and the plugin table. */
  datatype Env = Env(
    events: seq<Event>, pending: seq<Action>, raised: seq<Block>, drops: seq<Pid>, api: Option<Value>)

  /**
   A state under transition. `panicked` latches once the Go code would have indexed out of range or divided by
   zero; whatever follows is then discarded with the rest of the call.
   */
  datatype Machine = Machine(st: State, env: Env, panicked: bool)

  /** What one engine call does: finish, refuse, panic, or still be draining events when the round budget ends. */
  datatype Outcome<+T> = Done(value: T) | Refused(error: Error) | Panicked | Unfinished
}
