/**
 Small concrete games and how their moves come out: a move that only changes G or raises blocks, and one that queues a
 single event. The examples build their matches from these.
 */
module PlainGames {
  import opened Engine
  import opened Transitions
  import opened Reducer
  import opened Reachable
  import opened UndoRedo

  /** What a plain move leaves: this G, these events and these blocks. */
  function Left(i: HookIn, g: Value, events: seq<Event>, raised: seq<Block>): MoveOut {
    MoveOut(None, HookOut(g, events, [], raised, [], [], i.api))
  }

  function Plain(run: (HookIn, seq<Value>) -> MoveOut, undoable: bool): Move {
    Move(run, run, (i: HookIn) => undoable, (i: HookIn) => false, false, false, false, false, false)
  }

  /** A move that queues one event. */
  function Announcing(ev: Event, undoable: bool, noLimit: bool): Move {
    Plain((i: HookIn, args: seq<Value>) => Left(i, i.g, [ev], i.raised), undoable).(noLimit := noLimit)
  }

  function Asked(pid: Pid, move: string, args: seq<Value>, tag: string): Request {
    Request(pid, move, args, 0, tag, 0, false, false)
  }

  /** Accepted calls one after another. */
  lemma AfterTwo(game: Game, s: State, s1: State, s2: State, c1: Call, c2: Call, rest: seq<Call>, rounds: nat)
    requires Do(game, s, c1, rounds) == Done(s1) && Do(game, s1, c2, rounds) == Done(s2)
    ensures After(game, s, [c1, c2] + rest, rounds) == After(game, s2, rest, rounds)
  {
    hide Do;
    assert ([c1, c2] + rest)[1..] == [c2] + rest && ([c2] + rest)[1..] == rest;
  }

  // ---- a game without hooks ---------------------------------------------------------------------------------

  /** No turn configuration, phases, EndIf or plugins: nothing happens but the moves. */
  predicate Hookless(game: Game) {
    game.turn.None? && game.phases == map[] && game.endIf.None? && game.plugins.None?
  }

  lemma {:induction false} NobodyDropped(blocks: seq<Block>)
    ensures WithoutBlocksFor(blocks, []) == blocks
  {
    if blocks != [] { NobodyDropped(blocks[1..]); }
  }

  lemma SettlesQuietly(game: Game, r: Running, move: Move, rounds: nat)
    requires Hookless(game) && r.extra == [] && r.d.m.env.events == [] && r.d.m.env.drops == []
    requires r.d.m.st.ctx.active.None? && !r.d.m.panicked
    ensures Settle(game, r, move, rounds) == Done(r.d.m)
  {
    hide WithoutBlocksFor;
    assert CheckEnds(game, r.d.m, r.d.pid, move) == r.d.m;
    assert r.d.m.st.log + [] == r.d.m.st.log;
    NobodyDropped(r.d.m.st.blocks);
  }

  /** An admitted move that only changes G and raises blocks. */
  lemma MovesPlainly(game: Game, s: State, req: Request, g: Value, raised: seq<Block>, undoable: bool, rounds: nat)
    requires Hookless(game) && !game.disableUndo && s.ctx.active.None? && s.queue == []
    requires
      var a := Admit(game, s, req);
      && a.Admitted? && !a.move.noLimit
      && var input := HookIn(s.g, a.st.ctx, req.pid, a.resuming, [], None);
      && a.move.run(input, req.args) == Left(input, g, [], raised) && a.move.undoable(input) == undoable
      && !a.move.redact(input)
    ensures
      var st := Admit(game, s, req).st;
      Apply(game, s, req, rounds) ==
      Done(st.(g := g, stateID := s.stateID + 1, undone := [], ctx := st.ctx.(numMoves := s.ctx.numMoves + 1),
               log := s.log + [MoveEntryOf(st, req, false, undoable)], blocks := st.blocks + raised,
               snapshots := if undoable then s.snapshots + [Snapshot(st)] else s.snapshots))
  {
    hide Admit, Settle, WithoutBlocksFor;
    var a := Admit(game, s, req);
    AdmittedState(game, s, req);
    var p := PlayMove(game, a, req).value;
    var r := CountMove(game, a, p, req);
    assert r.d.m.env == Env([], [], raised, [], None) && r.extra == [];
    SettlesQuietly(game, r, a.move, rounds);
    assert Harvest(r.d.m.st, r.d.m.env).queue == [];
  }

  lemma SetsUpQuietly(game: Game, requested: int, setupData: Value, seed: int, rounds: nat)
    requires Hookless(game) && game.start == "" && game.PlayerCount(requested) >= 1
    ensures NewMatch(game, requested, setupData, seed, rounds) == Done(FirstState(game, requested, setupData, seed))
  {
    hide Itoa;
    var s := FirstState(game, requested, setupData, seed);
    var m := Machine(s, Env([], [], [], [], None), false);
    assert s.ctx.playOrder[0] == s.ctx.currentPlayer;
    assert EnterPhase(game, m) == m;
  }

  // ---- a move that queues one event -------------------------------------------------------------------------

  /** The machine at the point where the move's own events are drained, the one event taken off the queue. */
  function Counting(game: Game, s: State, req: Request): Running
    requires Admit(game, s, req).Admitted? && PlayMove(game, Admit(game, s, req), req).Done?
  {
    var a := Admit(game, s, req);
    var r := CountMove(game, a, PlayMove(game, a, req).value, req);
    r.(d := r.d.(m := r.d.m.(env := r.d.m.env.(events := []))))
  }

  /** A move that queues one event, which queues nothing and after which no end rule fires. */
  lemma HandlesOne(game: Game, s: State, req: Request, ev: Event, rounds: nat)
    requires rounds >= 1 && Admit(game, s, req).Admitted? && PlayMove(game, Admit(game, s, req), req).Done?
    requires
      var a := Admit(game, s, req);
      CountMove(game, a, PlayMove(game, a, req).value, req).d.m.env == Env([ev], [], [], [], None)
    requires
      var r := Counting(game, s, req);
      var d := Handle(game, r.d, ev);
      && r.extra == [] && d.m.env == Env([], [], [], [], None) && !d.m.panicked && d.m.st.queue == []
      && CheckEnds(game, d.m, req.pid, Admit(game, s, req).move) == d.m
    ensures Apply(game, s, req, rounds) == Done(Handle(game, Counting(game, s, req).d, ev).m.st)
  {
    hide Admit, PlayMove, CountMove, Handle, CheckEnds, WithoutBlocksFor;
    var a := Admit(game, s, req);
    var r := CountMove(game, a, PlayMove(game, a, req).value, req);
    var taken := Counting(game, s, req).d;
    var d := Handle(game, taken, ev);
    assert [ev][1..] == [];
    assert HandleAll(game, taken, [ev]) == d;
    assert DrainEvents(game, r.d, rounds) == Some(d);
    assert d.m.st.log + [] == d.m.st.log;
    NobodyDropped(d.m.st.blocks);
    assert Settle(game, r, a.move, rounds) == Done(d.m);
    assert Harvest(d.m.st, d.m.env) == d.m.st;
  }

  /** The state an announcing move leaves before its event is handled. */
  function Logged(st: State, req: Request, undoable: bool, noLimit: bool): State {
    var moved := st.(stateID := st.stateID + 1, undone := [], log := st.log + [MoveEntryOf(st, req, false, undoable)],
                     snapshots := if undoable then st.snapshots + [Snapshot(st)] else st.snapshots);
    if noLimit then moved else Bump(moved.(ctx := moved.ctx.(numMoves := moved.ctx.numMoves + 1)), req.pid)
  }

  /** An announcing move in a game without plugins, onMove hooks and EndIf: what remains to be shown is what its event does. */
  lemma Announces(game: Game, s: State, req: Request, ev: Event, undoable: bool, noLimit: bool, rounds: nat)
    requires rounds >= 1 && game.plugins.None? && !game.disableUndo
    requires game.ScopeTurn(s.ctx.phase).None? || game.ScopeTurn(s.ctx.phase).value.onMove.None?
    requires
      var a := Admit(game, s, req);
      && a.Admitted? && a.move == Announcing(ev, undoable, noLimit)
      && var d := Handle(game, Drain(Machine(Logged(a.st, req, undoable, noLimit), Env([], [], [], [], None), false), req.pid, 0), ev);
      && d.m.env == Env([], [], [], [], None) && !d.m.panicked && d.m.st.queue == []
      && CheckEnds(game, d.m, req.pid, a.move) == d.m
    ensures
      var d := Drain(Machine(Logged(Admit(game, s, req).st, req, undoable, noLimit), Env([], [], [], [], None), false), req.pid, 0);
      Apply(game, s, req, rounds) == Done(Handle(game, d, ev).m.st)
  {
    hide Admit, Handle, CheckEnds, Bump, Apply;
    var a := Admit(game, s, req);
    AdmittedState(game, s, req);
    assert PlayMove(game, a, req).Done?;
    var r := Counting(game, s, req);
    assert r.d == Drain(Machine(Logged(a.st, req, undoable, noLimit), Env([], [], [], [], None), false), req.pid, 0);
    HandlesOne(game, s, req, ev, rounds);
  }

  /** A counting move that leaves everything as it is: the count goes up and spent seats leave the active set. */
  lemma CountsOnly(game: Game, s: State, req: Request, rounds: nat)
    requires Hookless(game) && !game.disableUndo && s.queue == []
    requires
      var a := Admit(game, s, req);
      && a.Admitted? && a.st.blocks == [] && a.st.ctx.gameover.None?
      && a.move == Plain((i: HookIn, args: seq<Value>) => Left(i, i.g, [], i.raised), false)
    ensures Apply(game, s, req, rounds) == Done(AutoEnd(Logged(Admit(game, s, req).st, req, false, false)))
  {
    hide Admit, AutoEnd, Bump, WithoutBlocksFor;
    var a := Admit(game, s, req);
    AdmittedState(game, s, req);
    var p := PlayMove(game, a, req).value;
    var r := CountMove(game, a, p, req);
    assert r.d.m == Machine(Logged(a.st, req, false, false), Env([], [], [], [], None), false) && r.extra == [];
    var ended := r.d.m.(st := AutoEnd(r.d.m.st));
    BumpKeepsRest(Logged(a.st, req, false, true).(ctx := a.st.ctx.(numMoves := a.st.ctx.numMoves + 1)), req.pid);
    assert CheckEnds(game, r.d.m, req.pid, a.move) == ended;
    assert ended.st.log + [] == ended.st.log;
    NobodyDropped(ended.st.blocks);
    assert Settle(game, r, a.move, rounds) == Done(ended);
    assert Harvest(ended.st, ended.env) == ended.st;
  }

  lemma BumpKeepsRest(s: State, pid: Pid)
    ensures Bump(s, pid) == s.(counts := Bump(s, pid).counts)
  {
  }

  /** Such a move up to its end rules, in a game without plugins and onMove hooks. */
  lemma PlainCounted(game: Game, s: State, req: Request)
    requires game.plugins.None? && !game.disableUndo
    requires game.ScopeTurn(s.ctx.phase).None? || game.ScopeTurn(s.ctx.phase).value.onMove.None?
    requires
      var a := Admit(game, s, req);
      a.Admitted? && a.move == Plain((i: HookIn, args: seq<Value>) => Left(i, i.g, [], i.raised), false)
    ensures
      var a := Admit(game, s, req);
      && PlayMove(game, a, req).Done?
      && CountMove(game, a, PlayMove(game, a, req).value, req) ==
         Running(Drain(Machine(Logged(a.st, req, false, false), Env([], [], [], [], None), false), req.pid, 0), [])
  {
    hide Admit, Bump;
    AdmittedState(game, s, req);
  }

  /** A counting move that queues nothing, in a game without plugins and onMove hooks: what the end rules leave is the result. */
  lemma EndsAs(game: Game, s: State, req: Request, rounds: nat)
    requires game.plugins.None? && !game.disableUndo
    requires game.ScopeTurn(s.ctx.phase).None? || game.ScopeTurn(s.ctx.phase).value.onMove.None?
    requires
      var a := Admit(game, s, req);
      && a.Admitted? && a.move == Plain((i: HookIn, args: seq<Value>) => Left(i, i.g, [], i.raised), false)
      && var end := CheckEnds(game, Machine(Logged(a.st, req, false, false), Env([], [], [], [], None), false), req.pid, a.move);
      end.env == Env([], [], [], [], None) && !end.panicked && end.st.queue == []
    ensures
      var a := Admit(game, s, req);
      var m := Machine(Logged(a.st, req, false, false), Env([], [], [], [], None), false);
      Apply(game, s, req, rounds) == Done(CheckEnds(game, m, req.pid, a.move).st)
  {
    hide Admit, PlayMove, CountMove, Logged, CheckEnds, WithoutBlocksFor;
    var a := Admit(game, s, req);
    PlainCounted(game, s, req);
    var r := CountMove(game, a, PlayMove(game, a, req).value, req);
    var end := CheckEnds(game, r.d.m, req.pid, a.move);
    assert end.st.log + [] == end.st.log;
    NobodyDropped(end.st.blocks);
    assert Settle(game, r, a.move, rounds) == Done(end);
    assert Harvest(end.st, end.env) == end.st;
  }
}
