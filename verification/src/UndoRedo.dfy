/**
 What undo and redo give back. Undo restores the state the last undoable move of the turn was admitted in and pops one
 log entry, whatever was accepted since. So it takes back exactly the last move if and only if that move is undoable and
 wrote one entry, and the log is what that state's log was if and only if the last entry is an undoable move. Redo
 applies the popped entry without its tag and clock, and gives the move's result back if and only if it had neither.
 */
module UndoRedo {
  import opened Engine
  import opened Transitions
  import opened Reducer
  import opened Laws
  import opened Reachable
  import opened ReplayFidelity
  import opened Gates
  import opened UndoBlind

  // ---- the undo stack ---------------------------------------------------------------------------------------

  /** The undo stack with an accepted move's own snapshot on top, if the move is undoable. */
  function Pushed(game: Game, s: State, req: Request, t: State): seq<State>
    requires Admit(game, s, req).Admitted? && |s.log| < |t.log|
  {
    if t.log[|s.log|].undoable then s.snapshots + [Snapshot(Admit(game, s, req).st)] else s.snapshots
  }

  lemma {:induction false} CascadeKeepsStack(k: Law, game: Game, s: State, env: Env, parent: int, rounds: nat)
    requires GameOk(k, game) && StateInv(k, s) && Cascade(game, s, env, parent, rounds).Done?
    ensures
      var t := Cascade(game, s, env, parent, rounds).value;
      s.stateID <= t.stateID && StackRule(k, s, t)
  {
    hide DrainQueue, GameOk, StateInv;
    CascadeKeeps(k, game, s, env, parent, rounds);
  }

  lemma MoveKeepsStack(k: Law, game: Game, s: State, req: Request, rounds: nat)
    requires GameOk(k, game) && StateInv(k, s) && Apply(game, s, req, rounds).Done?
    ensures
      var t := Apply(game, s, req, rounds).value;
      && Admit(game, s, req).Admitted? && s.log < t.log && s.stateID < t.stateID
      && t.log[|s.log|].kind == "move" && t.log[|s.log|].turn == s.ctx.turn
      && StackRule(k, s.(snapshots := Pushed(game, s, req, t)), t) && t.undone == []
  {
    hide Admit, PlayMove, CountMove, Settle, Cascade, GameOk, StateInv;
    var a := Admit(game, s, req);
    var p := PlayMove(game, a, req).value;
    MoveSettles(k, game, s, req, rounds);
    var m := Settle(game, CountMove(game, a, p, req), a.move, rounds).value;
    CascadeKeepsStack(k, game, m.st, m.env, |s.log|, rounds);
    CascadeKeeps(k, game, m.st, m.env, |s.log|, rounds);
    AdmittedState(game, s, req);
    assert p.st.snapshots == Pushed(game, s, req, p.st);
    NothingToRedo(game, a, req);
    assert Pushed(game, s, req, p.st) == Pushed(game, s, req, Apply(game, s, req, rounds).value);
  }

  lemma NothingToRedo(game: Game, a: Admission, req: Request)
    requires a.Admitted? && PlayMove(game, a, req).Done?
    ensures PlayMove(game, a, req).value.st.undone == []
  {
  }

  lemma AdmittedState(game: Game, s: State, req: Request)
    requires Admit(game, s, req).Admitted?
    ensures
      var st := Admit(game, s, req).st;
      && s.ctx.gameover.None?
      && st == s.(ctx := s.ctx.(nowMs := req.nowMs), blocks := RemoveAt(s.blocks, Consumed(s, req)))
  {
  }

  /**
   After a move there is nothing to redo, and the undo stack is the old one plus the move's own snapshot if it is undoable, or
   nothing. If the game has no
   phases and never reopens a finished game, it is emptied exactly when the move ended the turn.
   */
  lemma SnapshotsAfterMove(k: Law, game: Game, s: State, req: Request, rounds: nat)
    requires GameOk(k, game) && StateInv(k, s) && Apply(game, s, req, rounds).Done?
    ensures
      var t := Apply(game, s, req, rounds).value;
      && Admit(game, s, req).Admitted? && s.log < t.log
      && (t.snapshots == Pushed(game, s, req, t) || t.snapshots == []) && t.undone == []
      && (k.final && k.flat && t.ctx.gameover.None? ==>
            t.snapshots == if t.ctx.turn == s.ctx.turn then Pushed(game, s, req, t) else [])
  {
    hide Apply, Admit, GameOk, StateInv;
    MoveKeepsStack(k, game, s, req, rounds);
  }

  function Top(s: State): State
    requires s.snapshots != []
  {
    s.snapshots[|s.snapshots| - 1]
  }

  /** A snapshot was taken for an undoable move of the log: its own log ends right before that move's entry. */
  predicate Taken(k: Law, x: State, s: State) {
    && x.log < s.log && x.stateID < s.stateID
    && s.log[|x.log|].kind == "move" && s.log[|x.log|].undoable && s.log[|x.log|].turn == x.ctx.turn
    && (k.flat ==> x.ctx.turn == s.ctx.turn)
  }

  /** Entry n of the log is its last undoable move. */
  predicate LastUndoable(log: seq<LogEntry>, n: nat) {
    && n < |log| && UndoableMove(log[n]) && forall i | n < i < |log| :: !UndoableMove(log[i])
  }

  /** Where the log's last undoable move is, or -1. */
  function LastUndoableMove(log: seq<LogEntry>): (n: int)
    ensures -1 <= n < |log|
    ensures n >= 0 ==> LastUndoable(log, n)
    ensures n < 0 ==> forall i | 0 <= i < |log| :: !UndoableMove(log[i])
  {
    if log == [] then -1
    else if UndoableMove(log[|log| - 1]) then |log| - 1
    else LastUndoableMove(log[..|log| - 1])
  }

  predicate UndoableMove(e: LogEntry) {
    e.kind == "move" && e.undoable
  }

  /** What the undo stack says about the log. */
  ghost predicate StackOk(k: Law, s: State) {
    && (forall x | x in s.snapshots :: Taken(k, x, s))
    && ("move" in k.reserved && s.snapshots != [] ==> LastUndoable(s.log, |Top(s).log|))
  }

  /** A longer log, no undoable move in what came on top, the stack kept: what it says stays true. */
  lemma StackOkGrows(k: Law, s: State, t: State)
    requires StackOk(k, s) && s.log <= t.log && s.stateID <= t.stateID && StackRule(k, s, t)
    requires "move" in k.reserved ==> forall i | |s.log| <= i < |t.log| :: !UndoableMove(t.log[i])
    ensures StackOk(k, t)
  {
    if t.snapshots != [] {
      forall x | x in t.snapshots ensures Taken(k, x, t) {
        assert Taken(k, x, s);
      }
      if "move" in k.reserved { LastStays(s.log, t.log, |Top(s).log|); }
    }
  }

  lemma LastStays(log: seq<LogEntry>, longer: seq<LogEntry>, n: nat)
    requires LastUndoable(log, n) && log <= longer
    requires forall i | |log| <= i < |longer| :: !UndoableMove(longer[i])
    ensures LastUndoable(longer, n)
  {
    forall i | n < i < |longer| ensures !UndoableMove(longer[i]) {
      assert i < |log| ==> longer[i] == log[i];
    }
  }

  /** The state just after a move's entry was written, as far as the undo stack looks at it. */
  lemma PushedOk(k: Law, s: State, st: State, log: seq<LogEntry>)
    requires StackOk(k, s) && s.log < log && |log| == |s.log| + 1
    requires st.log == s.log && st.stateID == s.stateID && st.ctx.turn == s.ctx.turn
    requires log[|s.log|].kind == "move" && log[|s.log|].turn == s.ctx.turn
    ensures
      var kept := if log[|s.log|].undoable then s.snapshots + [Snapshot(st)] else s.snapshots;
      StackOk(k, s.(log := log, stateID := s.stateID + 1, snapshots := kept))
  {
    var kept := if log[|s.log|].undoable then s.snapshots + [Snapshot(st)] else s.snapshots;
    var t := s.(log := log, stateID := s.stateID + 1, snapshots := kept);
    forall x | x in t.snapshots ensures Taken(k, x, t) {
      if x in s.snapshots { assert Taken(k, x, s); }
    }
    if "move" in k.reserved && !log[|s.log|].undoable && s.snapshots != [] { LastStays(s.log, log, |Top(s).log|); }
  }

  lemma ApplyStackOk(k: Law, game: Game, s: State, req: Request, rounds: nat)
    requires GameOk(k, game) && StateInv(k, s) && StackOk(k, s) && Apply(game, s, req, rounds).Done?
    ensures StackOk(k, Apply(game, s, req, rounds).value)
  {
    hide Apply, Admit, GameOk, StateInv, StackOk;
    var t := Apply(game, s, req, rounds).value;
    MoveKeepsStack(k, game, s, req, rounds);
    ApplyKeeps(k, game, s, req, rounds);
    AdmittedState(game, s, req);
    var st := Admit(game, s, req).st;
    var log := t.log[..|s.log| + 1];
    PushedOk(k, s, st, log);
    var mid := s.(log := log, stateID := s.stateID + 1, snapshots := Pushed(game, s, req, t));
    StackOkGrows(k, mid, t);
  }

  lemma DoStackOk(k: Law, game: Game, s: State, call: Call, rounds: nat)
    requires GameOk(k, game) && StateInv(k, s) && StackOk(k, s) && Do(game, s, call, rounds).Done?
    ensures StackOk(k, Do(game, s, call, rounds).value)
  {
    hide Apply, ForceEndTurn, GameOk;
    match call
    case External(req) => ApplyStackOk(k, game, s, req, rounds);
    case TimeOut =>
      ForceEndTurnKeeps(k, game, s, rounds);
      StackOkGrows(k, s, ForceEndTurn(game, s, rounds).value);
    case UndoLast =>
      assert Top(s) in s.snapshots;
    case RedoLast(_) =>
      var e := s.undone[|s.undone| - 1];
      var popped := s.(undone := s.undone[..|s.undone| - 1]);
      assert StackOk(k, popped);
      ApplyStackOk(k, game, popped, Request(e.pid, e.move, e.args, 0, "", 0, e.serverDispatch, false), rounds);
  }

  lemma {:induction false} AfterStackOk(k: Law, game: Game, s: State, calls: seq<Call>, rounds: nat)
    requires GameOk(k, game) && StateInv(k, s) && StackOk(k, s) && After(game, s, calls, rounds).Done?
    ensures StackOk(k, After(game, s, calls, rounds).value)
    decreases |calls|
  {
    hide Do, GameOk;
    if calls != [] {
      var r := Do(game, s, calls[0], rounds);
      DoKeeps(k, game, s, calls[0], rounds);
      if r.Done? {
        DoStackOk(k, game, s, calls[0], rounds);
        AfterStackOk(k, game, r.value, calls[1..], rounds);
      } else {
        AfterStackOk(k, game, LeftBy(game, s, calls[0]), calls[1..], rounds);
      }
    }
  }

  /** In every state of every match, each snapshot's log is a strict prefix of the log, ending at its own move. */
  lemma MatchStackOk(k: Law, game: Game, requested: int, setupData: Value, seed: int, calls: seq<Call>, rounds: nat)
    requires GameOk(k, game) && Match(game, requested, setupData, seed, calls, rounds).Done?
    ensures
      var s := Match(game, requested, setupData, seed, calls, rounds).value;
      StateInv(k, s) && StackOk(k, s)
  {
    hide NewMatch, After, GameOk, StateInv;
    NewMatchKeeps(k, game, requested, setupData, seed, rounds);
    MatchKeeps(k, game, requested, setupData, seed, calls, rounds);
    AfterStackOk(k, game, NewMatch(game, requested, setupData, seed, rounds).value, calls, rounds);
  }

  // ---- undo -------------------------------------------------------------------------------------------------

  /**
   Undo pops one log entry, whatever was accepted since its snapshot was taken. In every state of every match the log it
   leaves is the one of the state it restores exactly when one entry was written since; and when custom entries are not
   called "move", exactly when the last entry of the log is an undoable move.
   */
  lemma UndoRestoresLogExactly(
    k: Law, game: Game, requested: int, setupData: Value, seed: int, calls: seq<Call>, rounds: nat)
    requires GameOk(k, game) && Match(game, requested, setupData, seed, calls, rounds).Done?
    requires Undo(game, Match(game, requested, setupData, seed, calls, rounds).value).Done?
    ensures
      var s := Match(game, requested, setupData, seed, calls, rounds).value;
      && s.log != [] && s.snapshots != [] && Top(s).log < s.log
      && var u := Undo(game, s).value;
      && u.stateID == Top(s).stateID < s.stateID && u.log + [s.log[|s.log| - 1]] == s.log
      && (u.log == Top(s).log <==> |s.log| == |Top(s).log| + 1)
      && ("move" in k.reserved ==> (u.log == Top(s).log <==> UndoableMove(s.log[|s.log| - 1])))
  {
    hide Match, GameOk;
    MatchStackOk(k, game, requested, setupData, seed, calls, rounds);
    var s := Match(game, requested, setupData, seed, calls, rounds).value;
    assert Taken(k, Top(s), s);
    if "move" in k.reserved { assert LastUndoable(s.log, |Top(s).log|); }
  }

  /**
   How far back undo reaches: to the turn of the log's last undoable move, when custom entries are not called "move". That
   is the present turn if the game has no phases; the end of a phase ends a turn too, but leaves the undo stack alone.
   */
  lemma UndoReachesTurn(
    k: Law, game: Game, requested: int, setupData: Value, seed: int, calls: seq<Call>, rounds: nat)
    requires GameOk(k, game) && Match(game, requested, setupData, seed, calls, rounds).Done?
    requires Undo(game, Match(game, requested, setupData, seed, calls, rounds).value).Done?
    ensures
      var s := Match(game, requested, setupData, seed, calls, rounds).value;
      && s.snapshots != [] && |Top(s).log| < |s.log|
      && Undo(game, s).value.ctx.turn == s.log[|Top(s).log|].turn
      && ("move" in k.reserved ==>
            var n := LastUndoableMove(s.log);
            n >= 0 && n == |Top(s).log| && Undo(game, s).value.ctx.turn == s.log[n].turn)
      && (k.flat ==> Undo(game, s).value.ctx.turn == s.ctx.turn)
  {
    hide Match, GameOk;
    MatchStackOk(k, game, requested, setupData, seed, calls, rounds);
    var s := Match(game, requested, setupData, seed, calls, rounds).value;
    assert Taken(k, Top(s), s);
    if "move" in k.reserved { OneLastUndoable(s.log, |Top(s).log|); }
  }

  lemma OneLastUndoable(log: seq<LogEntry>, n: nat)
    requires LastUndoable(log, n)
    ensures LastUndoableMove(log) == n
  {
    var m := LastUndoableMove(log);
    assert UndoableMove(log[n]);
    assert m >= 0 && LastUndoable(log, m);
  }

  /** What undoing a request should restore: its clock, the block it answered and OnUndo's scrubbing are all that shows. */
  function Before(game: Game, s: State, req: Request): State {
    var ctx := s.ctx.(nowMs := req.nowMs);
    s.(ctx := ctx, blocks := RemoveAt(s.blocks, Consumed(s, req)),
       g := if game.onUndo.None? then s.g else game.onUndo.value(HookIn(s.g, ctx, "", None, [], None)))
  }

  /** The move is undoable and its entry is the only one it wrote. */
  predicate UndoableAlone(s: State, t: State) {
    |t.log| == |s.log| + 1 && t.log[|s.log|].undoable
  }

  /**
   An undo right after a move, in any state of any match. It takes back exactly that move if and only if the move is
   undoable and alone: a chained move, cascade step or custom entry behind it leaves the move's own entry in the log, and
   a move marked not undoable is reverted together with the last undoable one of the turn.
   */
  lemma UndoTakesBackExactly(
    game: Game, requested: int, setupData: Value, seed: int, calls: seq<Call>, req: Request, rounds: nat)
    requires Match(game, requested, setupData, seed, calls, rounds).Done?
    requires
      var s := Match(game, requested, setupData, seed, calls, rounds).value;
      && Apply(game, s, req, rounds).Done? && Undo(game, Apply(game, s, req, rounds).value).Done?
    ensures
      var s := Match(game, requested, setupData, seed, calls, rounds).value;
      var t := Apply(game, s, req, rounds).value;
      var u := Undo(game, t).value;
      && u.snapshots == []
      && (u.(undone := s.undone, snapshots := s.snapshots) == Before(game, s, req) <==> UndoableAlone(s, t))
  {
    hide Match, GameOk;
    EveryGameIsFree(game);
    MatchStackOk(FREE, game, requested, setupData, seed, calls, rounds);
    UndoOfMove(game, Match(game, requested, setupData, seed, calls, rounds).value, req, rounds);
  }

  lemma UndoOfMove(game: Game, s: State, req: Request, rounds: nat)
    requires StateInv(FREE, s) && StackOk(FREE, s)
    requires Apply(game, s, req, rounds).Done? && Undo(game, Apply(game, s, req, rounds).value).Done?
    ensures
      var t := Apply(game, s, req, rounds).value;
      var u := Undo(game, t).value;
      && u.snapshots == []
      && (u.(undone := s.undone, snapshots := s.snapshots) == Before(game, s, req) <==> UndoableAlone(s, t))
  {
    hide Apply, Admit, GameOk;
    EveryGameIsFree(game);
    MoveKeepsStack(FREE, game, s, req, rounds);
    AdmittedState(game, s, req);
    var t := Apply(game, s, req, rounds).value;
    if t.log[|s.log|].undoable {
      assert Top(t) == Snapshot(Admit(game, s, req).st);
    } else {
      assert Top(t) in s.snapshots && Taken(FREE, Top(t), s);
    }
  }

  /** Undo is one level deep, in every state of every match: nothing can be undone again until the next move. */
  lemma UndoIsSingleLevel(game: Game, requested: int, setupData: Value, seed: int, calls: seq<Call>, rounds: nat)
    requires Match(game, requested, setupData, seed, calls, rounds).Done?
    requires Undo(game, Match(game, requested, setupData, seed, calls, rounds).value).Done?
    ensures
      var s := Match(game, requested, setupData, seed, calls, rounds).value;
      Undo(game, Undo(game, s).value).Refused?
  {
    hide Match, GameOk;
    EveryGameIsFree(game);
    MatchKeeps(FREE, game, requested, setupData, seed, calls, rounds);
    var s := Match(game, requested, setupData, seed, calls, rounds).value;
    assert s.snapshots[|s.snapshots| - 1] in s.snapshots;
  }

  // ---- redo -------------------------------------------------------------------------------------------------

  /** The request Redo builds from an undone entry. */
  function Redone(e: LogEntry): Request {
    Request(e.pid, e.move, e.args, 0, "", 0, e.serverDispatch, false)
  }

  /** The state Redo applies it to. */
  function Popped(s: State): State
    requires s.undone != []
  {
    s.(undone := s.undone[..|s.undone| - 1])
  }

  /** Redo takes an undoable, lone move's entry off the redo stack and applies it to the state undo restored. */
  lemma RedoAfterUndo(game: Game, s: State, req: Request, rounds: nat)
    requires StateInv(FREE, s) && game.onUndo.None? && Apply(game, s, req, rounds).Done?
    requires UndoableAlone(s, Apply(game, s, req, rounds).value) && Undo(game, Apply(game, s, req, rounds).value).Done?
    ensures
      var t := Apply(game, s, req, rounds).value;
      var u := Undo(game, t).value;
      && u.undone != [] && Recorded(u.undone[|u.undone| - 1]) == Trimmed(req)
      && Redo(game, u, rounds) == Apply(game, Popped(u), Redone(u.undone[|u.undone| - 1]), rounds)
      && Bare(Popped(u)) == Bare(Before(game, s, req)) && u.snapshots == [] && u.log == s.log && u.blocks == Before(game, s, req).blocks
  {
    hide Apply, Admit, GameOk;
    EveryGameIsFree(game);
    MoveKeepsStack(FREE, game, s, req, rounds);
    ApplyKeeps(FREE, game, s, req, rounds);
    AdmittedState(game, s, req);
    assert Top(Apply(game, s, req, rounds).value) == Snapshot(Admit(game, s, req).st);
  }

  /** The clock of the state is overwritten by the request's. */
  lemma ClockOverwritten(game: Game, s: State, req: Request, rounds: nat)
    ensures Apply(game, s.(ctx := s.ctx.(nowMs := req.nowMs)), req, rounds) == Apply(game, s, req, rounds)
  {
    hide PlayMove, CountMove, Settle, Cascade, FindBlock, Resolve, AuthorizedStage, RemoveAt;
  }

  /**
   Redo right after undo, in any state of any match: it gives the move's own result back, undo and redo stacks aside, if
   and only if the request had answered no block and carried no clock. Neither is part of the request redo builds.
   */
  lemma RedoGivesBackExactly(
    game: Game, requested: int, setupData: Value, seed: int, calls: seq<Call>, req: Request, rounds: nat)
    requires game.onUndo.None? && Match(game, requested, setupData, seed, calls, rounds).Done?
    requires
      var s := Match(game, requested, setupData, seed, calls, rounds).value;
      && Apply(game, s, req, rounds).Done? && UndoableAlone(s, Apply(game, s, req, rounds).value)
      && Undo(game, Apply(game, s, req, rounds).value).Done?
    ensures
      var s := Match(game, requested, setupData, seed, calls, rounds).value;
      var t := Apply(game, s, req, rounds).value;
      BareOutcome(Redo(game, Undo(game, t).value, rounds)) == Done(Bare(t)) <==> req.resumeTag == "" && req.nowMs == 0
  {
    hide Match, GameOk;
    EveryGameIsFree(game);
    MatchKeeps(FREE, game, requested, setupData, seed, calls, rounds);
    RedoOfMove(game, Match(game, requested, setupData, seed, calls, rounds).value, req, rounds);
  }

  lemma RedoOfMove(game: Game, s: State, req: Request, rounds: nat)
    requires StateInv(FREE, s) && game.onUndo.None? && Apply(game, s, req, rounds).Done?
    requires UndoableAlone(s, Apply(game, s, req, rounds).value) && Undo(game, Apply(game, s, req, rounds).value).Done?
    ensures
      var t := Apply(game, s, req, rounds).value;
      BareOutcome(Redo(game, Undo(game, t).value, rounds)) == Done(Bare(t)) <==> req.resumeTag == "" && req.nowMs == 0
  {
    hide Apply, Undo, Redo, GameOk;
    var t := Apply(game, s, req, rounds).value;
    var u := Undo(game, t).value;
    RedoAfterUndo(game, s, req, rounds);
    var again := Redone(u.undone[|u.undone| - 1]);
    if req.resumeTag == "" && req.nowMs == 0 {
      assert again == Trimmed(req);
      TrimmedAppliesAlike(game, s, req, rounds);
      ClockOverwritten(game, s, again, rounds);
      ApplyBlind(game, Popped(u), s.(ctx := s.ctx.(nowMs := again.nowMs)), again, rounds);
    } else if Redo(game, u, rounds).Done? {
      EveryGameIsFree(game);
      ApplyKeeps(FREE, game, s, req, rounds);
      RedoneEntry(game, u, again, rounds);
    }
  }

  /** A redone move's entry has neither tag nor clock. */
  lemma RedoneEntry(game: Game, u: State, again: Request, rounds: nat)
    requires u.undone != [] && u.snapshots == [] && again == Redone(u.undone[|u.undone| - 1])
    requires Apply(game, Popped(u), again, rounds).Done?
    ensures
      var r := Apply(game, Popped(u), again, rounds).value;
      |u.log| < |r.log| && r.log[|u.log|].resumeTag == "" && r.log[|u.log|].nowMs == 0
  {
    hide Apply, GameOk;
    EveryGameIsFree(game);
    ApplyKeeps(FREE, game, Popped(u), again, rounds);
  }

  /** Redo is refused as blocked, in any state, exactly when a block is pending and the entry's move does not ignore it. */
  lemma RedoBlockedExactly(game: Game, s: State)
    requires s.ctx.gameover.None? && s.undone != []
    ensures
      var again := Redone(s.undone[|s.undone| - 1]);
      var r := Requested(game, s, again);
      Admit(game, Popped(s), again) == Denied(Blocked) <==> s.blocks != [] && r.Found? && !r.move.ignoreBlocks
  {
    ClockIsFree(game, s, Redone(s.undone[|s.undone| - 1]));
  }

  /** An exclusive stage holds the request's player back from a move outside its table. */
  predicate HeldBack(game: Game, s: State, req: Request, move: Move) {
    var stage := StageOf(s.ctx, req.pid);
    var config := game.LookupStage(s.ctx.phase, stage);
    && stage != "" && config.Some? && config.value.exclusive && req.move !in config.value.moves
    && !move.anyPlayer && !move.ignoreBlocks && !req.serverDispatch
  }

  /**
   Whether the redone request passes the gates the move once passed. One that answered a block no longer has the
   exemptions an answer has: it is blocked by any block still pending, and bound by turn and stage.
   */
  lemma RedoAdmittedExactly(game: Game, s: State, req: Request, rounds: nat)
    requires StateInv(FREE, s) && game.onUndo.None? && Apply(game, s, req, rounds).Done?
    requires UndoableAlone(s, Apply(game, s, req, rounds).value) && Undo(game, Apply(game, s, req, rounds).value).Done?
    ensures
      var u := Undo(game, Apply(game, s, req, rounds).value).value;
      && u.undone != [] && Admit(game, s, req).Admitted?
      && var answer, move := Admit(game, Popped(u), Redone(u.undone[|u.undone| - 1])), Admit(game, s, req).move;
      && (answer == Denied(Blocked) <==> u.blocks != [] && !move.ignoreBlocks)
      && (answer.Admitted? <==>
            || req.resumeTag == ""
            || ((u.blocks == [] || move.ignoreBlocks) && (OnTurn(s.ctx, req.pid) || move.anyPlayer)
                && !HeldBack(game, s, req, move)))
  {
    hide Apply, GameOk, Undo, Redo, Admit;
    RedoAfterUndo(game, s, req, rounds);
    var u := Undo(game, Apply(game, s, req, rounds).value).value;
    AdmittedOnce(game, s, req, rounds);
    AdmittedAgain(game, s, req, Popped(u), Redone(u.undone[|u.undone| - 1]));
  }

  lemma AdmittedOnce(game: Game, s: State, req: Request, rounds: nat)
    requires Apply(game, s, req, rounds).Done?
    ensures Admit(game, s, req).Admitted?
  {
  }

  lemma AdmittedAgain(game: Game, s: State, req: Request, u: State, again: Request)
    requires Admit(game, s, req).Admitted?
    requires Bare(u) == Bare(Before(game, s, req))
    requires again == Trimmed(req).(resumeTag := "", nowMs := 0)
    ensures
      var answer, move := Admit(game, u, again), Admit(game, s, req).move;
      && (answer == Denied(Blocked) <==> u.blocks != [] && !move.ignoreBlocks)
      && (answer.Admitted? <==>
            || req.resumeTag == ""
            || ((u.blocks == [] || move.ignoreBlocks) && (OnTurn(s.ctx, req.pid) || move.anyPlayer)
                && !HeldBack(game, s, req, move)))
  {
    hide FindBlock, Bare, Before;
    assert Consumed(u, again) == -1;
    AlikeForGates(game, s, req, u);
    assert AuthorizedStage(u.ctx.(nowMs := 0), req.pid) == AuthorizedStage(s.ctx.(nowMs := req.nowMs), req.pid);
    assert Resolve(game, u.ctx.(nowMs := 0), AuthorizedStage(u.ctx, req.pid).0, req.move) ==
           Resolve(game, s.ctx.(nowMs := req.nowMs), AuthorizedStage(u.ctx, req.pid).0, req.move);
  }

  lemma AlikeForGates(game: Game, s: State, req: Request, u: State)
    requires Bare(u) == Bare(Before(game, s, req))
    ensures u.ctx == s.ctx.(nowMs := req.nowMs) && u.blocks == RemoveAt(s.blocks, Consumed(s, req))
  {
    assert Bare(u).ctx == u.ctx && Bare(u).blocks == u.blocks;
  }
}
