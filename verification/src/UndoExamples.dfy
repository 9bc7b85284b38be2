/**
 Three concrete matches in which undo or redo does not do what one would expect of it, for any initial G and seed.
 */
module UndoExamples {
  import opened Engine
  import opened Transitions
  import opened Reducer
  import opened Reachable
  import opened UndoRedo
  import opened PlainGames

  /** A move that replaces G by its argument. */
  function Setting(undoable: bool): Move {
    Plain((i: HookIn, args: seq<Value>) => Left(i, if args == [] then i.g else args[0], [], i.raised), undoable)
  }

  /** A move that asks its player two questions. */
  function Asking(): Move {
    Plain((i: HookIn, args: seq<Value>) => Left(i, i.g, [], i.raised + Questions(i.pid, i.g)), false)
  }

  function Questions(pid: Pid, payload: Value): seq<Block> {
    [Block("x", pid, "", payload), Block("y", pid, "", payload)]
  }

  /** "a" may be undone and "b" may not. */
  function SettingGame(setup: (Ctx, Value) -> Value): Game {
    Game(2, 2, setup, map["a" := Playable(Setting(true)), "b" := Playable(Setting(false)), "ask" := Playable(Asking())],
         None, map[], "", None, None, None, false, None)
  }

  // ---- a move that must not be undone -----------------------------------------------------------------------

  /** Nothing is pending, and it is player 0's move. */
  predicate Idle(s: State) {
    && s.ctx.gameover.None? && s.ctx.active.None? && s.ctx.phase == "" && s.queue == [] && s.ctx.currentPlayer == "0"
  }

  /** A setting move, made freely or as the answer to a question. */
  lemma Sets(setup: (Ctx, Value) -> Value, s: State, undoable: bool, v: Value, tag: string, rounds: nat)
    requires Idle(s)
    requires
      var req := Asked("0", if undoable then "a" else "b", [v], tag);
      if tag == "" then s.blocks == [] else Consumed(s, req) >= 0
    ensures
      var req := Asked("0", if undoable then "a" else "b", [v], tag);
      var st := s.(ctx := s.ctx.(nowMs := 0), blocks := RemoveAt(s.blocks, Consumed(s, req)));
      Apply(SettingGame(setup), s, req, rounds) ==
      Done(st.(g := v, stateID := s.stateID + 1, undone := [], ctx := st.ctx.(numMoves := s.ctx.numMoves + 1),
               log := s.log + [MoveEntryOf(st, req, false, undoable)],
               snapshots := if undoable then s.snapshots + [Snapshot(st)] else s.snapshots))
  {
    hide Apply, Admit, Consumed;
    var game, req := SettingGame(setup), Asked("0", if undoable then "a" else "b", [v], tag);
    SetAdmitted(setup, s, undoable, v, tag);
    var a := Admit(game, s, req);
    MovesPlainly(game, s, req, v, [], undoable, rounds);
    assert a.st.blocks + [] == a.st.blocks;
  }

  lemma SetAdmitted(setup: (Ctx, Value) -> Value, s: State, undoable: bool, v: Value, tag: string)
    requires Idle(s)
    requires
      var req := Asked("0", if undoable then "a" else "b", [v], tag);
      if tag == "" then s.blocks == [] else Consumed(s, req) >= 0
    ensures
      var req := Asked("0", if undoable then "a" else "b", [v], tag);
      var a := Admit(SettingGame(setup), s, req);
      && a.Admitted? && a.move == Setting(undoable)
      && a.st == s.(ctx := s.ctx.(nowMs := 0), blocks := RemoveAt(s.blocks, Consumed(s, req)))
  {
    hide FindBlock;
  }

  lemma SetUpIdle(setup: (Ctx, Value) -> Value, setupData: Value, seed: int, rounds: nat)
    ensures
      var first := FirstState(SettingGame(setup), 2, setupData, seed);
      && NewMatch(SettingGame(setup), 2, setupData, seed, rounds) == Done(first)
      && Idle(first) && first.blocks == [] && first.snapshots == [] && first.log == [] && first.stateID == 0
  {
    SetsUpQuietly(SettingGame(setup), 2, setupData, seed, rounds);
    assert Itoa(0) == "0";
  }

  /**
   An undoable move, then in the same turn one marked not undoable, then undo. Both are reverted; the entry popped is the
   second one's, so that redo would make the second move without the first; and the log, which still holds the first,
   no longer replays to the state.
   */
  lemma IrreversibleMoveIsUndone(setup: (Ctx, Value) -> Value, setupData: Value, seed: int, v: Value, w: Value, rounds: nat)
    ensures
      var game := SettingGame(setup);
      var a, b := Asked("0", "a", [v], ""), Asked("0", "b", [w], "");
      var u := Match(game, 2, setupData, seed, [External(a), External(b), UndoLast], rounds);
      && u.Done? && u.value.g == FirstState(game, 2, setupData, seed).g && u.value.stateID == 0
      && |u.value.log| == 1 && Recorded(u.value.log[0]) == a
      && |u.value.undone| == 1 && Recorded(u.value.undone[0]) == b
      && Replay(game, u.value.log, -1, 2, setupData, seed, rounds) != u
  {
    hide Apply, NewMatch, FirstState;
    var game := SettingGame(setup);
    var a, b := Asked("0", "a", [v], ""), Asked("0", "b", [w], "");
    var first := FirstState(game, 2, setupData, seed);
    SetUpIdle(setup, setupData, seed, rounds);
    Sets(setup, first, true, v, "", rounds);
    var s1 := Apply(game, first, a, rounds).value;
    Sets(setup, s1, false, w, "", rounds);
    var s2 := Apply(game, s1, b, rounds).value;
    AfterTwo(game, first, s1, s2, External(a), External(b), [UndoLast], rounds);
    assert [External(a), External(b)] + [UndoLast] == [External(a), External(b), UndoLast];
    var u := Undo(game, s2).value;
    assert After(game, s2, [UndoLast], rounds) == Done(u);
    assert s2.log[..|s2.log| - 1] == s1.log;
    assert Replay(game, s1.log, -1, 2, setupData, seed, rounds) == Done(s1) by {
      assert s1.log[1..] == [];
      assert ReplayFrom(game, first, s1.log, -1, rounds) == ReplayFrom(game, s1, [], -2, rounds);
    }
  }

  // ---- an answer that cannot be redone ----------------------------------------------------------------------

  /** A move asks two questions, the first is answered and undone. Redo is refused: it no longer answers anything. */
  lemma AnswerIsNotRedone(setup: (Ctx, Value) -> Value, setupData: Value, seed: int, v: Value, rounds: nat)
    ensures
      var game := SettingGame(setup);
      var u := Match(game, 2, setupData, seed, [External(Asked("0", "ask", [], "")), External(Asked("0", "a", [v], "x")),
                                                UndoLast], rounds);
      && u.Done? && |u.value.blocks| == 1 && u.value.blocks[0].tag == "y"
      && Redo(game, u.value, rounds) == Refused(Blocked)
  {
    hide Apply, NewMatch, FirstState, Undo, Redo;
    var game, ask, a := SettingGame(setup), Asked("0", "ask", [], ""), Asked("0", "a", [v], "x");
    var first := FirstState(game, 2, setupData, seed);
    SetUpIdle(setup, setupData, seed, rounds);
    Asks(setup, first, rounds);
    var s1 := Apply(game, first, ask, rounds).value;
    AnswerUndone(setup, s1, first.g, v, rounds);
    var s2 := Apply(game, s1, a, rounds).value;
    AfterTwo(game, first, s1, s2, External(ask), External(a), [UndoLast], rounds);
    assert [External(ask), External(a)] + [UndoLast] == [External(ask), External(a), UndoLast];
    assert After(game, s2, [UndoLast], rounds) == Undo(game, s2);
  }

  /** Two questions are pending; the first is answered, the answer undone, and redo refused. */
  lemma AnswerUndone(setup: (Ctx, Value) -> Value, s: State, g: Value, v: Value, rounds: nat)
    requires Idle(s) && s.blocks == Questions("0", g)
    ensures
      var game := SettingGame(setup);
      var t := Apply(game, s, Asked("0", "a", [v], "x"), rounds);
      && t.Done? && Undo(game, t.value).Done?
      && var u := Undo(game, t.value).value;
      && |u.blocks| == 1 && u.blocks[0].tag == "y" && Redo(game, u, rounds) == Refused(Blocked)
  {
    hide Apply;
    var game, a := SettingGame(setup), Asked("0", "a", [v], "x");
    assert Answers(s.blocks[0], "x", "0", "a");
    assert Consumed(s, a) == 0;
    Sets(setup, s, true, v, "x", rounds);
    var u := Undo(game, Apply(game, s, a, rounds).value).value;
    RedoBlockedExactly(game, u);
    RefusedAtTheGate(game, Popped(u), Redone(u.undone[|u.undone| - 1]), Blocked, rounds);
  }

  lemma RefusedAtTheGate(game: Game, s: State, req: Request, e: Error, rounds: nat)
    requires Admit(game, s, req) == Denied(e)
    ensures Apply(game, s, req, rounds) == Refused(e)
  {
  }

  lemma Asks(setup: (Ctx, Value) -> Value, s: State, rounds: nat)
    requires Idle(s) && s.blocks == []
    ensures
      var r := Apply(SettingGame(setup), s, Asked("0", "ask", [], ""), rounds);
      && r.Done? && Idle(r.value) && r.value.blocks == Questions("0", s.g) && r.value.snapshots == s.snapshots
  {
    hide Apply;
    var game, req := SettingGame(setup), Asked("0", "ask", [], "");
    var a := Admit(game, s, req);
    assert a.Admitted? && a.move == Asking();
    AdmittedState(game, s, req);
    MovesPlainly(game, s, req, s.g, Questions("0", s.g), false, rounds);
  }

  // ---- a move of an earlier turn ----------------------------------------------------------------------------

  /** One phase; whoever finishes it passes the turn on. */
  function PhasedGame(setup: (Ctx, Value) -> Value): Game {
    Game(2, 2, setup, map["finish" := Playable(Announcing(EndPhase, true, false))], None,
         map["p" := Phase(None, None, None, None, None, (i: HookIn) => Answer("", i.api))], "p",
         None, None, None, false, None)
  }

  lemma PhasedSetUp(setup: (Ctx, Value) -> Value, setupData: Value, seed: int, rounds: nat)
    ensures
      var game := PhasedGame(setup);
      NewMatch(game, 2, setupData, seed, rounds) == Done(FirstState(game, 2, setupData, seed))
  {
    hide Itoa;
    var game := PhasedGame(setup);
    var m := Machine(FirstState(game, 2, setupData, seed), Env([], [], [], [], None), false);
    assert EnterPhase(game, m) == m;
  }

  /** Finishing the phase: the next player's turn, with the move's snapshot still on the undo stack. */
  lemma PhaseFinished(setup: (Ctx, Value) -> Value, s: State, rounds: nat)
    requires rounds >= 1 && s.ctx.gameover.None? && s.ctx.active.None? && s.ctx.phase == "p" && s.queue == [] && s.blocks == []
    requires s.ctx.numPlayers == 2 && s.ctx.pos == 0 && s.ctx.currentPlayer == "0" && s.ctx.playOrder == ["0", "1"]
    ensures
      var r := Apply(PhasedGame(setup), s, Asked("0", "finish", [], ""), rounds);
      && r.Done? && r.value.ctx.currentPlayer == "1" && r.value.ctx.turn == s.ctx.turn + 1 && |r.value.log| == |s.log| + 1
      && r.value.ctx.gameover.None? && r.value.snapshots == s.snapshots + [Snapshot(s.(ctx := s.ctx.(nowMs := 0)))]
  {
    hide Admit, Apply, LeavePhase;
    var game, req := PhasedGame(setup), Asked("0", "finish", [], "");
    FinishAdmitted(setup, s);
    var m := Machine(Logged(s.(ctx := s.ctx.(nowMs := 0)), req, true, false), Env([], [], [], [], None), false);
    PhaseLeft(setup, m);
    var left := LeavePhase(game, m, "");
    assert CheckEnds(game, left, "0", Announcing(EndPhase, true, false)) == left;
    Announces(game, s, req, EndPhase, true, false, rounds);
  }

  lemma FinishAdmitted(setup: (Ctx, Value) -> Value, s: State)
    requires s.ctx.gameover.None? && s.ctx.active.None? && s.ctx.phase == "p" && s.blocks == [] && s.ctx.currentPlayer == "0"
    ensures Admit(PhasedGame(setup), s, Asked("0", "finish", [], "")) ==
            Admitted(s.(ctx := s.ctx.(nowMs := 0)), Announcing(EndPhase, true, false), None)
  {
  }

  lemma PhaseLeft(setup: (Ctx, Value) -> Value, m: Machine)
    requires
      var ctx := m.st.ctx;
      ctx.phase == "p" && ctx.numPlayers == 2 && ctx.pos == 0 && ctx.playOrder == ["0", "1"] && ctx.gameover.None?
    ensures
      LeavePhase(PhasedGame(setup), m, "") ==
      var s := ClearTurn(m.st);
      m.(st := s.(ctx := s.ctx.(phase := "", turn := s.ctx.turn + 1, pos := 1, currentPlayer := "1")))
  {
    var game := PhasedGame(setup);
    var s := ClearTurn(m.st);
    var moved := m.(st := s.(ctx := s.ctx.(phase := "", turn := s.ctx.turn + 1)));
    assert EndedPhase(game, m, "") == moved;
    var ctx := moved.st.ctx;
    assert Advance(game, moved, None) == m.(st := moved.st.(ctx := ctx.(pos := 1, currentPlayer := "1")));
  }

  /** Player 0 finishes the phase and undoes that in player 1's turn. */
  lemma EarlierTurnIsUndone(setup: (Ctx, Value) -> Value, setupData: Value, seed: int, rounds: nat)
    requires rounds >= 1
    ensures
      var game, finish := PhasedGame(setup), Asked("0", "finish", [], "");
      var s := Match(game, 2, setupData, seed, [External(finish)], rounds);
      var u := Match(game, 2, setupData, seed, [External(finish), UndoLast], rounds);
      && s.Done? && s.value.ctx.turn == 2 && s.value.ctx.currentPlayer == "1"
      && u.Done? && u.value.ctx.turn == 1 && u.value.ctx.currentPlayer == "0" && u.value.log == []
  {
    hide Apply, NewMatch;
    var game, finish := PhasedGame(setup), Asked("0", "finish", [], "");
    var first := FirstState(game, 2, setupData, seed);
    PhasedSetUp(setup, setupData, seed, rounds);
    assert Itoa(0) == "0" && Itoa(1) == "1";
    assert first.ctx.playOrder == ["0", "1"];
    PhaseFinished(setup, first, rounds);
    var s := Apply(game, first, finish, rounds).value;
    assert [External(finish)][1..] == [];
    assert After(game, first, [External(finish)], rounds) == Done(s);
    AfterTwo(game, first, s, Undo(game, s).value, External(finish), UndoLast, [], rounds);
    assert [External(finish), UndoLast] + [] == [External(finish), UndoLast];
    assert After(game, Undo(game, s).value, [], rounds) == Done(Undo(game, s).value);
  }
}
