/**
 TurnOrderOnce in whole matches of three players, for any initial G and seed: nobody eliminated, the phase ends after the
 third turn; one player eliminated, it never ends, however many turns are played.
 */
module OnceExamples {
  import opened Engine
  import opened Transitions
  import opened Reducer
  import opened Reachable
  import opened Laws
  import opened UndoRedo
  import opened PlainGames
  import opened TurnRotation

  const FULL: seq<Pid> := ["0", "1", "2"]
  const LEFT: seq<Pid> := ["0", "2"]

  function OnceTurn(): Turn {
    Turn(Once, None, None, None, None, 0, 0, None, map[])
  }

  /** One phase in which each of three players gets one turn. "out" eliminates player 1. */
  function OnceGame(setup: (Ctx, Value) -> Value): Game {
    Game(3, 3, setup,
         map["done" := Playable(Announcing(EndTurn(""), false, false)),
             "out" := Playable(Announcing(RemovePlayer("1"), false, false))],
         None, map["p" := Phase(None, None, None, None, Some(OnceTurn()), (i: HookIn) => Answer("", i.api))], "p",
         None, None, None, false, None)
  }

  /** In the phase, on the turn of the player at a place of the order, nothing pending. */
  ghost predicate Seated(s: State, order: seq<Pid>, pos: nat) {
    && s.ctx.phase == "p" && s.ctx.playOrder == order && s.ctx.pos == pos < |order| && s.ctx.currentPlayer == order[pos]
    && s.ctx.numPlayers == 3 && s.ctx.active.None? && s.ctx.gameover.None? && s.queue == [] && s.blocks == []
  }

  function Ends(pid: Pid): Request {
    Asked(pid, "done", [], "")
  }

  // ---- single moves -----------------------------------------------------------------------------------------

  lemma Admits(setup: (Ctx, Value) -> Value, s: State, order: seq<Pid>, pos: nat, out: bool)
    requires Seated(s, order, pos)
    ensures
      var ev := if out then RemovePlayer("1") else EndTurn("");
      Admit(OnceGame(setup), s, Asked(order[pos], if out then "out" else "done", [], "")) ==
      Admitted(s.(ctx := s.ctx.(nowMs := 0)), Announcing(ev, false, false), None)
  {
  }

  /** The machine an announced event finds. */
  function Announced(s: State, req: Request): Machine {
    Machine(Logged(s.(ctx := s.ctx.(nowMs := 0)), req, false, false), Env([], [], [], [], None), false)
  }

  lemma AnnouncedSeats(s: State, order: seq<Pid>, pos: nat, req: Request)
    requires Seated(s, order, pos)
    ensures Seated(Announced(s, req).st, order, pos) && Announced(s, req).st.ctx.turn == s.ctx.turn
  {
  }

  /** Where ending the turn leads from a seat that is not the last of a full round. */
  lemma TurnEnds(setup: (Ctx, Value) -> Value, m: Machine, order: seq<Pid>, pos: nat)
    requires Seated(m.st, order, pos) && Distinct(order) && |order| <= 3 && (|order| < 3 || pos < 2)
    ensures
      var r := FinishTurn(OnceGame(setup), m, "");
      && Seated(r.st, order, (pos + 1) % |order|) && r.st.ctx.turn == m.st.ctx.turn + 1 && r.env == m.env
      && r.panicked == m.panicked
  {
    hide Advance;
    var game := OnceGame(setup);
    var wiped := EndedTurn(game, m);
    OnceAdvances(game, wiped, Some(OnceTurn()));
  }

  /** Ending the turn at the last seat of a full round ends the phase. */
  lemma RoundEnds(setup: (Ctx, Value) -> Value, m: Machine)
    requires Seated(m.st, FULL, 2)
    ensures
      var r := FinishTurn(OnceGame(setup), m, "");
      && r.st.ctx.phase == "" && r.st.ctx.active.None? && r.st.ctx.gameover.None? && r.st.queue == [] && r.st.blocks == []
      && r.env == m.env && r.panicked == m.panicked
  {
    hide Advance;
    var game := OnceGame(setup);
    var wiped := EndedTurn(game, m);
    OnceAdvances(game, wiped, Some(OnceTurn()));
    PhaseOver(setup, wiped);
  }

  lemma PhaseOver(setup: (Ctx, Value) -> Value, m: Machine)
    requires Seated(m.st, FULL, 2)
    ensures
      var r := LeavePhase(OnceGame(setup), m, "");
      && r.st.ctx.phase == "" && r.st.ctx.active.None? && r.st.ctx.gameover.None?
      && r.env == m.env && r.panicked == m.panicked
  {
    var game := OnceGame(setup);
    var s := ClearTurn(m.st);
    var moved := m.(st := s.(ctx := s.ctx.(phase := "", turn := s.ctx.turn + 1)));
    assert EndedPhase(game, m, "") == moved;
    var ctx := moved.st.ctx;
    assert Advance(game, moved, None) == m.(st := moved.st.(ctx := ctx.(pos := 0, currentPlayer := "0")));
  }

  /** No rule of this game ends anything by itself. */
  lemma NothingEnds(setup: (Ctx, Value) -> Value, m: Machine, pid: Pid, move: Move)
    requires m.st.ctx.active.None?
    ensures CheckEnds(OnceGame(setup), m, pid, move) == m
  {
  }

  /** A player is done and the turn passes on. */
  lemma TurnPasses(setup: (Ctx, Value) -> Value, s: State, order: seq<Pid>, pos: nat, rounds: nat)
    requires rounds >= 1 && Seated(s, order, pos) && Distinct(order) && |order| <= 3 && (|order| < 3 || pos < 2)
    ensures
      var r := Apply(OnceGame(setup), s, Ends(order[pos]), rounds);
      r.Done? && Seated(r.value, order, (pos + 1) % |order|) && r.value.ctx.turn == s.ctx.turn + 1
  {
    hide Admit, Apply, FinishTurn, CheckEnds, Seated;
    SeatedRests(s, order, pos);
    var game, req := OnceGame(setup), Ends(order[pos]);
    Admits(setup, s, order, pos, false);
    var m := Announced(s, req);
    AnnouncedSeats(s, order, pos, req);
    TurnEnds(setup, m, order, pos);
    SeatedRests(m.st, order, pos);
    SeatedRests(FinishTurn(game, m, "").st, order, (pos + 1) % |order|);
    NothingEnds(setup, FinishTurn(game, m, ""), req.pid, Announcing(EndTurn(""), false, false));
    Announces(game, s, req, EndTurn(""), false, false, rounds);
  }

  lemma SeatedRests(s: State, order: seq<Pid>, pos: nat)
    requires Seated(s, order, pos)
    ensures s.ctx.active.None? && s.queue == [] && s.ctx.phase == "p" && pos < |order|
  {
  }

  /** The third of three players is done: the phase is over. */
  lemma LastTurnEndsPhase(setup: (Ctx, Value) -> Value, s: State, rounds: nat)
    requires rounds >= 1 && Seated(s, FULL, 2)
    ensures
      var r := Apply(OnceGame(setup), s, Ends("2"), rounds);
      r.Done? && r.value.ctx.phase == ""
  {
    hide Admit, Apply, FinishTurn, CheckEnds, Seated;
    var game, req := OnceGame(setup), Ends("2");
    Admits(setup, s, FULL, 2, false);
    var m := Announced(s, req);
    AnnouncedSeats(s, FULL, 2, req);
    RoundEnds(setup, m);
    SeatedRests(m.st, FULL, 2);
    SeatedRests(s, FULL, 2);
    NothingEnds(setup, FinishTurn(game, m, ""), "2", Announcing(EndTurn(""), false, false));
    Announces(game, s, req, EndTurn(""), false, false, rounds);
  }

  /** Player 0 eliminates player 1 and stays on turn. */
  lemma PlayerOut(setup: (Ctx, Value) -> Value, s: State, rounds: nat)
    requires rounds >= 1 && Seated(s, FULL, 0)
    ensures
      var r := Apply(OnceGame(setup), s, Asked("0", "out", [], ""), rounds);
      r.Done? && Seated(r.value, LEFT, 0) && r.value.ctx.turn == s.ctx.turn
  {
    hide Admit, Apply, CheckEnds, Eliminate;
    var game, req := OnceGame(setup), Asked("0", "out", [], "");
    Admits(setup, s, FULL, 0, true);
    var m := Announced(s, req);
    AnnouncedSeats(s, FULL, 0, req);
    Unseats(setup, m);
    NothingEnds(setup, Eliminate(game, m, "1"), "0", Announcing(RemovePlayer("1"), false, false));
    Announces(game, s, req, RemovePlayer("1"), false, false, rounds);
  }

  lemma Unseats(setup: (Ctx, Value) -> Value, m: Machine)
    requires Seated(m.st, FULL, 0) && !m.panicked
    ensures
      var r := Eliminate(OnceGame(setup), m, "1");
      Seated(r.st, LEFT, 0) && r.st.ctx.turn == m.st.ctx.turn && r.env == m.env && !r.panicked
  {
    assert FULL[..1] + FULL[2..] == LEFT;
    assert IndexOf(FULL, "1") == 1;
  }

  // ---- whole matches ----------------------------------------------------------------------------------------

  lemma OnceSetUp(setup: (Ctx, Value) -> Value, setupData: Value, seed: int, rounds: nat)
    ensures
      var first := FirstState(OnceGame(setup), 3, setupData, seed);
      && NewMatch(OnceGame(setup), 3, setupData, seed, rounds) == Done(first)
      && Seated(first, FULL, 0) && first.ctx.turn == 1
  {
    var game := OnceGame(setup);
    var first := FirstState(game, 3, setupData, seed);
    assert Itoa(0) == "0" && Itoa(1) == "1" && Itoa(2) == "2";
    assert first.ctx.playOrder == FULL;
    hide Itoa;
    var m := Machine(first, Env([], [], [], [], None), false);
    assert EnterPhase(game, m) == m;
  }

  /** So many turns in a row, from a place in the order on. */
  function Turns(order: seq<Pid>, pos: nat, k: nat): seq<Call>
    requires pos < |order|
    decreases k
  {
    if k == 0 then [] else [External(Ends(order[pos]))] + Turns(order, (pos + 1) % |order|, k - 1)
  }

  lemma {:induction false} TurnsGoOn(setup: (Ctx, Value) -> Value, s: State, pos: nat, k: nat, rounds: nat)
    requires rounds >= 1 && Seated(s, LEFT, pos)
    ensures
      var r := After(OnceGame(setup), s, Turns(LEFT, pos, k), rounds);
      r.Done? && Seated(r.value, LEFT, (pos + k) % 2) && r.value.ctx.turn == s.ctx.turn + k
    decreases k
  {
    hide Apply, OnceGame, Seated;
    SeatedRests(s, LEFT, pos);
    if k > 0 {
      TurnPasses(setup, s, LEFT, pos, rounds);
      var next := Apply(OnceGame(setup), s, Ends(LEFT[pos]), rounds).value;
      TurnsGoOn(setup, next, (pos + 1) % 2, k - 1, rounds);
      assert Turns(LEFT, pos, k)[1..] == Turns(LEFT, (pos + 1) % 2, k - 1);
      assert ((pos + 1) % 2 + (k - 1)) % 2 == (pos + k) % 2;
    }
  }

  /** Player 1 is eliminated in the first turn: whatever number of turns follow, the phase of single turns is not over. */
  lemma OnceNeverEnds(setup: (Ctx, Value) -> Value, setupData: Value, seed: int, k: nat, rounds: nat)
    requires rounds >= 1
    ensures
      var calls := [External(Asked("0", "out", [], ""))] + Turns(LEFT, 0, k);
      var r := Match(OnceGame(setup), 3, setupData, seed, calls, rounds);
      && r.Done? && r.value.ctx.phase == "p" && r.value.ctx.turn == 1 + k && r.value.ctx.currentPlayer == LEFT[k % 2]
  {
    hide Apply, OnceGame, NewMatch, FirstState;
    OnceSetUp(setup, setupData, seed, rounds);
    var game, out := OnceGame(setup), External(Asked("0", "out", [], ""));
    var first := FirstState(game, 3, setupData, seed);
    PlayerOut(setup, first, rounds);
    var s := Apply(game, first, out.req, rounds).value;
    TurnsGoOn(setup, s, 0, k, rounds);
    assert ([out] + Turns(LEFT, 0, k))[1..] == Turns(LEFT, 0, k);
  }

  /** With nobody eliminated the same phase is over after three turns. */
  lemma OnceEndsWhenFull(setup: (Ctx, Value) -> Value, setupData: Value, seed: int, rounds: nat)
    requires rounds >= 1
    ensures
      var calls := [External(Ends("0")), External(Ends("1")), External(Ends("2"))];
      var r := Match(OnceGame(setup), 3, setupData, seed, calls, rounds);
      r.Done? && r.value.ctx.phase == ""
  {
    hide Apply, OnceGame, NewMatch, FirstState, Seated;
    OnceSetUp(setup, setupData, seed, rounds);
    var game := OnceGame(setup);
    var c0, c1, c2 := External(Ends("0")), External(Ends("1")), External(Ends("2"));
    var first := FirstState(game, 3, setupData, seed);
    TurnPasses(setup, first, FULL, 0, rounds);
    var s1 := Apply(game, first, c0.req, rounds).value;
    TurnPasses(setup, s1, FULL, 1, rounds);
    var s2 := Apply(game, s1, c1.req, rounds).value;
    LastTurnEndsPhase(setup, s2, rounds);
    AfterTwo(game, first, s1, s2, c0, c1, [c2], rounds);
    assert [c0, c1] + [c2] == [c0, c1, c2] && [c2][1..] == [];
  }
}
