/**
 The active-player set: what its JSON form gives back, how Revert installs nest, what an ordered chain does, and where
 the engine can lock every seat out.
 */
module ActiveChains {
  import opened Engine
  import opened Transitions
  import opened Reducer
  import opened Laws
  import opened Reachable

  // ---- core/ctx.go ------------------------------------------------------------------------------------------

  /** MarshalJSON: a nil set is written as the empty object. */
  function ToWire(active: StageMap): map<Pid, string> {
    if active.None? then map[] else active.value
  }

  /** UnmarshalJSON: an empty object is read as a nil set. */
  function FromWire(wire: map<Pid, string>): StageMap {
    NilIfEmpty(wire)
  }

  /** Writing and reading gives back the same set exactly when it is not an empty non-nil one. */
  lemma WireRoundTrip(active: StageMap)
    ensures FromWire(ToWire(active)) == active <==> NilOrNonEmpty(active)
  {
  }

  /** So every state of every match of a tame game survives storage. */
  lemma MatchesSurviveStorage(game: Game, requested: int, setupData: Value, seed: int, calls: seq<Call>, rounds: nat)
    requires GameOk(Law(true, false, {}, false, false, false), game)
    ensures
      var r := Match(game, requested, setupData, seed, calls, rounds);
      r.Done? ==> FromWire(ToWire(r.value.ctx.active)) == r.value.ctx.active
  {
    hide Match, GameOk;
    ActiveSetsNeverEmpty(game, requested, setupData, seed, calls, rounds);
    var r := Match(game, requested, setupData, seed, calls, rounds);
    if r.Done? { WireRoundTrip(r.value.ctx.active); }
  }

  // ---- the tame law is needed -------------------------------------------------------------------------------

  /** A counting move as far as the active set is concerned: the count goes up, spent seats leave. */
  function Counted(s: State, pid: Pid): (t: State)
    ensures t.ctx == s.ctx.(active := t.ctx.active)
  {
    AutoEnd(Bump(s, pid))
  }

  /** One move for `a`, then, by Next, one move for `b` with Revert set. */
  function RevertInChain(a: Pid, b: Pid): Cfg {
    Cfg(None, None, None, map[a := ""], 0, 1, map[], map[], false,
        Some(Cfg(None, None, None, map[b := ""], 0, 1, map[], map[], true, None)))
  }

  /**
   Without the tame law the invariant fails, from any state and for any two seats: when the chained Revert set drains,
   the engine restores the emptied map the first set left behind, and then no seat at all may move.
   */
  lemma ChainedRevertLocksEveryoneOut(s: State, a: Pid, b: Pid, anyone: Pid)
    requires s.stack == []
    ensures
      var s1 := Install(s, RevertInChain(a, b));
      var s2 := Counted(s1, a);
      var t := Counted(s2, b);
      && s1.ctx.active == Some(map[a := ""]) && s2.ctx.active == Some(map[b := ""])
      && t.ctx.active == Some(map[]) && AuthorizedStage(t.ctx, anyone).1 == Some(InactivePlayer)
  {
    var s1 := Install(s, RevertInChain(a, b));
    assert Activated(s.ctx, RevertInChain(a, b)) == map[a := ""];
    assert Limits(map[a := ""], 1, map[]) == map[a := 1];
    var s2 := Bump(s1, a);
    assert Spent(s2) == {a};
    assert s2.ctx.active.value - {a} == map[];
    var inner := RevertInChain(a, b).next.value;
    assert Activated(s.ctx, inner) == map[b := ""];
    assert Limits(map[b := ""], 1, map[]) == map[b := 1];
    var s3 := Counted(s1, a);
    assert s3.ctx.active == Some(map[b := ""]) && s3.stack == [Frame(Some(map[]), Some(map[]), s3.stack[0].min, Some(map[]))];
    var s4 := Bump(s3, b);
    assert Spent(s4) == {b};
    assert s4.ctx.active.value - {b} == map[];
  }

  // ---- Revert nesting ---------------------------------------------------------------------------------------

  /** What happens to the active set between two boundaries: any event that ends no turn or phase, counting moves. */
  datatype Op = Queued(ev: Event) | CountingMove(pid: Pid)

  /** The operation ends neither turn nor phase. */
  predicate StageOp(d: Drain, op: Op) {
    op.Queued? ==>
      || op.ev.EndStage? || op.ev.SetStage? || op.ev.SetStageLong? || op.ev.SetActivePlayers? || op.ev.RunMove?
      || op.ev.EndGame? || (op.ev.RemovePlayer? && op.ev.pid != d.m.st.ctx.currentPlayer)
  }

  function Perform(game: Game, d: Drain, op: Op): Drain {
    match op
    case Queued(ev) => Handle(game, d, ev)
    case CountingMove(pid) => d.(m := d.m.(st := Counted(d.m.st, pid)))
  }

  function PerformAll(game: Game, d: Drain, ops: seq<Op>): Drain
    decreases |ops|
  {
    if ops == [] then d else PerformAll(game, Perform(game, d, ops[0]), ops[1..])
  }

  /** The live set and its bookkeeping, as a Revert frame holds it. */
  function Live(s: State): Frame {
    Frame(s.ctx.active, s.counts, s.stageMin, s.stageMax)
  }

  /** The PendingNext an operation arms, if it is an install; else the one there was. */
  function Armed(pending: Option<Cfg>, op: Op): Option<Cfg> {
    if op.Queued? && op.ev.SetActivePlayers? then op.ev.cfg.next else pending
  }

  function ArmedAll(pending: Option<Cfg>, ops: seq<Op>): Option<Cfg>
    decreases |ops|
  {
    if ops == [] then pending else ArmedAll(Armed(pending, ops[0]), ops[1..])
  }

  /** The stack is left alone, grows by one frame, or gives its top frame back to the live set. */
  ghost predicate StackStep(s: State, t: State) {
    || t.stack == s.stack
    || (|t.stack| == |s.stack| + 1 && t.stack[..|s.stack|] == s.stack)
    || (s.stack != [] && t.stack == s.stack[..|s.stack| - 1] && Live(t) == s.stack[|s.stack| - 1])
  }

  /** Over a non-empty stack, only an install arms a PendingNext, and nothing fires one. */
  ghost predicate OverStack(s: State, t: State) {
    StackStep(s, t) && (s.stack != [] ==> t.pendingNext == s.pendingNext)
  }

  lemma CountedIsStackStep(s: State, pid: Pid)
    ensures OverStack(s, Counted(s, pid))
  {
  }

  lemma LeaveIsStackStep(game: Game, m: Machine, pid: Pid)
    ensures OverStack(m.st, LeaveStage(game, m, pid).st)
  {
  }

  lemma EnterIsStackStep(game: Game, m: Machine, pid: Pid, stage: string)
    ensures EnterStage(game, m, pid, stage).st.stack == m.st.stack
    ensures EnterStage(game, m, pid, stage).st.pendingNext == m.st.pendingNext
  {
  }

  lemma EliminateIsStackStep(game: Game, m: Machine, pid: Pid)
    requires pid != m.st.ctx.currentPlayer
    ensures Eliminate(game, m, pid).st.stack == m.st.stack && Eliminate(game, m, pid).st.pendingNext == m.st.pendingNext
  {
  }

  lemma PerformIsStackStep(game: Game, d: Drain, op: Op)
    requires StageOp(d, op)
    ensures
      var t := Perform(game, d, op).m.st;
      StackStep(d.m.st, t) && (d.m.st.stack != [] ==> t.pendingNext == Armed(d.m.st.pendingNext, op))
  {
    hide Counted, LeaveStage, EnterStage, Eliminate;
    match op
    case CountingMove(pid) => CountedIsStackStep(d.m.st, pid);
    case Queued(ev) =>
      match ev
      case EndStage => LeaveIsStackStep(game, d.m, d.pid);
      case SetStage(stage) => EnterIsStackStep(game, d.m, d.pid, stage);
      case SetStageLong(stage, _, _) => EnterIsStackStep(game, d.m, d.pid, stage);
      case RemovePlayer(pid) => EliminateIsStackStep(game, d.m, pid);
      case _ =>
  }

  /** Through these operations the stack never falls back to `base` frames. */
  ghost predicate StaysAbove(game: Game, d: Drain, ops: seq<Op>, base: nat)
    decreases |ops|
  {
    |d.m.st.stack| > base && (ops != [] ==> StageOp(d, ops[0]) && StaysAbove(game, Perform(game, d, ops[0]), ops[1..], base))
  }

  lemma {:induction false} LowerFramesKept(game: Game, d: Drain, ops: seq<Op>, base: nat)
    requires StaysAbove(game, d, ops, base)
    ensures
      var t := PerformAll(game, d, ops).m.st;
      |t.stack| > base && t.stack[..base + 1] == d.m.st.stack[..base + 1] && t.pendingNext == ArmedAll(d.m.st.pendingNext, ops)
    decreases |ops|
  {
    hide Perform;
    if ops != [] {
      var next := Perform(game, d, ops[0]);
      PerformIsStackStep(game, d, ops[0]);
      var s, t := d.m.st.stack, next.m.st.stack;
      assert t[..base + 1] == s[..base + 1] by {
        if |t| == |s| + 1 { assert t[..base + 1] == t[..|s|][..base + 1]; }
      }
      LowerFramesKept(game, next, ops[1..], base);
    }
  }

  /**
   Revert nesting, for every game and to any depth: a Revert install, then any operations during which the stack stays
   above where it was, then the operation that brings it back down. The outer set, its counts, its limits and the whole
   outer stack are exactly what they were. PendingNext is not restored: it is whatever the last install of the bracket
   armed, so the outer chain goes on if and only if that is the outer PendingNext itself.
   */
  lemma RevertRestores(game: Game, d: Drain, cfg: Cfg, ops: seq<Op>, last: Op)
    requires cfg.revert
    requires StaysAbove(game, Perform(game, d, Queued(SetActivePlayers(cfg))), ops, |d.m.st.stack|)
    requires StageOp(PerformAll(game, Perform(game, d, Queued(SetActivePlayers(cfg))), ops), last)
    requires
      |PerformAll(game, Perform(game, d, Queued(SetActivePlayers(cfg))), ops + [last]).m.st.stack| == |d.m.st.stack|
    ensures
      var t := PerformAll(game, Perform(game, d, Queued(SetActivePlayers(cfg))), ops + [last]).m.st;
      Live(t) == Live(d.m.st) && t.stack == d.m.st.stack && t.pendingNext == ArmedAll(cfg.next, ops)
  {
    var base := |d.m.st.stack|;
    var installed := Perform(game, d, Queued(SetActivePlayers(cfg)));
    InstallsOver(game, d, cfg);
    hide Perform, StageOp;
    LowerFramesKept(game, installed, ops, base);
    var before := PerformAll(game, installed, ops);
    PerformAllConcat(game, installed, ops, last);
    PerformIsStackStep(game, before, last);
    var end := Perform(game, before, last);
    assert |end.m.st.stack| == base && |before.m.st.stack| == base + 1;
    assert before.m.st.stack[..base + 1] == before.m.st.stack;
    assert installed.m.st.stack[..base + 1] == installed.m.st.stack;
  }

  lemma InstallsOver(game: Game, d: Drain, cfg: Cfg)
    requires cfg.revert
    ensures
      var t := Perform(game, d, Queued(SetActivePlayers(cfg))).m.st;
      t.stack == d.m.st.stack + [Live(d.m.st)] && t.pendingNext == cfg.next
  {
  }

  lemma {:induction false} PerformAllConcat(game: Game, d: Drain, ops: seq<Op>, last: Op)
    ensures PerformAll(game, d, ops + [last]) == Perform(game, PerformAll(game, d, ops), last)
    decreases |ops|
  {
    hide Perform;
    if ops != [] {
      assert (ops + [last])[1..] == ops[1..] + [last];
      PerformAllConcat(game, Perform(game, d, ops[0]), ops[1..], last);
    } else {
      assert (ops + [last])[1..] == [];
    }
  }

  /**
   A Revert install in the middle of a chain, drained again: the live set and the stack are back, and the chain goes on if
   and only if the install's own Next is the chain's rest. One without a Next loses any chain.
   */
  lemma RevertKeepsChainExactly(s: State, cfg: Cfg)
    requires cfg.revert
    ensures
      var t := DrainActive(Install(s, cfg));
      && Live(t) == Live(s) && t.stack == s.stack
      && (t == s <==> cfg.next == s.pendingNext)
      && (cfg.next.None? ==> (t == s <==> s.pendingNext.None?))
  {
    var installed := Install(s, cfg);
    assert installed.stack[..|installed.stack| - 1] == s.stack;
    var t := DrainActive(installed);
    assert t.ctx == s.ctx;
    assert t == s.(pendingNext := cfg.next);
  }

  /** A chain over seats a and b, interrupted over a by a Revert install for c: c moves, a is back, b never gets to move. */
  lemma InterruptedChainIsLost(s: State, a: Pid, b: Pid, c: Pid)
    requires s.stack == []
    ensures
      var s1 := Install(s, InOrder([a, b], "", 0, 1));
      var cut := Install(s1, Link(c, "", 0, 1, None).(revert := true));
      var s2 := Counted(cut, c);
      var s3 := Counted(s2, a);
      && s1.ctx.active == Some(map[a := ""]) && s1.pendingNext.Some? && cut.ctx.active == Some(map[c := ""])
      && s2.ctx.active == Some(map[a := ""]) && s2.stack == []
      && s3.ctx.active == None && s3.pendingNext == None
  {
    InstallsHead(s, [a, b], "", 0, 1);
    var s1 := Install(s, InOrder([a, b], "", 0, 1));
    var cfg := Link(c, "", 0, 1, None).(revert := true);
    var i := Install(s1, cfg);
    assert Activated(s1.ctx, cfg) == map[c := ""] && Limits(map[c := ""], 1, map[]) == map[c := 1];
    Exhausted(i, c);
    var s2 := Counted(i, c);
    assert s2.pendingNext == None && Live(s2) == Live(s1);
    Exhausted(s2, a);
  }

  /** The one active seat makes its one move: the set is drained. */
  lemma Exhausted(s: State, a: Pid)
    requires s.ctx.active == Some(map[a := ""]) && s.stageMax == Some(map[a := 1]) && CountOf(s.counts, a) == 0
    ensures Counted(s, a) == DrainActive(LeaveAll(Bump(s, a), {a}))
  {
    var bumped := Bump(s, a);
    assert Spent(bumped) == {a};
    assert bumped.ctx.active.value - {a} == map[];
  }

  // ---- ordered chains ---------------------------------------------------------------------------------------

  function Link(pid: Pid, stage: string, min: int, max: int, next: Option<Cfg>): Cfg {
    Cfg(None, None, None, map[pid := stage], min, max, map[], map[], false, next)
  }

  /** The chain from the front: each player's own set, with the rest as its Next. */
  function InOrder(players: seq<Pid>, stage: string, min: int, max: int): Cfg {
    if players == [] then EMPTY_CFG
    else Link(players[0], stage, min, max, if |players| == 1 then None else Some(InOrder(players[1..], stage, min, max)))
  }

  /** ActivePlayersInOrder: the same chain, built from the end backwards. */
  method ActivePlayersInOrder(players: seq<Pid>, stage: string, minMoves: int, maxMoves: int) returns (cfg: Cfg)
    ensures cfg == InOrder(players, stage, minMoves, maxMoves)
  {
    if |players| == 0 {
      return EMPTY_CFG;
    }
    var i := |players| - 1;
    cfg := Link(players[i], stage, minMoves, maxMoves, None);
    assert players[i..] == [players[i]];
    while i > 0
      invariant 0 <= i < |players| && cfg == InOrder(players[i..], stage, minMoves, maxMoves)
    {
      i := i - 1;
      assert players[i..][1..] == players[i + 1..];
      cfg := Link(players[i], stage, minMoves, maxMoves, Some(cfg));
    }
    assert players[0..] == players;
  }

  /** The chain's head is live: that one player, the stage, `played` of `max` moves made, the rest of the chain pending. */
  ghost predicate AtHead(s: State, players: seq<Pid>, stage: string, min: int, max: nat, played: nat)
    requires players != []
  {
    && s.stack == [] && s.ctx.active == Some(map[players[0] := stage]) && s.stageMax == Some(map[players[0] := max])
    && CountOf(s.counts, players[0]) == played
    && s.pendingNext == (if |players| == 1 then None else Some(InOrder(players[1..], stage, min, max)))
  }

  lemma InstallsHead(s: State, players: seq<Pid>, stage: string, min: int, max: nat)
    requires players != [] && s.stack == [] && max > 0
    ensures AtHead(Install(s, InOrder(players, stage, min, max)), players, stage, min, max, 0)
  {
    var cfg := InOrder(players, stage, min, max);
    assert Activated(s.ctx, cfg) == map[players[0] := stage];
    assert Limits(map[players[0] := stage], max, map[]) == map[players[0] := max];
    assert players[0] in map[players[0] := stage];
  }

  /** One counting move of the head: another move made, or the next player's turn, or the end of the chain. */
  lemma HeadMoves(s: State, players: seq<Pid>, stage: string, min: int, max: nat, played: nat)
    requires players != [] && AtHead(s, players, stage, min, max, played) && played < max
    ensures
      var t := Counted(s, players[0]);
      && (played + 1 < max ==> AtHead(t, players, stage, min, max, played + 1))
      && (played + 1 == max && |players| > 1 ==> AtHead(t, players[1..], stage, min, max, 0))
      && (played + 1 == max && |players| == 1 ==> t.ctx.active.None? && t.pendingNext.None? && t.stack == [])
  {
    var bumped := Bump(s, players[0]);
    if played + 1 == max {
      assert Spent(bumped) == {players[0]};
      assert bumped.ctx.active.value - {players[0]} == map[];
      var left := LeaveAll(bumped, {players[0]});
      assert AutoEnd(bumped) == DrainActive(left);
      if |players| > 1 { InstallsHead(left.(pendingNext := None), players[1..], stage, min, max); }
    } else {
      assert Spent(bumped) == {};
    }
  }

  /** The state after `j` counting moves, each made by the player whose slot it is. */
  function PlayedOut(s: State, players: seq<Pid>, max: nat, j: nat): State
    requires max > 0 && j <= |players| * max
    decreases j
  {
    if j == 0 then s
    else
      SlotInRange(|players|, max, j - 1);
      Counted(PlayedOut(s, players, max, j - 1), players[(j - 1) / max])
  }

  lemma SlotInRange(n: nat, max: nat, j: nat)
    requires max > 0 && j < n * max
    ensures 0 <= j / max < n
  {
    MulMonotone(n, j / max, max);
    assert j == (j / max) * max + j % max;
  }

  lemma MulMonotone(a: int, b: int, m: nat)
    ensures a <= b ==> a * m <= b * m
  {
  }

  lemma NextSlot(max: nat, j: nat)
    requires max > 0
    ensures j % max + 1 < max ==> (j + 1) / max == j / max && (j + 1) % max == j % max + 1
    ensures j % max + 1 == max ==> (j + 1) / max == j / max + 1 && (j + 1) % max == 0
  {
    var q, r := j / max, j % max;
    assert j == q * max + r;
    if r + 1 < max {
      DivModUnique(j + 1, max, q, r + 1);
    } else {
      assert j + 1 == (q + 1) * max;
      DivModUnique(j + 1, max, q + 1, 0);
    }
  }

  lemma DivModUnique(x: nat, m: nat, q: nat, r: nat)
    requires m > 0 && r < m && x == q * m + r
    ensures x / m == q && x % m == r
  {
    var d := x / m - q;
    assert x == (x / m) * m + x % m;
    assert d * m == r - x % m;
    MulMonotone(1, d, m);
    MulMonotone(d, -1, m);
  }

  /**
   Ordered activation, for any list of players and any per-player budget: after j counting moves exactly the player
   j / max is active, in the given stage, with j % max moves made; after the last player's last move nobody is, and the
   chain is gone.
   */
  lemma {:induction false} OneAtATimeInOrder(s: State, players: seq<Pid>, stage: string, min: int, max: nat, j: nat)
    requires players != [] && s.stack == [] && max > 0 && j <= |players| * max
    ensures
      var t := PlayedOut(Install(s, InOrder(players, stage, min, max)), players, max, j);
      && (j < |players| * max ==>
            j / max < |players| && AtHead(t, players[j / max..], stage, min, max, j % max))
      && (j == |players| * max ==> t.ctx.active.None? && t.pendingNext.None? && t.stack == [])
    decreases j
  {
    var start := Install(s, InOrder(players, stage, min, max));
    if j == 0 {
      InstallsHead(s, players, stage, min, max);
      assert players[0..] == players;
      assert |players| * max > 0;
      assert 0 / max == 0 && 0 % max == 0;
    } else {
      var i := j - 1;
      OneAtATimeInOrder(s, players, stage, min, max, i);
      SlotInRange(|players|, max, i);
      var slot := i / max;
      HeadMoves(PlayedOut(start, players, max, i), players[slot..], stage, min, max, i % max);
      NextSlot(max, i);
      assert |players| - slot > 1 ==> players[slot..][1..] == players[slot + 1..];
      LastSlot(|players|, max, j);
    }
  }

  lemma LastSlot(n: nat, max: nat, j: nat)
    requires max > 0 && 0 < j <= n * max
    ensures j == n * max <==> (j - 1) / max == n - 1 && (j - 1) % max + 1 == max
  {
    var q, r := (j - 1) / max, (j - 1) % max;
    assert j - 1 == q * max + r;
    if j == n * max {
      assert j - 1 == (n - 1) * max + (max - 1);
      DivModUnique(j - 1, max, n - 1, max - 1);
    }
  }

  /** Only the head of the chain may move, everyone else is refused. */
  lemma OnlyHeadMayMove(s: State, players: seq<Pid>, stage: string, min: int, max: nat, played: nat, pid: Pid)
    requires players != [] && AtHead(s, players, stage, min, max, played)
    ensures AuthorizedStage(s.ctx, pid) == if pid == players[0] then (stage, None) else ("", Some(InactivePlayer))
  {
  }
}
