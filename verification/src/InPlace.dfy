/**
 core/transitions.go as it runs: every helper takes a state, writes its maps in place or allocates new ones, and returns
 the state. Each method does to the meaning of the state exactly what the function of the same name in Transitions says,
 writes only containers the state could already reach, and leaves a state that shares no map with itself, with its undo
 snapshots, or with any state from before except through those same containers.
 */
module InPlace {
  import opened Engine
  import opened Containers
  import T = Transitions

  /**
   A state under transition together with the queues its hooks share. `own` are the containers this call may write,
   `kept` those its undo snapshots hold.
   */
  datatype Work = Work(h: Held, env: Env, panicked: bool, ghost own: set<object>, ghost kept: set<object>)

  function Meaning(w: Work): Machine
    reads Foot(w.h.box), SavedFoot(w.h.saved)
  {
    Machine(Denoted(w.h), w.env, w.panicked)
  }

  /** The state shares no map with itself, reaches only owned containers, and its snapshots only kept ones. */
  ghost predicate Valid(w: Work) {
    Apart(w.h.box) && Foot(w.h.box) <= w.own && SavedFoot(w.h.saved) <= w.kept && w.own !! w.kept
  }

  /** What every method here keeps: validity, the snapshots' containers, and ownership of old or new containers only. */
  twostate predicate Safe(w: Work, new r: Work) {
    Valid(r) && fresh(r.own - w.own) && r.kept == w.kept
  }

  // ---- the active-player set --------------------------------------------------------------------------------

  /** One clause of applySetActivePlayers: every seat of the order but one, or all of them, enters the stage. */
  method Fill(base: map<Pid, string>, order: seq<Pid>, except: Option<Pid>, stage: string) returns (out: map<Pid, string>)
    ensures out == T.Filled(base, order, except, stage)
  {
    out := base;
    for i := 0 to |order|
      invariant out == base + map p | p in order[..i] && Some(p) != except :: stage
    {
      if Some(order[i]) != except {
        out := out[order[i] := stage];
      }
      assert forall p :: p in order[..i + 1] <==> p in order[..i] || p == order[i];
    }
    assert order[..|order|] == order;
  }

  /** The map applySetActivePlayers builds, clause by clause. */
  method BuildActive(ctx: Ctx, cfg: Cfg) returns (out: map<Pid, string>)
    ensures out == T.Activated(ctx, cfg)
  {
    hide T.Filled;
    out := map[];
    if cfg.all.Some? {
      out := Fill(out, ctx.playOrder, None, cfg.all.value);
    }
    if cfg.others.Some? {
      out := Fill(out, ctx.playOrder, Some(ctx.currentPlayer), cfg.others.value);
    }
    if cfg.current.Some? {
      out := out[ctx.currentPlayer := cfg.current.value];
    }
    out := out + cfg.seats;
  }

  method NewCounts(m: map<Pid, int>) returns (r: Counts?)
    ensures CountsOf(r) == T.NilIfEmpty(m) && (r != null ==> fresh(r))
  {
    if m == map[] { return null; }
    r := new Counts(m);
  }

  /** The maps a configuration installs, all new. */
  method NewSets(ctx: Ctx, cfg: Cfg) returns (r: Sets)
    ensures OneFrame(r) && fresh(Cells(r)) && FrameOf(r) == Installed(ctx, cfg)
  {
    hide T.Activated, T.Limits;
    var seats := BuildActive(ctx, cfg);
    var active: Stages? := null;
    if seats != map[] {
      active := new Stages(seats);
    }
    var min := NewCounts(T.Limits(seats, cfg.minMoves, cfg.perMin));
    var max := NewCounts(T.Limits(seats, cfg.maxMoves, cfg.perMax));
    r := Sets(active, null, min, max);
  }

  lemma SameSeats(b: Box, cfg: Cfg)
    ensures T.Activated(Opened(b).ctx, cfg) == T.Activated(b.rest.ctx, cfg)
  {
  }

  /** A Revert install saves copies of the live maps. */
  method PushFrame(b: Box, revert: bool) returns (stack: seq<Sets>)
    requires Apart(b)
    ensures StackApart(stack) && fresh(StackCells(stack) - StackCells(b.stack))
    ensures StackOf(stack) == if revert then StackOf(b.stack) + [FrameOf(b.live)] else StackOf(b.stack)
  {
    hide OneFrame;
    stack := b.stack;
    if revert {
      var saved := CopySets(b.live);
      GrownApart(b.stack, saved);
      stack := b.stack + [saved];
    }
  }

  /** What the frame NewSets returns holds. */
  ghost function Installed(ctx: Ctx, cfg: Cfg): Frame {
    var seats := T.Activated(ctx, cfg);
    Frame(T.NilIfEmpty(seats), None, T.NilIfEmpty(T.Limits(seats, cfg.minMoves, cfg.perMin)),
          T.NilIfEmpty(T.Limits(seats, cfg.maxMoves, cfg.perMax)))
  }

  lemma InstalledMeans(b: Box, cfg: Cfg, live: Sets, stack: seq<Sets>)
    requires FrameOf(live) == Installed(b.rest.ctx, cfg)
    requires StackOf(stack) == if cfg.revert then StackOf(b.stack) + [FrameOf(b.live)] else StackOf(b.stack)
    ensures Opened(Box(b.rest.(pendingNext := cfg.next), live, b.plugins, stack)) == T.Install(Opened(b), cfg)
  {
    hide T.Activated, T.Limits;
    SameSeats(b, cfg);
  }

  /** The stack after an install and the maps it installs, which are new and shared with nothing. */
  method Renew(b: Box, cfg: Cfg) returns (live: Sets, stack: seq<Sets>)
    requires Apart(b)
    ensures OneFrame(live) && StackApart(stack) && Cells(live) !! StackCells(stack)
    ensures fresh(Cells(live)) && fresh(StackCells(stack) - StackCells(b.stack))
    ensures FrameOf(live) == Installed(b.rest.ctx, cfg)
    ensures StackOf(stack) == if cfg.revert then StackOf(b.stack) + [FrameOf(b.live)] else StackOf(b.stack)
  {
    hide Installed, OneFrame, StackApart, StackOf, FrameOf;
    stack := PushFrame(b, cfg.revert);
    live := NewSets(b.rest.ctx, cfg);
  }

  /** applySetActivePlayers. */
  method Install(b: Box, cfg: Cfg) returns (r: Box)
    requires Apart(b)
    ensures Apart(r) && fresh(Foot(r) - Foot(b))
    ensures Opened(r) == T.Install(old(Opened(b)), cfg)
  {
    hide T.Install, Installed, OneFrame, StackApart, StackOf, FrameOf;
    var live, stack := Renew(b, cfg);
    InstalledMeans(b, cfg, live, stack);
    r := Box(b.rest.(pendingNext := cfg.next), live, b.plugins, stack);
  }

  lemma PoppedMeans(b: Box)
    requires Apart(b) && b.stack != []
    ensures
      var n := |b.stack| - 1;
      var r := b.(live := b.stack[n], stack := b.stack[..n]);
      Apart(r) && Foot(r) <= Foot(b) && Opened(r) == T.DrainActive(Opened(b))
  {
    var n := |b.stack| - 1;
    ShrunkCells(b.stack);
    assert StackOf(b.stack[..n]) == StackOf(b.stack)[..n];
  }

  /** drainActivePlayers: a popped frame's own maps become the live ones. */
  method DrainActive(b: Box) returns (r: Box)
    requires Apart(b)
    ensures Apart(r) && fresh(Foot(r) - Foot(b))
    ensures Opened(r) == T.DrainActive(old(Opened(b)))
  {
    hide T.Install, StackApart;
    if b.stack != [] {
      var n := |b.stack| - 1;
      PoppedMeans(b);
      r := b.(live := b.stack[n], stack := b.stack[..n]);
    } else if b.rest.pendingNext.Some? {
      r := Install(b.(rest := b.rest.(pendingNext := None)), b.rest.pendingNext.value);
    } else {
      r := b.(live := Sets(null, null, null, null));
    }
  }

  method DeleteStage(o: Stages?, pid: Pid)
    modifies o
    ensures StagesOf(o) == T.Without(old(StagesOf(o)), pid)
  {
    if o != null { o.m := o.m - {pid}; }
  }

  method DeleteCount(o: Counts?, pid: Pid)
    modifies o
    ensures CountsOf(o) == T.Without(old(CountsOf(o)), pid)
  {
    if o != null { o.m := o.m - {pid}; }
  }

  /** Delete a seat from the live maps. */
  method DeleteSeat(f: Sets, pid: Pid)
    requires OneFrame(f)
    modifies Cells(f)
    ensures
      var was := old(FrameOf(f));
      FrameOf(f) == Frame(T.Without(was.active, pid), T.Without(was.counts, pid), T.Without(was.min, pid),
                          T.Without(was.max, pid))
  {
    DeleteStage(f.active, pid);
    DeleteCount(f.counts, pid);
    DeleteCount(f.min, pid);
    DeleteCount(f.max, pid);
  }

  method DeleteFromLive(b: Box, pid: Pid)
    requires Apart(b)
    modifies Cells(b.live)
    ensures Opened(b) == T.Leave(old(Opened(b)), pid)
  {
    hide T.Without;
    DeleteSeat(b.live, pid);
    assert StackOf(b.stack) == old(StackOf(b.stack));
  }

  /** The tail of endStage: delete the seat from the live maps and drain an emptied set. */
  method Depart(b: Box, pid: Pid) returns (r: Box)
    requires Apart(b) && b.live.active != null
    modifies Cells(b.live)
    ensures Apart(r) && fresh(Foot(r) - Foot(b))
    ensures Opened(r) == T.Departed(old(Opened(b)), pid)
  {
    hide T.DrainActive, T.Leave, Apart, Opened, Foot;
    OpenedActive(b);
    DeleteFromLive(b, pid);
    OpenedActive(b);
    if b.live.active.m == map[] {
      r := DrainActive(b);
      assert fresh(Foot(r) - Foot(b));
    } else {
      r := b;
      assert fresh(Foot(r) - Foot(b));
    }
  }

  /** The first half of setStage on the live maps: write the seat's stage, allocating the map if nil. */
  method WriteSeat(f: Sets, pid: Pid, stage: string) returns (r: Sets)
    requires OneFrame(f)
    modifies Cells(f)
    ensures OneFrame(r) && fresh(Cells(r) - Cells(f))
    ensures
      var was := old(FrameOf(f));
      var seats := if was.active.None? then map[] else was.active.value;
      FrameOf(r) == was.(active := Some(seats[pid := stage]), counts := T.Without(was.counts, pid))
  {
    var active := f.active;
    if active == null {
      active := new Stages(map[]);
    }
    active.m := active.m[pid := stage];
    DeleteCount(f.counts, pid);
    r := f.(active := active);
  }

  method WriteStage(b: Box, pid: Pid, stage: string) returns (r: Box)
    requires Apart(b)
    modifies Cells(b.live)
    ensures Apart(r) && fresh(Foot(r) - Foot(b))
    ensures
      var s := old(Opened(b));
      var seats := if s.ctx.active.None? then map[] else s.ctx.active.value;
      Opened(r) == s.(ctx := s.ctx.(active := Some(seats[pid := stage])), counts := T.Without(s.counts, pid))
  {
    hide T.Without, OneFrame, StackApart;
    var live := WriteSeat(b.live, pid, stage);
    assert StackOf(b.stack) == old(StackOf(b.stack));
    r := b.(live := live);
  }

  method WriteLimit(o: Counts?, pid: Pid, limit: Option<int>) returns (r: Counts?)
    modifies o
    ensures r == o || fresh(r)
    ensures CountsOf(r) == T.WithLimit(old(CountsOf(o)), pid, limit)
  {
    r := o;
    if limit.Some? {
      if o == null {
        r := new Counts(map[]);
      }
      r.m := r.m[pid := limit.value];
    }
  }

  method WriteSeatLimits(f: Sets, pid: Pid, min: Option<int>, max: Option<int>) returns (r: Sets)
    requires OneFrame(f)
    modifies Cells(f)
    ensures OneFrame(r) && fresh(Cells(r) - Cells(f))
    ensures
      var was := old(FrameOf(f));
      FrameOf(r) == was.(min := T.WithLimit(was.min, pid, min), max := T.WithLimit(was.max, pid, max))
  {
    var low := WriteLimit(f.min, pid, min);
    var high := WriteLimit(f.max, pid, max);
    r := f.(min := low, max := high);
  }

  /** The second half of setStageLong. */
  method WriteLimits(b: Box, pid: Pid, min: Option<int>, max: Option<int>) returns (r: Box)
    requires Apart(b)
    modifies Cells(b.live)
    ensures Apart(r) && fresh(Foot(r) - Foot(b))
    ensures
      var s := old(Opened(b));
      Opened(r) == s.(stageMin := T.WithLimit(s.stageMin, pid, min), stageMax := T.WithLimit(s.stageMax, pid, max))
  {
    hide T.WithLimit, OneFrame, StackApart;
    var live := WriteSeatLimits(b.live, pid, min, max);
    assert StackOf(b.stack) == old(StackOf(b.stack));
    r := b.(live := live);
  }

  /** Delete the seat from one live map. */
  method StrikeSeat(f: Sets, pid: Pid) returns (r: Sets)
    requires OneFrame(f)
    modifies Cells(f)
    ensures OneFrame(r) && Cells(r) <= Cells(f)
    ensures
      var was := old(FrameOf(f));
      FrameOf(r) == if was.active.None? then was else was.(active := T.NilIfEmpty(was.active.value - {pid}))
  {
    DeleteStage(f.active, pid);
    r := f;
    if f.active != null && f.active.m == map[] {
      r := f.(active := null);
    }
  }

  /** The tail of removePlayer: delete the seat from the live map, and nil the map if that emptied it. */
  method Strike(b: Box, pid: Pid) returns (r: Box)
    requires Apart(b)
    modifies Cells(b.live)
    ensures Apart(r) && Foot(r) <= Foot(b)
    ensures Opened(r) == T.Struck(old(Opened(b)), pid)
  {
    hide StackApart, OneFrame, T.NilIfEmpty;
    var live := StrikeSeat(b.live, pid);
    assert StackOf(b.stack) == old(StackOf(b.stack));
    r := b.(live := live);
  }

  // ---- lifting to a state with its queues -------------------------------------------------------------------

  /** The two states agree on every container. */
  ghost predicate SameContainers(s: State, t: State) {
    && t.ctx.active == s.ctx.active && t.counts == s.counts && t.stageMin == s.stageMin && t.stageMax == s.stageMax
    && t.plugins == s.plugins && t.stack == s.stack && t.snapshots == s.snapshots
  }

  /** A step that only reassigns plain fields: the containers stay the ones they were. */
  function Plain(w: Work, m: Machine): Work {
    w.(h := w.h.(box := w.h.box.(rest := m.st)), env := m.env, panicked := m.panicked)
  }

  lemma PlainMeans(w: Work, m: Machine)
    requires Valid(w) && SameContainers(Meaning(w).st, m.st)
    ensures Valid(Plain(w, m)) && Meaning(Plain(w, m)) == m
  {
  }

  /** The same work on another boxed state, whose containers are owned from now on. */
  function Rebox(w: Work, b: Box): Work {
    w.(h := w.h.(box := b), own := w.own + Foot(b))
  }

  lemma Reboxed(w: Work, b: Box)
    requires Valid(w) && Apart(b) && Foot(b) !! w.kept
    ensures Valid(Rebox(w, b))
    ensures Meaning(Rebox(w, b)).st == Opened(b).(snapshots := OpenedAll(w.h.saved))
  {
  }

  lemma InstallMeans(s: State, cfg: Cfg, snapshots: seq<State>)
    ensures T.Install(s.(snapshots := snapshots), cfg) == T.Install(s, cfg).(snapshots := snapshots)
  {
  }

  method InstallIn(w: Work, cfg: Cfg) returns (r: Work)
    requires Valid(w)
    modifies w.own
    ensures Safe(w, r) && Meaning(r) == old(Meaning(w)).(st := T.Install(old(Denoted(w.h)), cfg))
  {
    hide T.Install, Apart, Foot, Opened, OpenedAll, SavedFoot;
    InstallMeans(Opened(w.h.box), cfg, OpenedAll(w.h.saved));
    var b := Install(w.h.box, cfg);
    Reboxed(w, b);
    r := Rebox(w, b);
  }

  /** applyActivePlayersFromTurn. */
  method ActiveFromTurn(game: Game, w: Work) returns (r: Work)
    requires Valid(w)
    modifies w.own
    ensures Safe(w, r) && Meaning(r) == T.ApplyActiveFromTurn(game, old(Meaning(w)))
  {
    hide T.Install, Valid;
    var turn := game.ScopeTurn(w.h.box.rest.ctx.phase);
    r := w;
    if turn.Some? && turn.value.active.Some? {
      r := InstallIn(w, turn.value.active.value);
    }
  }

  /** setStage. */
  method EnterStage(game: Game, w: Work, pid: Pid, stage: string) returns (r: Work)
    requires Valid(w)
    modifies w.own
    ensures Safe(w, r) && Meaning(r) == T.EnterStage(game, old(Meaning(w)), pid, stage)
  {
    hide Apart, T.RunHook, T.Without, Foot, Opened, OpenedAll, SavedFoot;
    var b := WriteStage(w.h.box, pid, stage);
    Reboxed(w, b);
    r := Rebox(w, b);
    var config := game.LookupStage(b.rest.ctx.phase, stage);
    if config.Some? {
      var m := T.RunHook(config.value.onBegin, Meaning(r), pid);
      PlainMeans(r, m);
      r := Plain(r, m);
    }
  }

  method LimitIn(w: Work, pid: Pid, min: Option<int>, max: Option<int>) returns (r: Work)
    requires Valid(w)
    modifies w.own
    ensures Safe(w, r)
    ensures
      var m := old(Meaning(w));
      Meaning(r) == m.(st := m.st.(stageMin := T.WithLimit(m.st.stageMin, pid, min),
                                   stageMax := T.WithLimit(m.st.stageMax, pid, max)))
  {
    hide Apart, T.WithLimit, Foot, Opened, OpenedAll, SavedFoot;
    var b := WriteLimits(w.h.box, pid, min, max);
    Reboxed(w, b);
    r := Rebox(w, b);
  }

  /** setStageLong. */
  method EnterStageLong(game: Game, w: Work, pid: Pid, stage: string, min: Option<int>, max: Option<int>)
    returns (r: Work)
    requires Valid(w)
    modifies w.own
    ensures Safe(w, r) && Meaning(r) == T.EnterStageLong(game, old(Meaning(w)), pid, stage, min, max)
  {
    hide T.EnterStage, T.WithLimit, Valid, Denoted;
    r := EnterStage(game, w, pid, stage);
    r := LimitIn(r, pid, min, max);
  }

  lemma DepartedMeans(s: State, pid: Pid, snapshots: seq<State>)
    ensures T.Departed(s.(snapshots := snapshots), pid) == T.Departed(s, pid).(snapshots := snapshots)
  {
  }

  method DepartIn(w: Work, pid: Pid) returns (r: Work)
    requires Valid(w) && w.h.box.live.active != null
    modifies w.own
    ensures Safe(w, r) && Meaning(r) == old(Meaning(w)).(st := T.Departed(old(Denoted(w.h)), pid))
  {
    hide Apart, T.Departed, Foot, Opened, OpenedAll, SavedFoot;
    DepartedMeans(Opened(w.h.box), pid, OpenedAll(w.h.saved));
    var b := Depart(w.h.box, pid);
    Reboxed(w, b);
    r := Rebox(w, b);
  }

  /** endStage. */
  method LeaveStage(game: Game, w: Work, pid: Pid) returns (r: Work)
    requires Valid(w)
    modifies w.own
    ensures Safe(w, r) && Meaning(r) == T.LeaveStage(game, old(Meaning(w)), pid)
  {
    hide T.Departed, T.EndedStage, T.EnterStage, Valid;
    assert Meaning(w).st.ctx.active.None? <==> w.h.box.live.active == null;
    if w.h.box.live.active == null {
      return w;
    }
    var m := T.EndedStage(game, Meaning(w), pid);
    PlainMeans(w, m);
    var ended := Plain(w, m);
    var next := game.NextStage(w.h.box.rest.ctx.phase, T.StageOf(Meaning(w).st.ctx, pid));
    if next != "" {
      r := EnterStage(game, ended, pid, next);
    } else {
      r := DepartIn(ended, pid);
    }
  }

  // ---- turns and phases -------------------------------------------------------------------------------------

  /** The live maps, the Revert stack and PendingNext are dropped, not emptied. */
  function Cleared(w: Work): Work {
    var rest := w.h.box.rest;
    w.(h := w.h.(box := Box(
      rest.(ctx := rest.ctx.(numMoves := 0), pendingNext := None), Sets(null, null, null, null), w.h.box.plugins, [])))
  }

  lemma ClearedMeans(w: Work)
    requires Valid(w)
    ensures Valid(Cleared(w)) && Meaning(Cleared(w)) == Meaning(w).(st := T.ClearTurn(Meaning(w).st))
  {
    assert StackOf([]) == [];
  }

  /** runPhaseEnter. */
  method EnterPhase(game: Game, w: Work) returns (r: Work)
    requires Valid(w)
    modifies w.own
    ensures Safe(w, r) && Meaning(r) == T.EnterPhase(game, old(Meaning(w)))
  {
    hide T.SeatFirst, T.ApplyActiveFromTurn, T.RunPhaseOnBegin, T.RunTurnOnBegin, Valid, Denoted;
    var seated := T.SeatFirst(game, Meaning(w));
    PlainMeans(w, seated);
    r := ActiveFromTurn(game, Plain(w, seated));
    var begun := T.RunTurnOnBegin(game, T.RunPhaseOnBegin(game, Meaning(r)));
    PlainMeans(r, begun);
    r := Plain(r, begun);
  }

  /** The second half of endTurn. */
  method BeginTurn(game: Game, w: Work) returns (r: Work)
    requires Valid(w)
    modifies w.own
    ensures Safe(w, r) && Meaning(r) == T.BeginTurn(game, old(Meaning(w)))
  {
    hide T.ApplyActiveFromTurn, T.RunTurnOnBegin, Valid, Denoted;
    var m := Meaning(w);
    var counted := m.(st := m.st.(ctx := m.st.ctx.(turn := m.st.ctx.turn + 1)));
    PlainMeans(w, counted);
    r := ActiveFromTurn(game, Plain(w, counted));
    var begun := T.RunTurnOnBegin(game, Meaning(r));
    PlainMeans(r, begun);
    r := Plain(r, begun);
  }

  /** The first half of endPhase. */
  method EndPhaseNow(game: Game, w: Work, nextPhase: string) returns (r: Work)
    requires Valid(w) && w.h.box.rest.ctx.phase in game.phases
    modifies w.own
    ensures Safe(w, r) && Meaning(r) == T.EndedPhase(game, old(Meaning(w)), nextPhase)
  {
    hide T.RunTurnOnEnd, T.RunHook, Valid, T.ClearTurn;
    var phase := w.h.box.rest.ctx.phase;
    var turnEnded := T.RunTurnOnEnd(game, Meaning(w));
    var target := nextPhase;
    var asked := turnEnded;
    if nextPhase == "" {
      var answer := game.phases[phase].next(T.Input(turnEnded, ""));
      target := answer.choice;
      asked := turnEnded.(env := turnEnded.env.(api := answer.api));
    }
    var ended := T.RunHook(game.phases[phase].onEnd, asked, "");
    PlainMeans(w, ended);
    var cleared := Cleared(Plain(w, ended));
    ClearedMeans(Plain(w, ended));
    var m := Meaning(cleared);
    var moved := m.(st := m.st.(ctx := m.st.ctx.(phase := target, turn := m.st.ctx.turn + 1)));
    PlainMeans(cleared, moved);
    r := Plain(cleared, moved);
  }

  /** The first half of endTurn. */
  method EndTurnNow(game: Game, w: Work) returns (r: Work)
    requires Valid(w)
    modifies w.own
    ensures Safe(w, r) && Meaning(r) == T.EndedTurn(game, old(Meaning(w)))
  {
    hide T.RunTurnOnEnd, T.ClearTurn;
    var ended := T.RunTurnOnEnd(game, Meaning(w));
    PlainMeans(w, ended);
    var cleared := Cleared(Plain(w, ended));
    ClearedMeans(Plain(w, ended));
    r := cleared.(h := Held(cleared.h.box.(rest := cleared.h.box.rest.(undone := [])), []));
    assert OpenedAll([]) == [];
  }

  /** advancePlayOrderPos. */
  method Advance(game: Game, w: Work, turn: Option<Turn>) returns (r: Work)
    requires Valid(w)
    modifies w.own
    ensures Safe(w, r) && Meaning(r) == T.Advance(game, old(Meaning(w)), turn)
    decreases if w.h.box.rest.ctx.phase == "" then 1 else 3
  {
    hide Valid, T.LeavePhase, T.NextPos;
    var m := Meaning(w);
    if m.st.ctx.playOrder == [] {
      return w;
    }
    var (answer, divides) := T.NextPos(T.EffectiveOrder(turn), m.st.ctx, T.Input(m, ""));
    var asked := m.(env := m.env.(api := answer.api), panicked := m.panicked || divides);
    PlainMeans(w, asked);
    if answer.choice.None? {
      r := LeavePhase(game, Plain(w, asked), "");
    } else {
      var seated := T.Seat(asked, answer.choice.value);
      PlainMeans(w, seated);
      r := Plain(w, seated);
    }
  }

  /** endPhase. */
  method LeavePhase(game: Game, w: Work, nextPhase: string) returns (r: Work)
    requires Valid(w)
    modifies w.own
    ensures Safe(w, r) && Meaning(r) == T.LeavePhase(game, old(Meaning(w)), nextPhase)
    decreases if w.h.box.rest.ctx.phase == "" then 0 else 2
  {
    hide Valid, T.EnterPhase, T.EndedPhase, T.Advance, T.ApplyActiveFromTurn, T.RunTurnOnBegin;
    var m := Meaning(w);
    var phase := w.h.box.rest.ctx.phase;
    r := w;
    if phase == "" {
      if nextPhase != "" {
        var entered := m.(st := m.st.(ctx := m.st.ctx.(phase := nextPhase)));
        PlainMeans(w, entered);
        r := EnterPhase(game, Plain(w, entered));
      }
      return;
    }
    if phase !in game.phases {
      return;
    }
    var moved := EndPhaseNow(game, w, nextPhase);
    if moved.h.box.rest.ctx.phase == "" {
      r := Advance(game, moved, game.turn);
      r := ActiveFromTurn(game, r);
      var begun := T.RunTurnOnBegin(game, Meaning(r));
      PlainMeans(r, begun);
      r := Plain(r, begun);
    } else {
      r := EnterPhase(game, moved);
    }
  }

  /** endTurn. */
  method FinishTurn(game: Game, w: Work, next: Pid) returns (r: Work)
    requires Valid(w)
    modifies w.own
    ensures Safe(w, r) && Meaning(r) == T.FinishTurn(game, old(Meaning(w)), next)
  {
    hide Valid, T.EndedTurn, T.Advance, T.BeginTurn;
    var turn := game.ScopeTurn(w.h.box.rest.ctx.phase);
    var wiped := EndTurnNow(game, w);
    if next != "" {
      var forced := T.ForcePlayer(Meaning(wiped), next);
      PlainMeans(wiped, forced);
      r := BeginTurn(game, Plain(wiped, forced));
    } else {
      r := Advance(game, wiped, turn);
      if r.h.box.rest.ctx.gameover.None? {
        r := BeginTurn(game, r);
      }
    }
  }

  lemma StruckMeans(s: State, pid: Pid, snapshots: seq<State>)
    ensures T.Struck(s.(snapshots := snapshots), pid) == T.Struck(s, pid).(snapshots := snapshots)
  {
  }

  method StrikeIn(w: Work, pid: Pid) returns (r: Work)
    requires Valid(w)
    modifies w.own
    ensures Safe(w, r) && Meaning(r) == old(Meaning(w)).(st := T.Struck(old(Denoted(w.h)), pid))
  {
    hide Apart, T.Struck, Foot, Opened, OpenedAll, SavedFoot;
    StruckMeans(Opened(w.h.box), pid, OpenedAll(w.h.saved));
    var b := Strike(w.h.box, pid);
    Reboxed(w, b);
    r := Rebox(w, b);
  }

  /** removePlayer. */
  method Eliminate(game: Game, w: Work, pid: Pid) returns (r: Work)
    requires Valid(w)
    modifies w.own
    ensures Safe(w, r) && Meaning(r) == T.Eliminate(game, old(Meaning(w)), pid)
  {
    hide Valid, T.FinishTurn, T.Struck, T.Unseat;
    var ctx := w.h.box.rest.ctx;
    var idx := T.IndexOf(ctx.playOrder, pid);
    if idx < 0 {
      return w;
    }
    var unseated := T.Unseated(Meaning(w), idx);
    PlainMeans(w, unseated);
    r := Plain(w, unseated);
    if unseated.st.ctx.playOrder == [] {
      return;
    }
    if ctx.currentPlayer == pid {
      r := FinishTurn(game, r, "");
    }
    r := StrikeIn(r, pid);
  }

  // ---- events -----------------------------------------------------------------------------------------------

  function Draining(w: Work, pid: Pid, chained: int): T.Drain
    reads Foot(w.h.box), SavedFoot(w.h.saved)
  {
    T.Drain(Meaning(w), pid, chained)
  }

  /** One case of drainEvents' switch. */
  method Handle(game: Game, w: Work, pid: Pid, chained: int, ev: Event) returns (r: Work, count: int)
    requires Valid(w)
    modifies w.own
    ensures Safe(w, r) && Draining(r, pid, count) == T.Handle(game, old(Draining(w, pid, chained)), ev)
  {
    hide Valid, T.FinishTurn, T.LeavePhase, T.LeaveStage, T.EnterStage, T.EnterStageLong, T.Install, T.Eliminate,
      T.RunHook, Denoted;
    r, count := w, chained;
    match ev
    case EndTurn(next) =>
      var ctx := Meaning(w).st.ctx;
      var turn := game.ScopeTurn(ctx.phase);
      if !(turn.Some? && turn.value.minMoves > 0 && ctx.numMoves < turn.value.minMoves) {
        r := FinishTurn(game, w, next);
      }
    case EndPhase => r := LeavePhase(game, w, "");
    case SetPhase(phase) => r := LeavePhase(game, w, phase);
    case EndStage => r := LeaveStage(game, w, pid);
    case SetStage(stage) => r := EnterStage(game, w, pid, stage);
    case SetStageLong(stage, min, max) => r := EnterStageLong(game, w, pid, stage, min, max);
    case EndGame(result) =>
      var m := Meaning(w);
      var over := T.RunHook(game.onEnd, m.(st := m.st.(ctx := m.st.ctx.(gameover := result))), "");
      PlainMeans(w, over);
      r := Plain(w, over);
    case SetActivePlayers(cfg) => r := InstallIn(w, cfg);
    case RemovePlayer(gone) => r := Eliminate(game, w, gone);
    case RunMove(name, args) =>
      count := chained + 1;
      if count <= T.MAX_CHAINED_MOVES {
        var m := T.RunChained(game, Meaning(w), pid, name, args);
        PlainMeans(w, m);
        r := Plain(w, m);
      }
  }

  /** drainEvents: batches of the shared queue, event by event, until it is empty. */
  method DrainEvents(game: Game, w: Work, pid: Pid, chained: int, ghost rounds: nat) returns (r: Work, count: int)
    requires Valid(w) && T.DrainEvents(game, Draining(w, pid, chained), rounds).Some?
    modifies w.own
    ensures Safe(w, r)
    ensures Some(Draining(r, pid, count)) == T.DrainEvents(game, old(Draining(w, pid, chained)), rounds)
  {
    hide Valid, Denoted, T.HandleAll;
    r, count := w, chained;
    ghost var left := rounds;
    while r.env.events != [] && !r.panicked
      invariant Safe(w, r)
      invariant T.DrainEvents(game, Draining(r, pid, count), left) ==
                T.DrainEvents(game, old(Draining(w, pid, chained)), rounds)
      decreases left
    {
      r, count := HandleBatch(game, r, pid, count);
      left := left - 1;
    }
  }

  /** One batch: take the queue, then apply its events in order. */
  method HandleBatch(game: Game, w: Work, pid: Pid, chained: int) returns (r: Work, count: int)
    requires Valid(w)
    modifies w.own
    ensures Safe(w, r)
    ensures
      var d := old(Draining(w, pid, chained));
      Draining(r, pid, count) == T.HandleAll(game, d.(m := d.m.(env := d.m.env.(events := []))), w.env.events)
  {
    hide Valid, T.Handle, Denoted;
    var batch := w.env.events;
    var m := Meaning(w);
    var taken := m.(env := m.env.(events := []));
    PlainMeans(w, taken);
    r, count := Plain(w, taken), chained;
    ghost var start := T.Drain(taken, pid, chained);
    for i := 0 to |batch|
      invariant Safe(w, r)
      invariant T.HandleAll(game, Draining(r, pid, count), batch[i..]) == T.HandleAll(game, start, batch)
    {
      assert batch[i..][1..] == batch[i + 1..];
      r, count := Handle(game, r, pid, count, batch[i]);
    }
  }
}
