/**
 What the events a move may queue do to a match, seat by seat: who may move and in which stage, how many of the moves a seat
 has to make or may make are left, which hooks run on what, and in which order. Each rule is about one event as the drain
 handles it, for any game and any state.
 */
module EventRules {
  import opened Engine
  import opened Transitions
  import opened Reducer
  import opened Gates
  import opened Laws
  import opened TurnRotation
  import EndRules

  // ---- a seat's place ---------------------------------------------------------------------------------------

  /** A seat's stage, if it is active, the counting moves made in it, and the fewest and most it takes; 0 is no limit. */
  datatype Seat = Seat(stage: Option<string>, made: int, least: int, most: int)

  function At<V>(m: Option<map<Pid, V>>, p: Pid, none: V): V {
    if m.Some? && p in m.value then m.value[p] else none
  }

  function SeatIn(f: Frame, p: Pid): Seat {
    Seat(if f.active.Some? && p in f.active.value then Some(f.active.value[p]) else None, At(f.counts, p, 0), At(f.min, p, 0),
         At(f.max, p, 0))
  }

  function SeatOf(s: State, p: Pid): Seat {
    SeatIn(Frame(s.ctx.active, s.counts, s.stageMin, s.stageMax), p)
  }

  /** G and the log, which hooks may change. */
  datatype Tale = Tale(g: Value, log: seq<LogEntry>)

  function TaleOf(s: State): Tale {
    Tale(s.g, s.log)
  }

  /** Entries the game logs get the current turn and phase where they name none, and the kind "custom" if they have none. */
  ghost predicate WrittenAs(notes: seq<LogEntry>, ctx: Ctx, written: seq<LogEntry>) {
    && |written| == |notes|
    && forall k | 0 <= k < |notes| ::
         written[k] == notes[k].(kind := if notes[k].kind == "" then "custom" else notes[k].kind,
                                 turn := if notes[k].turn == 0 then ctx.turn else notes[k].turn,
                                 phase := if notes[k].phase == "" then ctx.phase else notes[k].phase)
  }

  /** The hook, if there is one, has run, asked for this player in this context: G is what it made of it, its notes are logged. */
  ghost predicate Ran(hook: Option<Hook>, ctx: Ctx, pid: Pid, before: Tale, after: Tale) {
    if hook.None? then after == before
    else
      && before.log <= after.log
      && exists i: HookIn | i.ctx == ctx && i.pid == pid && i.g == before.g ::
           hook.value(i).g == after.g && WrittenAs(hook.value(i).notes, ctx, after.log[|before.log|..])
  }

  /** Apart from G, the log, and who is active how, nothing has changed. */
  predicate OnlySeats(s: State, t: State) {
    t == s.(ctx := s.ctx.(active := t.ctx.active), counts := t.counts, stageMin := t.stageMin, stageMax := t.stageMax,
            stack := t.stack, pendingNext := t.pendingNext, g := t.g, log := t.log)
  }

  lemma Runs(hook: Option<Hook>, m: Machine, pid: Pid)
    ensures Ran(hook, m.st.ctx, pid, TaleOf(m.st), TaleOf(RunHook(hook, m, pid).st))
  {
    if hook.Some? {
      var i, r := Input(m, pid), RunHook(hook, m, pid).st;
      assert hook.value(i).g == r.g && WrittenAs(hook.value(i).notes, m.st.ctx, r.log[|m.st.log|..]);
    }
  }

  // ---- stages -----------------------------------------------------------------------------------------------

  /** The stage's hook; "" and unknown stages have none. */
  function BeginsWith(game: Game, phase: string, stage: string): Option<Hook> {
    var config := game.LookupStage(phase, stage);
    if config.None? then None else config.value.onBegin
  }

  function EndsWith(game: Game, phase: string, stage: string): Option<Hook> {
    var config := game.LookupStage(phase, stage);
    if config.None? then None else config.value.onEnd
  }

  /** The mover enters the stage and their count starts over; limits, other seats, saved frames and the chain stay. */
  lemma StageSet(game: Game, d: Drain, stage: string)
    ensures
      var s, t := d.m.st, Handle(game, d, SetStage(stage)).m.st;
      && OnlySeats(s, t) && t.stack == s.stack && t.pendingNext == s.pendingNext
      && SeatOf(t, d.pid) == SeatOf(s, d.pid).(stage := Some(stage), made := 0)
      && (forall p | p != d.pid :: SeatOf(t, p) == SeatOf(s, p))
      && Ran(BeginsWith(game, s.ctx.phase, stage), t.ctx, d.pid, TaleOf(s), TaleOf(t))
  {
    EnteredExactly(game, d.m, d.pid, stage);
  }

  lemma EnteredExactly(game: Game, m: Machine, pid: Pid, stage: string)
    ensures
      var s, t := m.st, EnterStage(game, m, pid, stage).st;
      && OnlySeats(s, t) && t.stack == s.stack && t.pendingNext == s.pendingNext
      && SeatOf(t, pid) == SeatOf(s, pid).(stage := Some(stage), made := 0)
      && (forall p | p != pid :: SeatOf(t, p) == SeatOf(s, p))
      && Ran(BeginsWith(game, s.ctx.phase, stage), t.ctx, pid, TaleOf(s), TaleOf(t))
  {
    hide Ran, RunHook;
    var seats := if m.st.ctx.active.None? then map[] else m.st.ctx.active.value;
    var s := m.st.(ctx := m.st.ctx.(active := Some(seats[pid := stage])), counts := Without(m.st.counts, pid));
    Runs(BeginsWith(game, s.ctx.phase, stage), m.(st := s), pid);
    Runs(None, m.(st := s), pid);
    RunsNone(m.(st := s), pid);
  }

  lemma RunsNone(m: Machine, pid: Pid)
    ensures RunHook(None, m, pid) == m
  {
  }

  /** With limits given, these replace the mover's own; one that is not given stays. */
  lemma StageSetWithLimits(game: Game, d: Drain, stage: string, min: Option<int>, max: Option<int>)
    ensures
      var s, t := d.m.st, Handle(game, d, SetStageLong(stage, min, max)).m.st;
      var before := SeatOf(s, d.pid);
      && OnlySeats(s, t) && t.stack == s.stack && t.pendingNext == s.pendingNext
      && SeatOf(t, d.pid) == Seat(Some(stage), 0, if min.Some? then min.value else before.least,
                                  if max.Some? then max.value else before.most)
      && (forall p | p != d.pid :: SeatOf(t, p) == SeatOf(s, p))
      && Ran(BeginsWith(game, s.ctx.phase, stage), t.ctx, d.pid, TaleOf(s), TaleOf(t))
  {
    hide Ran, EnterStage;
    EnteredExactly(game, d.m, d.pid, stage);
  }

  // ---- installing an active set -----------------------------------------------------------------------------

  /** The stage a configuration puts a seat in: named seats before the current player, that one before the others, then all. */
  function PutIn(ctx: Ctx, cfg: Cfg, p: Pid): Option<string> {
    if p in cfg.seats then Some(cfg.seats[p])
    else if p == ctx.currentPlayer && cfg.current.Some? then cfg.current
    else if p in ctx.playOrder && p != ctx.currentPlayer && cfg.others.Some? then cfg.others
    else if p in ctx.playOrder then cfg.all
    else None
  }

  /** A seat under a configuration: nothing made yet, and its own limits or, when positive, the common ones. */
  function Placed(ctx: Ctx, cfg: Cfg, p: Pid): Seat {
    var stage := PutIn(ctx, cfg, p);
    if stage.None? then Seat(None, 0, 0, 0)
    else
      Seat(stage, 0, if p in cfg.perMin then cfg.perMin[p] else if cfg.minMoves > 0 then cfg.minMoves else 0,
           if p in cfg.perMax then cfg.perMax[p] else if cfg.maxMoves > 0 then cfg.maxMoves else 0)
  }

  /** A configuration is in force; a set that activates nobody is none at all. */
  ghost predicate InForce(ctx: Ctx, cfg: Cfg, t: State) {
    && (forall p: Pid :: SeatOf(t, p) == Placed(ctx, cfg, p))
    && t.pendingNext == cfg.next && (t.ctx.active.None? <==> forall p: Pid :: PutIn(ctx, cfg, p).None?)
  }

  lemma PutExactly(ctx: Ctx, cfg: Cfg, p: Pid)
    ensures PutIn(ctx, cfg, p) == if p in Activated(ctx, cfg) then Some(Activated(ctx, cfg)[p]) else None
  {
    hide Activated;
    ActivatedExactly(ctx, cfg, p);
  }

  lemma LimitAt(seats: map<Pid, string>, common: int, per: map<Pid, int>, p: Pid)
    ensures
      At(NilIfEmpty(Limits(seats, common, per)), p, 0) ==
        if p !in seats then 0 else if p in per then per[p] else if common > 0 then common else 0
  {
    var m := Limits(seats, common, per);
    assert p in m <==> p in seats && (p in per || common > 0);
  }

  lemma InstalledExactly(s: State, cfg: Cfg)
    ensures
      var t := Install(s, cfg);
      && OnlySeats(s, t) && t.g == s.g && t.log == s.log && InForce(s.ctx, cfg, t)
      && t.stack == if cfg.revert then s.stack + [Frame(s.ctx.active, s.counts, s.stageMin, s.stageMax)] else s.stack
  {
    var t, seats := Install(s, cfg), Activated(s.ctx, cfg);
    hide Activated, PutIn, Limits;
    forall p: Pid ensures SeatOf(t, p) == Placed(s.ctx, cfg, p) && (p in seats <==> PutIn(s.ctx, cfg, p).Some?) {
      PutExactly(s.ctx, cfg, p);
      LimitAt(seats, cfg.minMoves, cfg.perMin, p);
      LimitAt(seats, cfg.maxMoves, cfg.perMax, p);
    }
    if seats != map[] {
      var p :| p in seats;
      assert PutIn(s.ctx, cfg, p).Some?;
    }
  }

  /** The whole set is replaced, over a saved frame if the configuration reverts, and the chain is the configuration's own. */
  lemma ActiveSet(game: Game, d: Drain, cfg: Cfg)
    ensures
      var s, t := d.m.st, Handle(game, d, SetActivePlayers(cfg)).m.st;
      && OnlySeats(s, t) && t.g == s.g && t.log == s.log && InForce(s.ctx, cfg, t)
      && t.stack == if cfg.revert then s.stack + [Frame(s.ctx.active, s.counts, s.stageMin, s.stageMax)] else s.stack
  {
    hide Install, InForce;
    InstalledExactly(d.m.st, cfg);
  }

  // ---- leaving a stage --------------------------------------------------------------------------------------

  /** The stage that follows a stage, of the phase first and the game else; "" if none does. */
  function Follows(game: Game, s: State, pid: Pid): string {
    var seat := SeatOf(s, pid);
    game.NextStage(s.ctx.phase, if seat.stage.None? then "" else seat.stage.value)
  }

  /** With nobody left: the saved frame comes back, else the chain's next configuration, else the ordinary turn. */
  ghost predicate Drained(s: State, t: State) {
    && (s.stack != [] ==>
          && t.stack == s.stack[..|s.stack| - 1] && t.pendingNext == s.pendingNext
          && Frame(t.ctx.active, t.counts, t.stageMin, t.stageMax) == s.stack[|s.stack| - 1])
    && (s.stack == [] && s.pendingNext.Some? ==>
          var cfg := s.pendingNext.value;
          && InForce(s.ctx, cfg, t)
          && t.stack == if cfg.revert then [Frame(s.ctx.active, s.counts, s.stageMin, s.stageMax)] else [])
    && (s.stack == [] && s.pendingNext.None? ==>
          && t.stack == [] && t.pendingNext.None? && t.ctx.active.None?
          && forall p: Pid :: SeatOf(t, p) == Seat(None, 0, 0, 0))
  }

  lemma DrainedExactly(s: State)
    ensures Drained(s, DrainActive(s)) && OnlySeats(s, DrainActive(s)) && DrainActive(s).g == s.g && DrainActive(s).log == s.log
  {
    if s.stack == [] && s.pendingNext.Some? {
      InstalledExactly(s.(pendingNext := None), s.pendingNext.value);
      hide Install;
    }
  }

  /** The seat has left the set with its count and its limits; the last to leave takes the set with it. */
  ghost predicate Left(s: State, t: State, pid: Pid)
    requires s.ctx.active.Some?
  {
    if forall p | p in s.ctx.active.value :: p == pid then
      exists left: State ::
        && OnlySeats(s, left) && left.stack == s.stack && left.pendingNext == s.pendingNext
        && left.ctx.active == Some(map[]) && Drained(left, t)
    else
      && SeatOf(t, pid) == Seat(None, 0, 0, 0) && t.stack == s.stack && t.pendingNext == s.pendingNext
      && forall p | p != pid :: SeatOf(t, p) == SeatOf(s, p)
  }

  /** The seat has gone on to a stage, whose OnBegin has led from this to the present G and log. */
  ghost predicate GoneOn(game: Game, s: State, t: State, pid: Pid, stage: string, g: Tale) {
    && SeatOf(t, pid) == SeatOf(s, pid).(stage := Some(stage), made := 0)
    && (forall p | p != pid :: SeatOf(t, p) == SeatOf(s, p)) && t.stack == s.stack && t.pendingNext == s.pendingNext
    && Ran(BeginsWith(game, s.ctx.phase, stage), t.ctx, pid, g, TaleOf(t))
  }

  /**
   EndStage: the stage's OnEnd runs; then the mover enters the stage that follows or, when none does, leaves the set. Without
   an active set it does nothing.
   */
  lemma StageEnded(game: Game, d: Drain)
    ensures
      var s, t, pid := d.m.st, Handle(game, d, EndStage).m.st, d.pid;
      var stage, next := At(s.ctx.active, pid, ""), Follows(game, s, pid);
      if s.ctx.active.None? then t == s
      else
        && OnlySeats(s, t)
        && exists g: Tale ::
             && Ran(EndsWith(game, s.ctx.phase, stage), s.ctx, pid, TaleOf(s), g)
             && if next != "" then GoneOn(game, s, t, pid, next, g) else TaleOf(t) == g && Left(s, t, pid)
  {
    if d.m.st.ctx.active.Some? {
      hide Ran, RunHook, EnterStage, Departed, Left;
      var s, pid := d.m.st, d.pid;
      var ended, stage := EndedStage(game, d.m, pid), At(s.ctx.active, pid, "");
      Runs(EndsWith(game, s.ctx.phase, stage), d.m, pid);
      RunsNone(d.m, pid);
      assert Ran(EndsWith(game, s.ctx.phase, stage), s.ctx, pid, TaleOf(s), TaleOf(ended.st));
      if Follows(game, s, pid) != "" {
        EnteredExactly(game, ended, pid, Follows(game, s, pid));
        assert GoneOn(game, s, Handle(game, d, EndStage).m.st, pid, Follows(game, s, pid), TaleOf(ended.st));
      } else {
        DepartedExactly(ended.st, pid);
        LeftAlike(s, ended.st, Departed(ended.st, pid), pid);
      }
    }
  }

  lemma LeftAlike(s: State, ended: State, t: State, pid: Pid)
    requires s.ctx.active.Some? && ended == s.(g := ended.g, log := ended.log) && Left(ended, t, pid)
    ensures Left(s, t, pid)
  {
    hide Drained;
  }

  lemma DepartedExactly(s: State, pid: Pid)
    requires s.ctx.active.Some?
    ensures
      var t := Departed(s, pid);
      OnlySeats(s, t) && t.g == s.g && t.log == s.log && Left(s, t, pid)
  {
    hide Drained, DrainActive;
    var left := Leave(s, pid);
    DrainedExactly(left);
    assert left.ctx.active == Some(s.ctx.active.value - {pid});
    if p :| p in s.ctx.active.value && p != pid {
      assert p in left.ctx.active.value;
    } else {
      assert left.ctx.active.value == map[];
    }
  }

  /** A seat has made all the moves its stage allows it. */
  predicate SpentSeat(s: State, p: Pid) {
    var seat := SeatOf(s, p);
    seat.stage.Some? && seat.most > 0 && seat.made >= seat.most
  }

  /** After a counting move, exactly the seats that have made all their moves leave; the last to leave take the set with them. */
  lemma SpentLeave(s: State)
    ensures
      var t := AutoEnd(s);
      && OnlySeats(s, t) && t.g == s.g && t.log == s.log
      && if forall p: Pid :: !SpentSeat(s, p) then t == s
         else if forall p: Pid :: SeatOf(s, p).stage.Some? ==> SpentSeat(s, p) then
           exists left: State ::
             && OnlySeats(s, left) && left.stack == s.stack && left.pendingNext == s.pendingNext
             && left.ctx.active == Some(map[]) && Drained(left, t)
         else
           && t.stack == s.stack && t.pendingNext == s.pendingNext
           && forall p: Pid :: SeatOf(t, p) == if SpentSeat(s, p) then Seat(None, 0, 0, 0) else SeatOf(s, p)
  {
    hide Drained, DrainActive;
    if s.ctx.active.Some? {
      assert forall p: Pid :: p in Spent(s) <==> SpentSeat(s, p);
      var left := LeaveAll(s, Spent(s));
      DrainedExactly(left);
      assert forall p: Pid :: p in left.ctx.active.value <==> SeatOf(s, p).stage.Some? && !SpentSeat(s, p);
      if forall p: Pid :: SeatOf(s, p).stage.Some? ==> SpentSeat(s, p) {
        assert left.ctx.active.value == map[];
      }
    }
  }

  /** A counting move counts for the seat that made it, if it is active. */
  lemma MoveCounts(s: State, pid: Pid, p: Pid)
    ensures
      var t, seat := Bump(s, pid), SeatOf(s, p);
      && t == s.(counts := t.counts)
      && SeatOf(t, p) == if p == pid && seat.stage.Some? then seat.(made := seat.made + 1) else seat
  {
  }

  // ---- the end of a turn, of a phase and of the game --------------------------------------------------------

  /** Who may move at the start of a turn: those its configuration says, or just the player on turn. */
  ghost predicate StartsWith(turn: Option<Turn>, t: State) {
    if turn.Some? && turn.value.active.Some? then
      && InForce(t.ctx, turn.value.active.value, t)
      && t.stack == if turn.value.active.value.revert then [Frame(None, None, None, None)] else []
    else
      && t.ctx.active.None? && t.stack == [] && t.pendingNext.None? && forall p: Pid :: SeatOf(t, p) == Seat(None, 0, 0, 0)
  }

  function TurnEnd(turn: Option<Turn>): Option<Hook> {
    if turn.None? then None else turn.value.onEnd
  }

  function TurnStart(turn: Option<Turn>): Option<Hook> {
    if turn.None? then None else turn.value.onBegin
  }

  /** Nobody is active and nothing is left of an active set. */
  predicate Bare(s: State) {
    s.ctx.active.None? && s.counts.None? && s.stageMin.None? && s.stageMax.None? && s.stack == [] && s.pendingNext.None?
  }

  lemma StartsExactly(game: Game, m: Machine)
    requires Bare(m.st)
    ensures
      var t := ApplyActiveFromTurn(game, m).st;
      StartsWith(game.ScopeTurn(m.st.ctx.phase), t) && OnlySeats(m.st, t) && t.g == m.st.g && t.log == m.st.log
  {
    hide Install, InForce;
    var turn := game.ScopeTurn(m.st.ctx.phase);
    if turn.Some? && turn.value.active.Some? {
      InstalledExactly(m.st, turn.value.active.value);
      var t := Install(m.st, turn.value.active.value);
      ForceAlike(m.st.ctx, turn.value.active.value, t);
    }
  }

  lemma ForceAlike(ctx: Ctx, cfg: Cfg, t: State)
    requires InForce(ctx, cfg, t) && t.ctx == ctx.(active := t.ctx.active)
    ensures InForce(t.ctx, cfg, t)
  {
    assert forall p: Pid :: PutIn(t.ctx, cfg, p) == PutIn(ctx, cfg, p);
    assert forall p: Pid :: Placed(t.ctx, cfg, p) == Placed(ctx, cfg, p);
  }

  lemma StartKept(turn: Option<Turn>, s: State, t: State)
    requires StartsWith(turn, s) && t == s.(g := t.g, log := t.log)
    ensures StartsWith(turn, t)
  {
    assert forall p: Pid :: SeatOf(t, p) == SeatOf(s, p);
  }

  /**
   EndTurn naming the next player, when enough moves have been made: OnEnd, then the named player's turn starts with its own
   active set and OnBegin. Saved frames, chains, counts, limits, and everything undo and redo could use are gone.
   */
  lemma TurnEnded(game: Game, d: Drain, next: Pid)
    requires next != ""
    requires
      var s := d.m.st;
      game.ScopeTurn(s.ctx.phase).Some? ==> s.ctx.numMoves >= game.ScopeTurn(s.ctx.phase).value.minMoves
    ensures
      var s, t := d.m.st, Handle(game, d, EndTurn(next)).m.st;
      var turn := game.ScopeTurn(s.ctx.phase);
      && t.ctx.currentPlayer == next && t.ctx.turn == s.ctx.turn + 1 && t.ctx.numMoves == 0 && t.ctx.phase == s.ctx.phase
      && t.ctx.playOrder == s.ctx.playOrder
      && t.ctx.pos == (if next in s.ctx.playOrder then IndexOf(s.ctx.playOrder, next) else s.ctx.pos)
      && t.snapshots == [] && t.undone == [] && StartsWith(turn, t)
      && exists g: Tale :: Ran(TurnEnd(turn), s.ctx, "", TaleOf(s), g) && Ran(TurnStart(turn), t.ctx, "", g, TaleOf(t))
  {
    hide RunHook, Ran, StartsWith, ApplyActiveFromTurn;
    var m := d.m;
    var turn := game.ScopeTurn(m.st.ctx.phase);
    Runs(TurnEnd(turn), m, "");
    RunsNone(m, "");
    var ended := RunTurnOnEnd(game, m);
    var forced := ForcePlayer(EndedTurn(game, m), next);
    var counted := forced.(st := forced.st.(ctx := forced.st.ctx.(turn := forced.st.ctx.turn + 1)));
    StartsExactly(game, counted);
    var active := ApplyActiveFromTurn(game, counted);
    Runs(TurnStart(turn), active, "");
    RunsNone(active, "");
    StartKept(turn, active.st, RunTurnOnBegin(game, active).st);
    assert Ran(TurnEnd(turn), m.st.ctx, "", TaleOf(m.st), TaleOf(ended.st));
    assert Handle(game, d, EndTurn(next)).m == RunTurnOnBegin(game, active);
  }

  /** Who sits where when a turn order takes over. */
  predicate SeatedBy(order: TurnOrder, before: Ctx, after: Ctx) {
    && after.playOrder == (if order.Custom? then order.order else before.playOrder)
    && after.numPlayers == (if order.Custom? then |order.order| else before.numPlayers)
    && after.pos == (if order.Continue? then before.pos else 0)
    && (0 <= after.pos < |after.playOrder| ==> after.currentPlayer == after.playOrder[after.pos])
  }

  predicate BuiltIn(turn: Option<Turn>) {
    turn.Some? ==> !turn.value.order.UserOrder? && !turn.value.order.CustomFrom?
  }

  /** The phase that follows: the one an event names or, when it names none, the one Phase.Next picks from the G it is shown. */
  ghost predicate Chosen(game: Game, ctx: Ctx, named: string, g: Tale, target: string)
    requires ctx.phase in game.phases
  {
    if named != "" then target == named
    else exists i: HookIn | i.ctx == ctx && i.pid == "" && i.g == g.g :: game.phases[ctx.phase].next(i).choice == target
  }

  /** The turn's OnEnd and then the phase's have run; in between, the next phase was picked. */
  ghost predicate Ends(game: Game, s: State, named: string, target: string, after: Tale)
    requires s.ctx.phase in game.phases
  {
    exists g: Tale ::
      && Ran(TurnEnd(game.ScopeTurn(s.ctx.phase)), s.ctx, "", TaleOf(s), g) && Chosen(game, s.ctx, named, g, target)
      && Ran(game.phases[s.ctx.phase].onEnd, s.ctx, "", g, after)
  }

  /** The phase's OnBegin and then its turn's have run. */
  ghost predicate Begins(game: Game, before: Tale, t: State) {
    var phase := t.ctx.phase;
    exists g: Tale ::
      && Ran(if phase != "" && phase in game.phases then game.phases[phase].onBegin else None, t.ctx, "", before, g)
      && Ran(TurnStart(game.ScopeTurn(phase)), t.ctx, "", g, TaleOf(t))
  }

  function PhaseEvent(named: string): Event {
    if named == "" then EndPhase else SetPhase(named)
  }

  /** A phase has ended and its turn with it. */
  ghost predicate PhaseOver(s: Ctx, t: Ctx) {
    t.turn == s.turn + 1 && t.numMoves == 0 && t.gameover == s.gameover
  }

  /**
   A phase gives way to another, named or picked by Phase.Next: the turn's OnEnd and then the phase's run, the new phase
   seats its first player and puts its active set in force, then its OnBegin and its turn's run.
   */
  lemma PhaseChanged(game: Game, d: Drain, named: string)
    requires d.m.st.ctx.phase in game.phases && d.m.st.ctx.phase != ""
    ensures
      var s, t := d.m.st, Handle(game, d, PhaseEvent(named)).m.st;
      exists target: string, g: Tale ::
        && Ends(game, s, named, target, g)
        && (target != "" && BuiltIn(game.ScopeTurn(target)) ==>
              && t.ctx.phase == target && PhaseOver(s.ctx, t.ctx) && SeatedBy(OrderIn(game, target), s.ctx, t.ctx)
              && StartsWith(game.ScopeTurn(target), t) && Begins(game, g, t))
  {
    hide Ends, Begins, StartsWith, EnterPhase, EndedPhase, SeatedBy, Advance;
    var m := d.m;
    var ended := EndedPhase(game, m, named);
    var target := ended.st.ctx.phase;
    PhaseLeft(game, m, named);
    assert Ends(game, m.st, named, target, TaleOf(ended.st));
    if target != "" && BuiltIn(game.ScopeTurn(target)) {
      PhaseEntered(game, ended);
      SeatedAlike(OrderIn(game, target), m.st.ctx, ended.st.ctx, EnterPhase(game, ended).st.ctx);
      assert Handle(game, d, PhaseEvent(named)).m == EnterPhase(game, ended);
    }
  }

  /** The order a scope's turns go by. */
  function OrderIn(game: Game, phase: string): TurnOrder {
    if game.ScopeTurn(phase).Some? then game.ScopeTurn(phase).value.order else Default
  }

  /** A phase that no other follows: the game's own turns go on with the next seat, from an active set of their own. */
  lemma PhaseGone(game: Game, d: Drain)
    requires d.m.st.ctx.phase in game.phases && d.m.st.ctx.phase != "" && RoundRobin(OrderIn(game, ""))
    requires CursorOk(d.m.st.ctx) && d.m.st.ctx.playOrder != []
    ensures
      var s, t := d.m.st, Handle(game, d, EndPhase).m.st;
      exists target: string, g: Tale ::
        && Ends(game, s, "", target, g)
        && (target == "" ==>
              && t.ctx.phase == "" && PhaseOver(s.ctx, t.ctx) && t.ctx.playOrder == s.ctx.playOrder
              && t.ctx.pos == (s.ctx.pos + 1) % |s.ctx.playOrder| && t.ctx.currentPlayer == t.ctx.playOrder[t.ctx.pos]
              && StartsWith(game.turn, t) && Ran(TurnStart(game.turn), t.ctx, "", g, TaleOf(t)))
  {
    hide Ends, StartsWith, EndedPhase, Advance, Ran, RunHook, ApplyActiveFromTurn;
    var m := d.m;
    var ended := EndedPhase(game, m, "");
    PhaseLeft(game, m, "");
    assert Ends(game, m.st, "", ended.st.ctx.phase, TaleOf(ended.st));
    if ended.st.ctx.phase == "" {
      RoundRobinRotates(game, ended, game.turn);
      var advanced := Advance(game, ended, game.turn);
      EndRules.AdvanceStill(game, ended, game.turn);
      EndRules.AdvanceG(game, ended, game.turn);
      RotatedBare(game, ended);
      StartsExactly(game, advanced);
      var active := ApplyActiveFromTurn(game, advanced);
      Runs(TurnStart(game.turn), active, "");
      RunsNone(active, "");
      StartKept(game.turn, active.st, RunTurnOnBegin(game, active).st);
      assert Handle(game, d, EndPhase).m == RunTurnOnBegin(game, active);
    }
  }

  lemma RotatedBare(game: Game, m: Machine)
    requires Bare(m.st) && CursorOk(m.st.ctx) && m.st.ctx.playOrder != [] && RoundRobin(OrderIn(game, ""))
    ensures Bare(Advance(game, m, game.turn).st) && Advance(game, m, game.turn).st.log == m.st.log
  {
    hide LeavePhase;
    EndRules.GoModNat(m.st.ctx.pos + 1, |m.st.ctx.playOrder|);
    EndRules.GoModNat(m.st.ctx.pos + 1, m.st.ctx.numPlayers);
  }

  lemma SeatedAlike(order: TurnOrder, before: Ctx, ended: Ctx, after: Ctx)
    requires ended.playOrder == before.playOrder && ended.pos == before.pos && ended.numPlayers == before.numPlayers
    requires SeatedBy(order, ended, after)
    ensures SeatedBy(order, before, after)
  {
  }

  lemma PhaseLeft(game: Game, m: Machine, named: string)
    requires m.st.ctx.phase in game.phases
    ensures
      var s, t := m.st, EndedPhase(game, m, named).st;
      && Bare(t) && t.ctx == s.ctx.(phase := t.ctx.phase, turn := s.ctx.turn + 1, numMoves := 0, active := None)
      && Ends(game, s, named, t.ctx.phase, TaleOf(t))
  {
    hide RunHook, Ran;
    var s, phase := m.st, m.st.ctx.phase;
    var turn := game.ScopeTurn(phase);
    Runs(TurnEnd(turn), m, "");
    RunsNone(m, "");
    var ended := RunTurnOnEnd(game, m);
    var answer := game.phases[phase].next(Input(ended, ""));
    var asked := if named != "" then ended else ended.(env := ended.env.(api := answer.api));
    Runs(game.phases[phase].onEnd, asked, "");
    assert Ran(TurnEnd(turn), s.ctx, "", TaleOf(s), TaleOf(ended.st));
    assert Chosen(game, s.ctx, named, TaleOf(ended.st), EndedPhase(game, m, named).st.ctx.phase);
  }

  lemma PhaseEntered(game: Game, m: Machine)
    requires Bare(m.st) && BuiltIn(game.ScopeTurn(m.st.ctx.phase))
    ensures
      var s, t := m.st, EnterPhase(game, m).st;
      && SeatedBy(OrderIn(game, s.ctx.phase), s.ctx, t.ctx) && StartsWith(game.ScopeTurn(s.ctx.phase), t)
      && t.ctx.phase == s.ctx.phase && t.ctx.turn == s.ctx.turn && t.ctx.numMoves == s.ctx.numMoves
      && t.ctx.gameover == s.ctx.gameover && Begins(game, TaleOf(s), t)
  {
    hide RunHook, Ran, StartsWith, ApplyActiveFromTurn, Seating;
    var turn, phase := game.ScopeTurn(m.st.ctx.phase), m.st.ctx.phase;
    var hook := if phase != "" && phase in game.phases then game.phases[phase].onBegin else None;
    var seated := SeatFirst(game, m);
    SeatsFirst(game, m);
    StartsExactly(game, seated);
    var active := ApplyActiveFromTurn(game, seated);
    Runs(hook, active, "");
    RunsNone(active, "");
    var begun := RunPhaseOnBegin(game, active);
    Runs(TurnStart(turn), begun, "");
    RunsNone(begun, "");
    StartKept(turn, active.st, RunTurnOnBegin(game, begun).st);
    assert Ran(hook, active.st.ctx, "", TaleOf(m.st), TaleOf(begun.st));
  }

  lemma SeatsFirst(game: Game, m: Machine)
    requires BuiltIn(game.ScopeTurn(m.st.ctx.phase))
    ensures
      var s, t := m.st, SeatFirst(game, m).st;
      && SeatedBy(OrderIn(game, s.ctx.phase), s.ctx, t.ctx) && t == s.(ctx := t.ctx)
      && t.ctx.phase == s.ctx.phase && t.ctx.turn == s.ctx.turn && t.ctx.numMoves == s.ctx.numMoves
      && t.ctx.gameover == s.ctx.gameover && (Bare(s) ==> Bare(t))
  {
  }

  /** The game is over with this result, and Game.OnEnd has seen it; nothing else moves. */
  lemma GameEnded(game: Game, d: Drain, result: Option<Value>)
    ensures
      var s, t := d.m.st, Handle(game, d, EndGame(result)).m.st;
      && t == s.(ctx := s.ctx.(gameover := result), g := t.g, log := t.log) && Ran(game.onEnd, t.ctx, "", TaleOf(s), TaleOf(t))
  {
    hide RunHook, Ran;
    var m := d.m.(st := d.m.st.(ctx := d.m.st.ctx.(gameover := result)));
    Runs(game.onEnd, m, "");
  }

  /** Game.EndIf is asked for whoever moved; a result ends the game before anything else does, and Game.OnEnd sees it. */
  lemma GameOverSeen(game: Game, m: Machine, pid: Pid, move: Move)
    requires m.st.ctx.gameover.None? && game.endIf.Some?
    ensures
      var s, t := m.st, CheckEnds(game, m, pid, move).st;
      exists i: HookIn | i.g == s.g && i.ctx == s.ctx && i.pid == pid ::
        var v := game.endIf.value(i).verdict;
        v.Some? ==>
          t == s.(ctx := s.ctx.(gameover := v), g := t.g, log := t.log) && Ran(game.onEnd, t.ctx, "", TaleOf(s), TaleOf(t))
  {
    hide RunHook, Ran, CheckPhaseEnd, AutoEnd, CheckTurnEnd;
    var i := Input(m, pid);
    var c := game.endIf.value(i);
    assert c == game.endIf.value(i);
    if c.verdict.Some? {
      Runs(game.onEnd, m.(env := Absorb(m.env, c.out), st := m.st.(ctx := m.st.ctx.(gameover := c.verdict))), "");
    }
  }

  /**
   RemovePlayer, while others are left: the player loses their seat and, if it was not their turn, nothing else changes but
   the cursor and the active set. Out of turn or not, they may not move again, and a set that was only theirs is none at all.
   */
  lemma PlayerRemoved(game: Game, d: Drain, pid: Pid)
    ensures
      var s, t := d.m.st, Handle(game, d, RemovePlayer(pid)).m.st;
      && (pid !in s.ctx.playOrder ==> t == s)
      && (pid in s.ctx.playOrder && |s.ctx.playOrder| >= 2 ==>
            (t.ctx.active.Some? ==> pid !in t.ctx.active.value && t.ctx.active.value != map[]))
      && (pid in s.ctx.playOrder && |s.ctx.playOrder| >= 2 && pid != s.ctx.currentPlayer ==>
            && t == s.(ctx := s.ctx.(playOrder := t.ctx.playOrder, pos := t.ctx.pos, currentPlayer := t.ctx.currentPlayer,
                                     active := t.ctx.active))
            && (exists i | 0 <= i < |s.ctx.playOrder| ::
                  s.ctx.playOrder[i] == pid && t.ctx.playOrder == s.ctx.playOrder[..i] + s.ctx.playOrder[i + 1..])
            && (forall p: Pid :: SeatOf(t, p).stage == if p == pid then None else SeatOf(s, p).stage))
  {
    hide FinishTurn;
    var s := d.m.st;
    var idx := IndexOf(s.ctx.playOrder, pid);
    if idx >= 0 {
      assert Unseat(s.ctx, idx).playOrder == s.ctx.playOrder[..idx] + s.ctx.playOrder[idx + 1..];
      StruckSeats(Unseated(d.m, idx).st, pid);
    }
  }

  lemma StruckSeats(s: State, pid: Pid)
    ensures forall p: Pid :: SeatOf(Struck(s, pid), p).stage == if p == pid then None else SeatOf(s, p).stage
  {
    if s.ctx.active.Some? {
      var left := s.ctx.active.value - {pid};
      assert forall p: Pid :: p in left <==> p in s.ctx.active.value && p != pid;
    }
  }

  // ---- chained moves ----------------------------------------------------------------------------------------

  /** A chained move is there and may still run. */
  predicate Runnable(game: Game, d: Drain, name: string) {
    var table := game.ScopeMoves(d.m.st.ctx.phase);
    d.chained < 32 && name in table && table[name].Playable?
  }

  /**
   RunMove runs the bare move for the mover, on the present G. When it succeeds, its G stands, StateID goes up by one and the
   log has an entry of its own; when it fails, nothing of the state changes. What it queued stays queued either way.
   */
  lemma MoveChained(game: Game, d: Drain, name: string, args: seq<Value>)
    ensures
      var s, r := d.m.st, Handle(game, d, RunMove(name, args)).m;
      if !Runnable(game, d, name) then r == d.m
      else
        exists i: HookIn | i.g == s.g && i.ctx == s.ctx && i.pid == d.pid && i.resuming.None? ::
          var o := game.ScopeMoves(s.ctx.phase)[name].m.raw(i, args);
          && r.env.events == d.m.env.events + o.out.events && r.env.pending == d.m.env.pending + o.out.pushes
          && if o.error.Some? then r.st == s
             else
               && r.st == s.(g := o.out.g, stateID := s.stateID + 1, log := r.st.log)
               && |r.st.log| == |s.log| + 1 + |o.out.notes| && s.log < r.st.log
               && ByChain(r.st.log[|s.log|], s, d.pid, name, args)
  {
    if Runnable(game, d, name) {
      var i := Input(d.m, d.pid);
      var o := game.ScopeMoves(d.m.st.ctx.phase)[name].m.raw(i, args);
      assert o == game.ScopeMoves(d.m.st.ctx.phase)[name].m.raw(i, args);
    }
  }

  ghost predicate ByChain(e: LogEntry, s: State, pid: Pid, name: string, args: seq<Value>) {
    && e.kind == "chained-move" && e.move == name && e.pid == pid && e.args == args && e.turn == s.ctx.turn
    && e.phase == s.ctx.phase && !e.undoable
  }

  // ---- batches ----------------------------------------------------------------------------------------------

  /** The events of a batch are handled in the order they were queued. */
  lemma {:induction false} InOrder(game: Game, d: Drain, batch: seq<Event>, ev: Event)
    ensures HandleAll(game, d, batch + [ev]) == Handle(game, HandleAll(game, d, batch), ev)
    decreases |batch|
  {
    hide Handle;
    if batch == [] {
      assert [ev][1..] == [];
      assert batch + [ev] == [ev];
    } else {
      assert (batch + [ev])[1..] == batch[1..] + [ev];
      InOrder(game, Handle(game, d, batch[0]), batch[1..], ev);
    }
  }
}
