/**
 What an accepted move runs and writes down, for every game: the move found for the request, once, on the stored G with the
 answered question at hand; its entry follows the log as it was, and whatever it logged itself comes after that.
 */
module MoveRules {
  import opened Engine
  import opened Transitions
  import opened Reducer
  import opened Gates
  import opened EventRules
  import opened Laws
  import opened Reachable
  import opened CascadeFifo

  /** What the move of a request is shown. */
  ghost predicate Shown(s: State, req: Request, i: HookIn) {
    && i.g == s.g && i.ctx == s.ctx.(nowMs := req.nowMs) && i.pid == req.pid && i.raised == []
    && if req.resumeTag == "" then i.resuming.None?
       else exists k | 0 <= k < |s.blocks| :: i.resuming == Some(s.blocks[k]) && FirstFor(s.blocks, k, req)
  }

  /** The entry of an external move: who made what move when, in which turn, phase and stage. */
  ghost predicate Enters(game: Game, s: State, req: Request, i: HookIn, move: Move, e: LogEntry) {
    && e.kind == "move" && e.move == req.move && e.pid == req.pid && e.args == req.args && e.nowMs == req.nowMs
    && e.turn == s.ctx.turn && e.phase == s.ctx.phase && e.stage == StageOf(s.ctx, req.pid) && e.parent == -1
    && e.resumeTag == req.resumeTag && e.serverDispatch == req.serverDispatch
    && e.redact == move.redact(i) && e.undoable == (move.undoable(i) && !game.disableUndo)
  }

  /** The log after a move: as it was, the move's entry, what drains and hooks wrote, the move's own notes, and the cascade. */
  ghost predicate Logs(game: Game, s: State, req: Request, i: HookIn, move: Move, t: State) {
    var o := move.run(i, req.args);
    && s.log < t.log && Enters(game, s, req, i, move, t.log[|s.log|])
    && exists before: seq<LogEntry>, notes: seq<LogEntry> ::
         && s.log + [t.log[|s.log|]] <= before && WrittenAs(o.out.notes, i.ctx, notes) && before + notes <= t.log
  }

  /** Every accepted move. */
  lemma MoveRuns(game: Game, s: State, req: Request, rounds: nat)
    requires Apply(game, s, req, rounds).Done?
    ensures
      var move, t := Requested(game, s, req).move, Apply(game, s, req, rounds).value;
      && Requested(game, s, req).Found?
      && exists i: HookIn :: Shown(s, req, i) && move.run(i, req.args).error.None? && Logs(game, s, req, i, move, t)
  {
    hide Admit, PlayMove, CountMove, Settle, Cascade, Requested, Logs, Shown;
    var a := Admit(game, s, req);
    AdmittedWith(game, s, req);
    var p := PlayMove(game, a, req).value;
    var i := PlayRuns(game, s, req);
    var m := Settle(game, CountMove(game, a, p, req), a.move, rounds).value;
    SettleNotes(game, CountMove(game, a, p, req), a.move, rounds);
    var t := Apply(game, s, req, rounds).value;
    CascadeLog(game, m.st, m.env, |s.log|, rounds);
    NotesStand(game, s, req, i, a, p, m, t, CountMove(game, a, p, req));
  }

  lemma NotesStand(game: Game, s: State, req: Request, i: HookIn, a: Admission, p: Played, m: Machine, t: State, r: Running)
    requires a.Admitted? && |p.st.log| == |s.log| + 1 && s.log < p.st.log <= r.d.m.st.log && m.st.log <= t.log
    requires Enters(game, s, req, i, a.move, p.st.log[|s.log|]) && WrittenAs(a.move.run(i, req.args).out.notes, i.ctx, p.notes)
    requires r == CountMove(game, a, p, req)
    requires exists before: seq<LogEntry> :: r.d.m.st.log <= before && m.st.log == before + r.extra
    ensures Logs(game, s, req, i, a.move, t)
  {
    hide Enters, WrittenAs, Bump;
    var before: seq<LogEntry> :| r.d.m.st.log <= before && m.st.log == before + r.extra;
    assert p.notes <= r.extra;
    assert before + p.notes <= before + r.extra;
    assert p.st.log == s.log + [p.st.log[|s.log|]];
    assert t.log[|s.log|] == p.st.log[|s.log|];
  }

  lemma PlayRuns(game: Game, s: State, req: Request) returns (i: HookIn)
    requires Admit(game, s, req).Admitted? && PlayMove(game, Admit(game, s, req), req).Done?
    ensures
      var a := Admit(game, s, req);
      var p := PlayMove(game, a, req).value;
      && i == HookIn(s.g, s.ctx.(nowMs := req.nowMs), req.pid, a.resuming, [], PluginApi(game, a.st, req.pid))
      && Shown(s, req, i) && a.move.run(i, req.args).error.None? && |p.st.log| == |s.log| + 1 && s.log < p.st.log
      && Enters(game, s, req, i, a.move, p.st.log[|s.log|]) && WrittenAs(a.move.run(i, req.args).out.notes, i.ctx, p.notes)
  {
    hide Admit, Requested;
    var a := Admit(game, s, req);
    AdmittedWith(game, s, req);
    i := HookIn(a.st.g, a.st.ctx, req.pid, a.resuming, [], PluginApi(game, a.st, req.pid));
  }

  lemma SettleNotes(game: Game, r: Running, move: Move, rounds: nat)
    requires Settle(game, r, move, rounds).Done?
    ensures
      var t := Settle(game, r, move, rounds).value.st;
      exists before: seq<LogEntry> :: r.d.m.st.log <= before && t.log == before + r.extra
  {
    hide DrainEvents, CheckEnds, WithoutBlocksFor;
    var first := DrainEvents(game, r.d, rounds).value;
    var checked := CheckEnds(game, first.m, r.d.pid, move);
    var second := DrainEvents(game, first.(m := checked), rounds).value;
    assert r.d.m.st.log <= second.m.st.log;
  }

  lemma CascadeLog(game: Game, s: State, env: Env, parent: int, rounds: nat)
    requires Cascade(game, s, env, parent, rounds).Done?
    ensures s.log <= Cascade(game, s, env, parent, rounds).value.log
  {
    QueueLog(game, Harvest(s, env), parent, 0, rounds);
  }

  lemma {:induction false} QueueLog(game: Game, s: State, parent: int, depth: nat, rounds: nat)
    requires depth <= MAX_DRAIN_DEPTH && DrainQueue(game, s, parent, depth, rounds).Done?
    ensures s.log <= DrainQueue(game, s, parent, depth, rounds).value.log
    decreases MAX_DRAIN_DEPTH - depth
  {
    hide RunStep;
    if !Resting(s) {
      var step := ApplyStep(game, s.(queue := s.queue[1..]), s.queue[0], parent, rounds);
      QueueLog(game, step.value, parent, depth + 1, rounds);
    }
  }

  // ---- queued moves -----------------------------------------------------------------------------------------

  /** The entry of a queued move, which points at the move that started the cascade. */
  ghost predicate EntersStep(s: State, action: Action, parent: int, e: LogEntry) {
    && e.kind == "drain-step" && e.move == action.move && e.pid == action.pid && e.args == action.args && e.turn == s.ctx.turn
    && e.phase == s.ctx.phase && e.stage == StageOf(s.ctx, action.pid) && e.parent == parent && !e.undoable
  }

  /** A step's own move: shown G as it is when its turn comes, and no question. */
  ghost predicate ShownStep(s: State, action: Action, i: HookIn) {
    i.g == s.g && i.ctx == s.ctx && i.pid == action.pid && i.resuming.None? && i.raised == []
  }

  /** The log after a step: as it was, the step's entry, what drains and hooks wrote, and the move's own notes. */
  ghost predicate LogsStep(s: State, action: Action, parent: int, o: MoveOut, t: State) {
    && s.log < t.log && EntersStep(s, action, parent, t.log[|s.log|])
    && exists before: seq<LogEntry>, notes: seq<LogEntry> ::
         s.log + [t.log[|s.log|]] <= before && WrittenAs(o.out.notes, s.ctx, notes) && t.log == before + notes
  }

  /**
   A queued move runs when its turn comes, in the stage its player is in by then, on turn or not. What it pushed joins the
   queue behind what is there, ahead of anything its hooks push.
   */
  lemma StepRuns(game: Game, s: State, action: Action, parent: int, rounds: nat)
    requires StateInv(FREE, s) && ApplyStep(game, s, action, parent, rounds).Done?
    ensures
      var found := Resolve(game, s.ctx, StageOf(s.ctx, action.pid), action.move);
      var t := ApplyStep(game, s, action, parent, rounds).value;
      && found.Found?
      && exists i: HookIn ::
           var o := found.move.run(i, action.args);
           && ShownStep(s, action, i) && o.error.None? && LogsStep(s, action, parent, o, t)
           && s.queue + o.out.pushes <= t.queue && s.blocks <= t.blocks
  {
    hide DrainEvents, Resolve, PluginApi, StateInv, GameOk, Flush;
    var stage := StageOf(s.ctx, action.pid);
    var found := Resolve(game, s.ctx, stage, action.move);
    EveryGameIsFree(game);
    ResolveOk(FREE, game, s.ctx, stage, action.move);
    var api := PluginApi(game, s, action.pid);
    var i := HookIn(s.g, s.ctx, action.pid, None, [], api);
    var o := found.move.run(i, action.args);
    EveryOutIsFree(o.out);
    var entry := StepEntry(s, action, stage, parent);
    StepMachineOk(FREE, game, s, action, entry, o.out, api);
    var env := Absorb(Env([], [], [], [], api), o.out);
    var m := Machine(Flush(game, s.(g := o.out.g, log := s.log + [entry]), env.api), env, false);
    var d := DrainEvents(game, Drain(m, action.pid, 0), rounds).value;
    DrainEventsKeeps(FREE, game, Drain(m, action.pid, 0), rounds);
    var t := ApplyStep(game, s, action, parent, rounds).value;
    StepLogged(game, s, action, parent, o, env.api, d.m.st, t);
    assert s.queue + o.out.pushes <= t.queue;
  }

  lemma StepLogged(game: Game, s: State, action: Action, parent: int, o: MoveOut, api: Option<Value>, drained: State, t: State)
    requires
      var entry := StepEntry(s, action, StageOf(s.ctx, action.pid), parent);
      Flush(game, s.(g := o.out.g, log := s.log + [entry]), api).log <= drained.log
    requires t.log == drained.log + AllNoted(o.out.notes, s.ctx)
    ensures LogsStep(s, action, parent, o, t)
  {
    assert WrittenAs(o.out.notes, s.ctx, AllNoted(o.out.notes, s.ctx));
    var entry := StepEntry(s, action, StageOf(s.ctx, action.pid), parent);
    assert s.log + [entry] <= drained.log;
    assert t.log[|s.log|] == entry;
  }

  // ---- plugins ----------------------------------------------------------------------------------------------

  /** The plugins' tables a move is shown. */
  ghost predicate ShownPlugins(game: Game, s: State, i: HookIn) {
    i.api == if game.plugins.None? then None else Some(game.plugins.value.api(s.plugins, i.g, i.ctx, i.pid))
  }

  /** Each plugin's entry is what it makes of the tables the move left, on the move's G, and no plugin objects to the result. */
  ghost predicate Persisted(
    game: Game, before: Option<map<string, Value>>, ctx: Ctx, o: HookOut, after: Option<map<string, Value>>)
  {
    if game.plugins.None? then after == before
    else
      var data := Opened(before);
      && after == Some(data + game.plugins.value.flush(data, o.api, o.g, ctx))
      && game.plugins.value.invalid(after, o.g, ctx).None?
  }

  /** What an accepted move leaves in the plugins' data when its cascade starts; hooks and events leave it alone. */
  lemma MoveFlushes(game: Game, s: State, req: Request, rounds: nat)
    requires Apply(game, s, req, rounds).Done?
    ensures
      && Requested(game, s, req).Found?
      && exists i: HookIn, mid: State ::
           && Shown(s, req, i) && ShownPlugins(game, s, i)
           && Persisted(game, s.plugins, i.ctx, Requested(game, s, req).move.run(i, req.args).out, mid.plugins)
           && DrainQueue(game, mid, |s.log|, 0, rounds) == Done(Apply(game, s, req, rounds).value)
  {
    hide Admit, PlayMove, CountMove, Settle, DrainQueue, Requested, Shown;
    var a := Admit(game, s, req);
    AdmittedWith(game, s, req);
    var i := PlayRuns(game, s, req);
    PlayFlushes(game, a, req);
    var r := CountMove(game, a, PlayMove(game, a, req).value, req);
    var m := Settle(game, r, a.move, rounds).value;
    SettleFlushes(game, r, a.move, rounds);
    var mid := Harvest(m.st, m.env);
    assert mid.plugins == PlayMove(game, a, req).value.st.plugins;
    assert DrainQueue(game, mid, |s.log|, 0, rounds) == Done(Apply(game, s, req, rounds).value);
  }

  lemma PlayFlushes(game: Game, a: Admission, req: Request)
    requires a.Admitted? && PlayMove(game, a, req).Done?
    ensures
      var i := HookIn(a.st.g, a.st.ctx, req.pid, a.resuming, [], PluginApi(game, a.st, req.pid));
      && ShownPlugins(game, a.st, i)
      && Persisted(game, a.st.plugins, i.ctx, a.move.run(i, req.args).out, PlayMove(game, a, req).value.st.plugins)
  {
  }

  lemma SettleFlushes(game: Game, r: Running, move: Move, rounds: nat)
    requires Settle(game, r, move, rounds).Done?
    ensures Settle(game, r, move, rounds).value.st.plugins == r.d.m.st.plugins
  {
    hide DrainEvents, CheckEnds, WithoutBlocksFor;
  }

  /** The same for a queued move. */
  lemma StepFlushes(game: Game, s: State, action: Action, parent: int, rounds: nat)
    requires ApplyStep(game, s, action, parent, rounds).Done?
    ensures
      var found := Resolve(game, s.ctx, StageOf(s.ctx, action.pid), action.move);
      && found.Found?
      && exists i: HookIn ::
           && ShownStep(s, action, i) && ShownPlugins(game, s, i)
           && Persisted(game, s.plugins, s.ctx, found.move.run(i, action.args).out,
                        ApplyStep(game, s, action, parent, rounds).value.plugins)
  {
    hide DrainEvents, Resolve;
    var i := HookIn(s.g, s.ctx, action.pid, None, [], PluginApi(game, s, action.pid));
    assert ShownStep(s, action, i);
  }

  /** A turn ended from outside flushes the plugins too, on the G its hooks left, before its cascade starts. */
  lemma TimeOutFlushes(game: Game, s: State, rounds: nat)
    requires ForceEndTurn(game, s, rounds).Done? && game.plugins.Some?
    ensures
      exists mid: State, end: State, api: Option<Value> ::
        && mid.plugins == Some(Opened(s.plugins) + game.plugins.value.flush(Opened(s.plugins), api, mid.g, mid.ctx))
        && DrainQueue(game, mid, -1, 0, rounds) == Done(end)
        && ForceEndTurn(game, s, rounds).value == end.(stateID := s.stateID + 1)
  {
    hide FinishTurn, DrainEvents, DrainQueue, WithoutBlocksFor;
    var m := ForcedTurn(game, s, rounds).value;
    var mid := Harvest(m.st, m.env);
    var end := DrainQueue(game, mid, -1, 0, rounds).value;
    assert ForceEndTurn(game, s, rounds).value == end.(stateID := s.stateID + 1);
    assert mid.plugins ==
           Some(Opened(s.plugins) + game.plugins.value.flush(Opened(s.plugins), m.env.api, mid.g, mid.ctx));
  }

  function Opened(data: Option<map<string, Value>>): map<string, Value> {
    if data.None? then map[] else data.value
  }

  // ---- the cascade ------------------------------------------------------------------------------------------

  /** A cascade runs the queue's head, and the next one after that, until it has a reason to stop; 200 moves are too many. */
  lemma OneByOne(game: Game, s: State, parent: int, depth: nat, rounds: nat)
    requires depth <= 200
    ensures
      var r := DrainQueue(game, s, parent, depth, rounds);
      if Stopped(s) then r == Done(s)
      else if depth == 200 then r == Refused(DrainOverflow)
      else
        var step := ApplyStep(game, s.(queue := s.queue[1..]), s.queue[0], parent, rounds);
        r == if step.Done? then DrainQueue(game, step.value, parent, depth + 1, rounds) else step
  {
    hide ApplyStep;
  }

  /** The cascade ends for one of three reasons. */
  predicate Stopped(t: State) {
    t.queue == [] || t.blocks != [] || t.ctx.gameover.Some?
  }

  // ---- what a move pushes -----------------------------------------------------------------------------------

  /** Every queued move the log shows points at the move that started the cascade. */
  predicate PointTo(log: seq<LogEntry>, parent: int) {
    forall k | 0 <= k < |log| && log[k].kind == "drain-step" :: log[k].parent == parent
  }

  lemma {:induction false} StepsPoint(game: Game, s: State, parent: int, depth: nat, rounds: nat)
    requires GameOk(STEPWISE, game) && StateInv(STEPWISE, s)
    requires depth <= MAX_DRAIN_DEPTH && DrainQueue(game, s, parent, depth, rounds).Done?
    ensures
      var t := DrainQueue(game, s, parent, depth, rounds).value;
      s.log <= t.log && PointTo(t.log[|s.log|..], parent)
    decreases MAX_DRAIN_DEPTH - depth
  {
    hide RunStep, GameOk, StateInv;
    if !Resting(s) {
      var popped := s.(queue := s.queue[1..]);
      QueueIsFree(STEPWISE, s, popped.queue);
      var (t, env) := RunStep(game, popped, s.queue[0], parent, rounds).value;
      StepLog(game, popped, s.queue[0], parent, rounds);
      var next := Harvest(t, env);
      ApplyStepKeeps(STEPWISE, game, popped, s.queue[0], parent, rounds);
      StepsPoint(game, next, parent, depth + 1, rounds);
      var end := DrainQueue(game, next, parent, depth + 1, rounds).value;
      forall k | |s.log| <= k < |end.log| && end.log[k].kind == "drain-step" ensures end.log[k].parent == parent {
        if k >= |t.log| { assert end.log[|t.log|..][k - |t.log|] == end.log[k]; }
      }
    }
  }

  /**
   The queue after an accepted move: the queued moves the log shows to have run, followed by those still waiting, begin with
   all that was queued before and then all that the move pushed, in order. Each points at the move, and at most 200 ran.
   */
  lemma PushesComeNext(game: Game, s: State, req: Request, rounds: nat)
    requires GameOk(STEPWISE, game) && StateInv(STEPWISE, s) && Apply(game, s, req, rounds).Done?
    ensures
      var t := Apply(game, s, req, rounds).value;
      && Requested(game, s, req).Found? && Stopped(t)
      && exists i: HookIn, at: nat ::
           && Shown(s, req, i) && |s.log| < at <= |t.log| && |StepsLogged(t.log[at..])| <= 200
           && PointTo(t.log[at..], |s.log|)
           && s.queue + Requested(game, s, req).move.run(i, req.args).out.pushes <= StepsLogged(t.log[at..]) + t.queue
  {
    hide Admit, PlayMove, CountMove, Settle, DrainQueue, Requested, Shown, GameOk, StateInv, CascadeFifo.Ran, CascadeFifo.Pushed,
         StepsLogged, PointTo;
    var a := Admit(game, s, req);
    AdmittedWith(game, s, req);
    var p := PlayMove(game, a, req).value;
    var i := PlayRuns(game, s, req);
    PlayPushes(game, s, req, i);
    MoveSettles(STEPWISE, game, s, req, rounds);
    var m := Settle(game, CountMove(game, a, p, req), a.move, rounds).value;
    var start := Harvest(m.st, m.env);
    QueueIsFree(STEPWISE, m.st, start.queue);
    BlocksAreFree(STEPWISE, m.st.(queue := start.queue), start.blocks);
    CascadeConserves(game, m.st, m.env, |s.log|, rounds);
    LogShowsRan(game, start, |s.log|, 0, rounds);
    StepsPoint(game, start, |s.log|, 0, rounds);
    var t := Apply(game, s, req, rounds).value;
    assert m.st.queue == s.queue;
    var ran := CascadeFifo.Ran(game, start, |s.log|, 0, rounds);
    assert ran == StepsLogged(t.log[|m.st.log|..]);
    assert ran + t.queue == s.queue + m.env.pending + CascadeFifo.Pushed(game, start, |s.log|, 0, rounds);
  }

  lemma BlocksAreFree(k: Law, s: State, blocks: seq<Block>)
    requires StateInv(k, s)
    ensures StateInv(k, s.(blocks := blocks))
  {
  }

  lemma PlayPushes(game: Game, s: State, req: Request, i: HookIn)
    requires Admit(game, s, req).Admitted? && PlayMove(game, Admit(game, s, req), req).Done?
    requires i == HookIn(s.g, s.ctx.(nowMs := req.nowMs), req.pid, Admit(game, s, req).resuming, [], i.api)
    requires i.api == PluginApi(game, Admit(game, s, req).st, req.pid)
    ensures
      var a := Admit(game, s, req);
      PlayMove(game, a, req).value.env.pending == a.move.run(i, req.args).out.pushes
  {
    hide Admit;
    AdmittedWith(game, s, req);
  }
}
