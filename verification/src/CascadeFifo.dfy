/**
 The cascade loses and reorders nothing. Whatever a drain ran, followed by what it left queued, is what was queued at
 the start followed by everything pushed meanwhile, in push order. What it ran is what its "drain-step" log entries
 say, each pointing at the move that started the cascade.
 */
module CascadeFifo {
  import opened Engine
  import opened Transitions
  import opened Reducer
  import opened Laws
  import opened Reachable

  /** The actions a drain ran, in order. */
  function Ran(game: Game, s: State, parent: int, depth: nat, rounds: nat): seq<Action>
    requires depth <= MAX_DRAIN_DEPTH
    decreases MAX_DRAIN_DEPTH - depth
  {
    if Resting(s) || depth + 1 > MAX_DRAIN_DEPTH then []
    else
      var step := ApplyStep(game, s.(queue := s.queue[1..]), s.queue[0], parent, rounds);
      if step.Done? then [s.queue[0]] + Ran(game, step.value, parent, depth + 1, rounds) else []
  }

  /** What the steps of a drain, and the hooks they fired, pushed: each step's Queue as the engine harvests it. */
  function Pushed(game: Game, s: State, parent: int, depth: nat, rounds: nat): seq<Action>
    requires depth <= MAX_DRAIN_DEPTH
    decreases MAX_DRAIN_DEPTH - depth
  {
    if Resting(s) || depth + 1 > MAX_DRAIN_DEPTH then []
    else
      var step := RunStep(game, s.(queue := s.queue[1..]), s.queue[0], parent, rounds);
      if step.Done? then step.value.1.pending + Pushed(game, Harvest(step.value.0, step.value.1), parent, depth + 1, rounds)
      else []
  }

  /** The drain-step entries of a stretch of log, as the actions they record. */
  function StepsLogged(log: seq<LogEntry>): seq<Action> {
    if log == [] then []
    else (if log[0].kind == "drain-step" then [Action(log[0].pid, log[0].move, log[0].args)] else []) + StepsLogged(log[1..])
  }

  lemma StepsLoggedHead(log: seq<LogEntry>)
    requires log != []
    ensures StepsLogged(log) == StepsLogged([log[0]]) + StepsLogged(log[1..])
  {
    assert [log[0]][1..] == [];
  }

  lemma NoneLogged()
    ensures StepsLogged([]) == []
  {
  }

  lemma {:induction false} StepsLoggedConcat(a: seq<LogEntry>, b: seq<LogEntry>)
    ensures StepsLogged(a + b) == StepsLogged(a) + StepsLogged(b)
    decreases |a|
  {
    hide StepsLogged;
    NoneLogged();
    if a == [] {
      assert a + b == b;
    } else {
      assert (a + b)[0] == a[0] && (a + b)[1..] == a[1..] + b;
      StepsLoggedConcat(a[1..], b);
      var first := StepsLogged([a[0]]);
      StepsLoggedHead(a);
      StepsLoggedHead(a + b);
      assert first + (StepsLogged(a[1..]) + StepsLogged(b)) == first + StepsLogged(a[1..]) + StepsLogged(b);
    }
  }

  lemma {:induction false} NoStepsLogged(log: seq<LogEntry>)
    requires forall i | 0 <= i < |log| :: log[i].kind != "drain-step"
    ensures StepsLogged(log) == []
    decreases |log|
  {
    if log != [] { NoStepsLogged(log[1..]); }
  }

  /** One step pops the head, appends its own pushes at the tail, and writes exactly its own drain-step entry. */
  lemma StepQueue(game: Game, s: State, parent: int, rounds: nat)
    requires s.queue != []
    requires RunStep(game, s.(queue := s.queue[1..]), s.queue[0], parent, rounds).Done?
    ensures
      var (t, env) := RunStep(game, s.(queue := s.queue[1..]), s.queue[0], parent, rounds).value;
      [s.queue[0]] + Harvest(t, env).queue == s.queue + env.pending
  {
    hide RunStep;
    var (t, env) := RunStep(game, s.(queue := s.queue[1..]), s.queue[0], parent, rounds).value;
    assert [s.queue[0]] + (s.queue[1..] + env.pending) == s.queue + env.pending;
  }

  /**
   Conservation, for every game and every starting queue: executed actions followed by the remaining queue equal the
   starting queue followed by all later pushes in push order; at most the depth limit ran; and a drain stops only with
   an empty queue, a pending block or the game over.
   */
  lemma {:induction false} DrainConserves(game: Game, s: State, parent: int, depth: nat, rounds: nat)
    requires depth <= MAX_DRAIN_DEPTH && DrainQueue(game, s, parent, depth, rounds).Done?
    ensures
      var t := DrainQueue(game, s, parent, depth, rounds).value;
      && Ran(game, s, parent, depth, rounds) + t.queue == s.queue + Pushed(game, s, parent, depth, rounds)
      && |Ran(game, s, parent, depth, rounds)| <= MAX_DRAIN_DEPTH - depth
      && Resting(t)
    decreases MAX_DRAIN_DEPTH - depth
  {
    hide RunStep;
    if !Resting(s) {
      var (t, env) := RunStep(game, s.(queue := s.queue[1..]), s.queue[0], parent, rounds).value;
      var next := Harvest(t, env);
      StepQueue(game, s, parent, rounds);
      DrainConserves(game, next, parent, depth + 1, rounds);
      var end := DrainQueue(game, next, parent, depth + 1, rounds).value;
      var ran, pushed := Ran(game, next, parent, depth + 1, rounds), Pushed(game, next, parent, depth + 1, rounds);
      assert s.queue == [s.queue[0]] + s.queue[1..];
      Joined([s.queue[0]], s.queue[1..], env.pending, pushed, ran, end.queue);
    }
  }

  /** One step taken off the front of the queue, the rest conserved. */
  lemma Joined(head: seq<Action>, tail: seq<Action>, own: seq<Action>, later: seq<Action>, ran: seq<Action>, left: seq<Action>)
    requires ran + left == tail + own + later
    ensures head + ran + left == head + tail + (own + later)
  {
    calc {
      head + ran + left;
      head + (ran + left);
      head + (tail + own + later);
      head + tail + (own + later);
    }
  }

  /** After the last allowed step the drain either rests or refuses with the overflow error. */
  lemma {:induction false} FullDepthRestsOrOverflows(game: Game, s: State, parent: int, depth: nat, rounds: nat)
    requires depth <= MAX_DRAIN_DEPTH && |Ran(game, s, parent, depth, rounds)| == MAX_DRAIN_DEPTH - depth
    ensures
      var r := DrainQueue(game, s, parent, depth, rounds);
      r == Refused(DrainOverflow) || r.Done?
    decreases MAX_DRAIN_DEPTH - depth
  {
    hide ApplyStep;
    if depth < MAX_DRAIN_DEPTH {
      var step := ApplyStep(game, s.(queue := s.queue[1..]), s.queue[0], parent, rounds);
      FullDepthRestsOrOverflows(game, step.value, parent, depth + 1, rounds);
    }
  }

  const STEPWISE := Law(false, false, {"drain-step"}, false, false, false)

  /** The log of one step: its own entry, then nothing of that kind. */
  lemma StepLog(game: Game, s: State, action: Action, parent: int, rounds: nat)
    requires GameOk(STEPWISE, game) && StateInv(STEPWISE, s) && RunStep(game, s, action, parent, rounds).Done?
    ensures
      var t := RunStep(game, s, action, parent, rounds).value.0;
      && s.log < t.log && t.log[|s.log|] == StepEntry(s, action, StageOf(s.ctx, action.pid), parent)
      && Unwritten({"drain-step"}, t.log[..|s.log| + 1], t.log)
  {
    hide DrainEvents, Resolve, PluginApi;
    var k := STEPWISE;
    var stage := StageOf(s.ctx, action.pid);
    var found := Resolve(game, s.ctx, stage, action.move);
    ResolveOk(k, game, s.ctx, stage, action.move);
    var api := PluginApi(game, s, action.pid);
    var o := found.move.run(HookIn(s.g, s.ctx, action.pid, None, [], api), action.args);
    assert OutOk(k, o.out);
    var entry := StepEntry(s, action, stage, parent);
    StepMachineOk(k, game, s, action, entry, o.out, api);
    var env := Absorb(Env([], [], [], [], api), o.out);
    var m := Machine(Flush(game, s.(g := o.out.g, log := s.log + [entry]), env.api), env, false);
    DrainEventsKeeps(k, game, Drain(m, action.pid, 0), rounds);
    NotedOk(k, o.out, s.ctx);
  }

  lemma OneStepLogged(s: State, t: State, action: Action, stage: string, parent: int)
    requires s.log < t.log && t.log[|s.log|] == StepEntry(s, action, stage, parent)
    requires Unwritten({"drain-step"}, t.log[..|s.log| + 1], t.log)
    ensures StepsLogged(t.log[|s.log|..]) == [action]
  {
    var added := t.log[|s.log|..];
    assert added == [added[0]] + added[1..];
    NoStepsLogged(added[1..]);
    assert StepsLogged(added) == [Action(added[0].pid, added[0].move, added[0].args)] + StepsLogged(added[1..]);
  }

  /** The log tells the truth: the drain-step entries a drain added are exactly the actions it ran, in order. */
  lemma {:induction false} LogShowsRan(game: Game, s: State, parent: int, depth: nat, rounds: nat)
    requires GameOk(STEPWISE, game) && StateInv(STEPWISE, s)
    requires depth <= MAX_DRAIN_DEPTH && DrainQueue(game, s, parent, depth, rounds).Done?
    ensures
      var t := DrainQueue(game, s, parent, depth, rounds).value;
      s.log <= t.log && StepsLogged(t.log[|s.log|..]) == Ran(game, s, parent, depth, rounds)
    decreases MAX_DRAIN_DEPTH - depth
  {
    hide RunStep, GameOk, StateInv;
    if !Resting(s) {
      var popped := s.(queue := s.queue[1..]);
      QueueIsFree(STEPWISE, s, popped.queue);
      var (t, env) := RunStep(game, popped, s.queue[0], parent, rounds).value;
      StepLog(game, popped, s.queue[0], parent, rounds);
      OneStepLogged(popped, t, s.queue[0], StageOf(s.ctx, s.queue[0].pid), parent);
      var next := Harvest(t, env);
      ApplyStepKeeps(STEPWISE, game, popped, s.queue[0], parent, rounds);
      LogShowsRan(game, next, parent, depth + 1, rounds);
      var end := DrainQueue(game, next, parent, depth + 1, rounds).value;
      assert end.log[|s.log|..] == t.log[|s.log|..] + end.log[|t.log|..];
      StepsLoggedConcat(t.log[|s.log|..], end.log[|t.log|..]);
    } else {
      assert s.log[|s.log|..] == [];
    }
  }

  /** A whole cascade: the queue at entry, the move's own pushes and the steps' pushes come out once each, in order. */
  lemma CascadeConserves(game: Game, s: State, env: Env, parent: int, rounds: nat)
    requires Cascade(game, s, env, parent, rounds).Done?
    ensures
      var start := Harvest(s, env);
      var t := Cascade(game, s, env, parent, rounds).value;
      && Ran(game, start, parent, 0, rounds) + t.queue == s.queue + env.pending + Pushed(game, start, parent, 0, rounds)
      && |Ran(game, start, parent, 0, rounds)| <= 200 && Resting(t)
  {
    DrainConserves(game, Harvest(s, env), parent, 0, rounds);
  }
}
