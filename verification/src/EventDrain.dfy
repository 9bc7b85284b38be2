/**
 Event drains end. For every game whose lifecycle hooks queue no events, a drain takes at most 33 batches however many
 Events.RunMove its moves chain, so every engine call finishes. For every game at all, one move's own drains run at most
 32 chained moves, and the answer of a call that finishes does not depend on the round budget the functions are given.
 */
module EventDrain {
  import opened Engine
  import opened Transitions
  import opened Reducer
  import opened Reachable

  /** Chained moves this drain may still run. */
  function Budget(d: Drain): nat {
    if d.chained >= MAX_CHAINED_MOVES then 0 else MAX_CHAINED_MOVES - d.chained
  }

  // ---- at most 32 chained moves -----------------------------------------------------------------------------

  /** StateID counts the chained moves that ran, and each one took from the budget. */
  ghost predicate Pays(d: Drain, r: Drain) {
    Budget(r) <= Budget(d) && d.m.st.stateID <= r.m.st.stateID <= d.m.st.stateID + (Budget(d) - Budget(r))
  }

  lemma HandlePays(game: Game, d: Drain, ev: Event)
    ensures Pays(d, Handle(game, d, ev))
  {
  }

  lemma {:induction false} HandleAllPays(game: Game, d: Drain, batch: seq<Event>)
    ensures Pays(d, HandleAll(game, d, batch))
    decreases |batch|
  {
    hide Handle;
    if batch != [] {
      HandlePays(game, d, batch[0]);
      HandleAllPays(game, Handle(game, d, batch[0]), batch[1..]);
    }
  }

  lemma {:induction false} DrainEventsPays(game: Game, d: Drain, rounds: nat)
    requires DrainEvents(game, d, rounds).Some?
    ensures Pays(d, DrainEvents(game, d, rounds).value)
    decreases rounds
  {
    hide HandleAll;
    var batch := d.m.env.events;
    if batch != [] && !d.m.panicked {
      var taken := d.(m := d.m.(env := d.m.env.(events := [])));
      HandleAllPays(game, taken, batch);
      DrainEventsPays(game, HandleAll(game, taken, batch), rounds - 1);
    }
  }

  /** An event that attempts a chained move: a RunMove within the budget, whether the move then succeeds or not. */
  function Attempt(d: Drain, ev: Event): nat {
    if ev.RunMove? && Budget(d) > 0 then 1 else 0
  }

  /** The chained moves attempted in one batch. */
  function AttemptsIn(game: Game, d: Drain, batch: seq<Event>): nat
    decreases |batch|
  {
    if batch == [] then 0 else Attempt(d, batch[0]) + AttemptsIn(game, Handle(game, d, batch[0]), batch[1..])
  }

  /** The chained moves attempted in a drain. */
  function Attempts(game: Game, d: Drain, rounds: nat): nat
    decreases rounds
  {
    var batch := d.m.env.events;
    if batch == [] || d.m.panicked || rounds == 0 then 0
    else
      var taken := d.(m := d.m.(env := d.m.env.(events := [])));
      AttemptsIn(game, taken, batch) + Attempts(game, HandleAll(game, taken, batch), rounds - 1)
  }

  lemma AttemptCosts(game: Game, d: Drain, ev: Event)
    ensures Budget(Handle(game, d, ev)) == Budget(d) - Attempt(d, ev)
    ensures ev.RunMove? && Attempt(d, ev) == 0 ==> Handle(game, d, ev).m == d.m
  {
  }

  lemma {:induction false} BatchCosts(game: Game, d: Drain, batch: seq<Event>)
    ensures Budget(HandleAll(game, d, batch)) == Budget(d) - AttemptsIn(game, d, batch)
    decreases |batch|
  {
    hide Handle, Attempt;
    if batch != [] {
      AttemptCosts(game, d, batch[0]);
      BatchCosts(game, Handle(game, d, batch[0]), batch[1..]);
    }
  }

  lemma {:induction false} DrainCosts(game: Game, d: Drain, rounds: nat)
    requires DrainEvents(game, d, rounds).Some?
    ensures Budget(DrainEvents(game, d, rounds).value) == Budget(d) - Attempts(game, d, rounds)
    decreases rounds
  {
    hide HandleAll, AttemptsIn;
    var batch := d.m.env.events;
    if batch != [] && !d.m.panicked {
      var taken := d.(m := d.m.(env := d.m.env.(events := [])));
      BatchCosts(game, taken, batch);
      DrainCosts(game, HandleAll(game, taken, batch), rounds - 1);
    }
  }

  /**
   Both drains of one external move together attempt at most 32 chained moves, whatever the game, and StateID counts those
   that succeed: a RunMove past that is dropped.
   */
  lemma AtMost32Chained(game: Game, a: Admission, req: Request, rounds: nat)
    requires a.Admitted? && PlayMove(game, a, req).Done?
    ensures
      var r := CountMove(game, a, PlayMove(game, a, req).value, req);
      var settled := Settle(game, r, a.move, rounds);
      settled.Done? ==>
        var first := DrainEvents(game, r.d, rounds).value;
        var checked := first.(m := CheckEnds(game, first.m, r.d.pid, a.move));
        && Attempts(game, r.d, rounds) + Attempts(game, checked, rounds) <= 32
        && a.st.stateID + 1 <= settled.value.st.stateID <= a.st.stateID + 1 + 32
  {
    hide DrainEvents, PlayMove, CountMove, CheckEnds, Attempts;
    var r := CountMove(game, a, PlayMove(game, a, req).value, req);
    var first := DrainEvents(game, r.d, rounds);
    if first.Some? {
      DrainEventsPays(game, r.d, rounds);
      DrainCosts(game, r.d, rounds);
      var checked := first.value.(m := CheckEnds(game, first.value.m, r.d.pid, a.move));
      if DrainEvents(game, checked, rounds).Some? {
        DrainEventsPays(game, checked, rounds);
        DrainCosts(game, checked, rounds);
      }
    }
  }

  // ---- termination ------------------------------------------------------------------------------------------

  /** New events come only from a chained move, and that uses up budget. */
  ghost predicate Winds(d: Drain, r: Drain) {
    Budget(r) <= Budget(d) && (r.m.env.events == d.m.env.events || Budget(r) < Budget(d))
  }

  lemma HandleWinds(game: Game, d: Drain, ev: Event)
    requires QuietHooks(game)
    ensures Winds(d, Handle(game, d, ev))
  {
  }

  lemma {:induction false} HandleAllWinds(game: Game, d: Drain, batch: seq<Event>)
    requires QuietHooks(game)
    ensures Winds(d, HandleAll(game, d, batch))
    decreases |batch|
  {
    hide Handle, QuietHooks;
    if batch != [] {
      HandleWinds(game, d, batch[0]);
      HandleAllWinds(game, Handle(game, d, batch[0]), batch[1..]);
    }
  }

  /** The drain ends within one batch more than the chained moves it may still run. */
  lemma {:induction false} DrainEnds(game: Game, d: Drain, rounds: nat)
    requires QuietHooks(game) && rounds >= Budget(d) + 1
    ensures DrainEvents(game, d, rounds).Some?
    decreases rounds
  {
    hide HandleAll, QuietHooks;
    var batch := d.m.env.events;
    if batch != [] && !d.m.panicked {
      var taken := d.(m := d.m.(env := d.m.env.(events := [])));
      HandleAllWinds(game, taken, batch);
      var handled := HandleAll(game, taken, batch);
      if handled.m.env.events != [] { DrainEnds(game, handled, rounds - 1); }
    }
  }

  const ENOUGH: nat := 33

  lemma SettleEnds(game: Game, r: Running, move: Move)
    requires QuietHooks(game) && r.d.chained >= 0
    ensures !Settle(game, r, move, ENOUGH).Unfinished?
  {
    hide DrainEvents, CheckEnds, QuietHooks;
    DrainEnds(game, r.d, ENOUGH);
    DrainEventsPays(game, r.d, ENOUGH);
    var first := DrainEvents(game, r.d, ENOUGH).value;
    var checked := first.(m := CheckEnds(game, first.m, r.d.pid, move));
    DrainEnds(game, checked, ENOUGH);
  }

  lemma StepEnds(game: Game, s: State, action: Action, parent: int)
    requires QuietHooks(game)
    ensures !ApplyStep(game, s, action, parent, ENOUGH).Unfinished?
  {
    hide DrainEvents, QuietHooks;
    forall m { DrainEnds(game, Drain(m, action.pid, 0), ENOUGH); }
  }

  lemma {:induction false} CascadeEnds(game: Game, s: State, parent: int, depth: nat)
    requires QuietHooks(game) && depth <= MAX_DRAIN_DEPTH
    ensures !DrainQueue(game, s, parent, depth, ENOUGH).Unfinished?
    decreases MAX_DRAIN_DEPTH - depth
  {
    hide ApplyStep, QuietHooks;
    if !Resting(s) && depth + 1 <= MAX_DRAIN_DEPTH {
      var popped := s.(queue := s.queue[1..]);
      StepEnds(game, popped, s.queue[0], parent);
      var step := ApplyStep(game, popped, s.queue[0], parent, ENOUGH);
      if step.Done? { CascadeEnds(game, step.value, parent, depth + 1); }
    }
  }

  /** Every external move, forced turn end and match setup finishes when no lifecycle hook queues events. */
  lemma QuietGamesFinish(game: Game, s: State, req: Request, requested: int, setupData: Value, seed: int)
    requires QuietHooks(game)
    ensures !Apply(game, s, req, ENOUGH).Unfinished?
    ensures !ForceEndTurn(game, s, ENOUGH).Unfinished?
    ensures !NewMatch(game, requested, setupData, seed, ENOUGH).Unfinished?
  {
    MoveFinishes(game, s, req);
    TimeOutFinishes(game, s);
    SetUpFinishes(game, requested, setupData, seed);
  }

  lemma MoveFinishes(game: Game, s: State, req: Request)
    requires QuietHooks(game)
    ensures !Apply(game, s, req, ENOUGH).Unfinished?
  {
    hide PlayMove, CountMove, Settle, DrainQueue, Admit, QuietHooks;
    var a := Admit(game, s, req);
    if a.Admitted? && PlayMove(game, a, req).Done? {
      var r := CountMove(game, a, PlayMove(game, a, req).value, req);
      SettleEnds(game, r, a.move);
      var settled := Settle(game, r, a.move, ENOUGH);
      if settled.Done? { CascadeEnds(game, Harvest(settled.value.st, settled.value.env), |s.log|, 0); }
    }
  }

  lemma TimeOutFinishes(game: Game, s: State)
    requires QuietHooks(game)
    ensures !ForceEndTurn(game, s, ENOUGH).Unfinished?
  {
    hide DrainEvents, FinishTurn, DrainQueue, QuietHooks;
    var ended := FinishTurn(game, Machine(s, Env([], [], [], [], PluginApi(game, s, "")), false), "");
    DrainEnds(game, Drain(ended, "", 0), ENOUGH);
    var turned := ForcedTurn(game, s, ENOUGH);
    if turned.Done? { CascadeEnds(game, Harvest(turned.value.st, turned.value.env), -1, 0); }
  }

  lemma SetUpFinishes(game: Game, requested: int, setupData: Value, seed: int)
    requires QuietHooks(game)
    ensures !NewMatch(game, requested, setupData, seed, ENOUGH).Unfinished?
  {
    hide DrainEvents, EnterPhase, DrainQueue, FirstState, QuietHooks;
    var s := FirstState(game, requested, setupData, seed);
    var begun := EnterPhase(game, Machine(s, Env([], [], [], [], PluginApi(game, s, "")), false));
    DrainEnds(game, Drain(begun, "", 0), ENOUGH);
    var m := SetUp(game, requested, setupData, seed, ENOUGH);
    if m.Done? { CascadeEnds(game, Harvest(m.value.st, m.value.env), -1, 0); }
  }

  // ---- the budget does not matter ---------------------------------------------------------------------------

  lemma {:induction false} MoreRoundsDrainAlike(game: Game, d: Drain, n: nat, more: nat)
    requires n <= more && DrainEvents(game, d, n).Some?
    ensures DrainEvents(game, d, more) == DrainEvents(game, d, n)
    decreases n
  {
    hide HandleAll;
    var batch := d.m.env.events;
    if batch != [] && !d.m.panicked {
      MoreRoundsDrainAlike(game, HandleAll(game, d.(m := d.m.(env := d.m.env.(events := []))), batch), n - 1, more - 1);
    }
  }

  lemma MoreRoundsStepAlike(game: Game, s: State, action: Action, parent: int, n: nat, more: nat)
    requires n <= more && !ApplyStep(game, s, action, parent, n).Unfinished?
    ensures ApplyStep(game, s, action, parent, more) == ApplyStep(game, s, action, parent, n)
  {
    hide DrainEvents;
    forall d: Drain | DrainEvents(game, d, n).Some? { MoreRoundsDrainAlike(game, d, n, more); }
  }

  lemma {:induction false} MoreRoundsCascadeAlike(game: Game, s: State, parent: int, depth: nat, n: nat, more: nat)
    requires n <= more && depth <= MAX_DRAIN_DEPTH && !DrainQueue(game, s, parent, depth, n).Unfinished?
    ensures DrainQueue(game, s, parent, depth, more) == DrainQueue(game, s, parent, depth, n)
    decreases MAX_DRAIN_DEPTH - depth
  {
    hide ApplyStep;
    if !Resting(s) && depth + 1 <= MAX_DRAIN_DEPTH {
      var popped := s.(queue := s.queue[1..]);
      MoreRoundsStepAlike(game, popped, s.queue[0], parent, n, more);
      var step := ApplyStep(game, popped, s.queue[0], parent, n);
      if step.Done? { MoreRoundsCascadeAlike(game, step.value, parent, depth + 1, n, more); }
    }
  }

  lemma MoreRoundsSettleAlike(game: Game, r: Running, move: Move, n: nat, more: nat)
    requires n <= more && !Settle(game, r, move, n).Unfinished?
    ensures Settle(game, r, move, more) == Settle(game, r, move, n)
  {
    hide DrainEvents, CheckEnds;
    MoreRoundsDrainAlike(game, r.d, n, more);
    var first := DrainEvents(game, r.d, n).value;
    MoreRoundsDrainAlike(game, first.(m := CheckEnds(game, first.m, r.d.pid, move)), n, more);
  }

  /** An accepted or refused move gets the same answer under any larger budget. */
  lemma MoreRoundsApplyAlike(game: Game, s: State, req: Request, n: nat, more: nat)
    requires n <= more && !Apply(game, s, req, n).Unfinished?
    ensures Apply(game, s, req, more) == Apply(game, s, req, n)
  {
    hide PlayMove, CountMove, Settle, DrainQueue, Admit;
    var a := Admit(game, s, req);
    if a.Admitted? && PlayMove(game, a, req).Done? {
      var r := CountMove(game, a, PlayMove(game, a, req).value, req);
      MoreRoundsSettleAlike(game, r, a.move, n, more);
      var settled := Settle(game, r, a.move, n);
      if settled.Done? { MoreRoundsCascadeAlike(game, Harvest(settled.value.st, settled.value.env), |s.log|, 0, n, more); }
    }
  }

  lemma MoreRoundsForceEndTurnAlike(game: Game, s: State, n: nat, more: nat)
    requires n <= more && !ForceEndTurn(game, s, n).Unfinished?
    ensures ForceEndTurn(game, s, more) == ForceEndTurn(game, s, n)
  {
    hide FinishTurn, DrainEvents, DrainQueue, PluginApi, Flush, WithoutBlocksFor;
    if s.ctx.gameover.None? {
      var ended := FinishTurn(game, Machine(s, Env([], [], [], [], PluginApi(game, s, "")), false), "");
      MoreRoundsDrainAlike(game, Drain(ended, "", 0), n, more);
      var turned := ForcedTurn(game, s, n);
      if turned.Done? { MoreRoundsCascadeAlike(game, Harvest(turned.value.st, turned.value.env), -1, 0, n, more); }
    }
  }

  lemma MoreRoundsNewMatchAlike(game: Game, requested: int, setupData: Value, seed: int, n: nat, more: nat)
    requires n <= more && !NewMatch(game, requested, setupData, seed, n).Unfinished?
    ensures NewMatch(game, requested, setupData, seed, more) == NewMatch(game, requested, setupData, seed, n)
  {
    hide EnterPhase, DrainEvents, DrainQueue, PluginApi, Flush, FirstState;
    var s := FirstState(game, requested, setupData, seed);
    var begun := EnterPhase(game, Machine(s, Env([], [], [], [], PluginApi(game, s, "")), false));
    MoreRoundsDrainAlike(game, Drain(begun, "", 0), n, more);
    var m := SetUp(game, requested, setupData, seed, n);
    if m.Done? { MoreRoundsCascadeAlike(game, Harvest(m.value.st, m.value.env), -1, 0, n, more); }
  }

  /** So a whole match that finishes is the same under any larger budget. */
  lemma MoreRoundsMatchAlike(
    game: Game, requested: int, setupData: Value, seed: int, calls: seq<Call>, n: nat, more: nat)
    requires n <= more && !Match(game, requested, setupData, seed, calls, n).Unfinished?
    ensures Match(game, requested, setupData, seed, calls, more) == Match(game, requested, setupData, seed, calls, n)
  {
    hide NewMatch, After;
    MoreRoundsNewMatchAlike(game, requested, setupData, seed, n, more);
    var s := NewMatch(game, requested, setupData, seed, n);
    if s.Done? { MoreRoundsAfterAlike(game, s.value, calls, n, more); }
  }

  lemma MoreRoundsDoAlike(game: Game, s: State, call: Call, n: nat, more: nat)
    requires n <= more && !Do(game, s, call, n).Unfinished?
    ensures Do(game, s, call, more) == Do(game, s, call, n)
  {
    hide Apply, ForceEndTurn;
    match call
    case External(req) => MoreRoundsApplyAlike(game, s, req, n, more);
    case TimeOut => MoreRoundsForceEndTurnAlike(game, s, n, more);
    case UndoLast =>
    case RedoLast(_) =>
      if !game.disableUndo && s.ctx.gameover.None? && s.undone != [] {
        var e := s.undone[|s.undone| - 1];
        MoreRoundsApplyAlike(game, s.(undone := s.undone[..|s.undone| - 1]),
                             Request(e.pid, e.move, e.args, 0, "", 0, e.serverDispatch, false), n, more);
      }
  }

  lemma {:induction false} MoreRoundsAfterAlike(game: Game, s: State, calls: seq<Call>, n: nat, more: nat)
    requires n <= more && !After(game, s, calls, n).Unfinished?
    ensures After(game, s, calls, more) == After(game, s, calls, n)
    decreases |calls|
  {
    hide Do;
    if calls != [] {
      MoreRoundsDoAlike(game, s, calls[0], n, more);
      var r := Do(game, s, calls[0], n);
      if r.Done? { MoreRoundsAfterAlike(game, r.value, calls[1..], n, more); }
      else if r.Refused? { MoreRoundsAfterAlike(game, LeftBy(game, s, calls[0]), calls[1..], n, more); }
    }
  }
}
