/**
 Replay rebuilds the match. The log of a run of accepted moves holds one "move" entry per request and nothing else of
 that kind, the fields replay drops (StateID, FromClient) never change an accepted result, and so re-applying the
 first n entries to a fresh match gives the state the match had after n moves.
 */
module ReplayFidelity {
  import opened Engine
  import opened Transitions
  import opened Reducer
  import opened Laws
  import opened Reachable

  const HONEST := Law(false, false, {"move"}, false, false, false)

  /** The run of a list of requests, each of which must be accepted. */
  function Applied(game: Game, s: State, reqs: seq<Request>, rounds: nat): Outcome<State>
    decreases |reqs|
  {
    if reqs == [] then Done(s)
    else
      var r := Apply(game, s, reqs[0], rounds);
      if r.Done? then Applied(game, r.value, reqs[1..], rounds) else r
  }

  // ---- dropping StateID and FromClient ----------------------------------------------------------------------

  lemma TrimmedIsAdmitted(game: Game, s: State, req: Request)
    requires Admit(game, s, req).Admitted?
    ensures Admit(game, s, Trimmed(req)) == Admit(game, s, req)
  {
    hide FindBlock, Resolve, AuthorizedStage, RemoveAt;
  }

  lemma TrimmedPlaysAlike(game: Game, a: Admission, req: Request)
    requires a.Admitted?
    ensures PlayMove(game, a, Trimmed(req)) == PlayMove(game, a, req)
    ensures forall p :: CountMove(game, a, p, Trimmed(req)) == CountMove(game, a, p, req)
  {
  }

  /** Replay's request is accepted whenever the recorded one was, with the same result. */
  lemma TrimmedAppliesAlike(game: Game, s: State, req: Request, rounds: nat)
    requires Apply(game, s, req, rounds).Done?
    ensures Apply(game, s, Trimmed(req), rounds) == Apply(game, s, req, rounds)
  {
    hide Admit, PlayMove, CountMove, Settle, Cascade;
    TrimmedIsAdmitted(game, s, req);
    TrimmedPlaysAlike(game, Admit(game, s, req), req);
  }

  // ---- the log of a run -------------------------------------------------------------------------------------

  lemma {:induction false} AppliedGrowsLog(game: Game, s: State, reqs: seq<Request>, rounds: nat)
    requires GameOk(HONEST, game) && StateInv(HONEST, s) && Applied(game, s, reqs, rounds).Done?
    ensures s.log <= Applied(game, s, reqs, rounds).value.log
    decreases |reqs|
  {
    hide Apply, GameOk, StateInv;
    if reqs != [] {
      ApplyKeeps(HONEST, game, s, reqs[0], rounds);
      AppliedGrowsLog(game, Apply(game, s, reqs[0], rounds).value, reqs[1..], rounds);
    }
  }

  /** Entries that are not moves are stepped over. */
  lemma {:induction false} SkipsOthers(game: Game, s: State, log: seq<LogEntry>, j: nat, left: int, rounds: nat)
    requires j <= |log| && forall i | 0 <= i < j :: log[i].kind != "move"
    ensures ReplayFrom(game, s, log, left, rounds) == ReplayFrom(game, s, log[j..], left, rounds)
    decreases j
  {
    if j > 0 && left != 0 {
      SkipsOthers(game, s, log[1..], j - 1, left, rounds);
      assert log[1..][j - 1..] == log[j..];
    } else if j == 0 {
      assert log[0..] == log;
    }
  }

  /** One more request: its entry is applied and whatever else it logged is skipped. */
  lemma ReplaysOne(game: Game, s: State, t: State, req: Request, log: seq<LogEntry>, left: int, rounds: nat)
    requires Apply(game, s, req, rounds) == Done(t) && Accepts(HONEST, s, req, Done(t)) && t.log <= log && left != 0
    ensures
      ReplayFrom(game, s, log[|s.log|..], left, rounds) == ReplayFrom(game, t, log[|t.log|..], left - 1, rounds)
  {
    hide Apply, StateInv;
    var rest := log[|s.log|..];
    assert rest[0] == t.log[|s.log|];
    TrimmedAppliesAlike(game, s, req, rounds);
    var junk := |t.log| - |s.log| - 1;
    forall i | 0 <= i < junk ensures rest[1..][i].kind != "move" {
      assert rest[1..][i] == t.log[|s.log| + 1 + i];
    }
    SkipsOthers(game, t, rest[1..], junk, left - 1, rounds);
    assert rest[1..][junk..] == log[|t.log|..];
  }

  /** From any state of the run, replaying the rest of the log replays the rest of the run, as far as asked. */
  lemma {:induction false} ReplaysRest(game: Game, s: State, reqs: seq<Request>, log: seq<LogEntry>, left: int, rounds: nat)
    requires GameOk(HONEST, game) && StateInv(HONEST, s)
    requires Applied(game, s, reqs, rounds).Done? && log == Applied(game, s, reqs, rounds).value.log
    requires left <= |reqs|
    ensures s.log <= log
    ensures ReplayFrom(game, s, log[|s.log|..], left, rounds) ==
            Applied(game, s, if left < 0 then reqs else reqs[..left], rounds)
    decreases |reqs|
  {
    hide Apply, GameOk, StateInv;
    AppliedGrowsLog(game, s, reqs, rounds);
    if reqs == [] {
      assert log[|s.log|..] == [];
    } else if left != 0 {
      var t := Apply(game, s, reqs[0], rounds).value;
      ApplyKeeps(HONEST, game, s, reqs[0], rounds);
      ReplaysRest(game, t, reqs[1..], log, left - 1, rounds);
      ReplaysOne(game, s, t, reqs[0], log, left, rounds);
      assert left > 0 ==> reqs[..left][1..] == reqs[1..][..left - 1];
    }
  }

  /**
   Replay fidelity, for every deterministic game whose custom log entries are not called "move", and every run of
   accepted moves from a fresh match: the whole log rebuilds the final state, and its first n moves the state after n.
   */
  lemma ReplayRebuilds(
    game: Game, requested: int, setupData: Value, seed: int, reqs: seq<Request>, n: nat, rounds: nat)
    requires GameOk(HONEST, game) && n <= |reqs|
    requires NewMatch(game, requested, setupData, seed, rounds).Done?
    requires Applied(game, NewMatch(game, requested, setupData, seed, rounds).value, reqs, rounds).Done?
    ensures
      var first := NewMatch(game, requested, setupData, seed, rounds).value;
      var last := Applied(game, first, reqs, rounds).value;
      && Replay(game, last.log, -1, requested, setupData, seed, rounds) == Done(last)
      && Replay(game, last.log, n, requested, setupData, seed, rounds) == Applied(game, first, reqs[..n], rounds)
  {
    hide NewMatch, GameOk, StateInv, Apply;
    NewMatchKeeps(HONEST, game, requested, setupData, seed, rounds);
    var first := NewMatch(game, requested, setupData, seed, rounds).value;
    var last := Applied(game, first, reqs, rounds).value;
    ReplaysRest(game, first, reqs, last.log, -1, rounds);
    ReplaysRest(game, first, reqs, last.log, n, rounds);
    assert forall i | 0 <= i < |first.log| :: last.log[i] == first.log[i];
    SkipsOthers(game, first, last.log, |first.log|, -1, rounds);
    SkipsOthers(game, first, last.log, |first.log|, n, rounds);
  }

  // ---- the loop ---------------------------------------------------------------------------------------------

  /**
   ReplayUntilSeeded as the loop it is: a state and a step counter over the log. On a refused entry it hands back the
   state reached so far with the error.
   */
  method ReplayUntilSeeded(
    game: Game, log: seq<LogEntry>, untilSteps: int, requested: int, setupData: Value, seed: int, rounds: nat)
    returns (state: State, result: Outcome<State>)
    requires NewMatch(game, requested, setupData, seed, rounds).Done?
    ensures result == Replay(game, log, untilSteps, requested, setupData, seed, rounds)
    ensures result.Done? ==> state == result.value
  {
    hide NewMatch, Apply;
    var created := NewMatch(game, requested, setupData, seed, rounds);
    state := created.value;
    if untilSteps == 0 {
      return state, Done(state);
    }
    var step := 0;
    for i := 0 to |log|
      invariant 0 <= step && (untilSteps > 0 ==> step < untilSteps)
      invariant ReplayFrom(game, created.value, log, untilSteps, rounds) ==
                ReplayFrom(game, state, log[i..], untilSteps - step, rounds)
    {
      assert log[i..][0] == log[i] && log[i..][1..] == log[i + 1..];
      if log[i].kind != "move" {
        continue;
      }
      var next := Apply(game, state, Recorded(log[i]), rounds);
      if !next.Done? {
        return state, next;
      }
      state := next.value;
      step := step + 1;
      if untilSteps >= 0 && step >= untilSteps {
        return state, Done(state);
      }
    }
    result := Done(state);
  }
}
