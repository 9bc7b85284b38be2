/**
 The optimistic-concurrency move protocol: any number of dispatches, run by any number of Managers, race on one stored
 match. Each loads the match, applies its move, writes it back if the stored StateID is still the one it expects, and
 otherwise reloads and tries again up to its Manager's retry bound.

 One step of a dispatch is one access to the store or one Apply, so a schedule (who steps next) ranges over every
 interleaving. A Manager's own match lock only removes some of them.
 */
module MoveProtocol {
  import opened Engine
  import opened Transitions
  import opened Reducer
  import opened Laws
  import opened Reachable

  /** OCCMaxRetries as dispatchLocked reads it. */
  function RetryLimit(configured: int): (n: int)
    ensures n >= 1
  {
    if configured <= 0 then 8 else configured
  }

  /** One move to dispatch, and the OCCMaxRetries of the Manager that dispatches it. */
  datatype Job = Job(req: Request, retries: int)

  /** Where a dispatch stands. `attempt` counts failed writes; `at` is how many commits its loaded state had seen. */
  datatype Proc =
    | Loading(attempt: nat)
    | Loaded(attempt: nat, at: nat, base: State)
    | Ready(attempt: nat, at: nat, base: State, next: State)
    | Committed(attempt: nat)
    | Rejected(attempt: nat)
    | Exhausted(attempt: nat)

  /** A successful write: who wrote what, and how many commits the state it was applied to had seen. */
  datatype Commit = Commit(who: nat, at: nat, state: State)

  datatype World = World(stored: State, history: seq<Commit>, procs: seq<Proc>)

  function Begin(start: State, jobs: seq<Job>): World {
    World(start, [], seq(|jobs|, _ => Loading(0)))
  }

  /** One step of one dispatch. */
  function Step(game: Game, jobs: seq<Job>, w: World, who: nat, rounds: nat): (r: World)
    requires |w.procs| == |jobs|
    ensures |r.procs| == |jobs|
  {
    if who >= |jobs| then w
    else
      match w.procs[who]
      case Loading(attempt) => w.(procs := w.procs[who := Loaded(attempt, |w.history|, w.stored)])
      case Loaded(attempt, at, base) =>
        var r := Apply(game, base, jobs[who].req, rounds);
        w.(procs := w.procs[who := if r.Done? then Ready(attempt, at, base, r.value) else Rejected(attempt)])
      case Ready(attempt, at, base, next) =>
        if w.stored.stateID == next.stateID - 1 then
          World(next, w.history + [Commit(who, at, next)], w.procs[who := Committed(attempt)])
        else if attempt + 1 >= RetryLimit(jobs[who].retries) then
          w.(procs := w.procs[who := Exhausted(attempt)])
        else
          w.(procs := w.procs[who := Loading(attempt + 1)])
      case _ => w
  }

  /** The world after a schedule. */
  function Run(game: Game, jobs: seq<Job>, w: World, schedule: seq<nat>, rounds: nat): (r: World)
    requires |w.procs| == |jobs|
    ensures |r.procs| == |jobs|
    decreases |schedule|
  {
    if schedule == [] then w else Run(game, jobs, Step(game, jobs, w, schedule[0], rounds), schedule[1..], rounds)
  }

  /** The stored state after so many commits. */
  function StoredAt(start: State, history: seq<Commit>, i: nat): State
    requires i <= |history|
  {
    if i == 0 then start else history[i - 1].state
  }

  // ---- what holds for every game ----------------------------------------------------------------------------

  /** A committed state is its move applied to some earlier stored state, one ID past the state it replaced. */
  ghost predicate CommitOk(game: Game, jobs: seq<Job>, start: State, history: seq<Commit>, i: nat, rounds: nat)
    requires i < |history|
  {
    var c := history[i];
    && c.who < |jobs| && c.at <= i && c.state.stateID == start.stateID + i + 1
    && Apply(game, StoredAt(start, history, c.at), jobs[c.who].req, rounds) == Done(c.state)
  }

  ghost predicate HistoryOk(game: Game, jobs: seq<Job>, start: State, history: seq<Commit>, rounds: nat) {
    forall i | 0 <= i < |history| :: CommitOk(game, jobs, start, history, i, rounds)
  }

  ghost predicate Wrote(history: seq<Commit>, who: nat) {
    exists i :: 0 <= i < |history| && history[i].who == who
  }

  ghost predicate OncePerDispatch(history: seq<Commit>) {
    forall i, j | 0 <= i < j < |history| :: history[i].who != history[j].who
  }

  /** What a dispatch knows of the store. */
  ghost predicate ProcOk(game: Game, start: State, history: seq<Commit>, job: Job, p: Proc, rounds: nat) {
    && p.attempt < RetryLimit(job.retries)
    && (p.Loaded? || p.Ready? ==> p.at <= |history| && p.base == StoredAt(start, history, p.at))
    && (p.Ready? ==> Apply(game, p.base, job.req, rounds) == Done(p.next))
  }

  ghost predicate WorldOk(game: Game, jobs: seq<Job>, start: State, w: World, rounds: nat) {
    && |w.procs| == |jobs|
    && HistoryOk(game, jobs, start, w.history, rounds) && OncePerDispatch(w.history)
    && w.stored == StoredAt(start, w.history, |w.history|)
    && (forall i | 0 <= i < |jobs| ::
          ProcOk(game, start, w.history, jobs[i], w.procs[i], rounds) &&
          (Wrote(w.history, i) <==> w.procs[i].Committed?))
  }

  lemma StoredID(game: Game, jobs: seq<Job>, start: State, history: seq<Commit>, i: nat, rounds: nat)
    requires HistoryOk(game, jobs, start, history, rounds) && i <= |history|
    ensures StoredAt(start, history, i).stateID == start.stateID + i
  {
    if i > 0 { assert CommitOk(game, jobs, start, history, i - 1, rounds); }
  }

  /** A later commit changes nothing about the states stored before it. */
  lemma StoredStays(start: State, history: seq<Commit>, c: Commit, i: nat)
    requires i <= |history|
    ensures StoredAt(start, history + [c], i) == StoredAt(start, history, i)
  {
  }

  lemma CommitKeepsHistory(
    game: Game, jobs: seq<Job>, start: State, history: seq<Commit>, c: Commit, rounds: nat)
    requires HistoryOk(game, jobs, start, history, rounds)
    requires c.who < |jobs| && c.at <= |history| && c.state.stateID == start.stateID + |history| + 1
    requires Apply(game, StoredAt(start, history, c.at), jobs[c.who].req, rounds) == Done(c.state)
    ensures HistoryOk(game, jobs, start, history + [c], rounds)
  {
    hide Apply;
    var grown := history + [c];
    forall i | 0 <= i < |grown|
      ensures CommitOk(game, jobs, start, grown, i, rounds)
    {
      assert i < |history| ==> CommitOk(game, jobs, start, history, i, rounds);
      StoredStays(start, history, c, grown[i].at);
    }
  }

  lemma WroteGrows(history: seq<Commit>, c: Commit, who: nat)
    ensures Wrote(history + [c], who) <==> Wrote(history, who) || c.who == who
  {
    var grown := history + [c];
    if c.who == who { assert grown[|history|].who == who; }
    if Wrote(history, who) {
      var i :| 0 <= i < |history| && history[i].who == who;
      assert grown[i].who == who;
    }
  }

  /** A write that succeeds. */
  lemma CommitKeeps(game: Game, jobs: seq<Job>, start: State, w: World, who: nat, rounds: nat)
    requires WorldOk(game, jobs, start, w, rounds) && who < |jobs| && w.procs[who].Ready?
    requires w.stored.stateID == w.procs[who].next.stateID - 1
    ensures WorldOk(game, jobs, start, Step(game, jobs, w, who, rounds), rounds)
  {
    hide Apply;
    var p := w.procs[who];
    var c := Commit(who, p.at, p.next);
    var r := Step(game, jobs, w, who, rounds);
    StoredID(game, jobs, start, w.history, |w.history|, rounds);
    CommitKeepsHistory(game, jobs, start, w.history, c, rounds);
    forall i | 0 <= i < |jobs|
      ensures ProcOk(game, start, r.history, jobs[i], r.procs[i], rounds)
      ensures Wrote(r.history, i) <==> r.procs[i].Committed?
    {
      WroteGrows(w.history, c, i);
      var q := w.procs[i];
      if q.Loaded? || q.Ready? { StoredStays(start, w.history, c, q.at); }
    }
    assert OncePerDispatch(r.history) by {
      assert !Wrote(w.history, who);
    }
  }

  lemma StepKeeps(game: Game, jobs: seq<Job>, start: State, w: World, who: nat, rounds: nat)
    requires WorldOk(game, jobs, start, w, rounds)
    ensures WorldOk(game, jobs, start, Step(game, jobs, w, who, rounds), rounds)
  {
    hide Apply, HistoryOk, OncePerDispatch, Wrote;
    if who < |jobs| && w.procs[who].Ready? && w.stored.stateID == w.procs[who].next.stateID - 1 {
      CommitKeeps(game, jobs, start, w, who, rounds);
    }
  }

  lemma {:induction false} RunKeeps(game: Game, jobs: seq<Job>, start: State, w: World, schedule: seq<nat>, rounds: nat)
    requires WorldOk(game, jobs, start, w, rounds)
    ensures WorldOk(game, jobs, start, Run(game, jobs, w, schedule, rounds), rounds)
    decreases |schedule|
  {
    hide Step, Apply, HistoryOk, OncePerDispatch, Wrote, ProcOk;
    if schedule != [] {
      StepKeeps(game, jobs, start, w, schedule[0], rounds);
      RunKeeps(game, jobs, start, Step(game, jobs, w, schedule[0], rounds), schedule[1..], rounds);
    }
  }

  lemma BeginOk(game: Game, jobs: seq<Job>, start: State, rounds: nat)
    ensures WorldOk(game, jobs, start, Begin(start, jobs), rounds)
  {
    hide Apply;
  }

  /**
   Every game, every interleaving: the stored StateID counts the commits, no dispatch commits twice, none tries more often
   than its Manager allows, and every committed state is its move applied to a state that was stored at some point.
   */
  lemma StoredIDCountsCommits(game: Game, jobs: seq<Job>, start: State, schedule: seq<nat>, rounds: nat)
    ensures
      var w := Run(game, jobs, Begin(start, jobs), schedule, rounds);
      && w.stored.stateID == start.stateID + |w.history|
      && OncePerDispatch(w.history)
      && (forall i | 0 <= i < |jobs| ::
            w.procs[i].attempt < RetryLimit(jobs[i].retries) && (Wrote(w.history, i) <==> w.procs[i].Committed?))
      && HistoryOk(game, jobs, start, w.history, rounds)
  {
    hide Apply, HistoryOk, Run, Begin, Wrote, OncePerDispatch;
    BeginOk(game, jobs, start, rounds);
    RunKeeps(game, jobs, start, Begin(start, jobs), schedule, rounds);
    var w := Run(game, jobs, Begin(start, jobs), schedule, rounds);
    StoredID(game, jobs, start, w.history, |w.history|, rounds);
  }

  // ---- no lost update ---------------------------------------------------------------------------------------

  /** The commit was applied to the very state it replaced. */
  ghost predicate InOrder(history: seq<Commit>, i: nat)
    requires i < |history|
  {
    history[i].at == i
  }

  /** The commit is its move applied to the stored state it replaced. */
  ghost predicate Follows(game: Game, jobs: seq<Job>, start: State, history: seq<Commit>, i: nat, rounds: nat)
    requires i < |history|
  {
    history[i].who < |jobs| &&
    Apply(game, StoredAt(start, history, i), jobs[history[i].who].req, rounds) == Done(history[i].state)
  }

  /** The stored states are one serial run of Apply. */
  ghost predicate Serial(game: Game, jobs: seq<Job>, start: State, history: seq<Commit>, rounds: nat) {
    forall i | 0 <= i < |history| :: Follows(game, jobs, start, history, i, rounds)
  }

  /**
   Exactly when a commit loses nothing: it replaces the state it was computed from if and only if its move raised
   StateID by one, which is what the expected ID subtracts.
   */
  lemma CommitInOrderExactly(game: Game, jobs: seq<Job>, start: State, history: seq<Commit>, i: nat, rounds: nat)
    requires HistoryOk(game, jobs, start, history, rounds) && i < |history|
    ensures history[i].at <= i
    ensures InOrder(history, i) <==>
            history[i].state.stateID == StoredAt(start, history, history[i].at).stateID + 1
  {
    hide Apply;
    assert CommitOk(game, jobs, start, history, i, rounds);
    StoredID(game, jobs, start, history, history[i].at, rounds);
  }

  const UNCHAINED := Law(false, false, {}, true, false, false)

  lemma UnchainedRaisesByOne(game: Game, s: State, req: Request, rounds: nat)
    requires GameOk(UNCHAINED, game) && StateInv(UNCHAINED, s)
    ensures
      var r := Apply(game, s, req, rounds);
      r.Done? ==> StateInv(UNCHAINED, r.value) && r.value.stateID == s.stateID + 1
  {
    hide Apply, GameOk, StateInv;
    ApplyKeeps(UNCHAINED, game, s, req, rounds);
  }

  /** Every stored state keeps the engine's own invariant, and every commit is in order, when no move is chained. */
  lemma {:induction false} UnchainedInOrder(
    game: Game, jobs: seq<Job>, start: State, history: seq<Commit>, n: nat, rounds: nat)
    requires GameOk(UNCHAINED, game) && StateInv(UNCHAINED, start)
    requires HistoryOk(game, jobs, start, history, rounds) && n <= |history|
    ensures forall i | 0 <= i <= n :: StateInv(UNCHAINED, StoredAt(start, history, i))
    ensures forall i | 0 <= i < n :: InOrder(history, i)
  {
    hide Apply, GameOk, StateInv;
    if n > 0 {
      UnchainedInOrder(game, jobs, start, history, n - 1, rounds);
      var c := history[n - 1];
      assert CommitOk(game, jobs, start, history, n - 1, rounds);
      var base := StoredAt(start, history, c.at);
      UnchainedRaisesByOne(game, base, jobs[c.who].req, rounds);
      CommitInOrderExactly(game, jobs, start, history, n - 1, rounds);
    }
  }

  /**
   No lost update: from any state of any match of a game that chains no moves, whatever dispatches race on it and however
   they interleave, the stored states form one serial run of Apply with each dispatch in it at most once, and the stored
   StateID counts its moves.
   */
  lemma NoLostUpdate(
    game: Game, requested: int, setupData: Value, seed: int, calls: seq<Call>, start: State, jobs: seq<Job>,
    schedule: seq<nat>, rounds: nat)
    requires GameOk(UNCHAINED, game)
    requires Match(game, requested, setupData, seed, calls, rounds) == Done(start)
    ensures
      var w := Run(game, jobs, Begin(start, jobs), schedule, rounds);
      && Serial(game, jobs, start, w.history, rounds) && OncePerDispatch(w.history)
      && w.stored == StoredAt(start, w.history, |w.history|)
      && w.stored.stateID == start.stateID + |w.history|
  {
    hide Apply, GameOk, StateInv, Match, Run, Begin, OncePerDispatch, Wrote, ProcOk;
    MatchKeeps(UNCHAINED, game, requested, setupData, seed, calls, rounds);
    BeginOk(game, jobs, start, rounds);
    RunKeeps(game, jobs, start, Begin(start, jobs), schedule, rounds);
    var w := Run(game, jobs, Begin(start, jobs), schedule, rounds);
    StoredID(game, jobs, start, w.history, |w.history|, rounds);
    UnchainedInOrder(game, jobs, start, w.history, |w.history|, rounds);
    forall i | 0 <= i < |w.history| ensures Follows(game, jobs, start, w.history, i, rounds) {
      assert CommitOk(game, jobs, start, w.history, i, rounds) && InOrder(w.history, i);
    }
  }

  // ---- retries ----------------------------------------------------------------------------------------------

  /** Each failed write of a dispatch is owed to at least one commit made since its last load. */
  ghost predicate Paid(p: Proc, commits: nat) {
    match p
    case Loading(attempt) => attempt <= commits
    case Loaded(attempt, at, _) => attempt <= at
    case Ready(attempt, at, _, _) => attempt <= at
    case Exhausted(attempt) => attempt + 1 <= commits
    case _ => true
  }

  ghost predicate AllPaid(jobs: seq<Job>, w: World) {
    |w.procs| == |jobs| &&
    forall i | 0 <= i < |jobs| ::
      Paid(w.procs[i], |w.history|) &&
      (w.procs[i].Exhausted? ==> w.procs[i].attempt + 1 >= RetryLimit(jobs[i].retries))
  }

  /** When no move is chained, a failed write means that somebody else committed after the load. */
  lemma ConflictMeansCommit(game: Game, jobs: seq<Job>, start: State, w: World, who: nat, rounds: nat)
    requires GameOk(UNCHAINED, game) && StateInv(UNCHAINED, start) && WorldOk(game, jobs, start, w, rounds)
    requires who < |jobs| && w.procs[who].Ready? && w.stored.stateID != w.procs[who].next.stateID - 1
    ensures w.procs[who].at < |w.history|
  {
    hide Apply, GameOk, StateInv, Wrote, OncePerDispatch, HistoryOk;
    var p := w.procs[who];
    assert ProcOk(game, start, w.history, jobs[who], p, rounds);
    StoredID(game, jobs, start, w.history, |w.history|, rounds);
    StoredID(game, jobs, start, w.history, p.at, rounds);
    UnchainedInOrder(game, jobs, start, w.history, |w.history|, rounds);
    UnchainedRaisesByOne(game, p.base, jobs[who].req, rounds);
  }

  lemma StepPays(game: Game, jobs: seq<Job>, start: State, w: World, who: nat, rounds: nat)
    requires GameOk(UNCHAINED, game) && StateInv(UNCHAINED, start)
    requires WorldOk(game, jobs, start, w, rounds) && AllPaid(jobs, w)
    ensures AllPaid(jobs, Step(game, jobs, w, who, rounds))
  {
    hide Apply, GameOk, StateInv, HistoryOk, OncePerDispatch, Wrote;
    if who < |jobs| && w.procs[who].Ready? && w.stored.stateID != w.procs[who].next.stateID - 1 {
      ConflictMeansCommit(game, jobs, start, w, who, rounds);
    }
  }

  lemma {:induction false} RunPays(game: Game, jobs: seq<Job>, start: State, w: World, schedule: seq<nat>, rounds: nat)
    requires GameOk(UNCHAINED, game) && StateInv(UNCHAINED, start)
    requires WorldOk(game, jobs, start, w, rounds) && AllPaid(jobs, w)
    ensures AllPaid(jobs, Run(game, jobs, w, schedule, rounds))
    decreases |schedule|
  {
    hide Step, Apply, GameOk, StateInv, HistoryOk, OncePerDispatch, Wrote, ProcOk, Paid;
    if schedule != [] {
      StepKeeps(game, jobs, start, w, schedule[0], rounds);
      StepPays(game, jobs, start, w, schedule[0], rounds);
      RunPays(game, jobs, start, Step(game, jobs, w, schedule[0], rounds), schedule[1..], rounds);
    }
  }

  ghost function Writers(history: seq<Commit>): set<nat> {
    set i | 0 <= i < |history| :: history[i].who
  }

  lemma {:induction false} WritersCount(history: seq<Commit>)
    requires OncePerDispatch(history)
    ensures |Writers(history)| == |history|
  {
    if history != [] {
      var n := |history| - 1;
      WritersCount(history[..n]);
      assert Writers(history) == Writers(history[..n]) + {history[n].who};
      assert history[n].who !in Writers(history[..n]);
    }
  }

  lemma {:induction false} BelowCount(s: set<nat>, n: nat)
    requires forall i | i in s :: i < n
    ensures |s| <= n
  {
    if n > 0 {
      BelowCount(s - {n - 1}, n - 1);
      assert |s - {n - 1}| >= |s| - 1;
    } else {
      assert s == {};
    }
  }

  /** The dispatches that committed are others than one that did not, so fewer than there are dispatches. */
  lemma OthersCommitted(game: Game, jobs: seq<Job>, start: State, history: seq<Commit>, who: nat, rounds: nat)
    requires HistoryOk(game, jobs, start, history, rounds) && OncePerDispatch(history)
    requires who < |jobs| && !Wrote(history, who)
    ensures |history| < |jobs|
  {
    hide Apply;
    var writers := Writers(history);
    WritersCount(history);
    forall w | w in writers ensures w < |jobs| && w != who {
      var i :| 0 <= i < |history| && history[i].who == w;
      assert CommitOk(game, jobs, start, history, i, rounds);
    }
    BelowCount(writers + {who}, |jobs|);
  }

  /**
   The retry bound is enough: when no move is chained and at most as many dispatches race as a dispatch's Manager allows
   attempts, that dispatch never gives up, however they interleave.
   */
  lemma FewDispatchesNeverExhaust(
    game: Game, requested: int, setupData: Value, seed: int, calls: seq<Call>, start: State, jobs: seq<Job>,
    schedule: seq<nat>, who: nat, rounds: nat)
    requires GameOk(UNCHAINED, game)
    requires Match(game, requested, setupData, seed, calls, rounds) == Done(start)
    requires who < |jobs| <= RetryLimit(jobs[who].retries)
    ensures !Run(game, jobs, Begin(start, jobs), schedule, rounds).procs[who].Exhausted?
  {
    hide Apply, GameOk, StateInv, Match, Run, OncePerDispatch, Wrote, ProcOk, HistoryOk;
    MatchKeeps(UNCHAINED, game, requested, setupData, seed, calls, rounds);
    BeginOk(game, jobs, start, rounds);
    RunKeeps(game, jobs, start, Begin(start, jobs), schedule, rounds);
    RunPays(game, jobs, start, Begin(start, jobs), schedule, rounds);
    var w := Run(game, jobs, Begin(start, jobs), schedule, rounds);
    if w.procs[who].Exhausted? {
      OthersCommitted(game, jobs, start, w.history, who, rounds);
    }
  }

  // ---- what chained moves break -----------------------------------------------------------------------------

  /**
   A move that chains another raises StateID twice, so it expects an ID one past the state it loaded. With nobody else
   about it can never be written: every attempt conflicts with its own base until the retries run out.
   */
  lemma {:induction false} ChainedMoveAloneExhausts(game: Game, start: State, job: Job, next: State, attempt: nat, rounds: nat)
    requires Apply(game, start, job.req, rounds) == Done(next) && next.stateID != start.stateID + 1
    requires attempt < RetryLimit(job.retries)
    ensures
      var w := World(start, [], [Loading(attempt)]);
      var left := RetryLimit(job.retries) - attempt;
      Run(game, [job], w, Turns(3 * left), rounds) == World(start, [], [Exhausted(RetryLimit(job.retries) - 1)])
    decreases RetryLimit(job.retries) - attempt
  {
    hide Apply;
    var limit := RetryLimit(job.retries);
    var w0 := World(start, [], [Loading(attempt)]);
    var w1 := World(start, [], [Loaded(attempt, 0, start)]);
    var w2 := World(start, [], [Ready(attempt, 0, start, next)]);
    var w3 := World(start, [], [if attempt + 1 >= limit then Exhausted(attempt) else Loading(attempt + 1)]);
    assert Step(game, [job], w0, 0, rounds) == w1;
    assert Step(game, [job], w1, 0, rounds) == w2;
    assert Step(game, [job], w2, 0, rounds) == w3;
    ThreeSteps(game, [job], w0, w1, w2, w3, limit - attempt, rounds);
    if attempt + 1 < limit {
      ChainedMoveAloneExhausts(game, start, job, next, attempt + 1, rounds);
    }
  }

  /** So many steps of the first dispatch. */
  function Turns(n: nat): seq<nat> {
    seq(n, _ => 0)
  }

  lemma OneStep(game: Game, jobs: seq<Job>, w: World, next: World, n: nat, rounds: nat)
    requires |w.procs| == |next.procs| == |jobs| && Step(game, jobs, w, 0, rounds) == next
    ensures Run(game, jobs, w, Turns(n + 1), rounds) == Run(game, jobs, next, Turns(n), rounds)
  {
    hide Step;
    assert Turns(n + 1)[1..] == Turns(n);
  }

  lemma ThreeSteps(game: Game, jobs: seq<Job>, w0: World, w1: World, w2: World, w3: World, left: int, rounds: nat)
    requires |w0.procs| == |w1.procs| == |w2.procs| == |w3.procs| == |jobs| && left >= 1
    requires Step(game, jobs, w0, 0, rounds) == w1 && Step(game, jobs, w1, 0, rounds) == w2
    requires Step(game, jobs, w2, 0, rounds) == w3
    ensures Run(game, jobs, w0, Turns(3 * left), rounds) == Run(game, jobs, w3, Turns(3 * (left - 1)), rounds)
  {
    hide Step;
    hide Run, Turns;
    var n := 3 * (left - 1);
    OneStep(game, jobs, w0, w1, n + 2, rounds);
    OneStep(game, jobs, w1, w2, n + 1, rounds);
    OneStep(game, jobs, w2, w3, n, rounds);
  }

  /**
   With one other dispatch about, the chained move is written over the other's commit: both report success, and the
   stored state has never seen the other's move.
   */
  lemma ChainedMoveLosesUpdate(game: Game, start: State, chained: Job, plain: Job, x: State, y: State, rounds: nat)
    requires Apply(game, start, chained.req, rounds) == Done(x) && x.stateID == start.stateID + 2
    requires Apply(game, start, plain.req, rounds) == Done(y) && y.stateID == start.stateID + 1
    ensures
      var jobs := [chained, plain];
      var w := Run(game, jobs, Begin(start, jobs), [0, 0, 1, 1, 1, 0], rounds);
      && w.procs == [Committed(0), Committed(0)] && w.stored == x
      && w.history == [Commit(1, 0, y), Commit(0, 0, x)] && !InOrder(w.history, 1)
  {
    hide Apply;
    var jobs := [chained, plain];
    var w0 := Begin(start, jobs);
    var w1 := World(start, [], [Loaded(0, 0, start), Loading(0)]);
    var w2 := World(start, [], [Ready(0, 0, start, x), Loading(0)]);
    var w3 := World(start, [], [Ready(0, 0, start, x), Loaded(0, 0, start)]);
    var w4 := World(start, [], [Ready(0, 0, start, x), Ready(0, 0, start, y)]);
    var w5 := World(y, [Commit(1, 0, y)], [Ready(0, 0, start, x), Committed(0)]);
    var w6 := World(x, [Commit(1, 0, y), Commit(0, 0, x)], [Committed(0), Committed(0)]);
    assert Step(game, jobs, w0, 0, rounds) == w1;
    assert Step(game, jobs, w1, 0, rounds) == w2;
    assert Step(game, jobs, w2, 1, rounds) == w3;
    assert Step(game, jobs, w3, 1, rounds) == w4;
    assert Step(game, jobs, w4, 1, rounds) == w5;
    assert Step(game, jobs, w5, 0, rounds) == w6;
    SixSteps(game, jobs, w0, w1, w2, w3, w4, w5, w6, rounds);
  }

  lemma SixSteps(
    game: Game, jobs: seq<Job>, w0: World, w1: World, w2: World, w3: World, w4: World, w5: World, w6: World, rounds: nat)
    requires |w0.procs| == |w1.procs| == |w2.procs| == |w3.procs| == |w4.procs| == |w5.procs| == |jobs|
    requires Step(game, jobs, w0, 0, rounds) == w1 && Step(game, jobs, w1, 0, rounds) == w2
    requires Step(game, jobs, w2, 1, rounds) == w3 && Step(game, jobs, w3, 1, rounds) == w4
    requires Step(game, jobs, w4, 1, rounds) == w5 && Step(game, jobs, w5, 0, rounds) == w6
    ensures Run(game, jobs, w0, [0, 0, 1, 1, 1, 0], rounds) == w6
  {
    hide Step;
    assert [0, 0, 1, 1, 1, 0][1..] == [0, 1, 1, 1, 0] && [0, 1, 1, 1, 0][1..] == [1, 1, 1, 0];
    assert [1, 1, 1, 0][1..] == [1, 1, 0] && [1, 1, 0][1..] == [1, 0] && [1, 0][1..] == [0] && [0][1..] == [];
    assert Run(game, jobs, w5, [0], rounds) == w6;
    assert Run(game, jobs, w3, [1, 1, 0], rounds) == Run(game, jobs, w4, [1, 0], rounds) == w6;
    assert Run(game, jobs, w1, [0, 1, 1, 1, 0], rounds) == Run(game, jobs, w2, [1, 1, 1, 0], rounds) == w6;
  }

  /** A move that leaves the state alone and queues these events. */
  function Queueing(events: seq<Event>): Move {
    var run := (i: HookIn, args: seq<Value>) => MoveOut(None, HookOut(i.g, events, [], i.raised, [], [], i.api));
    Move(run, run, (i: HookIn) => false, (i: HookIn) => false, false, false, false, false, false)
  }

  /** A game with a plain move and a move that chains it. */
  function ChainingGame(setup: (Ctx, Value) -> Value): Game {
    Game(2, 2, setup, map["plain" := Playable(Queueing([])), "twice" := Playable(Queueing([RunMove("plain", [])]))],
         None, map[], "", None, None, None, true, None)
  }

  /** A state in which the current player may simply move. */
  predicate AtRest(s: State) {
    s.ctx.gameover.None? && s.ctx.active.None? && s.ctx.phase == "" && s.blocks == [] && s.queue == []
  }

  function Plainly(s: State, move: string): Request {
    Request(s.ctx.currentPlayer, move, [], 0, "", 0, false, false)
  }

  lemma PlainMoveRaisesOnce(setup: (Ctx, Value) -> Value, s: State, rounds: nat)
    requires AtRest(s)
    ensures
      var r := Apply(ChainingGame(setup), s, Plainly(s, "plain"), rounds);
      r.Done? && r.value.stateID == s.stateID + 1
  {
    var game, req := ChainingGame(setup), Plainly(s, "plain");
    assert Admit(game, s, req).Admitted?;
  }

  lemma ChainingMoveRaisesTwice(setup: (Ctx, Value) -> Value, s: State, rounds: nat)
    requires AtRest(s) && rounds >= 1
    ensures
      var r := Apply(ChainingGame(setup), s, Plainly(s, "twice"), rounds);
      r.Done? && r.value.stateID == s.stateID + 2
  {
    var game, req := ChainingGame(setup), Plainly(s, "twice");
    var a := Admit(game, s, req);
    assert a.Admitted?;
    var r := CountMove(game, a, PlayMove(game, a, req).value, req);
    var batch := r.d.m.env.events;
    assert batch == [RunMove("plain", [])];
    var d := HandleAll(game, r.d.(m := r.d.m.(env := r.d.m.env.(events := []))), batch);
    assert d.m.st.stateID == s.stateID + 2 && d.m.env.events == [];
    assert DrainEvents(game, r.d, rounds) == Some(d);
  }

  /** It does happen: two successful dispatches, and the stored state never saw the plain move. */
  lemma LostUpdateExample(setup: (Ctx, Value) -> Value, s: State, retries: int, rounds: nat)
    requires AtRest(s) && rounds >= 1
    ensures
      var game := ChainingGame(setup);
      var jobs := [Job(Plainly(s, "twice"), retries), Job(Plainly(s, "plain"), retries)];
      var w := Run(game, jobs, Begin(s, jobs), [0, 0, 1, 1, 1, 0], rounds);
      && w.procs == [Committed(0), Committed(0)] && Done(w.stored) == Apply(game, s, jobs[0].req, rounds)
      && |w.history| == 2 && !InOrder(w.history, 1)
  {
    hide Apply, Run, ChainingGame, AtRest;
    PlainMoveRaisesOnce(setup, s, rounds);
    ChainingMoveRaisesTwice(setup, s, rounds);
    var game := ChainingGame(setup);
    ChainedMoveLosesUpdate(game, s, Job(Plainly(s, "twice"), retries), Job(Plainly(s, "plain"), retries),
                           Apply(game, s, Plainly(s, "twice"), rounds).value,
                           Apply(game, s, Plainly(s, "plain"), rounds).value, rounds);
  }
}
