/**
 How a dispatch ends: always, after at most three steps of its own per attempt, whatever the others do; with a refusal only if
 its move was refused on a state that was stored, and with a conflict only after all its attempts, eight unless configured.
 */
module DispatchEnds {
  import opened Engine
  import opened Reducer
  import opened MoveProtocol

  predicate Ended(p: Proc) {
    p.Committed? || p.Rejected? || p.Exhausted?
  }

  /** The attempts a Manager makes. */
  function Attempts(retries: int): nat {
    if retries <= 0 then 8 else retries
  }

  /** How far a dispatch has come, in steps of its own. */
  function Progress(p: Proc, attempts: nat): nat {
    match p
    case Loading(attempt) => 3 * attempt
    case Loaded(attempt, _, _) => 3 * attempt + 1
    case Ready(attempt, _, _, _) => 3 * attempt + 2
    case _ => 3 * attempts
  }

  function TurnsOf(schedule: seq<nat>, who: nat): nat {
    if schedule == [] then 0 else (if schedule[0] == who then 1 else 0) + TurnsOf(schedule[1..], who)
  }

  predicate InBounds(jobs: seq<Job>, w: World) {
    |w.procs| == |jobs| && forall i | 0 <= i < |jobs| :: w.procs[i].attempt < Attempts(jobs[i].retries)
  }

  /** A step takes the dispatch that makes it one further and leaves every other where it is. */
  lemma StepProgress(game: Game, jobs: seq<Job>, w: World, mover: nat, who: nat, rounds: nat)
    requires InBounds(jobs, w) && who < |jobs|
    ensures
      var r, n := Step(game, jobs, w, mover, rounds), Attempts(jobs[who].retries);
      && InBounds(jobs, r)
      && (mover != who ==> r.procs[who] == w.procs[who])
      && (mover == who && !Ended(w.procs[who]) ==>
            Ended(r.procs[who]) || Progress(r.procs[who], n) == Progress(w.procs[who], n) + 1)
      && (Ended(w.procs[who]) ==> r.procs[who] == w.procs[who])
  {
    hide Apply;
  }

  lemma {:induction false} RunProgress(game: Game, jobs: seq<Job>, w: World, schedule: seq<nat>, who: nat, rounds: nat)
    requires |w.procs| == |jobs| && InBounds(jobs, w) && who < |jobs|
    requires Progress(w.procs[who], Attempts(jobs[who].retries)) + TurnsOf(schedule, who) >= 3 * Attempts(jobs[who].retries)
    ensures Ended(Run(game, jobs, w, schedule, rounds).procs[who])
    decreases |schedule|
  {
    hide Step, InBounds;
    if schedule != [] {
      StepProgress(game, jobs, w, schedule[0], who, rounds);
      RunProgress(game, jobs, Step(game, jobs, w, schedule[0], rounds), schedule[1..], who, rounds);
    } else {
      AttemptsLeft(jobs, w, who);
    }
  }

  lemma AttemptsLeft(jobs: seq<Job>, w: World, who: nat)
    requires InBounds(jobs, w) && who < |jobs|
    ensures Progress(w.procs[who], Attempts(jobs[who].retries)) >= 3 * Attempts(jobs[who].retries) ==> Ended(w.procs[who])
  {
  }

  /** Three steps of its own per attempt and a dispatch is over, for every game, start and schedule. */
  lemma EveryDispatchEnds(game: Game, jobs: seq<Job>, start: State, schedule: seq<nat>, who: nat, rounds: nat)
    requires who < |jobs| && TurnsOf(schedule, who) >= 3 * Attempts(jobs[who].retries)
    ensures Ended(Run(game, jobs, Begin(start, jobs), schedule, rounds).procs[who])
  {
    RunProgress(game, jobs, Begin(start, jobs), schedule, who, rounds);
  }

  // ---- what an ending means ---------------------------------------------------------------------------------

  /** The dispatch's move is refused, or fails, on a state that was stored at some point. */
  ghost predicate RefusedOnce(game: Game, start: State, history: seq<Commit>, job: Job, rounds: nat) {
    exists i: nat | i <= |history| :: !Apply(game, StoredAt(start, history, i), job.req, rounds).Done?
  }

  ghost predicate Honest(game: Game, jobs: seq<Job>, start: State, w: World, rounds: nat) {
    && |w.procs| == |jobs|
    && forall i | 0 <= i < |jobs| ::
         && (w.procs[i].Rejected? ==> RefusedOnce(game, start, w.history, jobs[i], rounds))
         && (w.procs[i].Exhausted? ==> w.procs[i].attempt + 1 == Attempts(jobs[i].retries))
  }

  lemma RefusedStays(game: Game, start: State, history: seq<Commit>, c: Commit, job: Job, rounds: nat)
    requires RefusedOnce(game, start, history, job, rounds)
    ensures RefusedOnce(game, start, history + [c], job, rounds)
  {
    var i: nat :| i <= |history| && !Apply(game, StoredAt(start, history, i), job.req, rounds).Done?;
    StoredStays(start, history, c, i);
  }

  lemma StepHonest(game: Game, jobs: seq<Job>, start: State, w: World, who: nat, rounds: nat)
    requires WorldOk(game, jobs, start, w, rounds) && Honest(game, jobs, start, w, rounds)
    ensures Honest(game, jobs, start, Step(game, jobs, w, who, rounds), rounds)
  {
    hide Apply, HistoryOk, OncePerDispatch, Wrote, RefusedOnce, StoredAt;
    var r := Step(game, jobs, w, who, rounds);
    forall i | 0 <= i < |jobs| && w.procs[i].Rejected?
      ensures RefusedOnce(game, start, r.history, jobs[i], rounds)
    {
      if r.history != w.history { RefusedStays(game, start, w.history, r.history[|w.history|], jobs[i], rounds); }
    }
    if who < |jobs| && w.procs[who].Loaded? { LoadedRefused(game, jobs, start, w, who, rounds); }
  }

  lemma LoadedRefused(game: Game, jobs: seq<Job>, start: State, w: World, who: nat, rounds: nat)
    requires WorldOk(game, jobs, start, w, rounds) && who < |jobs| && w.procs[who].Loaded?
    ensures
      !Apply(game, w.procs[who].base, jobs[who].req, rounds).Done? ==> RefusedOnce(game, start, w.history, jobs[who], rounds)
  {
    hide Apply, HistoryOk, OncePerDispatch, Wrote;
    assert ProcOk(game, start, w.history, jobs[who], w.procs[who], rounds);
  }

  lemma {:induction false} RunHonest(game: Game, jobs: seq<Job>, start: State, w: World, schedule: seq<nat>, rounds: nat)
    requires |w.procs| == |jobs| && WorldOk(game, jobs, start, w, rounds) && Honest(game, jobs, start, w, rounds)
    ensures Honest(game, jobs, start, Run(game, jobs, w, schedule, rounds), rounds)
    decreases |schedule|
  {
    hide Step, WorldOk, Honest;
    if schedule != [] {
      StepKeeps(game, jobs, start, w, schedule[0], rounds);
      StepHonest(game, jobs, start, w, schedule[0], rounds);
      RunHonest(game, jobs, start, Step(game, jobs, w, schedule[0], rounds), schedule[1..], rounds);
    }
  }

  /** Over every interleaving: success means a commit, refusal a refused move, and a conflict all attempts used up. */
  lemma EndingsAreHonest(game: Game, jobs: seq<Job>, start: State, schedule: seq<nat>, who: nat, rounds: nat)
    requires who < |jobs|
    ensures
      var w := Run(game, jobs, Begin(start, jobs), schedule, rounds);
      && (w.procs[who].Committed? <==> Wrote(w.history, who))
      && (w.procs[who].Rejected? ==> RefusedOnce(game, start, w.history, jobs[who], rounds))
      && (w.procs[who].Exhausted? ==> w.procs[who].attempt + 1 == Attempts(jobs[who].retries))
  {
    hide Run, Begin, Wrote, RefusedOnce, HistoryOk, OncePerDispatch;
    BeginOk(game, jobs, start, rounds);
    NothingEnded(game, jobs, start, rounds);
    RunHonest(game, jobs, start, Begin(start, jobs), schedule, rounds);
    StoredIDCountsCommits(game, jobs, start, schedule, rounds);
  }

  lemma NothingEnded(game: Game, jobs: seq<Job>, start: State, rounds: nat)
    ensures Honest(game, jobs, start, Begin(start, jobs), rounds)
  {
  }
}
