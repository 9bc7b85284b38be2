/**
 storage/memory.go and the retry loop of dispatchLocked as they run, the other Managers' activity given as the steps they
 take between this dispatch's own accesses to the store. Every execution of the loop is a run of MoveProtocol, so what is
 proved there for every schedule holds of it.
 */
module Dispatch {
  import opened Engine
  import opened Reducer
  import opened MoveProtocol

  /** A stored match; `rest` stands for its name, players and timestamps. */
  datatype Record = Record(id: string, rest: Value, state: State)

  datatype StoreError = NotFound | Conflict

  /** storage.Memory. */
  class Memory {
    var matches: map<string, Record>

    constructor ()
      ensures matches == map[]
    {
      matches := map[];
    }

    method Create(m: Record)
      modifies this
      ensures matches == old(matches)[m.id := m]
    {
      matches := matches[m.id := m];
    }

    method Get(id: string) returns (m: Option<Record>)
      ensures m == if id in matches then Some(matches[id]) else None
    {
      if id !in matches { return None; }
      m := Some(matches[id]);
    }

    method Update(m: Record) returns (err: Option<StoreError>)
      modifies this
      ensures err == if m.id in old(matches) then None else Some(NotFound)
      ensures matches == if err.None? then old(matches)[m.id := m] else old(matches)
    {
      if m.id !in matches { return Some(NotFound); }
      matches := matches[m.id := m];
      err := None;
    }

    /** Write only over the expected StateID. */
    method UpdateIfStateID(m: Record, expected: int) returns (err: Option<StoreError>)
      modifies this
      ensures err == if m.id !in old(matches) then Some(NotFound)
                     else if old(matches)[m.id].state.stateID != expected then Some(Conflict)
                     else None
      ensures matches == if err.None? then old(matches)[m.id := m] else old(matches)
    {
      if m.id !in matches { return Some(NotFound); }
      if matches[m.id].state.stateID != expected { return Some(Conflict); }
      matches := matches[m.id := m];
      err := None;
    }

    method Wipe(id: string) returns (err: Option<StoreError>)
      modifies this
      ensures err == if id in old(matches) then None else Some(NotFound)
      ensures matches == old(matches) - {id}
    {
      if id !in matches { return Some(NotFound); }
      matches := matches - {id};
      err := None;
    }
  }

  // ---- runs in pieces ---------------------------------------------------------------------------------------

  lemma {:induction false} RunThen(game: Game, jobs: seq<Job>, w: World, a: seq<nat>, b: seq<nat>, rounds: nat)
    requires |w.procs| == |jobs|
    ensures Run(game, jobs, w, a + b, rounds) == Run(game, jobs, Run(game, jobs, w, a, rounds), b, rounds)
    decreases |a|
  {
    hide Step;
    if a == [] {
      assert a + b == b;
    } else {
      assert (a + b)[0] == a[0] && (a + b)[1..] == a[1..] + b;
      RunThen(game, jobs, Step(game, jobs, w, a[0], rounds), a[1..], b, rounds);
    }
  }

  lemma OneMore(game: Game, jobs: seq<Job>, w: World, a: seq<nat>, who: nat, rounds: nat)
    requires |w.procs| == |jobs|
    ensures Run(game, jobs, w, a + [who], rounds) == Step(game, jobs, Run(game, jobs, w, a, rounds), who, rounds)
  {
    hide Step;
    RunThen(game, jobs, w, a, [who], rounds);
    var t := Run(game, jobs, w, a, rounds);
    assert Run(game, jobs, t, [who], rounds) == Run(game, jobs, Step(game, jobs, t, who, rounds), [], rounds);
  }

  /** Steps of others leave a dispatch where it was. */
  lemma {:induction false} OthersLeaveAlone(game: Game, jobs: seq<Job>, w: World, schedule: seq<nat>, who: nat, rounds: nat)
    requires |w.procs| == |jobs| && who < |jobs| && who !in schedule
    ensures Run(game, jobs, w, schedule, rounds).procs[who] == w.procs[who]
    decreases |schedule|
  {
    hide Apply;
    if schedule != [] {
      OthersLeaveAlone(game, jobs, Step(game, jobs, w, schedule[0], rounds), schedule[1..], who, rounds);
    }
  }

  // ---- the retry loop ---------------------------------------------------------------------------------------

  datatype Verdict = Moved(next: State) | Refusal(cause: Outcome<State>) | GaveUp

  /** The other dispatches take these steps; what they leave is in the store. */
  method Others(mem: Memory, id: string, game: Game, jobs: seq<Job>, w: World, schedule: seq<nat>, who: nat, rounds: nat)
    returns (r: World)
    requires |w.procs| == |jobs| && who < |jobs| && who !in schedule
    requires id in mem.matches && mem.matches[id].id == id && mem.matches[id].state == w.stored
    modifies mem
    ensures r == Run(game, jobs, w, schedule, rounds) && r.procs[who] == w.procs[who]
    ensures mem.matches == old(mem.matches)[id := old(mem.matches)[id].(state := r.stored)]
  {
    hide Step;
    r := Run(game, jobs, w, schedule, rounds);
    OthersLeaveAlone(game, jobs, w, schedule, who, rounds);
    mem.matches := mem.matches[id := mem.matches[id].(state := r.stored)];
  }

  /**
   dispatchLocked with optimistic concurrency on. `peers(n, false)` are the others' steps between attempt n's load and its
   write, `peers(n, true)` those between its failed write and the reload. The loop is the run of the protocol whose
   schedule it returns, in which this dispatch took three steps per attempt and never one more attempt than allowed.
   */
  method DispatchLocked(
    mem: Memory, id: string, game: Game, jobs: seq<Job>, start: World, who: nat, peers: (nat, bool) -> seq<nat>, rounds: nat)
    returns (out: Verdict, w: World, ghost schedule: seq<nat>, attempts: nat)
    requires |start.procs| == |jobs| && who < |jobs| && start.procs[who] == Loading(0)
    requires forall n, late :: who !in peers(n, late)
    requires id in mem.matches && mem.matches[id].id == id && mem.matches[id].state == start.stored
    modifies mem
    ensures w == Run(game, jobs, start, schedule, rounds)
    ensures mem.matches == old(mem.matches)[id := old(mem.matches)[id].(state := w.stored)]
    ensures 1 <= attempts <= RetryLimit(jobs[who].retries)
    ensures
      match out
      case Moved(next) => w.procs[who] == Committed(attempts - 1) && w.stored == next
      case Refusal(_) => w.procs[who] == Rejected(attempts - 1)
      case GaveUp => w.procs[who] == Exhausted(attempts - 1) && attempts == RetryLimit(jobs[who].retries)
  {
    hide Apply, Run;
    ghost var before := mem.matches;
    var limit := RetryLimit(jobs[who].retries);
    var attempt := 0;
    schedule := [];
    w := start;
    assert w == Run(game, jobs, start, [], rounds) by { RunNone(game, jobs, start, rounds); }
    while true
      invariant 0 <= attempt < limit && |w.procs| == |jobs| && w.procs[who] == Loading(attempt)
      invariant w == Run(game, jobs, start, schedule, rounds)
      invariant mem.matches == before[id := before[id].(state := w.stored)]
      decreases limit - attempt
    {
      var got := mem.Get(id);
      var m := got.value;
      OneMore(game, jobs, start, schedule, who, rounds);
      w, schedule := Step(game, jobs, w, who, rounds), schedule + [who];
      var r := Apply(game, m.state, jobs[who].req, rounds);
      OneMore(game, jobs, start, schedule, who, rounds);
      w, schedule := Step(game, jobs, w, who, rounds), schedule + [who];
      if !r.Done? {
        return Refusal(r), w, schedule, attempt + 1;
      }
      RunThen(game, jobs, start, schedule, peers(attempt, false), rounds);
      schedule := schedule + peers(attempt, false);
      w := Others(mem, id, game, jobs, w, peers(attempt, false), who, rounds);
      var err := mem.UpdateIfStateID(m.(state := r.value), r.value.stateID - 1);
      OneMore(game, jobs, start, schedule, who, rounds);
      w, schedule := Step(game, jobs, w, who, rounds), schedule + [who];
      if err.None? {
        return Moved(r.value), w, schedule, attempt + 1;
      }
      if attempt + 1 >= limit {
        return GaveUp, w, schedule, attempt + 1;
      }
      RunThen(game, jobs, start, schedule, peers(attempt, true), rounds);
      schedule := schedule + peers(attempt, true);
      w := Others(mem, id, game, jobs, w, peers(attempt, true), who, rounds);
      attempt := attempt + 1;
    }
  }

  lemma RunNone(game: Game, jobs: seq<Job>, w: World, rounds: nat)
    requires |w.procs| == |jobs|
    ensures Run(game, jobs, w, [], rounds) == w
  {
  }
}
