/**
 The containers the reducer writes in place, as heap objects: the active-player map, the per-seat count and limit maps,
 the Plugins map, and the same four maps in every Revert frame. State itself is a value that holds references to them,
 so copying a State shares its maps, and only ownContainers keeps the engine from writing into its caller's.
 */
module Containers {
  import opened Engine

  /** map[string]string */
  class Stages {
    var m: map<Pid, string>
    constructor (m: map<Pid, string>)
      ensures this.m == m
    {
      this.m := m;
    }
  }

  /** map[string]int */
  class Counts {
    var m: map<Pid, int>
    constructor (m: map<Pid, int>)
      ensures this.m == m
    {
      this.m := m;
    }
  }

  /** map[string]any */
  class Data {
    var m: map<string, Value>
    constructor (m: map<string, Value>)
      ensures this.m == m
    {
      this.m := m;
    }
  }

  /** The live maps, or those of one Revert frame; null is Go's nil map. */
  datatype Sets = Sets(active: Stages?, counts: Counts?, min: Counts?, max: Counts?)

  /** A State value without its undo stack. `rest` holds the plain fields; its own map fields stand for nothing. */
  datatype Box = Box(rest: State, live: Sets, plugins: Data?, stack: seq<Sets>)

  /** A State value: the boxed state and the undo snapshots, which have none of their own. */
  datatype Held = Held(box: Box, saved: seq<Box>)

  // ---- what a state means -----------------------------------------------------------------------------------

  function StagesOf(o: Stages?): StageMap
    reads o
  {
    if o == null then None else Some(o.m)
  }

  function CountsOf(o: Counts?): CountMap
    reads o
  {
    if o == null then None else Some(o.m)
  }

  function DataOf(o: Data?): Option<map<string, Value>>
    reads o
  {
    if o == null then None else Some(o.m)
  }

  function FrameOf(f: Sets): Frame
    reads Cells(f)
  {
    Frame(StagesOf(f.active), CountsOf(f.counts), CountsOf(f.min), CountsOf(f.max))
  }

  ghost function Cells(f: Sets): set<object> {
    {f.active, f.counts, f.min, f.max} - {null}
  }

  ghost function StackCells(stack: seq<Sets>): set<object> {
    set i, o | 0 <= i < |stack| && o in Cells(stack[i]) :: o
  }

  /** Every container a boxed state can reach. */
  ghost function Foot(b: Box): (r: set<object>)
    ensures Cells(b.live) <= r && (b.plugins != null ==> b.plugins in r)
  {
    Cells(b.live) + StackCells(b.stack) + ({b.plugins} - {null})
  }

  ghost function SavedFoot(saved: seq<Box>): set<object> {
    set i, o | 0 <= i < |saved| && o in Foot(saved[i]) :: o
  }

  function StackOf(stack: seq<Sets>): (r: seq<Frame>)
    reads StackCells(stack)
    ensures |r| == |stack| && forall i | 0 <= i < |stack| :: r[i] == FrameOf(stack[i])
  {
    seq(|stack|, i requires 0 <= i < |stack| reads StackCells(stack) => FrameOf(stack[i]))
  }

  function Opened(b: Box): (s: State)
    reads Foot(b)
    ensures s.ctx == b.rest.ctx.(active := s.ctx.active) && s.snapshots == []
  {
    var live := FrameOf(b.live);
    b.rest.(ctx := b.rest.ctx.(active := live.active), counts := live.counts, stageMin := live.min, stageMax := live.max,
            plugins := DataOf(b.plugins), stack := StackOf(b.stack), snapshots := [])
  }

  lemma OpenedActive(b: Box)
    ensures Opened(b).ctx.active == StagesOf(b.live.active) && Opened(b).plugins == DataOf(b.plugins)
  {
  }

  function OpenedAll(saved: seq<Box>): (r: seq<State>)
    reads SavedFoot(saved)
    ensures |r| == |saved| && forall i | 0 <= i < |saved| :: r[i] == Opened(saved[i])
  {
    seq(|saved|, i requires 0 <= i < |saved| reads SavedFoot(saved) => Opened(saved[i]))
  }

  /** The state a Held value denotes. */
  function Denoted(h: Held): State
    reads Foot(h.box), SavedFoot(h.saved)
  {
    Opened(h.box).(snapshots := OpenedAll(h.saved))
  }

  // ---- no sharing inside one state --------------------------------------------------------------------------

  ghost predicate OneFrame(f: Sets) {
    && (f.counts != null ==> f.counts != f.min && f.counts != f.max)
    && (f.min != null ==> f.min != f.max)
  }

  ghost predicate StackApart(stack: seq<Sets>) {
    && (forall i | 0 <= i < |stack| :: OneFrame(stack[i]))
    && (forall i, j | 0 <= i < j < |stack| :: Cells(stack[i]) !! Cells(stack[j]))
  }

  /** No map of the state is two of its maps at once. */
  ghost predicate Apart(b: Box) {
    OneFrame(b.live) && StackApart(b.stack) && Cells(b.live) !! StackCells(b.stack)
  }

  /** The live state is unshared and writes to it cannot reach a snapshot. */
  ghost predicate Good(h: Held) {
    Apart(h.box) && SavedFoot(h.saved) !! Foot(h.box)
  }

  // ---- copies -----------------------------------------------------------------------------------------------

  method CopyStages(o: Stages?) returns (r: Stages?)
    ensures o == null <==> r == null
    ensures r != null ==> fresh(r) && r.m == o.m
  {
    if o == null { return null; }
    r := new Stages(o.m);
  }

  method CopyCounts(o: Counts?) returns (r: Counts?)
    ensures o == null <==> r == null
    ensures r != null ==> fresh(r) && r.m == o.m
  {
    if o == null { return null; }
    r := new Counts(o.m);
  }

  method CopySets(f: Sets) returns (r: Sets)
    ensures OneFrame(r) && fresh(Cells(r)) && FrameOf(r) == FrameOf(f)
  {
    var active := CopyStages(f.active);
    var counts := CopyCounts(f.counts);
    var min := CopyCounts(f.min);
    var max := CopyCounts(f.max);
    r := Sets(active, counts, min, max);
  }

  lemma GrownCells(stack: seq<Sets>, f: Sets)
    ensures StackCells(stack + [f]) == StackCells(stack) + Cells(f)
  {
    var grown := stack + [f];
    forall o | o in StackCells(stack) + Cells(f) ensures o in StackCells(grown) {
      if o in Cells(f) {
        assert grown[|stack|] == f;
      } else {
        var i :| 0 <= i < |stack| && o in Cells(stack[i]);
        assert grown[i] == stack[i];
      }
    }
  }

  lemma GrownApart(stack: seq<Sets>, f: Sets)
    requires StackApart(stack) && OneFrame(f) && Cells(f) !! StackCells(stack)
    ensures StackApart(stack + [f]) && StackCells(stack + [f]) == StackCells(stack) + Cells(f)
  {
    GrownCells(stack, f);
  }

  lemma EmptyApart()
    ensures StackApart([]) && StackCells([]) == {}
  {
  }

  method CopyStack(stack: seq<Sets>) returns (r: seq<Sets>)
    ensures StackApart(r) && fresh(StackCells(r)) && StackOf(r) == StackOf(stack)
  {
    hide OneFrame, StackApart;
    r := [];
    EmptyApart();
    for i := 0 to |stack|
      invariant |r| == i && StackApart(r) && fresh(StackCells(r))
      invariant forall j | 0 <= j < i :: FrameOf(r[j]) == FrameOf(stack[j])
    {
      var f := CopySets(stack[i]);
      GrownApart(r, f);
      r := r + [f];
    }
  }

  /**
   ownContainers: a state that means the same and whose every container is new, so nothing written into it can be seen
   through any state that existed before.
   */
  method OwnContainers(b: Box) returns (r: Box)
    ensures Apart(r) && fresh(Foot(r)) && Opened(r) == old(Opened(b))
  {
    hide OneFrame, StackApart;
    var plugins: Data? := null;
    if b.plugins != null {
      plugins := new Data(b.plugins.m);
    }
    var live := CopySets(b.live);
    var stack := CopyStack(b.stack);
    r := Box(b.rest, live, plugins, stack);
  }

  lemma ShrunkCells(stack: seq<Sets>)
    requires stack != []
    ensures StackCells(stack) == StackCells(stack[..|stack| - 1]) + Cells(stack[|stack| - 1])
  {
    GrownCells(stack[..|stack| - 1], stack[|stack| - 1]);
    assert stack[..|stack| - 1] + [stack[|stack| - 1]] == stack;
  }
}
