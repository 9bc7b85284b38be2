/**
 modules/ccg/priority.go: the pass-loop that lets players respond to pending effects. A window rotates priority over a
 fixed order, an action starts the count of passes again, and the window closes once everybody left in it has passed in
 unbroken succession. With a stage set, each change of holder queues an active-player configuration for the engine.

 Consent is what the window is for: it must not close over a player who has not passed since the last action.
 */
module Priority {
  import opened Engine
  import opened Transitions
  import opened Reducer

  /** PriorityState. */
  datatype Window = Window(open: bool, order: seq<Pid>, holderIdx: int, passes: int, stage: string)

  const CLOSED := Window(false, [], 0, 0, "")

  datatype PriorityError = PriorityOpen | PriorityClosed | NotHolder | BadOrder | NotInOrder

  /** What one call leaves: the window, the events it queued, whether it closed the window, and its error. */
  datatype Reply = Reply(w: Window, queued: seq<Event>, closed: bool, error: Option<PriorityError>)

  function Holder(w: Window): Pid {
    if !w.open || w.holderIdx < 0 || w.holderIdx >= |w.order| then "" else w.order[w.holderIdx]
  }

  /** The configuration that lets exactly the holder move, in the window's stage. */
  function HolderGate(w: Window): Cfg {
    EMPTY_CFG.(seats := map[Holder(w) := w.stage])
  }

  function Gates(w: Window): seq<Event> {
    if w.stage == "" then [] else [SetActivePlayers(HolderGate(w))]
  }

  function Closing(w: Window): Reply {
    Reply(CLOSED, if w.stage == "" then [] else [SetActivePlayers(EMPTY_CFG)], true, None)
  }

  predicate GoodOrder(players: seq<Pid>) {
    players != [] && "" !in players && Distinct(players)
  }

  function Failed(w: Window, e: PriorityError): Reply {
    Reply(w, [], false, Some(e))
  }

  /** OpenWindow. */
  function OpenWindow(w: Window, players: seq<Pid>, stage: string): Reply {
    if w.open then Failed(w, PriorityOpen)
    else if !GoodOrder(players) then Failed(w, BadOrder)
    else
      var begun := Window(true, players, 0, 0, stage);
      Reply(begun, Gates(begun), false, None)
  }

  /** Priority moves to the next player of the order. */
  function Rotated(w: Window): Window
    requires w.order != []
  {
    w.(holderIdx := GoMod(w.holderIdx + 1, |w.order|))
  }

  /** Pass. An open window always has players, see WindowOk. */
  function Pass(w: Window, pid: Pid): Reply {
    if !w.open then Failed(w, PriorityClosed)
    else if pid != Holder(w) || w.order == [] then Failed(w, NotHolder)
    else
      var passed := w.(passes := w.passes + 1);
      if passed.passes >= |w.order| then Closing(w)
      else Reply(Rotated(passed), Gates(Rotated(passed)), false, None)
  }

  /** ActionTaken. */
  function ActionTaken(w: Window, pid: Pid, retain: bool): Reply {
    if !w.open then Failed(w, PriorityClosed)
    else if pid != Holder(w) || w.order == [] then Failed(w, NotHolder)
    else
      var acted := w.(passes := 0);
      if retain then Reply(acted, [], false, None) else Reply(Rotated(acted), Gates(Rotated(acted)), false, None)
  }

  /** The window without one seat, the cursor still on the holder or, if they left, on whoever follows. */
  function Shrunk(w: Window, idx: int): Window
    requires 0 <= idx < |w.order| && |w.order| >= 2
  {
    var order := w.order[..idx] + w.order[idx + 1..];
    var at := if idx < w.holderIdx then w.holderIdx - 1 else w.holderIdx;
    w.(order := order, holderIdx := GoMod(at, |order|))
  }

  /** Drop. */
  function Drop(w: Window, player: Pid): Reply {
    if !w.open then Failed(w, PriorityClosed)
    else
      var idx := IndexOf(w.order, player);
      if idx < 0 then Failed(w, NotInOrder)
      else if |w.order| == 1 || w.passes >= |w.order| - 1 then Closing(w)
      else Reply(Shrunk(w, idx), if idx == w.holderIdx then Gates(Shrunk(w, idx)) else [], false, None)
  }

  /** CloseWindow. */
  function CloseWindow(w: Window): Reply {
    if !w.open then Reply(w, [], false, None) else Closing(w)
  }

  /** The calls a game makes on its window. */
  datatype Op =
    | Opens(players: seq<Pid>, stage: string) | Passes(pid: Pid) | Acts(pid: Pid, retain: bool) | Drops(player: Pid)
    | Closes | Resets

  function Perform(w: Window, op: Op): Reply {
    match op
    case Opens(players, stage) => OpenWindow(w, players, stage)
    case Passes(pid) => Pass(w, pid)
    case Acts(pid, retain) => ActionTaken(w, pid, retain)
    case Drops(player) => Drop(w, player)
    case Closes => CloseWindow(w)
    case Resets => Reply(CLOSED, [], false, None)
  }

  // ---- the object itself ------------------------------------------------------------------------------------

  /** What a MoveContext gives these methods: who moves, and the event queue. */
  class MoveContext {
    const pid: Pid
    var events: seq<Event>
    constructor (pid: Pid)
      ensures this.pid == pid && events == []
    {
      this.pid, events := pid, [];
    }
  }

  class PriorityState {
    var open: bool
    var order: seq<Pid>
    var holderIdx: int
    var passes: int
    var stage: string

    constructor ()
      ensures Value() == CLOSED
    {
      open, order, holderIdx, passes, stage := false, [], 0, 0, "";
    }

    function Value(): Window
      reads this
    {
      Window(open, order, holderIdx, passes, stage)
    }

    method Assign(w: Window)
      modifies this
      ensures Value() == w
    {
      open, order, holderIdx, passes, stage := w.open, w.order, w.holderIdx, w.passes, w.stage;
    }

    method GateHolder(mc: MoveContext)
      modifies mc
      ensures mc.events == old(mc.events) + Gates(Value())
    {
      if stage != "" {
        mc.events := mc.events + [SetActivePlayers(EMPTY_CFG.(seats := map[Holder(Value()) := stage]))];
      }
    }

    method Close(mc: MoveContext)
      modifies this, mc
      ensures Value() == CLOSED && mc.events == old(mc.events) + Closing(old(Value())).queued
    {
      var wired := stage != "";
      Assign(CLOSED);
      if wired {
        mc.events := mc.events + [SetActivePlayers(EMPTY_CFG)];
      }
    }

    method OpenWindow(mc: MoveContext, players: seq<Pid>, newStage: string) returns (err: Option<PriorityError>)
      modifies this, mc
      ensures
        var r := Perform(old(Value()), Opens(players, newStage));
        Value() == r.w && mc.events == old(mc.events) + r.queued && err == r.error
    {
      if open { return Some(PriorityOpen); }
      if players == [] { return Some(BadOrder); }
      var seen: set<Pid> := {};
      for i := 0 to |players|
        invariant seen == set p | p in players[..i]
        invariant "" !in players[..i] && forall a, b | 0 <= a < b < i :: players[a] != players[b]
      {
        if players[i] == "" || players[i] in seen { return Some(BadOrder); }
        seen := seen + {players[i]};
      }
      assert players[..|players|] == players;
      Assign(Window(true, players, 0, 0, newStage));
      GateHolder(mc);
      err := None;
    }

    method Pass(mc: MoveContext) returns (closed: bool, err: Option<PriorityError>)
      requires open ==> order != []
      modifies this, mc
      ensures
        var r := Perform(old(Value()), Passes(mc.pid));
        Value() == r.w && mc.events == old(mc.events) + r.queued && closed == r.closed && err == r.error
    {
      if !open { return false, Some(PriorityClosed); }
      if mc.pid != Holder(Value()) { return false, Some(NotHolder); }
      passes := passes + 1;
      if passes >= |order| {
        Close(mc);
        return true, None;
      }
      holderIdx := GoMod(holderIdx + 1, |order|);
      GateHolder(mc);
      return false, None;
    }

    method ActionTaken(mc: MoveContext, retain: bool) returns (err: Option<PriorityError>)
      requires open ==> order != []
      modifies this, mc
      ensures
        var r := Perform(old(Value()), Acts(mc.pid, retain));
        Value() == r.w && mc.events == old(mc.events) + r.queued && err == r.error
    {
      if !open { return Some(PriorityClosed); }
      if mc.pid != Holder(Value()) { return Some(NotHolder); }
      passes := 0;
      if !retain {
        holderIdx := GoMod(holderIdx + 1, |order|);
        GateHolder(mc);
      }
      err := None;
    }

    method Drop(mc: MoveContext, player: Pid) returns (closed: bool, err: Option<PriorityError>)
      modifies this, mc
      ensures
        var r := Perform(old(Value()), Drops(player));
        Value() == r.w && mc.events == old(mc.events) + r.queued && closed == r.closed && err == r.error
    {
      if !open { return false, Some(PriorityClosed); }
      var idx := 0;
      while idx < |order| && order[idx] != player
        invariant 0 <= idx <= |order| && player !in order[..idx]
      {
        idx := idx + 1;
      }
      if idx == |order| {
        assert order[..idx] == order;
        return false, Some(NotInOrder);
      }
      FirstIndex(order, player, idx);
      var held := idx == holderIdx;
      order := order[..idx] + order[idx + 1..];
      if |order| == 0 || passes >= |order| {
        Close(mc);
        return true, None;
      }
      if idx < holderIdx {
        holderIdx := holderIdx - 1;
      }
      holderIdx := GoMod(holderIdx, |order|);
      if held {
        GateHolder(mc);
      }
      return false, None;
    }

    method CloseWindow(mc: MoveContext)
      modifies this, mc
      ensures
        var r := Perform(old(Value()), Closes);
        Value() == r.w && mc.events == old(mc.events) + r.queued
    {
      if open { Close(mc); }
    }

    method Reset()
      modifies this
      ensures Value() == CLOSED
    {
      Assign(CLOSED);
    }
  }

  lemma FirstIndex(xs: seq<Pid>, x: Pid, i: int)
    requires 0 <= i < |xs| && xs[i] == x && x !in xs[..i]
    ensures IndexOf(xs, x) == i
  {
  }

  // ---- runs -------------------------------------------------------------------------------------------------

  /** A window with what really happened: who passed since the last action, and the last configuration queued. */
  datatype Track = Track(w: Window, passers: seq<Pid>, gate: Option<Cfg>)

  function LastGate(gate: Option<Cfg>, queued: seq<Event>): Option<Cfg> {
    if queued == [] || !queued[|queued| - 1].SetActivePlayers? then gate else Some(queued[|queued| - 1].cfg)
  }

  function Without(passers: seq<Pid>, player: Pid): seq<Pid> {
    var i := IndexOf(passers, player);
    if i < 0 then passers else passers[..i] + passers[i + 1..]
  }

  function Follow(t: Track, op: Op): Track {
    var r := Perform(t.w, op);
    var passers :=
      if r.error.Some? then t.passers
      else match op
        case Opens(_, _) => []
        case Passes(pid) => t.passers + [pid]
        case Acts(_, _) => []
        case Drops(player) => Without(t.passers, player)
        case _ => [];
    Track(r.w, passers, LastGate(t.gate, r.queued))
  }

  function FollowAll(t: Track, ops: seq<Op>): Track
    decreases |ops|
  {
    if ops == [] then t else FollowAll(Follow(t, ops[0]), ops[1..])
  }

  /** The index so many seats before another, going round. */
  function Back(n: int, i: int, d: int): int {
    if i >= d then i - d else i - d + n
  }

  predicate WindowOk(w: Window) {
    if w.open then GoodOrder(w.order) && 0 <= w.holderIdx < |w.order| && 0 <= w.passes < |w.order| else w == CLOSED
  }

  /** Those who passed since the last action are exactly the Passes seats before the holder, in that order. */
  predicate Consent(w: Window, passers: seq<Pid>) {
    w.open ==>
      |passers| == w.passes &&
      forall d | 1 <= d <= w.passes ::
        0 <= Back(|w.order|, w.holderIdx, d) < |w.order| && passers[w.passes - d] == w.order[Back(|w.order|, w.holderIdx, d)]
  }

  /** With a stage set, the last configuration queued is the one that lets exactly the holder move. */
  predicate Gated(w: Window, gate: Option<Cfg>) {
    w.open && w.stage != "" ==> gate == Some(HolderGate(w))
  }

  predicate TrackOk(t: Track) {
    WindowOk(t.w) && Consent(t.w, t.passers) && Gated(t.w, t.gate)
  }

  /** Nobody who passed since the last action is dropped. */
  predicate FairDrop(t: Track, op: Op) {
    op.Drops? && t.w.open ==> op.player !in t.passers
  }

  predicate FairRun(t: Track, ops: seq<Op>)
    decreases |ops|
  {
    ops != [] ==> FairDrop(t, ops[0]) && FairRun(Follow(t, ops[0]), ops[1..])
  }

  /** Whoever is still in a window that a Pass or a Drop closes has passed since the last action. */
  predicate ClosesByConsent(t: Track, op: Op) {
    (op.Passes? || op.Drops?) && Perform(t.w, op).closed ==>
      forall p | p in t.w.order && !(op.Drops? && p == op.player) :: p in Follow(t, op).passers
  }

  predicate AllCloseByConsent(t: Track, ops: seq<Op>)
    decreases |ops|
  {
    ops != [] ==> ClosesByConsent(t, ops[0]) && AllCloseByConsent(Follow(t, ops[0]), ops[1..])
  }

  // ---- one step ---------------------------------------------------------------------------------------------

  lemma RotatedAt(w: Window)
    requires WindowOk(w) && w.open
    ensures Rotated(w).holderIdx == if w.holderIdx + 1 == |w.order| then 0 else w.holderIdx + 1
  {
  }

  lemma PassKeeps(t: Track, pid: Pid)
    requires TrackOk(t)
    ensures TrackOk(Follow(t, Passes(pid))) && ClosesByConsent(t, Passes(pid))
  {
    var w, r := t.w, Pass(t.w, pid);
    if w.open && pid == Holder(w) {
      RotatedAt(w);
      var n, h := |w.order|, w.holderIdx;
      var passers := t.passers + [pid];
      if r.closed {
        forall p | p in w.order ensures p in passers {
          var i :| 0 <= i < n && w.order[i] == p;
          if i != h {
            var d := if i < h then h - i else h - i + n;
            assert i == Back(n, h, d) && passers[w.passes - d] == p;
          } else {
            assert passers[|t.passers|] == p;
          }
        }
      } else {
        forall d | 1 <= d <= r.w.passes
          ensures 0 <= Back(n, r.w.holderIdx, d) < n
          ensures passers[r.w.passes - d] == w.order[Back(n, r.w.holderIdx, d)]
        {
          if d > 1 { assert Back(n, r.w.holderIdx, d) == Back(n, h, d - 1); }
        }
      }
    }
  }

  lemma ActKeeps(t: Track, pid: Pid, retain: bool)
    requires TrackOk(t)
    ensures TrackOk(Follow(t, Acts(pid, retain)))
  {
    if t.w.open { RotatedAt(t.w.(passes := 0)); }
  }

  /** Where a dropped seat's neighbours go. */
  lemma ShrunkAt(w: Window, idx: int, j: int)
    requires 0 <= idx < |w.order| && |w.order| >= 2 && 0 <= j < |w.order| && j != idx
    ensures |Shrunk(w, idx).order| == |w.order| - 1
    ensures Shrunk(w, idx).order[if j < idx then j else j - 1] == w.order[j]
  {
  }

  lemma ShrunkHolder(w: Window, idx: int)
    requires WindowOk(w) && w.open && 0 <= idx < |w.order| && |w.order| >= 2
    ensures
      var s, n := Shrunk(w, idx), |w.order|;
      s.holderIdx == if idx < w.holderIdx then w.holderIdx - 1
                     else if w.holderIdx == n - 1 then 0 else w.holderIdx
  {
    hide GoMod;
    WrapsOnce(if idx < w.holderIdx then w.holderIdx - 1 else w.holderIdx, |w.order| - 1);
  }

  lemma WrapsOnce(i: int, n: int)
    requires 0 <= i <= n && n > 0
    ensures GoMod(i, n) == if i == n then 0 else i
  {
  }

  lemma ShrunkOk(w: Window, idx: int)
    requires WindowOk(w) && w.open && 0 <= idx < |w.order| && |w.order| >= 2 && w.passes < |w.order| - 1
    ensures WindowOk(Shrunk(w, idx)) && (idx != w.holderIdx ==> Holder(Shrunk(w, idx)) == Holder(w))
  {
    ShrunkHolder(w, idx);
    var s := Shrunk(w, idx);
    forall i, j | 0 <= i < j < |s.order| ensures s.order[i] != s.order[j] {
      var i', j' := if i < idx then i else i + 1, if j < idx then j else j + 1;
      assert w.order[i'] != w.order[j'];
    }
  }

  /** The dropped seat lies outside the block of passers before the holder, so the block moves with the holder. */
  lemma BlockMoves(w: Window, idx: int, d: int)
    requires WindowOk(w) && w.open && 0 <= idx < |w.order| && |w.order| >= 2 && 1 <= d <= w.passes < |w.order| - 1
    requires forall e | 1 <= e <= w.passes :: Back(|w.order|, w.holderIdx, e) != idx
    ensures
      var s, n := Shrunk(w, idx), |w.order|;
      0 <= Back(n - 1, s.holderIdx, d) < n - 1 &&
      s.order[Back(n - 1, s.holderIdx, d)] == w.order[Back(n, w.holderIdx, d)]
  {
    var n, h := |w.order|, w.holderIdx;
    ShrunkHolder(w, idx);
    ShrunkAt(w, idx, Back(n, h, d));
    if idx < h {
      assert Back(n, h, h - idx) == idx;
    } else if idx > h {
      assert Back(n, h, h - idx + n) == idx;
    }
  }

  lemma PassersAre(t: Track, idx: int)
    requires TrackOk(t) && t.w.open && 0 <= idx < |t.w.order|
    ensures t.w.order[idx] in t.passers <==> exists d :: 1 <= d <= t.w.passes && Back(|t.w.order|, t.w.holderIdx, d) == idx
  {
    var w, n := t.w, |t.w.order|;
    if w.order[idx] in t.passers {
      var k :| 0 <= k < |t.passers| && t.passers[k] == w.order[idx];
      var d := w.passes - k;
      assert t.passers[w.passes - d] == w.order[Back(n, w.holderIdx, d)];
    }
    if d :| 1 <= d <= w.passes && Back(n, w.holderIdx, d) == idx {
      assert t.passers[w.passes - d] == w.order[idx];
    }
  }

  lemma ShrunkConsents(t: Track, idx: int)
    requires TrackOk(t) && t.w.open && 0 <= idx < |t.w.order| && t.w.order[idx] !in t.passers
    requires |t.w.order| >= 2 && t.w.passes < |t.w.order| - 1
    ensures WindowOk(Shrunk(t.w, idx)) && Consent(Shrunk(t.w, idx), t.passers)
    ensures idx != t.w.holderIdx ==> Holder(Shrunk(t.w, idx)) == Holder(t.w)
  {
    var w, s := t.w, Shrunk(t.w, idx);
    ShrunkOk(w, idx);
    PassersAre(t, idx);
    forall d | 1 <= d <= w.passes
      ensures 0 <= Back(|s.order|, s.holderIdx, d) < |s.order|
      ensures t.passers[w.passes - d] == s.order[Back(|s.order|, s.holderIdx, d)]
    {
      BlockMoves(w, idx, d);
    }
  }

  lemma DropKeeps(t: Track, player: Pid)
    requires TrackOk(t) && FairDrop(t, Drops(player))
    ensures TrackOk(Follow(t, Drops(player))) && ClosesByConsent(t, Drops(player))
  {
    var w := t.w;
    var idx := IndexOf(w.order, player);
    if w.open && idx >= 0 {
      var r, n, h := Drop(w, player), |w.order|, w.holderIdx;
      PassersAre(t, idx);
      assert Without(t.passers, player) == t.passers;
      if r.closed {
        forall p | p in w.order && p != player ensures p in t.passers {
          var i :| 0 <= i < n && w.order[i] == p;
          DropClosesOver(t, idx, i);
        }
      } else {
        ShrunkConsents(t, idx);
      }
    }
  }

  /** When all but one have passed and the dropped player has not, everybody else has. */
  lemma DropClosesOver(t: Track, idx: int, i: int)
    requires TrackOk(t) && t.w.open && 0 <= idx < |t.w.order| && 0 <= i < |t.w.order| && i != idx
    requires t.w.order[idx] !in t.passers && t.w.passes >= |t.w.order| - 1
    ensures t.w.order[i] in t.passers
  {
    var w, n, h := t.w, |t.w.order|, t.w.holderIdx;
    PassersAre(t, idx);
    PassersAre(t, i);
    var d := if idx < h then h - idx else h - idx + n;
    assert idx == h || Back(n, h, d) == idx;
    var e := if i < h then h - i else h - i + n;
    assert Back(n, h, e) == i;
  }

  lemma OpenKeeps(t: Track, players: seq<Pid>, stage: string)
    requires TrackOk(t)
    ensures TrackOk(Follow(t, Opens(players, stage)))
  {
  }

  lemma FollowKeeps(t: Track, op: Op)
    requires TrackOk(t) && FairDrop(t, op)
    ensures TrackOk(Follow(t, op)) && ClosesByConsent(t, op)
  {
    match op
    case Opens(players, stage) => OpenKeeps(t, players, stage);
    case Passes(pid) => PassKeeps(t, pid);
    case Acts(pid, retain) => ActKeeps(t, pid, retain);
    case Drops(player) => DropKeeps(t, player);
    case Closes =>
    case Resets =>
  }

  // ---- main results -----------------------------------------------------------------------------------------

  /** The state a protocol starts from: no window, nobody has passed, whatever gate the match had. */
  function Fresh(gate: Option<Cfg>): Track {
    Track(CLOSED, [], gate)
  }

  /**
   Priority consent: from the closed window, over every run of the protocol that drops only players who have not passed
   since the last action, the passers are the Passes seats before the holder, every window closed by a pass or a drop had
   the consent of all who were left in it, and the last configuration queued always gates the holder.
   */
  lemma ConsentOverRuns(gate: Option<Cfg>, ops: seq<Op>)
    requires FairRun(Fresh(gate), ops)
    ensures TrackOk(FollowAll(Fresh(gate), ops)) && AllCloseByConsent(Fresh(gate), ops)
  {
    ConsentFrom(Fresh(gate), ops);
  }

  lemma {:induction false} ConsentFrom(t: Track, ops: seq<Op>)
    requires TrackOk(t) && FairRun(t, ops)
    ensures TrackOk(FollowAll(t, ops)) && AllCloseByConsent(t, ops)
    decreases |ops|
  {
    hide Follow, TrackOk, ClosesByConsent, FairDrop;
    if ops != [] {
      FollowKeeps(t, ops[0]);
      ConsentFrom(Follow(t, ops[0]), ops[1..]);
    }
  }

  /** A drop leaves a window that still counts consent, or closes one only over players who passed. */
  predicate DropSound(t: Track, player: Pid) {
    TrackOk(Follow(t, Drops(player))) && ClosesByConsent(t, Drops(player))
  }

  /** Exactly which drops are sound: those of players who have not passed since the last action. */
  lemma DropSoundExactly(t: Track, player: Pid)
    requires TrackOk(t) && t.w.open && player in t.w.order
    ensures DropSound(t, player) <==> player !in t.passers
  {
    if player !in t.passers {
      DropKeeps(t, player);
    } else {
      var w, r := t.w, Drop(t.w, player);
      var idx := IndexOf(w.order, player);
      PassersAre(t, idx);
      PassersAre(t, w.holderIdx);
      assert Holder(w) !in t.passers && Holder(w) != player;
      if r.closed {
        assert Holder(w) in w.order && Holder(w) !in Without(t.passers, player);
      } else {
        assert |Without(t.passers, player)| == |t.passers| - 1;
      }
    }
  }

  /** A player can tell by the order alone: the passers are those at most Passes seats before the holder. */
  lemma PassedBySeat(t: Track, idx: int)
    requires TrackOk(t) && t.w.open && 0 <= idx < |t.w.order| && idx != t.w.holderIdx
    ensures
      var n, h := |t.w.order|, t.w.holderIdx;
      t.w.order[idx] in t.passers <==> (if idx < h then h - idx else h - idx + n) <= t.w.passes
  {
    PassersAre(t, idx);
    var n, h := |t.w.order|, t.w.holderIdx;
    var d := if idx < h then h - idx else h - idx + n;
    assert Back(n, h, d) == idx;
  }

  /** With three players, two passes and a drop of one who passed, the window closes over the third. */
  lemma DropOfPasserClosesEarly(a: Pid, b: Pid, c: Pid, stage: string)
    requires GoodOrder([a, b, c])
    ensures
      var t := FollowAll(Fresh(None), [Opens([a, b, c], stage), Passes(a), Passes(b)]);
      TrackOk(t) && Holder(t.w) == c && t.passers == [a, b] && Drop(t.w, a).closed
  {
    var t0 := Fresh(None);
    var o1, o2, o3 := Opens([a, b, c], stage), Passes(a), Passes(b);
    var t1 := Follow(t0, o1);
    var t2 := Follow(t1, o2);
    var t3 := Follow(t2, o3);
    FollowKeeps(t0, o1);
    FollowKeeps(t1, o2);
    FollowKeeps(t2, o3);
    assert [o1, o2, o3][1..] == [o2, o3] && [o2, o3][1..] == [o3] && [o3][1..] == [];
    assert FollowAll(t2, [o3]) == t3;
    assert t3.passers == [a, b];
  }

  /** Once the engine installs the last queued configuration, exactly the holder is authorized to move. */
  lemma OnlyHolderMayMove(t: Track, s: State, pid: Pid)
    requires TrackOk(t) && t.w.open && t.w.stage != ""
    ensures
      var installed := Install(s, t.gate.value);
      AuthorizedStage(installed.ctx, pid).1.None? <==> pid == Holder(t.w)
  {
    var seats := map[Holder(t.w) := t.w.stage];
    assert Activated(s.ctx, t.gate.value) == seats;
    assert Holder(t.w) in seats;
  }

  /** A wired window that closes hands the move back to the current player. */
  lemma ClosingRestoresDefault(w: Window, s: State, pid: Pid)
    requires w.stage != ""
    ensures
      var last := LastGate(None, Closing(w).queued);
      last.Some? && (AuthorizedStage(Install(s, last.value).ctx, pid).1.None? <==> pid == s.ctx.currentPlayer)
  {
    assert Activated(s.ctx, EMPTY_CFG) == map[];
  }
}
