/**
 A priority window as a queue of the players still asked, the holder first: passing and acting send the holder to the back,
 dropping takes one player out, and the window closes once as many passes have been made in a row as there are players.
 */
module PassOrder {
  import opened Engine
  import opened Transitions
  import opened Priority

  /** The players of an open window in the order they will be asked. */
  function Asked(w: Window): seq<Pid>
    requires WindowOk(w) && w.open
  {
    w.order[w.holderIdx..] + w.order[..w.holderIdx]
  }

  /** With a stage, the configuration under which only this player may move. */
  predicate Announced(queued: seq<Event>, stage: string, pid: Pid) {
    queued == if stage == "" then [] else [SetActivePlayers(EMPTY_CFG.(seats := map[pid := stage]))]
  }

  /** With a stage, the configuration that goes back to the player on turn alone. */
  predicate Withdrawn(queued: seq<Event>, stage: string) {
    queued == if stage == "" then [] else [SetActivePlayers(EMPTY_CFG)]
  }

  predicate Unmoved(w: Window, r: Reply) {
    r.w == w && r.queued == [] && !r.closed
  }

  /** A window opens over one or more different, named players, the first of them the holder; one at a time. */
  lemma OpensExactly(w: Window, players: seq<Pid>, stage: string)
    requires WindowOk(w)
    ensures
      var r := Perform(w, Opens(players, stage));
      && (r.error == Some(PriorityOpen) <==> w.open)
      && (r.error == Some(BadOrder) <==>
            !w.open && (players == [] || exists i | 0 <= i < |players| :: players[i] == "" || players[i] in players[..i]))
      && (r.error.Some? ==> r.error in {Some(PriorityOpen), Some(BadOrder)} && Unmoved(w, r))
      && (r.error.None? ==>
            && WindowOk(r.w) && r.w.open && Asked(r.w) == players && r.w.passes == 0 && r.w.stage == stage && !r.closed
            && Announced(r.queued, stage, players[0]))
  {
    if Perform(w, Opens(players, stage)).error == Some(BadOrder) && players != [] && "" !in players {
      var i, j :| 0 <= i < j < |players| && players[i] == players[j];
      assert players[j] == players[..j][i];
    }
  }

  /** The holder passes: the last of as many passes as there are players closes the window, any other asks the next player. */
  lemma PassesExactly(w: Window, pid: Pid)
    requires WindowOk(w)
    ensures
      var r := Perform(w, Passes(pid));
      && (r.error == Some(PriorityClosed) <==> !w.open)
      && (r.error == Some(NotHolder) <==> w.open && pid != Asked(w)[0])
      && (r.error.Some? ==> r.error in {Some(PriorityClosed), Some(NotHolder)} && Unmoved(w, r))
      && (r.error.None? ==>
            && (r.closed <==> w.passes + 1 == |Asked(w)|)
            && if r.closed then !r.w.open && WindowOk(r.w) && Withdrawn(r.queued, w.stage)
               else
                 && WindowOk(r.w) && r.w.open && Asked(r.w) == Asked(w)[1..] + [pid] && r.w.passes == w.passes + 1
                 && r.w.stage == w.stage && Announced(r.queued, w.stage, Asked(w)[1]))
  {
    if w.open {
      HolderFirst(w);
      if pid == Holder(w) {
        GoesRound(w);
        GoesRound(w.(passes := 0));
      }
    }
  }

  /** The holder acts: the passes made so far no longer count, and the holder is asked again at once or last of all. */
  lemma ActsExactly(w: Window, pid: Pid, retain: bool)
    requires WindowOk(w)
    ensures
      var r := Perform(w, Acts(pid, retain));
      && (r.error == Some(PriorityClosed) <==> !w.open)
      && (r.error == Some(NotHolder) <==> w.open && pid != Asked(w)[0])
      && (r.error.Some? ==> r.error in {Some(PriorityClosed), Some(NotHolder)} && Unmoved(w, r))
      && (r.error.None? ==>
            && WindowOk(r.w) && r.w.open && r.w.passes == 0 && r.w.stage == w.stage && !r.closed
            && if retain then Asked(r.w) == Asked(w) && r.queued == []
               else
                 && Asked(r.w) == Asked(w)[1..] + [pid]
                 && Announced(r.queued, w.stage, Asked(r.w)[0]))
  {
    if w.open {
      HolderFirst(w);
      if pid == Holder(w) { GoesRound(w.(passes := 0)); }
    }
  }

  /**
   A player is dropped: the others keep their order and their passes, and the next in line holds priority if the holder left.
   The window closes when nobody is left or as many have passed as are left.
   */
  lemma DropsExactly(w: Window, player: Pid)
    requires WindowOk(w)
    ensures
      var r := Perform(w, Drops(player));
      && (r.error == Some(PriorityClosed) <==> !w.open)
      && (r.error == Some(NotInOrder) <==> w.open && player !in Asked(w))
      && (r.error.Some? ==> r.error in {Some(PriorityClosed), Some(NotInOrder)} && Unmoved(w, r))
      && (r.error.None? ==>
            && (r.closed <==> |Asked(w)| == 1 || w.passes == |Asked(w)| - 1)
            && if r.closed then !r.w.open && WindowOk(r.w) && Withdrawn(r.queued, w.stage)
               else
                 && WindowOk(r.w) && r.w.open && r.w.passes == w.passes && r.w.stage == w.stage
                 && (exists i | 0 <= i < |Asked(w)| ::
                       Asked(w)[i] == player && Asked(r.w) == Asked(w)[..i] + Asked(w)[i + 1..])
                 && if player == Asked(w)[0] then Announced(r.queued, w.stage, Asked(w)[1]) else r.queued == [])
  {
    if w.open {
      HolderFirst(w);
      var idx := IndexOf(w.order, player);
      assert player in Asked(w) <==> player in w.order;
      hide Shrunk, Distinct;
      if idx >= 0 && |w.order| > 1 && w.passes < |w.order| - 1 {
        DropsOut(w, idx);
        ShrunkRest(w, idx);
      }
    }
  }

  lemma HolderFirst(w: Window)
    requires WindowOk(w) && w.open
    ensures Holder(w) == Asked(w)[0] == w.order[w.holderIdx] && |Asked(w)| == |w.order|
  {
  }

  lemma GoesRound(w: Window)
    requires WindowOk(w) && w.open
    ensures
      var r := Rotated(w);
      WindowOk(r) && Asked(r) == Asked(w)[1..] + [Holder(w)] && Holder(r) == Asked(r)[0]
    ensures |w.order| > 1 ==> Holder(Rotated(w)) == Asked(w)[1]
  {
    RotatedAt(w);
    var h, n := w.holderIdx, |w.order|;
    if h + 1 < n {
      assert w.order[..h + 1] == w.order[..h] + [w.order[h]];
      assert Asked(w)[1..] == w.order[h + 1..] + w.order[..h];
    } else {
      assert Asked(w)[1..] == w.order[..h];
      assert w.order == w.order[..h] + [w.order[h]];
    }
  }

  lemma ShrunkRest(w: Window, idx: int)
    requires 0 <= idx < |w.order| && |w.order| >= 2
    ensures Shrunk(w, idx) == w.(order := w.order[..idx] + w.order[idx + 1..], holderIdx := Shrunk(w, idx).holderIdx)
  {
  }

  /** The list from a place on, and then from its start. */
  function Turned(xs: seq<Pid>, h: int): seq<Pid>
    requires 0 <= h <= |xs|
  {
    xs[h..] + xs[..h]
  }

  lemma DropsOut(w: Window, idx: int)
    requires WindowOk(w) && w.open && 0 <= idx < |w.order| && |w.order| >= 2 && w.passes < |w.order| - 1
    ensures
      var s, i := Shrunk(w, idx), if idx < w.holderIdx then |w.order| - w.holderIdx + idx else idx - w.holderIdx;
      && WindowOk(s) && Asked(w)[i] == w.order[idx] && Asked(s) == Asked(w)[..i] + Asked(w)[i + 1..]
      && Holder(s) == Asked(s)[0]
  {
    hide GoMod, Distinct, IndexOf, Shrunk, GoodOrder, Turned;
    ShrunkOk(w, idx);
    ShrunkHolder(w, idx);
    ShrunkRest(w, idx);
    var s := Shrunk(w, idx);
    AskedTurned(w);
    AskedTurned(s);
    if idx < w.holderIdx { CutBehind(w.order, w.holderIdx, idx); } else { CutAhead(w.order, w.holderIdx, idx); }
    HolderFirst(s);
  }

  lemma AskedTurned(w: Window)
    requires WindowOk(w) && w.open
    ensures Asked(w) == Turned(w.order, w.holderIdx)
  {
  }

  /** Taking an element out of a list and out of the list turned round. */
  lemma CutBehind(xs: seq<Pid>, h: int, idx: int)
    requires 0 <= idx < h < |xs|
    ensures
      var cut, turned, i := xs[..idx] + xs[idx + 1..], Turned(xs, h), |xs| - h + idx;
      |turned| == |xs| && turned[i] == xs[idx] && Turned(cut, h - 1) == turned[..i] + turned[i + 1..]
  {
    var cut, turned, i := xs[..idx] + xs[idx + 1..], xs[h..] + xs[..h], |xs| - h + idx;
    assert cut[h - 1..] == xs[h..] && cut[..h - 1] == xs[..idx] + xs[idx + 1..h];
    assert turned[..i] == xs[h..] + xs[..idx] && turned[i + 1..] == xs[idx + 1..h];
  }

  lemma CutAhead(xs: seq<Pid>, h: int, idx: int)
    requires 0 <= h <= idx < |xs|
    ensures
      var cut, turned, i := xs[..idx] + xs[idx + 1..], Turned(xs, h), idx - h;
      && |turned| == |xs| && turned[i] == xs[idx]
      && Turned(cut, if h == |cut| then 0 else h) == turned[..i] + turned[i + 1..]
  {
    var cut, turned, i := xs[..idx] + xs[idx + 1..], xs[h..] + xs[..h], idx - h;
    assert cut[h..] == xs[h..idx] + xs[idx + 1..] && cut[..h] == xs[..h];
    assert turned[..i] == xs[h..idx] && turned[i + 1..] == xs[idx + 1..] + xs[..h];
    assert h == |cut| ==> Turned(cut, 0) == cut == cut[h..] + cut[..h];
  }

  /** Everybody passing in turn closes a window, and nothing shorter does: the whole queue is asked exactly once. */
  function PassInTurn(w: Window, n: nat): Reply {
    if n == 0 then Reply(w, [], false, None)
    else
      var before := PassInTurn(w, n - 1);
      if before.closed || before.error.Some? then before else Perform(before.w, Passes(Holder(before.w)))
  }

  lemma {:induction false} FullCircle(w: Window, n: nat)
    requires WindowOk(w) && w.open && w.passes == 0 && 1 <= n <= |w.order|
    ensures
      var r := PassInTurn(w, n);
      && r.error.None? && (r.closed <==> n == |w.order|)
      && (!r.closed ==> WindowOk(r.w) && r.w.open && r.w.passes == n && Asked(r.w) == Asked(w)[n..] + Asked(w)[..n])
  {
    hide Perform, WindowOk;
    var a := Asked(w);
    HolderFirst(w);
    if n > 1 { FullCircle(w, n - 1); } else { assert a[0..] + a[..0] == a; }
    var before := PassInTurn(w, n - 1).w;
    HolderFirst(before);
    PassesExactly(before, Holder(before));
    OneFurther(a, n);
  }

  lemma OneFurther(a: seq<Pid>, n: nat)
    requires 1 <= n <= |a|
    ensures
      var turned := a[n - 1..] + a[..n - 1];
      turned[1..] + [turned[0]] == a[n..] + a[..n]
  {
    var turned := a[n - 1..] + a[..n - 1];
    assert turned == [a[n - 1]] + a[n..] + a[..n - 1];
    assert a[..n] == a[..n - 1] + [a[n - 1]];
    assert turned[1..] == a[n..] + a[..n - 1];
  }
}
