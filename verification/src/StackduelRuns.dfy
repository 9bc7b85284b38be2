/**
 Stackduel over whole runs: between moves the window is open exactly when the stack of pending effects is non-empty, no
 trigger is left staged, the cards in the stack zone are one-to-one with the pending effects whose source lies there, and
 each round of passes resolves exactly the top effect.
 */
module StackduelRuns {
  import opened Engine
  import opened Entities
  import opened Effects
  import opened Stackduel
  import P = Priority
  import Z = Zones
  import Economy
  import T = Transitions

  // ---- zones ------------------------------------------------------------------------------------------------

  /** The zones a player's cards move through, as far as the stack is concerned. */
  lemma NamesApart(p: Pid, q: Pid)
    ensures HandOf(p) != STACK && DeckOf(p) != STACK && FieldOf(p) != STACK && GraveOf(p) != STACK
    ensures HandOf(p) != FieldOf(q) && DeckOf(p) != FieldOf(q) && GraveOf(p) != FieldOf(q) && HandOf(p) != DeckOf(q)
    ensures HandOf(p) != "" && FieldOf(p) != "" && DeckOf(p) != "" && GraveOf(p) != ""
  {
    assert HandOf(p)[0] == 'h' && DeckOf(p)[0] == 'd' && FieldOf(p)[0] == 'b' && GraveOf(p)[0] == 'g' && STACK[0] == 's';
    assert FieldOf(q)[0] == 'b' && DeckOf(q)[0] == 'd';
  }

  ghost predicate HasZones(b: Z.Board, p: Pid) {
    HandOf(p) in b.zones && DeckOf(p) in b.zones && FieldOf(p) in b.zones && GraveOf(p) in b.zones
  }

  ghost predicate Uncapped(b: Z.Board) {
    forall z | z in b.zones :: b.zones[z].capacity == 0
  }

  ghost predicate BoardOk(b: Z.Board, order: seq<Pid>) {
    Z.Agree(b) && Uncapped(b) && STACK in b.zones && forall p | p in order :: HasZones(b, p)
  }

  lemma MovedUncapped(b: Z.Board, id: EntityID, to: Z.ZoneName)
    requires Uncapped(b) && Z.MoveError(b, id, to).None?
    ensures Uncapped(Z.Moved(b, id, to))
  {
  }

  /** Any known card can move to any known zone, and the board stays in order. */
  lemma MoveOk(b: Z.Board, order: seq<Pid>, id: EntityID, to: Z.ZoneName)
    requires BoardOk(b, order) && id in b.at && to in b.zones
    ensures Z.MoveError(b, id, to).None? && BoardOk(Z.Moved(b, id, to), order)
    ensures Z.Moved(b, id, to).at == b.at[id := to] && Z.Moved(b, id, to).zones.Keys == b.zones.Keys
  {
    hide Z.Moved, Z.Complete, Z.Sound;
    Z.MovedKeeps(b, id, to);
    MovedUncapped(b, id, to);
  }

  lemma DrewUncapped(b: Z.Board, zone: Z.ZoneName, n: nat)
    requires Uncapped(b) && Z.DrawError(b, zone).None?
    ensures Uncapped(Z.Drawn(b, zone, n).0)
  {
  }

  lemma InsertedUncapped(b: Z.Board, zone: Z.ZoneName, id: EntityID, pos: int)
    requires Uncapped(b) && Z.InsertError(b, zone, id, pos).None?
    ensures Uncapped(Z.Inserted(b, zone, id, pos)) && Z.Inserted(b, zone, id, pos).zones.Keys == b.zones.Keys
    ensures Z.Inserted(b, zone, id, pos).at == b.at[id := zone]
  {
  }

  lemma NowhereToBe(b: Z.Board, id: EntityID)
    requires Z.Agree(b) && id in b.at && b.at[id] == ""
    ensures !Z.Placed(b, id)
  {
  }

  /** A card in no zone goes to a hand. */
  lemma TakenUp(b: Z.Board, order: seq<Pid>, hand: Z.ZoneName, id: EntityID)
    requires BoardOk(b, order) && hand in b.zones && id in b.at && b.at[id] == ""
    ensures
      var end := |b.zones[hand].members|;
      && Z.InsertError(b, hand, id, end).None? && BoardOk(Z.Inserted(b, hand, id, end), order)
      && Z.Inserted(b, hand, id, end).at == b.at[id := hand]
  {
    hide Z.Inserted, Z.Complete, Z.Sound, Z.Placed;
    var end := |b.zones[hand].members|;
    NowhereToBe(b, id);
    Z.InsertedKeepsExactly(b, hand, id, end);
    InsertedUncapped(b, hand, id, end);
  }

  /** The top card leaves the deck. */
  lemma TakenOff(b: Z.Board, order: seq<Pid>, deck: Z.ZoneName)
    requires BoardOk(b, order) && Z.DrawError(b, deck).None?
    ensures
      var (left, cards) := Z.Drawn(b, deck, 1);
      && |cards| == 1 && BoardOk(left, order) && cards[0] in b.at && b.at[cards[0]] == deck
      && left.zones.Keys == b.zones.Keys && left.at == b.at[cards[0] := ""]
  {
    hide Z.Drawn, Z.Complete, Z.Sound;
    Z.DrawnKeeps(b, deck, 1);
    DrewUncapped(b, deck, 1);
    var (left, cards) := Z.Drawn(b, deck, 1);
    DrewOneCard(b, deck, cards);
    assert cards[0] in cards && forall id | id in cards :: id == cards[0];
  }

  /** Drawing moves a card from the deck to the hand, or nothing at all. */
  lemma DrewOk(g: Duel, pid: Pid)
    requires BoardOk(g.board, g.order) && pid in g.order
    ensures
      var r := DrewOne(g, pid);
      && BoardOk(r.board, g.order) && r == g.(board := r.board) && r.board.at.Keys == g.board.at.Keys
      && forall id | id in g.board.at ::
           r.board.at[id] == g.board.at[id] || (g.board.at[id] == DeckOf(pid) && r.board.at[id] == HandOf(pid))
  {
    hide Z.Drawn, Z.Inserted, Z.Agree, Uncapped;
    assert HasZones(g.board, pid);
    if Z.DrawError(g.board, DeckOf(pid)).None? {
      TakenOff(g.board, g.order, DeckOf(pid));
      var (left, cards) := Z.Drawn(g.board, DeckOf(pid), 1);
      TakenUp(left, g.order, HandOf(pid), cards[0]);
    }
  }

  lemma DrewOneCard(b: Z.Board, zone: Z.ZoneName, cards: seq<EntityID>)
    requires Z.DrawError(b, zone).None? && |cards| == Z.Min(1, |b.zones[zone].members|)
    ensures |cards| == 1
  {
  }

  // ---- cards and effects ------------------------------------------------------------------------------------

  /** Cards in the stack zone and pending effects with their source there: each has exactly one of the other. */
  ghost predicate Matched(at: map<EntityID, Z.ZoneName>, pending: seq<Effect>) {
    && (forall id | id in at && at[id] == STACK :: exists e :: e in pending && e.source == id)
    && (forall d, e | d in pending && e in pending && d.source == e.source && d.source in at && at[d.source] == STACK :: d == e)
  }

  /** A pending or staged effect belongs to the owner of its card, which lies on the stack or on their battlefield. */
  predicate EffectOk(g: Duel, e: Effect) {
    && e.source in g.def && e.source in g.owner && e.source in g.board.at && e.controller == g.owner[e.source]
    && e.controller in g.order && (g.board.at[e.source] == STACK || g.board.at[e.source] == FieldOf(e.controller))
  }

  predicate StagedOk(g: Duel, e: Effect) {
    EffectOk(g, e) && g.board.at[e.source] == FieldOf(e.controller) && e.target == 0
  }

  predicate CardsOk(g: Duel) {
    && (forall id | id in g.def :: id in g.board.at && id in g.owner && g.owner[id] in g.order)
    && (forall m | m in g.moths :: m in g.def && m in g.owner && m in g.board.at && g.board.at[m] == FieldOf(g.owner[m]))
  }

  /** What holds even in the middle of a move. */
  ghost predicate Core(g: Duel) {
    && TwoPlayers(g) && BoardOk(g.board, g.order) && CardsOk(g) && QueueOk(g.queue)
    && Matched(g.board.at, g.queue.pending)
    && (forall e | e in g.queue.pending :: EffectOk(g, e) && e.target < e.id)
    && (forall e | e in g.staged :: StagedOk(g, e))
  }

  /** What holds between moves. */
  ghost predicate Inv(g: Duel) {
    && Core(g) && g.staged == [] && P.WindowOk(g.window)
    && (g.window.open <==> g.queue.pending != [])
    && (g.window.open ==> g.window.order == Apnap(g) && g.window.stage == RESPOND)
  }

  // ---- putting a card on the stack --------------------------------------------------------------------------

  lemma CastMatches(at: map<EntityID, Z.ZoneName>, pending: seq<Effect>, e: Effect)
    requires Matched(at, pending) && forall x | x in pending :: x.source != e.source
    ensures Matched(at[e.source := STACK], pending + [e])
  {
    var now, all := at[e.source := STACK], pending + [e];
    assert e in all;
    forall id | id in now && now[id] == STACK ensures exists x :: x in all && x.source == id {
      if id != e.source {
        var x :| x in pending && x.source == id;
        assert x in all;
      }
    }
  }

  lemma OnStackKeeps(g: Duel, pid: Pid, id: EntityID, response: bool)
    requires Core(g) && Castable(g, pid, id, response) && pid in g.order
    ensures
      var r := OnStack(g, pid, id, response);
      Core(r) && r.queue.pending != [] && r.window == g.window && r.staged == g.staged && r.board.at[id] == STACK
  {
    hide Z.Moved, BoardOk, QueueOk, Matched, Paid, SpecOf;
    NamesApart(pid, pid);
    assert STACK in g.board.zones by { StackZone(g); }
    MoveOk(g.board, g.order, id, STACK);
    var r := OnStack(g, pid, id, response);
    var e := r.queue.pending[|g.queue.pending|];
    assert r.queue.pending == g.queue.pending + [e] && e.source == id && e.controller == pid;
    forall x | x in g.queue.pending ensures x.source != id {
      NamesApart(pid, x.controller);
      assert EffectOk(g, x);
    }
    CastMatches(g.board.at, g.queue.pending, e);
    PushedAllOk(g.queue, [Effect(0, id, pid, SpecOf(g.def[id]).kind, SpecOf(g.def[id]).amount, false, e.target)]);
    PushOne(g.queue, Effect(0, id, pid, SpecOf(g.def[id]).kind, SpecOf(g.def[id]).amount, false, e.target));
    TargetIsOlder(g, e);
    forall m | m in g.moths ensures m != id { NamesApart(pid, g.owner[m]); }
    forall x | x in g.staged ensures x.source != id { NamesApart(pid, x.controller); assert StagedOk(g, x); }
  }

  lemma StackZone(g: Duel)
    requires BoardOk(g.board, g.order)
    ensures STACK in g.board.zones
  {
  }

  lemma PushOne(q: Queue, e: Effect)
    ensures PushedAll(q, [e]) == Pushed(q, e)
  {
    assert PushedAll(Pushed(q, e), [e][1..]) == Pushed(q, e);
  }

  lemma TargetIsOlder(g: Duel, e: Effect)
    requires QueueOk(g.queue) && e.id == g.queue.nextId + 1
    requires e.target == 0 || (g.queue.pending != [] && e.target == g.queue.pending[|g.queue.pending| - 1].id)
    ensures e.target < e.id
  {
  }

  // ---- taking an effect off the stack -----------------------------------------------------------------------

  lemma TakenMatches(at: map<EntityID, Z.ZoneName>, q: Queue, e: Effect, to: Z.ZoneName)
    requires Matched(at, q.pending) && QueueOk(q) && e in q.pending && to != STACK
    ensures Matched(at[e.source := to], RemovedFrom(q.pending, e.id))
    ensures e.source in at && at[e.source] != STACK ==> Matched(at, RemovedFrom(q.pending, e.id))
  {
    RemovedIs(q.pending, e.id);
    var left := RemovedFrom(q.pending, e.id);
    forall x | x in q.pending && x.id == e.id ensures x == e {
    }
    forall id | id in at && at[id] == STACK && id != e.source ensures exists x :: x in left && x.source == id {
      var x :| x in q.pending && x.source == id;
      assert x in left;
    }
  }

  /** The effect leaves the queue and its card, if on the stack, goes elsewhere. */
  ghost predicate Retires(g: Duel, r: Duel, e: Effect) {
    && r == g.(board := r.board, queue := r.queue) && r.queue == g.queue.(pending := RemovedFrom(g.queue.pending, e.id))
    && BoardOk(r.board, r.order) && r.board.at.Keys == g.board.at.Keys
    && (forall id | id in g.board.at && !(id == e.source && g.board.at[id] == STACK) :: r.board.at[id] == g.board.at[id])
    && (e.source in g.board.at && g.board.at[e.source] == STACK ==>
          r.board.at[e.source] == GraveOf(e.controller) || r.board.at[e.source] == FieldOf(e.controller))
  }

  lemma RetiresKeeps(g: Duel, r: Duel, e: Effect)
    requires Core(g) && e in g.queue.pending && Retires(g, r, e)
    ensures Core(r)
  {
    hide BoardOk, QueueOk, Matched;
    NamesApart(e.controller, e.controller);
    assert EffectOk(g, e);
    RemovedOk(g.queue, e.id);
    SourcesStay(g, r, e);
    if g.board.at[e.source] == STACK {
      TakenMatches(g.board.at, g.queue, e, r.board.at[e.source]);
      assert r.board.at == g.board.at[e.source := r.board.at[e.source]];
    } else {
      TakenMatches(g.board.at, g.queue, e, FieldOf(e.controller));
      assert r.board.at == g.board.at;
    }
  }

  /** Every other card of a pending effect stays where it is. */
  lemma SourcesStay(g: Duel, r: Duel, e: Effect)
    requires Core(g) && e in g.queue.pending && Retires(g, r, e)
    ensures forall x | x in r.queue.pending :: EffectOk(r, x) && x.target < x.id
    ensures forall x | x in g.staged :: StagedOk(r, x)
    ensures CardsOk(r)
  {
    hide BoardOk;
    RemovedIs(g.queue.pending, e.id);
    forall x | x in r.queue.pending ensures EffectOk(r, x) && x.target < x.id {
      assert x in g.queue.pending && EffectOk(g, x) && x.id != e.id;
    }
    forall x | x in g.staged ensures StagedOk(r, x) {
      assert StagedOk(g, x);
      NamesApart(x.controller, x.controller);
    }
    forall m | m in g.moths ensures r.board.at[m] == FieldOf(g.owner[m]) {
      NamesApart(g.owner[m], g.owner[m]);
    }
  }

  lemma BinnedRetires(g: Duel, e: Effect)
    requires Core(g) && e in g.queue.pending
    ensures Retires(g, Binned(g, e.source).(queue := g.queue.(pending := RemovedFrom(g.queue.pending, e.id))), e)
    ensures Binned(g.(queue := g.queue.(pending := RemovedFrom(g.queue.pending, e.id))), e.source) ==
            Binned(g, e.source).(queue := g.queue.(pending := RemovedFrom(g.queue.pending, e.id)))
  {
    hide Z.Moved, Z.Agree, Uncapped, QueueOk, Matched;
    assert EffectOk(g, e);
    assert HasZones(g.board, e.controller);
    if CardOnStack(g, e.source) {
      MoveOk(g.board, g.order, e.source, GraveOf(e.controller));
    }
  }

  /** Where a resolved spell's card goes, and that nothing else changes. */
  lemma BinnedAt(g: Duel, e: Effect)
    requires Core(g) && e in g.queue.pending
    ensures
      var r := Binned(g, e.source);
      && r == g.(board := r.board)
      && r.board.at == if CardOnStack(g, e.source) then g.board.at[e.source := GraveOf(e.controller)] else g.board.at
  {
    hide Z.Moved, Z.Agree, Uncapped, QueueOk, Matched;
    assert EffectOk(g, e);
    assert HasZones(g.board, e.controller);
    if CardOnStack(g, e.source) { MoveOk(g.board, g.order, e.source, GraveOf(e.controller)); }
  }

  /** The queue plays no part in binning. */
  lemma BinnedAlike(g: Duel, q: Queue, id: EntityID)
    ensures Binned(g.(queue := q), id) == Binned(g, id).(queue := q)
  {
  }

  // ---- resolving the top ------------------------------------------------------------------------------------

  /** Life totals are the only thing the invariant does not speak of. */
  lemma LifeIsFree(g: Duel, life: map<Pid, int>)
    requires Core(g)
    ensures Core(g.(life := life))
  {
    hide BoardOk, QueueOk, Matched;
    assert forall e | e in g.queue.pending :: EffectOk(g.(life := life), e);
    assert forall e | e in g.staged :: StagedOk(g.(life := life), e);
  }

  /** What is left of the stack under its top: all of it, but for the effect a resolving counter names. */
  function Below(g: Duel): seq<Effect>
    requires g.queue.pending != []
  {
    var n := |g.queue.pending| - 1;
    var top := g.queue.pending[n];
    if top.kind == Counter then RemovedFrom(g.queue.pending[..n], top.target) else g.queue.pending[..n]
  }

  lemma {:induction false} RemoveBelow(xs: seq<Effect>, top: Effect, id: nat)
    requires id != top.id
    ensures RemovedFrom(xs + [top], id) == RemovedFrom(xs, id) + [top]
  {
    if xs != [] {
      assert (xs + [top])[1..] == xs[1..] + [top];
      RemoveBelow(xs[1..], top, id);
    } else {
      assert RemovedFrom([top], id) == [top] + RemovedFrom([], id);
    }
  }

  /** A step of resolution: the invariant is kept and the stack is what the rules say. */
  ghost predicate Resolves(g: Duel, r: Duel)
    requires g.queue.pending != []
  {
    && Core(r) && r.queue.pending == Below(g) && r.queue.nextId == g.queue.nextId && r.window == g.window
    && r.order == g.order && r.pos == g.pos
    && !CardOnStack(r, g.queue.pending[|g.queue.pending| - 1].source)
  }

  lemma SpellResolves(g: Duel, life: map<Pid, int>)
    requires Core(g) && g.queue.pending != []
    requires g.queue.pending[|g.queue.pending| - 1].kind in {Damage, GainLife, Drain}
    ensures
      var top := g.queue.pending[|g.queue.pending| - 1];
      var r := Binned(g.(life := life), top.source);
      Resolves(g, r.(queue := r.queue.(pending := RemovedFrom(r.queue.pending, top.id))))
  {
    hide BoardOk, QueueOk, Matched, Binned, EffectOk, CardsOk, RemovedFrom;
    var top := g.queue.pending[|g.queue.pending| - 1];
    var h := g.(life := life);
    LifeIsFree(g, life);
    BinnedRetires(h, top);
    var r := Binned(h, top.source).(queue := h.queue.(pending := RemovedFrom(h.queue.pending, top.id)));
    RetiresKeeps(h, r, top);
    TopRemoved(h);
    OffStack(h, r, top);
    BinnedKeepsQueue(h, top.source);
  }

  lemma BinnedKeepsQueue(g: Duel, id: EntityID)
    ensures Binned(g, id).queue == g.queue && Binned(g, id).window == g.window
  {
  }

  lemma TopRemoved(g: Duel)
    requires QueueOk(g.queue) && g.queue.pending != []
    ensures
      var n := |g.queue.pending| - 1;
      RemovedFrom(g.queue.pending, g.queue.pending[n].id) == g.queue.pending[..n]
  {
    RemoveTop(g.queue.pending);
  }

  lemma OffStack(g: Duel, r: Duel, e: Effect)
    requires Core(g) && e in g.queue.pending && Retires(g, r, e)
    ensures !CardOnStack(r, e.source)
  {
    NamesApart(e.controller, e.controller);
    assert EffectOk(g, e);
  }

  /** What a counter does before its own card goes: the named effect, if still there, is gone. */
  lemma CounteredKeeps(g: Duel, target: nat)
    requires Core(g)
    ensures Core(Countered(g, target))
    ensures Countered(g, target).queue == g.queue.(pending := RemovedFrom(g.queue.pending, target))
    ensures Countered(g, target).window == g.window
  {
    hide BoardOk, QueueOk, Matched, Binned;
    var found := Find(g.queue.pending, target);
    if found.Some? {
      var c := found.value;
      BinnedRetires(g, c);
      RetiresKeeps(g, Countered(g, target), c);
      BinnedKeepsQueue(g.(queue := g.queue.(pending := RemovedFrom(g.queue.pending, target))), c.source);
    } else {
      NothingRemoved(g.queue.pending, target);
    }
  }

  lemma TopsTarget(g: Duel)
    requires Core(g) && g.queue.pending != []
    ensures
      var n := |g.queue.pending| - 1;
      var top := g.queue.pending[n];
      RemovedFrom(g.queue.pending, top.target) == RemovedFrom(g.queue.pending[..n], top.target) + [top]
  {
    hide BoardOk, QueueOk, Matched, RemovedFrom;
    var n := |g.queue.pending| - 1;
    var top := g.queue.pending[n];
    assert top in g.queue.pending && g.queue.pending == g.queue.pending[..n] + [top];
    RemoveBelow(g.queue.pending[..n], top, top.target);
  }

  /** Where the cards lie once a counter has taken its victim: the victim's own card, if on the stack, is in a graveyard. */
  function VictimBinned(g: Duel, target: nat): map<EntityID, Z.ZoneName> {
    var found := Find(g.queue.pending, target);
    if found.Some? && CardOnStack(g, found.value.source)
    then g.board.at[found.value.source := GraveOf(found.value.controller)] else g.board.at
  }

  lemma CounteredAt(g: Duel, target: nat)
    requires Core(g)
    ensures
      var r := Countered(g, target);
      r == g.(board := r.board, queue := r.queue) && r.board.at == VictimBinned(g, target)
  {
    hide Core, Binned;
    var found := Find(g.queue.pending, target);
    if found.Some? {
      BinnedAt(g, found.value);
      BinnedAlike(g, g.queue.(pending := RemovedFrom(g.queue.pending, target)), found.value.source);
    }
  }

  /**
   A counter takes itself and the effect it names off the stack. The named effect's card and then its own, if on the stack,
   go to their owners' graveyards; every other card stays where it is, and nothing but zones and queue changes.
   */
  lemma CounterResolves(g: Duel)
    requires Core(g) && g.queue.pending != [] && g.queue.pending[|g.queue.pending| - 1].kind == Counter
    ensures
      var top := g.queue.pending[|g.queue.pending| - 1];
      var at := VictimBinned(g, top.target);
      var r := ResolveTop(g);
      && Resolves(g, r) && r == g.(board := r.board, queue := r.queue)
      && r.board.at == if top.source in at && at[top.source] == STACK then at[top.source := GraveOf(top.controller)] else at
  {
    hide BoardOk, QueueOk, Matched, Binned, Countered, RemovedFrom, EffectOk, CardsOk, VictimBinned;
    var top := g.queue.pending[|g.queue.pending| - 1];
    var h := Countered(g, top.target);
    CounteredKeeps(g, top.target);
    CounteredAt(g, top.target);
    TopsTarget(g);
    assert top in h.queue.pending && top == h.queue.pending[|h.queue.pending| - 1];
    BinnedRetires(h, top);
    BinnedAt(h, top);
    var r := Binned(h, top.source).(queue := h.queue.(pending := RemovedFrom(h.queue.pending, top.id)));
    RetiresKeeps(h, r, top);
    TopRemoved(h);
    OffStack(h, r, top);
  }

  lemma {:induction false} NothingRemoved(xs: seq<Effect>, id: nat)
    requires forall e | e in xs :: e.id != id
    ensures RemovedFrom(xs, id) == xs
  {
    if xs != [] { NothingRemoved(xs[1..], id); }
  }

  lemma {:induction false} MothTriggersOk(g: Duel, moths: seq<EntityID>, entered: EntityID)
    requires CardsOk(g) && forall m | m in moths :: m in g.def
    ensures forall e | e in MothTriggers(g, moths, entered) :: StagedOk(g, e)
  {
    if moths != [] {
      MothTriggersOk(g, moths[..|moths| - 1], entered);
    }
  }

  lemma EnteredKeeps(g: Duel, id: EntityID)
    requires Core(g) && id in g.def && g.board.at[id] == FieldOf(g.owner[id])
    ensures Core(Entered(g, id)) && Entered(g, id).queue == g.queue && Entered(g, id).board == g.board
    ensures Entered(g, id).window == g.window
  {
    hide BoardOk, QueueOk, Matched, MothTriggers;
    MothTriggersOk(g, g.moths, id);
    var r := Entered(g, id);
    assert forall e | e in r.staged :: StagedOk(g, e);
    assert forall e | e in r.staged :: StagedOk(r, e);
    assert forall e | e in g.queue.pending :: EffectOk(r, e);
  }

  /**
   A summoned creature leaves the stack for its controller's battlefield and no other card moves. Its own trigger and those
   of the Glowmoths bound before it are staged, not pushed; life, mana and the window are untouched.
   */
  lemma SummonResolves(g: Duel)
    requires Core(g) && g.queue.pending != [] && g.queue.pending[|g.queue.pending| - 1].kind == Summon
    ensures
      var top := g.queue.pending[|g.queue.pending| - 1];
      var r := ResolveTop(g);
      && Resolves(g, r) && r == g.(board := r.board, queue := r.queue, staged := r.staged, moths := r.moths)
      && r.board.at == g.board.at[top.source := FieldOf(top.controller)]
      && r.staged == g.staged + EnterTrigger(g, top.source) + MothTriggers(g.(board := r.board), g.moths, top.source)
  {
    hide BoardOk, QueueOk, Matched, Z.Moved, Entered, MothTriggers, RemovedFrom, CardsOk;
    var top := g.queue.pending[|g.queue.pending| - 1];
    assert top in g.queue.pending && EffectOk(g, top);
    FieldZone(g, top.controller);
    MoveOk(g.board, g.order, top.source, FieldOf(top.controller));
    var moved := g.(board := Z.Moved(g.board, top.source, FieldOf(top.controller)));
    var left := moved.(queue := g.queue.(pending := RemovedFrom(g.queue.pending, top.id)));
    SummonRetires(g, left, top);
    RetiresKeeps(g, left, top);
    EnteredKeeps(left, top.source);
    EnteredAlike(moved, left, top.source);
    EnteredStages(moved, top.source);
    TopRemoved(g);
    NamesApart(top.controller, top.controller);
  }

  lemma EnteredStages(g: Duel, id: EntityID)
    ensures
      var r := Entered(g, id);
      r == g.(staged := g.staged + EnterTrigger(g, id) + MothTriggers(g, g.moths, id), moths := r.moths)
  {
    hide MothTriggers, EnterTrigger;
  }

  lemma FieldZone(g: Duel, p: Pid)
    requires BoardOk(g.board, g.order) && p in g.order
    ensures FieldOf(p) in g.board.zones
  {
    assert HasZones(g.board, p);
  }

  lemma SummonRetires(g: Duel, r: Duel, e: Effect)
    requires Core(g) && e in g.queue.pending && BoardOk(r.board, g.order)
    requires r == g.(board := r.board, queue := g.queue.(pending := RemovedFrom(g.queue.pending, e.id)))
    requires r.board.at == g.board.at[e.source := FieldOf(e.controller)]
    ensures Retires(g, r, e) && r.board.at[e.source] == FieldOf(g.owner[e.source])
  {
    hide BoardOk, QueueOk, Matched;
    assert EffectOk(g, e);
  }

  /** Entering looks at cards, not at the queue. */
  lemma EnteredAlike(a: Duel, b: Duel, id: EntityID)
    requires b == a.(queue := b.queue)
    ensures Entered(b, id) == Entered(a, id).(queue := b.queue) && Entered(a, id).queue == a.queue
  {
    MothsAlike(a, b, a.moths, id);
  }

  lemma {:induction false} MothsAlike(a: Duel, b: Duel, moths: seq<EntityID>, id: EntityID)
    requires b == a.(queue := b.queue)
    ensures MothTriggers(a, moths, id) == MothTriggers(b, moths, id)
  {
    if moths != [] { MothsAlike(a, b, moths[..|moths| - 1], id); }
  }

  /** Resolving takes exactly the top effect, and what a counter names, off the stack. */
  lemma TopResolves(g: Duel)
    requires Core(g) && g.queue.pending != []
    ensures Resolves(g, ResolveTop(g))
  {
    hide Core, Binned, Entered, Below, Resolves;
    CoreSeats(g);
    var top := g.queue.pending[|g.queue.pending| - 1];
    match top.kind
    case Damage => SpellResolves(g, Shifted(g.life, Opponent(g, top.controller), -top.amount));
    case GainLife => SpellResolves(g, Shifted(g.life, top.controller, top.amount));
    case Drain => SpellResolves(g, Drained(g, top));
    case Counter => CounterResolves(g);
    case Summon => SummonResolves(g);
  }

  // ---- flushing triggers ------------------------------------------------------------------------------------

  lemma PushMatches(at: map<EntityID, Z.ZoneName>, pending: seq<Effect>, more: seq<Effect>)
    requires Matched(at, pending) && forall e | e in more :: e.source in at && at[e.source] != STACK
    ensures Matched(at, pending + more)
  {
    var all := pending + more;
    forall id | id in at && at[id] == STACK ensures exists e :: e in all && e.source == id {
      var e :| e in pending && e.source == id;
      assert e in all;
    }
  }

  /** The staged effects follow the pending ones under new IDs. */
  lemma FlushedEffects(g: Duel)
    requires TwoPlayers(g) && forall e | e in g.staged :: StagedOk(g, e)
    ensures
      var r, n := Flushed(g), |g.queue.pending|;
      && g.queue.pending <= r.queue.pending && |r.queue.pending| == n + |g.staged|
      && forall i | n <= i < |r.queue.pending| :: FlushedOk(g, r, r.queue.pending[i]) && r.queue.pending[i].id > g.queue.nextId
  {
    hide OrderByPlayer, EffectOk, StagedOk, FlushedOk;
    var batch := OrderByPlayer(g.staged, Apnap(g));
    OrderingPermutes(g.staged, Apnap(g));
    PushedAllIs(g.queue, batch);
    var r, n := Flushed(g), |g.queue.pending|;
    forall i | n <= i < |r.queue.pending|
      ensures FlushedOk(g, r, r.queue.pending[i]) && r.queue.pending[i].id > g.queue.nextId
    {
      var e := batch[i - n];
      assert r.queue.pending[n + (i - n)] == e.(id := g.queue.nextId + (i - n) + 1);
      assert e in multiset(batch) && e in g.staged;
      FlushOne(g, r, e, g.queue.nextId + (i - n) + 1);
    }
  }

  lemma FlushedMatches(g: Duel, r: Duel)
    requires Matched(g.board.at, g.queue.pending) && g.queue.pending <= r.queue.pending
    requires forall i | |g.queue.pending| <= i < |r.queue.pending| :: FlushedOk(g, r, r.queue.pending[i])
    ensures Matched(g.board.at, r.queue.pending)
  {
    hide EffectOk, Matched;
    var more := r.queue.pending[|g.queue.pending|..];
    assert r.queue.pending == g.queue.pending + more;
    assert forall i | 0 <= i < |more| :: more[i] == r.queue.pending[|g.queue.pending| + i];
    PushMatches(g.board.at, g.queue.pending, more);
  }

  lemma FlushedKeeps(g: Duel)
    requires Core(g)
    ensures
      var r := Flushed(g);
      && Core(r) && r.staged == [] && r.window == g.window && r.order == g.order && r.pos == g.pos
      && g.queue.pending <= r.queue.pending && |r.queue.pending| == |g.queue.pending| + |g.staged|
      && forall i | |g.queue.pending| <= i < |r.queue.pending| :: r.queue.pending[i].id > g.queue.nextId
  {
    hide BoardOk, QueueOk, Matched, OrderByPlayer, EffectOk, StagedOk, CardsOk;
    PushedAllOk(g.queue, OrderByPlayer(g.staged, Apnap(g)));
    FlushedEffects(g);
    var r := Flushed(g);
    FlushedMatches(g, r);
    forall e | e in r.queue.pending ensures EffectOk(r, e) && e.target < e.id {
      var i :| 0 <= i < |r.queue.pending| && r.queue.pending[i] == e;
      if i < |g.queue.pending| {
        assert e in g.queue.pending;
        SameTable(g, r, e);
      }
    }
    SameCards(g, r);
  }

  /** A staged effect once it is pending. */
  predicate FlushedOk(g: Duel, r: Duel, e: Effect) {
    e.source in g.board.at && g.board.at[e.source] != STACK && EffectOk(r, e) && e.target < e.id
  }

  lemma FlushOne(g: Duel, r: Duel, e: Effect, id: nat)
    requires r == g.(queue := r.queue, staged := r.staged) && StagedOk(g, e) && id > 0
    ensures FlushedOk(g, r, e.(id := id))
  {
    NamesApart(e.controller, e.controller);
  }

  lemma SameCards(g: Duel, r: Duel)
    requires r == g.(queue := r.queue, staged := r.staged) && CardsOk(g)
    ensures CardsOk(r)
  {
  }

  lemma SameTable(g: Duel, r: Duel, e: Effect)
    requires r == g.(queue := r.queue, staged := r.staged, window := r.window) && EffectOk(g, e)
    ensures EffectOk(r, e)
  {
  }

  // ---- main results -----------------------------------------------------------------------------------------

  lemma WindowIsFree(g: Duel, w: P.Window)
    requires Core(g)
    ensures Core(g.(window := w))
  {
    hide BoardOk, QueueOk, Matched;
    assert forall e | e in g.queue.pending :: EffectOk(g.(window := w), e);
    assert forall e | e in g.staged :: StagedOk(g.(window := w), e);
  }

  lemma ReopenedInv(g: Duel)
    requires Core(g) && g.staged == [] && !g.window.open && g.queue.pending != []
    ensures Inv(Reopened(g))
  {
    hide Core;
    assert TwoPlayers(g) by { CoreSeats(g); }
    WindowIsFree(g, Reopened(g).window);
  }

  lemma CoreSeats(g: Duel)
    requires Core(g)
    ensures TwoPlayers(g)
  {
  }

  /** A round of passes resolves exactly the top: what lay below stays in place, and only new triggers come on top of it. */
  lemma AllPassedResolvesTop(g: Duel)
    requires Core(g) && g.staged == [] && g.window == P.CLOSED && g.queue.pending != []
    ensures
      var r := AllPassed(g);
      && Inv(r) && Below(g) <= r.queue.pending
      && (forall i | |Below(g)| <= i < |r.queue.pending| :: r.queue.pending[i].id > g.queue.nextId)
      && g.queue.pending[|g.queue.pending| - 1] !in r.queue.pending
      && !CardOnStack(r, g.queue.pending[|g.queue.pending| - 1].source)
  {
    hide Core, ResolveTop, Flushed, Below;
    CoreSeats(g);
    TopResolves(g);
    var r := ResolveTop(g);
    FlushedKeeps(r);
    var f := Flushed(r);
    TopIsGone(g, f);
    StaysOff(r, f, g.queue.pending[|g.queue.pending| - 1].source);
    if f.queue.pending != [] {
      ReopenedInv(f);
      assert Reopened(f).board == f.board && Reopened(f).queue == f.queue;
    }
  }

  lemma TopIsGone(g: Duel, f: Duel)
    requires Core(g) && g.queue.pending != [] && Below(g) <= f.queue.pending
    requires forall i | |Below(g)| <= i < |f.queue.pending| :: f.queue.pending[i].id > g.queue.nextId
    ensures g.queue.pending[|g.queue.pending| - 1] !in f.queue.pending
  {
    hide BoardOk, Matched;
    var n := |g.queue.pending| - 1;
    var top := g.queue.pending[n];
    forall i | 0 <= i < |f.queue.pending| ensures f.queue.pending[i] != top {
      if i < |Below(g)| {
        assert f.queue.pending[i] == Below(g)[i] && Below(g)[i] in Below(g);
        NotBelow(g, Below(g)[i]);
      }
    }
  }

  lemma NotBelow(g: Duel, e: Effect)
    requires QueueOk(g.queue) && g.queue.pending != [] && e in Below(g)
    ensures e != g.queue.pending[|g.queue.pending| - 1]
  {
    var n := |g.queue.pending| - 1;
    RemovedIs(g.queue.pending[..n], g.queue.pending[n].target);
    assert e in g.queue.pending[..n];
  }

  lemma StaysOff(r: Duel, f: Duel, id: EntityID)
    requires TwoPlayers(r) && !CardOnStack(r, id) && f == Flushed(r)
    ensures !CardOnStack(f, id) && f.board == r.board
  {
  }

  lemma PassedWindow(g: Duel, pid: Pid)
    requires Inv(g) && g.window.open && pid == P.Holder(g.window)
    ensures
      var r := P.Pass(g.window, pid);
      if r.closed then r.w == P.CLOSED
      else P.WindowOk(r.w) && r.w.open && r.w.order == g.window.order && r.w.stage == g.window.stage
  {
    hide Core;
    P.RotatedAt(g.window);
  }

  lemma HolderPlays(g: Duel)
    requires Inv(g) && g.window.open
    ensures P.Holder(g.window) in g.order
  {
  }

  /** Every accepted move keeps the invariant. */
  lemma StepKeeps(g: Duel, pid: Pid, move: Stackduel.Action)
    requires Inv(g) && Allowed(g, pid, move)
    ensures Inv(Step(g, pid, move))
  {
    hide Core, Castable, OnStack, AllPassed, NextTurn, Below;
    CoreSeats(g);
    match move
    case Cast(id) =>
      OnStackKeeps(g, pid, id, false);
      ReopenedInv(OnStack(g, pid, id, false));
    case Respond(id) =>
      HolderPlays(g);
      OnStackKeeps(g, pid, id, true);
      var s := OnStack(g, pid, id, true);
      WindowIsFree(s, P.ActionTaken(s.window, pid, true).w);
    case PassOn =>
      PassedWindow(g, pid);
      var r := P.Pass(g.window, pid);
      WindowIsFree(g, r.w);
      if r.closed { AllPassedResolvesTop(g.(window := r.w)); }
    case EndTurn => NextTurnExactly(g);
  }

  /** A turn begins with a card drawn from the deck and nothing else moved. */
  lemma TurnBegunKeeps(g: Duel)
    requires Core(g)
    ensures
      var r := TurnBegun(g);
      Core(r) && r.window == P.CLOSED && r.queue == g.queue && r.staged == g.staged
  {
    hide BoardOk, QueueOk, Matched;
    var pid := Current(g);
    var h := g.(window := P.CLOSED, sun := g.sun[pid := MANA], moon := g.moon[pid := MANA]);
    DrewOk(h, pid);
    DrawnCore(g, h, TurnBegun(g), pid);
  }

  lemma DrawnCore(g: Duel, h: Duel, r: Duel, pid: Pid)
    requires Core(g) && h == g.(window := h.window, sun := h.sun, moon := h.moon) && r == h.(board := r.board)
    requires BoardOk(r.board, g.order) && r.board.at.Keys == g.board.at.Keys
    requires forall id | id in g.board.at ::
               r.board.at[id] == g.board.at[id] || (g.board.at[id] == DeckOf(pid) && r.board.at[id] == HandOf(pid))
    ensures Core(r)
  {
    hide BoardOk, QueueOk;
    NamesApart(pid, pid);
    forall e | EffectOk(g, e) ensures EffectOk(r, e) && r.board.at[e.source] == g.board.at[e.source] {
      NamesApart(pid, e.controller);
    }
    forall m | m in g.moths ensures r.board.at[m] == g.board.at[m] { NamesApart(pid, g.owner[m]); }
    assert forall e | e in g.queue.pending :: EffectOk(g, e);
    assert Matched(r.board.at, g.queue.pending);
  }

  /**
   Turning over the turn keeps the invariant exactly when the stack is empty. endTurn sees to that; a turn the engine ends
   by force mid-window does not, and leaves effects pending with no window open.
   */
  lemma NextTurnExactly(g: Duel)
    requires Inv(g)
    ensures Inv(NextTurn(g)) <==> g.queue.pending == []
  {
    hide Core;
    CoreSeats(g);
    SeatIsFree(g, 1 - g.pos);
    TurnBegunKeeps(g.(pos := 1 - g.pos));
  }

  lemma SeatIsFree(g: Duel, pos: nat)
    requires Core(g) && pos < 2
    ensures Core(g.(pos := pos))
  {
    hide BoardOk, QueueOk, Matched;
    assert forall e | e in g.queue.pending :: EffectOk(g.(pos := pos), e);
    assert forall e | e in g.staged :: StagedOk(g.(pos := pos), e);
  }

  /** After such a forced end, exactly the casts of the new turn's player are accepted: nobody can pass or end the turn. */
  lemma ForcedEndStalls(g: Duel, pid: Pid, move: Stackduel.Action)
    requires Inv(g) && g.queue.pending != []
    ensures
      var r := NextTurn(g);
      Allowed(r, pid, move) <==> move.Cast? && pid == Current(r) && Castable(r, pid, move.id, false)
  {
    hide Core, Castable;
    CoreSeats(g);
    SeatIsFree(g, 1 - g.pos);
    TurnBegunKeeps(g.(pos := 1 - g.pos));
  }

  /** In every state between moves somebody has an accepted move: the holder may pass, or the turn may end. */
  lemma SomebodyMayMove(g: Duel)
    requires Inv(g)
    ensures exists pid: Pid, move :: pid in g.order && Allowed(g, pid, move)
  {
    hide Core, Castable;
    CoreSeats(g);
    if g.window.open {
      HolderPlays(g);
      assert Allowed(g, P.Holder(g.window), PassOn);
    } else {
      assert Current(g) in g.order && Allowed(g, Current(g), Stackduel.Action.EndTurn);
    }
  }

  function StepAll(g: Duel, moves: seq<(Pid, Stackduel.Action)>): Option<Duel>
    decreases |moves|
  {
    if moves == [] then Some(g)
    else if !Allowed(g, moves[0].0, moves[0].1) then None
    else StepAll(Step(g, moves[0].0, moves[0].1), moves[1..])
  }

  /** Stackduel composition: the invariant holds after every run of accepted moves. */
  lemma {:induction false} RunKeeps(g: Duel, moves: seq<(Pid, Stackduel.Action)>)
    requires Inv(g)
    ensures
      var r := StepAll(g, moves);
      r.Some? ==> Inv(r.value)
    decreases |moves|
  {
    hide Inv, Allowed, Step;
    if moves != [] && Allowed(g, moves[0].0, moves[0].1) {
      StepKeeps(g, moves[0].0, moves[0].1);
      RunKeeps(Step(g, moves[0].0, moves[0].1), moves[1..]);
    }
  }

  // ---- paying -----------------------------------------------------------------------------------------------

  function ManaBasket(entity: int): Economy.Basket {
    map["sun" := Economy.Pool(entity, "sun"), "moon" := Economy.Pool(entity, "moon")]
  }

  function CostOf(s: Spec): map<string, int> {
    map["sun" := s.sun, "moon" := s.moon]
  }

  const FALLBACK := ["sun", "moon"]

  /** The fallback order over the mana basket: both kinds are known, and each has its room. */
  lemma ManaSlack(c: Economy.Counters, entity: int, s: Spec)
    ensures
      var b, cost := ManaBasket(entity), CostOf(s);
      && Economy.Known(b, FALLBACK) == FALLBACK
      && Economy.Slack(b, c, cost, FALLBACK[..0]) == 0
      && Economy.Slack(b, c, cost, FALLBACK[..1]) == Economy.Room(b, c, cost, "sun")
      && Economy.Slack(b, c, cost, FALLBACK) == Economy.Room(b, c, cost, "sun") + Economy.Room(b, c, cost, "moon")
  {
    hide Economy.Room;
    var b := ManaBasket(entity);
    assert FALLBACK[1..] == ["moon"] && FALLBACK[1..][1..] == [];
    assert Economy.Known(b, ["moon"]) == ["moon"];
    assert FALLBACK[..1] == ["sun"] && FALLBACK[..1][..0] == [] && FALLBACK[..0] == [];
  }

  /** What each kind costs specifically, and has left after that. */
  lemma ManaRoom(c: Economy.Counters, entity: int, s: Spec, kind: string)
    requires s.sun >= 0 && s.moon >= 0 && kind in FALLBACK
    ensures
      var b, cost := ManaBasket(entity), CostOf(s);
      var own := if kind == "sun" then s.sun else s.moon;
      var left := Economy.Current(c, b[kind]) - own;
      && Economy.Amount(Economy.Specific(cost), kind) == own
      && Economy.Room(b, c, cost, kind) == if left > 0 then left else 0
  {
  }

  /** What the greedy draw takes from each kind. */
  lemma ManaDraw(c: Economy.Counters, entity: int, s: Spec)
    ensures
      var b, cost := ManaBasket(entity), CostOf(s);
      var sun, moon := Economy.Room(b, c, cost, "sun"), Economy.Room(b, c, cost, "moon");
      && Economy.Share(b, c, cost, s.generic, FALLBACK, "sun") == Economy.Min(sun, s.generic)
      && Economy.Share(b, c, cost, s.generic, FALLBACK, "moon") == Economy.Min(moon, s.generic - sun)
  {
    hide Economy.Room, Economy.Slack, Economy.Known;
    ManaSlack(c, entity, s);
    assert FALLBACK[1..] == ["moon"];
    assert T.IndexOf(FALLBACK, "sun") == 0 && T.IndexOf(FALLBACK, "moon") == 1;
  }

  lemma DrawAmount(c: Economy.Counters, b: Economy.Basket, cost: map<string, int>, generic: int, order: seq<string>, k: string)
    requires k in order && Economy.DrawOf(b, c, cost, generic, order, k) >= 0
    ensures Economy.Amount(Economy.Draw(b, c, cost, generic, order), k) == Economy.DrawOf(b, c, cost, generic, order, k)
  {
    hide Economy.DrawOf;
    assert k in cost.Keys + set x | x in order;
  }

  /**
   A card is paid for exactly when the economy's basket would accept its cost, over two counters that do not alias, and
   each pool is left with what the basket's greedy draw leaves it.
   */
  lemma PaidAgrees(c: Economy.Counters, entity: int, s: Spec)
    requires s.sun >= 0 && s.moon >= 0 && s.generic >= 0
    ensures
      var b := ManaBasket(entity);
      var sun, moon := Economy.Current(c, b["sun"]), Economy.Current(c, b["moon"]);
      && Economy.DistinctPools(b)
      && (Paid(sun, moon, s).Some? <==>
            Economy.Affordable(b, c, CostOf(s)) && Economy.Slack(b, c, CostOf(s), Economy.Known(b, FALLBACK)) >= s.generic)
      && (Paid(sun, moon, s).Some? ==>
            var d := Economy.Draw(b, c, CostOf(s), s.generic, FALLBACK);
            Paid(sun, moon, s).value == (sun - Economy.Amount(d, "sun"), moon - Economy.Amount(d, "moon")))
  {
    hide Economy.Room, Economy.Slack, Economy.Known, Economy.Draw, Economy.Share, Economy.Specific;
    var b, cost := ManaBasket(entity), CostOf(s);
    ManaSlack(c, entity, s);
    ManaRoom(c, entity, s, "sun");
    ManaRoom(c, entity, s, "moon");
    ManaDraw(c, entity, s);
    DrawAmount(c, b, cost, s.generic, FALLBACK, "sun");
    DrawAmount(c, b, cost, s.generic, FALLBACK, "moon");
  }

  /** Mana is spent to the unit: what leaves the pools is the cost, and no pool goes below zero. */
  lemma PaidIsExact(sun: int, moon: int, s: Spec)
    requires sun >= 0 && moon >= 0 && s.sun >= 0 && s.moon >= 0 && s.generic >= 0 && Paid(sun, moon, s).Some?
    ensures
      var (a, b) := Paid(sun, moon, s).value;
      && a + b == sun + moon - (s.sun + s.moon + s.generic) && 0 <= a <= sun - s.sun && 0 <= b <= moon - s.moon
      && (b < moon - s.moon ==> a == 0)
  {
  }

  /** What resolving the top does to a player's life, by kind; nothing else moves life, and none falls below zero. */
  lemma LifeAfterTop(g: Duel, p: Pid)
    requires Core(g) && g.queue.pending != [] && p in g.order && p in g.life && g.life[p] >= 0
    requires g.queue.pending[|g.queue.pending| - 1].amount >= 0
    ensures
      var top := g.queue.pending[|g.queue.pending| - 1];
      var loses := (top.kind == Damage && p != top.controller) ||
                   (top.kind == Drain && !(top.onlyOpponent && p == top.controller));
      var after := if loses then g.life[p] - top.amount
                   else if top.kind == GainLife && p == top.controller then g.life[p] + top.amount else g.life[p];
      Level(ResolveTop(g).life, p) == if after < 0 then 0 else after
  {
    hide BoardOk, QueueOk, Matched, CardsOk, Resolver, RemovedFrom;
    var top := g.queue.pending[|g.queue.pending| - 1];
    assert top in g.queue.pending && EffectOk(g, top);
    ResolverLife(g, top);
    assert p == g.order[0] || p == g.order[1];
    assert top.controller == g.order[0] || top.controller == g.order[1];
  }

  lemma BinnedLife(g: Duel, id: EntityID)
    ensures Binned(g, id).life == g.life
  {
  }

  lemma ResolverLife(g: Duel, e: Effect)
    requires TwoPlayers(g)
    ensures Resolver(g, e).life ==
            match e.kind
            case Damage => Shifted(g.life, Opponent(g, e.controller), -e.amount)
            case GainLife => Shifted(g.life, e.controller, e.amount)
            case Drain => Drained(g, e)
            case _ => g.life
  {
    hide Binned, Shifted, Drained, Opponent, MothTriggers, EnterTrigger, Z.Moved, Z.MoveError, RemovedFrom;
    match e.kind
    case Damage => BinnedLife(g.(life := Shifted(g.life, Opponent(g, e.controller), -e.amount)), e.source);
    case GainLife => BinnedLife(g.(life := Shifted(g.life, e.controller, e.amount)), e.source);
    case Drain => BinnedLife(g.(life := Drained(g, e)), e.source);
    case Counter =>
      BinnedLife(Countered(g, e.target), e.source);
      var found := Find(g.queue.pending, e.target);
      if found.Some? {
        BinnedLife(g.(queue := g.queue.(pending := RemovedFrom(g.queue.pending, e.target))), found.value.source);
      }
    case Summon =>
  }

  // ---- the opening position ---------------------------------------------------------------------------------

  const DECK_ORDER: seq<Def> := [Eclipse, Emberfall, Lunartide, Starling, Duskwisp, Glowmoth, Moonveil, Sunbolt]

  /** Entity 1 is player 0, 2 to 9 their cards; 10 is player 1, 11 to 18 theirs. */
  function DefAt(id: nat): Def
    requires 2 <= id <= 18 && id != 10
  {
    DECK_ORDER[if id < 10 then id - 2 else id - 11]
  }

  function OwnerAt(id: nat): Pid { if id <= 9 then "0" else "1" }

  function PlaceAt(id: nat): Z.ZoneName {
    if id == 1 || id == 10 then "" else if id <= 5 then DeckOf("0") else if id <= 9 then HandOf("0")
    else if id <= 14 then DeckOf("1") else HandOf("1")
  }

  /** The members of a zone after each player has drawn four cards off their fixed deck. */
  function MembersAt(z: Z.ZoneName): seq<EntityID> {
    if z == HandOf("0") then [9, 8, 7, 6] else if z == DeckOf("0") then [2, 3, 4, 5]
    else if z == HandOf("1") then [18, 17, 16, 15] else if z == DeckOf("1") then [11, 12, 13, 14] else []
  }

  function ZoneNames(p: Pid): set<Z.ZoneName> {
    {HandOf(p), DeckOf(p), FieldOf(p), GraveOf(p)}
  }

  function OpeningBoard(): Z.Board {
    Z.Board(map z | z in {STACK} + ZoneNames("0") + ZoneNames("1") :: Z.Zone(0, MembersAt(z)),
            map id: nat | 1 <= id <= 18 :: PlaceAt(id))
  }

  /** setup, before the first Turn.OnBegin. */
  function Opening(): Duel {
    Duel(OpeningBoard(), map id: nat | 2 <= id <= 18 && id != 10 :: DefAt(id),
         map id: nat | 1 <= id <= 18 :: OwnerAt(id), P.CLOSED, Queue([], 0), [],
         map["0" := 8, "1" := 8], map["0" := 3, "1" := 3], map["0" := 3, "1" := 3], [], ["0", "1"], 0)
  }

  lemma PilesApart()
    ensures HandOf("0") != HandOf("1") && DeckOf("0") != DeckOf("1")
    ensures HandOf("0") != DeckOf("0") && HandOf("0") != DeckOf("1") && HandOf("1") != DeckOf("0") && HandOf("1") != DeckOf("1")
    ensures "" !in {STACK} + ZoneNames("0") + ZoneNames("1")
  {
    NamesApart("0", "0");
    NamesApart("0", "1");
    NamesApart("1", "0");
    NamesApart("1", "1");
    assert HandOf("0")[5] == '0' && HandOf("1")[5] == '1' && DeckOf("0")[5] == '0' && DeckOf("1")[5] == '1';
  }

  lemma OpeningSound()
    ensures Z.Sound(OpeningBoard())
  {
    PilesApart();
    hide HandOf, DeckOf, FieldOf, GraveOf;
    var b := OpeningBoard();
    forall z | z in b.zones
      ensures Distinct(b.zones[z].members) && forall id | id in b.zones[z].members :: id in b.at && b.at[id] == z
    {
    }
  }

  lemma OpeningComplete()
    ensures Z.Complete(OpeningBoard())
  {
    PilesApart();
    hide HandOf, DeckOf, FieldOf, GraveOf;
    var b := OpeningBoard();
    forall id | id in b.at && b.at[id] != "" ensures b.at[id] in b.zones && id in b.zones[b.at[id]].members {
      ListedAt(id);
    }
  }

  lemma ListedAt(id: nat)
    requires 1 <= id <= 18 && id != 1 && id != 10
    ensures id in MembersAt(PlaceAt(id))
  {
    PilesApart();
    hide HandOf, DeckOf, FieldOf, GraveOf;
    var m := MembersAt(PlaceAt(id));
    assert m[if id <= 5 then id - 2 else if id <= 9 then 9 - id else if id <= 14 then id - 11 else 18 - id] == id;
  }

  lemma OpeningBoardOk()
    ensures BoardOk(Opening().board, ["0", "1"])
  {
    hide Z.Sound, Z.Complete, HandOf, DeckOf, FieldOf, GraveOf, MembersAt;
    OpeningSound();
    OpeningComplete();
    assert HasZones(OpeningBoard(), "0") && HasZones(OpeningBoard(), "1");
  }

  /** Play starts in a state the invariant describes. */
  lemma StartOk()
    ensures Core(Opening()) && Inv(TurnBegun(Opening()))
  {
    hide BoardOk;
    OpeningBoardOk();
    OpeningCoreOk();
    hide Core, TurnBegun, Opening;
    CoreSeats(Opening());
    TurnBegunKeeps(Opening());
  }

  lemma OpeningCoreOk()
    requires BoardOk(Opening().board, ["0", "1"])
    ensures Core(Opening()) && Opening().queue.pending == [] && Opening().staged == []
  {
    NamesApart("0", "1");
    NamesApart("1", "0");
    hide BoardOk, MembersAt, HandOf, DeckOf, FieldOf, GraveOf;
    var g := Opening();
    forall id | id in g.board.at ensures g.board.at[id] != STACK {
    }
  }

  /** From the opening on, after any accepted moves, the invariant holds. */
  lemma DuelInvariant(moves: seq<(Pid, Stackduel.Action)>)
    ensures
      var r := StepAll(TurnBegun(Opening()), moves);
      r.Some? ==> Inv(r.value)
  {
    hide Inv, StepAll;
    StartOk();
    hide TurnBegun, Opening;
    RunKeeps(TurnBegun(Opening()), moves);
  }

  // ---- a window, and a turn ended inside it -----------------------------------------------------------------

  lemma OpeningHand()
    ensures
      var g := Opening();
      && TwoPlayers(g) && Current(g) == "0" && g.queue.pending == []
      && 9 in g.board.at && g.board.at[9] == HandOf("0") && 9 in g.owner && g.owner[9] == "0" && 9 in g.def && g.def[9] == Sunbolt
  {
    assert DefAt(9) == Sunbolt;
  }

  /** At the opening player 0 may cast their Sunbolt, entity 9. */
  lemma SunboltCastable()
    ensures
      && TwoPlayers(Opening()) && Allowed(TurnBegun(Opening()), "0", Cast(9))
      && TurnBegun(Opening()).queue.pending == []
  {
    StartOk();
    OpeningHand();
    hide Core, Inv, Opening, DrewOne, BoardOk;
    var g := Opening();
    TurnBegunKeeps(g);
    var h := g.(window := P.CLOSED, sun := g.sun["0" := MANA], moon := g.moon["0" := MANA]);
    CoreBoard(g);
    DrewOk(h, "0");
    NamesApart("0", "0");
    var r := TurnBegun(g);
    assert r.sun["0"] == MANA && r.moon["0"] == MANA;
    CoreBoard(r);
    StackZone(r);
    MoveOk(r.board, r.order, 9, STACK);
  }

  lemma CoreBoard(g: Duel)
    requires Core(g)
    ensures BoardOk(g.board, g.order) && TwoPlayers(g)
  {
  }

  /** In the opened window the holder may pass, so the run goes on. */
  lemma WindowReached()
    ensures TwoPlayers(Opening())
    ensures
      var r := StepAll(TurnBegun(Opening()), [("0", Cast(9))]);
      && r.Some? && Inv(r.value) && r.value.window.open && |r.value.queue.pending| == 1
      && Allowed(r.value, "0", PassOn)
  {
    hide Inv, Opening, TurnBegun, Castable, Allowed, OnStack, Step;
    SunboltCastable();
    StartOk();
    var g := TurnBegun(Opening());
    StepKeeps(g, "0", Cast(9));
    assert [("0", Cast(9))][1..] == [];
    CastOpens(g, "0", 9);
  }

  lemma CastOpens(g: Duel, pid: Pid, id: EntityID)
    requires Inv(g) && Allowed(g, pid, Cast(id))
    ensures
      var r := Step(g, pid, Cast(id));
      && r.window.open && |r.queue.pending| == |g.queue.pending| + 1 && Allowed(r, pid, PassOn)
  {
    hide Core, Castable, Z.Moved;
    CoreSeats(g);
  }

  /** The engine ends that turn by force: one effect is pending, no window is open, and nobody may pass or end the turn. */
  lemma ForcedEndExample(pid: Pid)
    ensures
      var r := StepAll(TurnBegun(Opening()), [("0", Cast(9))]);
      && r.Some? && TwoPlayers(r.value)
      && var s := NextTurn(r.value);
      && !Inv(s) && |s.queue.pending| == 1 && !s.window.open && !Allowed(s, pid, PassOn) && !Allowed(s, pid, Stackduel.Action.EndTurn)
  {
    hide Core, Opening, TurnBegun, Castable, Allowed, OnStack, StepAll;
    WindowReached();
    var g := StepAll(TurnBegun(Opening()), [("0", Cast(9))]).value;
    CoreSeats(g);
    NextTurnExactly(g);
    ForcedEndStalls(g, pid, PassOn);
    ForcedEndStalls(g, pid, Stackduel.Action.EndTurn);
    SeatIsFree(g, 1 - g.pos);
    TurnBegunKeeps(g.(pos := 1 - g.pos));
  }
}
