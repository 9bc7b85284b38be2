/**
 The rules of stackduel, move by move: which moves are accepted, what a cast puts on the stack, and what a round of passes
 resolves, down to each effect, card, window and counter.
 */
module StackduelRules {
  import opened Engine
  import opened Entities
  import opened Effects
  import opened Stackduel
  import opened StackduelRuns
  import P = Priority
  import Z = Zones
  import ZoneOrder

  /** The other player. */
  function Other(g: Duel, p: Pid): Pid
    requires TwoPlayers(g)
  {
    if p == g.order[0] then g.order[1] else g.order[0]
  }

  /** A window just opened over both players, the one on turn first. */
  function FreshWindow(g: Duel): P.Window
    requires TwoPlayers(g)
  {
    P.Window(true, [g.order[g.pos], g.order[1 - g.pos]], 0, 0, "respond")
  }

  // ---- casting ----------------------------------------------------------------------------------------------

  /** A card in the player's own hand that they can pay for, the generic part out of what is left of both kinds. */
  predicate InHandAndPaid(g: Duel, pid: Pid, id: EntityID) {
    && id in g.board.at && g.board.at[id] == "hand:" + pid && id in g.owner && g.owner[id] == pid && id in g.def
    && var s := SpecOf(g.def[id]);
       var sun, moon := Level(g.sun, pid), Level(g.moon, pid);
       sun >= s.sun && moon >= s.moon && sun + moon >= s.sun + s.moon + s.generic
  }

  lemma PaidExactly(sun: int, moon: int, d: Def)
    requires sun >= 0 && moon >= 0
    ensures
      var s := SpecOf(d);
      && (Paid(sun, moon, s).Some? <==> sun >= s.sun && moon >= s.moon && sun + moon >= s.sun + s.moon + s.generic)
      && (Paid(sun, moon, s).Some? ==>
            var rest := sun - s.sun;
            var fromSun := if s.generic <= rest then s.generic else rest;
            Paid(sun, moon, s).value == (rest - fromSun, moon - s.moon - (s.generic - fromSun)))
  {
  }

  predicate ManaOk(g: Duel) {
    forall p | p in g.order :: Level(g.sun, p) >= 0 && Level(g.moon, p) >= 0
  }

  lemma CastableExactly(g: Duel, pid: Pid, id: EntityID, response: bool)
    requires Inv(g) && ManaOk(g) && pid in g.order
    ensures Castable(g, pid, id, response) <==>
      && InHandAndPaid(g, pid, id)
      && (response ==> SpecOf(g.def[id]).instant)
      && (SpecOf(g.def[id]).kind == Counter ==> g.queue.pending != [])
  {
    hide BoardOk, QueueOk, Matched, SpecOf, Paid, Z.MoveError, Z.Moved;
    if id in g.def {
      PaidExactly(Level(g.sun, pid), Level(g.moon, pid), g.def[id]);
    }
    if id in g.board.at {
      BoardIs(g);
      StackZone(g);
      MoveOk(g.board, g.order, id, STACK);
    }
  }

  lemma BoardIs(g: Duel)
    requires Core(g)
    ensures BoardOk(g.board, g.order)
  {
  }

  /**
   Which moves are accepted. Between windows the player on turn casts anything but a counter, or ends the turn; in a window the
   holder casts an instant, or passes.
   */
  lemma AcceptedExactly(g: Duel, pid: Pid, move: Stackduel.Action)
    requires Inv(g) && ManaOk(g)
    ensures Allowed(g, pid, move) <==>
      match move
      case Cast(id) =>
        && pid == g.order[g.pos] && !g.window.open && InHandAndPaid(g, pid, id) && SpecOf(g.def[id]).kind != Counter
      case Respond(id) => g.window.open && pid == P.Holder(g.window) && InHandAndPaid(g, pid, id) && SpecOf(g.def[id]).instant
      case PassOn => g.window.open && pid == P.Holder(g.window)
      case EndTurn => pid == g.order[g.pos] && !g.window.open
  {
    hide Core, Castable, SpecOf, InHandAndPaid;
    CoreSeats(g);
    if g.window.open { HolderPlays(g); }
    match move
    case Cast(id) => if pid == g.order[g.pos] { CastableExactly(g, pid, id, false); }
    case Respond(id) => if g.window.open && pid == P.Holder(g.window) { CastableExactly(g, pid, id, true); }
    case _ =>
  }

  /** The effect a card puts on the stack. A counter names the effect that was last before it. */
  ghost predicate Announces(g: Duel, pid: Pid, id: EntityID, e: Effect)
    requires id in g.def
  {
    var s := SpecOf(g.def[id]);
    && e.source == id && e.controller == pid && e.kind == s.kind && e.amount == s.amount && !e.onlyOpponent
    && e.id == g.queue.nextId + 1 && (forall x | x in g.queue.pending :: x.id < e.id)
    && e.target == if s.kind == Counter && g.queue.pending != [] then g.queue.pending[|g.queue.pending| - 1].id else 0
  }

  /** What paying for a card leaves of a player's two pools. */
  predicate PaysFor(g: Duel, r: Duel, pid: Pid, s: Spec) {
    var sun, moon := Level(g.sun, pid) - s.sun, Level(g.moon, pid) - s.moon;
    var fromSun := if s.generic <= sun then s.generic else sun;
    r.sun == g.sun[pid := sun - fromSun] && r.moon == g.moon[pid := moon - (s.generic - fromSun)]
  }

  /**
   An accepted cast or response: one effect on top of the stack, the card out of the hand and last in the stack zone, its
   cost out of the pools, and nothing else. A cast opens a window for the player on turn; after a response the holder goes
   on, with nobody having passed.
   */
  lemma PutsOnStack(g: Duel, pid: Pid, move: Stackduel.Action)
    requires Inv(g) && ManaOk(g) && Allowed(g, pid, move) && (move.Cast? || move.Respond?)
    ensures
      var id, r := move.id, Step(g, pid, move);
      && id in g.def && "stack" in g.board.zones && "stack" in r.board.zones
      && |r.queue.pending| == |g.queue.pending| + 1 && r.queue.pending[..|g.queue.pending|] == g.queue.pending
      && Announces(g, pid, id, r.queue.pending[|g.queue.pending|]) && r.queue.nextId == g.queue.nextId + 1
      && r.board.at == g.board.at[id := "stack"]
      && r.board.zones["stack"].members == g.board.zones["stack"].members + [id]
      && PaysFor(g, r, pid, SpecOf(g.def[id]))
      && r.window == (if move.Cast? then FreshWindow(g) else g.window.(passes := 0))
      && r == g.(board := r.board, queue := r.queue, sun := r.sun, moon := r.moon, window := r.window)
  {
    hide Core, SpecOf, OnStack, Castable;
    CoreSeats(g);
    var id := move.id;
    if g.window.open { HolderPlays(g); }
    assert Castable(g, pid, id, move.Respond?);
    OnStackExactly(g, pid, id, move.Respond?);
  }

  /** putOnStack, without what a move does to the window. */
  lemma OnStackExactly(g: Duel, pid: Pid, id: EntityID, response: bool)
    requires Core(g) && ManaOk(g) && Castable(g, pid, id, response) && pid in g.order
    ensures
      var r := OnStack(g, pid, id, response);
      && id in g.def && "stack" in g.board.zones && "stack" in r.board.zones
      && |r.queue.pending| == |g.queue.pending| + 1 && r.queue.pending[..|g.queue.pending|] == g.queue.pending
      && Announces(g, pid, id, r.queue.pending[|g.queue.pending|]) && r.queue.nextId == g.queue.nextId + 1
      && r.board.at == g.board.at[id := "stack"]
      && r.board.zones["stack"].members == g.board.zones["stack"].members + [id]
      && PaysFor(g, r, pid, SpecOf(g.def[id]))
      && r == g.(board := r.board, queue := r.queue, sun := r.sun, moon := r.moon)
  {
    hide BoardOk, QueueOk, Matched, SpecOf, Paid, Z.MoveError, Z.Moved, EffectOk, CardsOk;
    PaidExactly(Level(g.sun, pid), Level(g.moon, pid), g.def[id]);
    BoardIs(g);
    StackZone(g);
    NamesApart(pid, pid);
    MoveOk(g.board, g.order, id, STACK);
    OntoStack(g, id);
    OlderIds(g);
  }

  lemma OntoStack(g: Duel, id: EntityID)
    requires BoardOk(g.board, g.order) && id in g.board.at && g.board.at[id] != STACK && g.board.at[id] != ""
    requires Z.MoveError(g.board, id, STACK).None?
    ensures STACK in g.board.zones && STACK in Z.Moved(g.board, id, STACK).zones
    ensures Z.Moved(g.board, id, STACK).zones[STACK].members == g.board.zones[STACK].members + [id]
  {
    hide Z.Moved, Z.Sound, Z.Complete;
    ZoneOrder.MovedExactly(g.board, id, STACK);
  }

  lemma OlderIds(g: Duel)
    requires Core(g)
    ensures forall x | x in g.queue.pending :: x.id <= g.queue.nextId
  {
    hide BoardOk, Matched, EffectOk, CardsOk;
  }

  // ---- passing ----------------------------------------------------------------------------------------------

  /** The first pass of a round hands priority to the other player, and nothing else. */
  lemma FirstPass(g: Duel)
    requires Inv(g) && g.window.open && g.window.passes == 0
    ensures
      var p := P.Holder(g.window);
      && p in g.order && Allowed(g, p, PassOn)
      && var r := Step(g, p, PassOn);
         && r == g.(window := r.window) && r.window.open && r.window.passes == 1
         && P.Holder(r.window) == Other(g, p) && Allowed(r, Other(g, p), PassOn)
  {
    hide Core;
    CoreSeats(g);
    HolderPlays(g);
  }

  /** The holder passes, then the other player. */
  function TwoPasses(g: Duel): seq<(Pid, Stackduel.Action)>
    requires TwoPlayers(g)
  {
    [(P.Holder(g.window), PassOn), (Other(g, P.Holder(g.window)), PassOn)]
  }

  lemma PassesResolve(g: Duel)
    requires Inv(g) && g.window.open && g.window.passes == 0
    ensures TwoPlayers(g) && StepAll(g, TwoPasses(g)) == Some(AllPassed(g.(window := P.CLOSED)))
  {
    hide Core, AllPassed;
    CoreSeats(g);
    FirstPass(g);
    var p := P.Holder(g.window);
    var r := Step(g, p, PassOn);
    assert TwoPasses(g)[1..] == [(Other(g, p), PassOn)] && [(Other(g, p), PassOn)][1..] == [];
    var end := Step(r, Other(g, p), PassOn);
    assert end == AllPassed(g.(window := P.CLOSED));
    assert StepAll(end, []) == Some(end);
    assert StepAll(r, [(Other(g, p), PassOn)]) == Some(end);
  }

  /** The window after a round of passes: open again for the player on turn while anything is left to resolve. */
  predicate WindowAfter(g: Duel, r: Duel)
    requires TwoPlayers(g)
  {
    r.window == if r.queue.pending == [] then P.CLOSED else FreshWindow(g)
  }

  /** Where the cards lie after a damage, life or drain effect: the card that made it, if on the stack, in a graveyard. */
  function SpellBinned(g: Duel, top: Effect): map<EntityID, Z.ZoneName> {
    if top.source in g.board.at && g.board.at[top.source] == "stack"
    then g.board.at[top.source := "graveyard:" + top.controller] else g.board.at
  }

  /** The state the passes find, the window aside. */
  lemma ShutCore(g: Duel)
    requires Inv(g) && g.window.open
    ensures
      var h := g.(window := P.CLOSED);
      Core(h) && h.staged == [] && h.queue.pending != [] && TwoPlayers(h)
  {
    hide Core;
    CoreSeats(g);
    WindowIsFree(g, P.CLOSED);
  }

  /** What an effect does to one player's life: never below zero. */
  predicate LifeMoves(g: Duel, r: Duel, top: Effect, p: Pid)
    requires p in g.life
  {
    var loses := (top.kind == Damage && p != top.controller) || (top.kind == Drain && !(top.onlyOpponent && p == top.controller));
    var after := if loses then g.life[p] - top.amount
                 else if top.kind == GainLife && p == top.controller then g.life[p] + top.amount else g.life[p];
    Level(r.life, p) == if after < 0 then 0 else after
  }

  /**
   Two passes with a damage, life or drain effect on top: it leaves the stack, what lay below stays, its card goes to its
   controller's graveyard if it was on the stack, life changes by the effect, and the window opens again if there is more.
   */
  lemma SpellResolvesByPasses(g: Duel, p: Pid)
    requires Inv(g) && g.window.open && g.window.passes == 0 && g.queue.pending != []
    requires g.queue.pending[|g.queue.pending| - 1].kind in {Damage, GainLife, Drain}
    requires p in g.order && p in g.life && g.life[p] >= 0 && g.queue.pending[|g.queue.pending| - 1].amount >= 0
    ensures TwoPlayers(g) && StepAll(g, TwoPasses(g)).Some?
    ensures
      var n := |g.queue.pending| - 1;
      var top, r := g.queue.pending[n], StepAll(g, TwoPasses(g)).value;
      && r.queue == g.queue.(pending := g.queue.pending[..n]) && WindowAfter(g, r)
      && r.board.at == SpellBinned(g, top) && LifeMoves(g, r, top, p)
      && r == g.(board := r.board, queue := r.queue, life := r.life, window := r.window)
  {
    hide Core, BoardOk, ResolveTop, Flushed, StepAll, TwoPasses;
    ShutCore(g);
    PassesResolve(g);
    var h := g.(window := P.CLOSED);
    SpellTop(h);
    LifeAfterTop(h, p);
    NothingStaged(ResolveTop(h));
    ReopensFresh(g, ResolveTop(h));
  }

  lemma SpellTop(h: Duel)
    requires Core(h) && h.queue.pending != [] && h.queue.pending[|h.queue.pending| - 1].kind in {Damage, GainLife, Drain}
    requires h.staged == []
    ensures TwoPlayers(h)
    ensures
      var n := |h.queue.pending| - 1;
      var top, r := h.queue.pending[n], ResolveTop(h);
      && r.queue == h.queue.(pending := h.queue.pending[..n]) && r.board.at == SpellBinned(h, top) && r.staged == []
      && r == h.(board := r.board, queue := r.queue, life := r.life)
  {
    hide BoardOk, QueueOk, Matched, Binned, EffectOk, CardsOk, RemovedFrom, Shifted, Drained;
    var top := h.queue.pending[|h.queue.pending| - 1];
    assert top in h.queue.pending;
    forall life: map<Pid, int>
      ensures
        var r := Binned(h.(life := life), top.source);
        && r == h.(life := life, board := r.board) && r.board.at == SpellBinned(h, top)
    {
      LifeIsFree(h, life);
      BinnedAt(h.(life := life), top);
    }
    TopRemoved(h);
  }

  /** With nothing staged there is nothing to flush. */
  lemma NothingStaged(r: Duel)
    requires TwoPlayers(r) && r.staged == []
    ensures Flushed(r) == r
  {
    assert OrderByPlayer([], Apnap(r)) == [] by { NothingOrdered(Apnap(r)); }
  }

  lemma {:induction false} NothingOrdered(order: seq<Pid>)
    ensures OrderByPlayer([], order) == []
  {
    NothingListed(order);
  }

  lemma {:induction false} NothingListed(order: seq<Pid>)
    ensures Listed([], order) == []
  {
    if order != [] { NothingListed(order[..|order| - 1]); }
  }

  lemma ReopensFresh(g: Duel, f: Duel)
    requires TwoPlayers(g) && TwoPlayers(f) && f.order == g.order && f.pos == g.pos && f.window == P.CLOSED
    ensures Reopened(f) == f.(window := FreshWindow(g))
  {
  }

  // ---- counters ---------------------------------------------------------------------------------------------

  /**
   A counter in response, and then two passes. The stack is what it was before the response but for its last effect, whatever
   that was; that effect's card, if it lay on the stack, and the counter's own are in their owners' graveyards; the counter
   has been paid for; and apart from the window nothing else has changed.
   */
  lemma CounterTakesLast(g: Duel, id: EntityID)
    requires Inv(g) && ManaOk(g) && g.window.open && Allowed(g, P.Holder(g.window), Respond(id))
    requires id in g.def && SpecOf(g.def[id]).kind == Counter
    ensures TwoPlayers(g) && g.queue.pending != []
    ensures
      var pid, n := P.Holder(g.window), |g.queue.pending| - 1;
      var last := g.queue.pending[n];
      var moves := [(pid, Respond(id)), (pid, PassOn), (Other(g, pid), PassOn)];
      && StepAll(g, moves).Some?
      && var r := StepAll(g, moves).value;
      && r.queue.pending == g.queue.pending[..n] && WindowAfter(g, r) && PaysFor(g, r, pid, SpecOf(g.def[id]))
      && r.board.at == SpellBinned(g, last)[id := "graveyard:" + pid]
      && r == g.(board := r.board, queue := r.queue, sun := r.sun, moon := r.moon, window := r.window)
  {
    hide Core, BoardOk, ResolveTop, Flushed, SpecOf, Castable, TwoPasses, Step;
    CoreSeats(g);
    HolderPlays(g);
    var pid := P.Holder(g.window);
    PutsOnStack(g, pid, Respond(id));
    StepKeeps(g, pid, Respond(id));
    var s := Step(g, pid, Respond(id));
    ShutCore(s);
    PassesResolve(s);
    var moves := [(pid, Respond(id)), (pid, PassOn), (Other(g, pid), PassOn)];
    assert P.Holder(s.window) == pid;
    SamePasses(g, s, pid);
    assert moves[1..] == TwoPasses(s);
    var h := s.(window := P.CLOSED);
    CounterTop(g, h, pid, id);
    NothingStaged(ResolveTop(h));
    ReopensFresh(g, ResolveTop(h));
  }

  lemma SamePasses(g: Duel, s: Duel, pid: Pid)
    requires TwoPlayers(g) && TwoPlayers(s) && s.order == g.order && P.Holder(s.window) == pid
    ensures TwoPasses(s) == [(pid, PassOn), (Other(g, pid), PassOn)]
  {
  }

  lemma CounterTop(g: Duel, h: Duel, pid: Pid, id: EntityID)
    requires Inv(g) && Core(h) && h.staged == [] && g.queue.pending != [] && id in g.def && TwoPlayers(h)
    requires |h.queue.pending| == |g.queue.pending| + 1 && h.queue.pending[..|g.queue.pending|] == g.queue.pending
    requires Announces(g, pid, id, h.queue.pending[|g.queue.pending|]) && SpecOf(g.def[id]).kind == Counter
    requires h == g.(board := h.board, queue := h.queue, sun := h.sun, moon := h.moon, window := h.window)
    requires h.board.at == g.board.at[id := STACK]
    ensures
      var n := |g.queue.pending| - 1;
      var r := ResolveTop(h);
      && r == h.(board := r.board, queue := r.queue) && r.queue.pending == g.queue.pending[..n]
      && r.board.at == SpellBinned(g, g.queue.pending[n])[id := GraveOf(pid)]
  {
    hide BoardOk, QueueOk, Matched, CardsOk, EffectOk, ResolveTop, SpecOf, Resolves;
    var n := |g.queue.pending| - 1;
    var last, top := g.queue.pending[n], h.queue.pending[n + 1];
    CounterResolves(h);
    ResolvesBelow(h);
    assert h.queue.pending[..n + 1] == g.queue.pending;
    FoundLast(g, h, last);
    LastRemoved(g);
    NotSameSource(g, h, last, id);
    NamesApart(pid, last.controller);
    NamesApart(last.controller, pid);
  }

  lemma ResolvesBelow(h: Duel)
    requires Core(h) && h.queue.pending != [] && Resolves(h, ResolveTop(h))
    ensures ResolveTop(h).queue.pending == Below(h)
  {
  }

  lemma LastRemoved(g: Duel)
    requires Inv(g) && g.queue.pending != []
    ensures
      var n := |g.queue.pending| - 1;
      RemovedFrom(g.queue.pending, g.queue.pending[n].id) == g.queue.pending[..n]
  {
    hide BoardOk, Matched, CardsOk, EffectOk;
    TopRemoved(g);
  }

  /** The effect with the last one's ID is the last one. */
  lemma FoundLast(g: Duel, h: Duel, last: Effect)
    requires Core(h) && last in h.queue.pending
    ensures Find(h.queue.pending, last.id) == Some(last)
  {
    hide BoardOk, Matched, CardsOk, EffectOk;
    var e := Find(h.queue.pending, last.id);
    assert e.Some?;
    var i :| 0 <= i < |h.queue.pending| && h.queue.pending[i] == e.value;
    var j :| 0 <= j < |h.queue.pending| && h.queue.pending[j] == last;
  }

  /** The counter's card is not the card of the effect it names. */
  lemma NotSameSource(g: Duel, h: Duel, last: Effect, id: EntityID)
    requires Core(h) && last in h.queue.pending && |h.queue.pending| >= 2
    requires h.queue.pending[|h.queue.pending| - 1].source == id && h.queue.pending[|h.queue.pending| - 1].id != last.id
    requires id in h.board.at && h.board.at[id] == STACK
    ensures last.source != id
  {
    hide BoardOk, QueueOk, CardsOk, EffectOk;
    var top := h.queue.pending[|h.queue.pending| - 1];
    assert top in h.queue.pending;
  }

  // ---- creatures --------------------------------------------------------------------------------------------

  /** The trigger of a creature that enters: a Duskwisp makes the opponent lose 1. */
  predicate Enters(g: Duel, id: EntityID, trigger: seq<Effect>) {
    trigger == if id in g.def && g.def[id] == Duskwisp && id in g.owner
               then [Effect(0, id, g.owner[id], Drain, 1, true, 0)] else []
  }

  /** A Glowmoth still on its owner's battlefield when another creature has entered: its owner gains 1. */
  predicate Glows(g: Duel, moth: EntityID, entered: EntityID) {
    moth != entered && moth in g.owner && moth in g.board.at && g.board.at[moth] == "battlefield:" + g.owner[moth]
  }

  /** The triggers of the Glowmoths: one for each that glows, in the order they were bound. */
  lemma {:induction false} MothsExactly(g: Duel, moths: seq<EntityID>, entered: EntityID, m: EntityID)
    ensures MothTriggers(g, moths + [m], entered) ==
            MothTriggers(g, moths, entered) +
            if Glows(g, m, entered) then [Effect(0, m, g.owner[m], GainLife, 1, false, 0)] else []
    ensures MothTriggers(g, [], entered) == []
  {
    assert (moths + [m])[..|moths|] == moths;
  }

  /** The effects a flush puts on the stack: the triggers of the player on turn, then the other's, under new IDs. */
  ghost predicate Follows(g: Duel, below: seq<Effect>, triggers: seq<Effect>, pending: seq<Effect>)
    requires TwoPlayers(g)
  {
    var batch := ControlledBy(triggers, g.order[g.pos]) + ControlledBy(triggers, g.order[1 - g.pos]);
    && |pending| == |below| + |batch| && pending[..|below|] == below
    && forall i | 0 <= i < |batch| :: pending[|below| + i] == batch[i].(id := g.queue.nextId + 1 + i)
  }

  /**
   Two passes with a creature on top: it goes to its controller's battlefield and no other card moves; its own trigger and
   those of the Glowmoths bound before it go on the stack, the player on turn's first; a Glowmoth is bound from now on; and
   life and mana are untouched.
   */
  lemma CreatureEntersByPasses(g: Duel)
    requires Inv(g) && g.window.open && g.window.passes == 0 && g.queue.pending != []
    requires g.queue.pending[|g.queue.pending| - 1].kind == Summon
    ensures TwoPlayers(g) && StepAll(g, TwoPasses(g)).Some?
    ensures
      var n := |g.queue.pending| - 1;
      var top, r := g.queue.pending[n], StepAll(g, TwoPasses(g)).value;
      && r.board.at == g.board.at[top.source := "battlefield:" + top.controller] && WindowAfter(g, r)
      && (exists own :: Enters(g, top.source, own) &&
            Follows(g, g.queue.pending[..n], own + MothTriggers(g.(board := r.board), g.moths, top.source), r.queue.pending))
      && r.moths == (if top.source in g.def && g.def[top.source] == Glowmoth then g.moths + [top.source] else g.moths)
      && r == g.(board := r.board, queue := r.queue, moths := r.moths, window := r.window)
  {
    hide Core, BoardOk, ResolveTop, Flushed, StepAll, TwoPasses, MothTriggers;
    ShutCore(g);
    PassesResolve(g);
    var h := g.(window := P.CLOSED);
    var top := h.queue.pending[|h.queue.pending| - 1];
    SummonTop(h);
    var x := ResolveTop(h);
    FlushFollows(g, x);
    SameMoths(h, g, x.board, top.source);
    ReopensFresh(g, Flushed(x));
    assert Enters(g, top.source, EnterTrigger(h, top.source));
  }

  lemma SameMoths(h: Duel, g: Duel, board: Z.Board, id: EntityID)
    requires h == g.(window := h.window)
    ensures MothTriggers(h.(board := board), h.moths, id) == MothTriggers(g.(board := board), g.moths, id)
  {
    MothsRead(h.(board := board), g.(board := board), g.moths, id);
  }

  lemma {:induction false} MothsRead(a: Duel, b: Duel, moths: seq<EntityID>, id: EntityID)
    requires a.owner == b.owner && a.board == b.board
    ensures MothTriggers(a, moths, id) == MothTriggers(b, moths, id)
  {
    if moths != [] { MothsRead(a, b, moths[..|moths| - 1], id); }
  }

  lemma SummonTop(h: Duel)
    requires Core(h) && h.staged == [] && h.queue.pending != []
    requires h.queue.pending[|h.queue.pending| - 1].kind == Summon
    ensures TwoPlayers(h)
    ensures
      var n := |h.queue.pending| - 1;
      var top, r := h.queue.pending[n], ResolveTop(h);
      && Core(r) && r.queue == h.queue.(pending := h.queue.pending[..n])
      && r.board.at == h.board.at[top.source := "battlefield:" + top.controller]
      && r.staged == EnterTrigger(h, top.source) + MothTriggers(h.(board := r.board), h.moths, top.source)
      && r.moths == (if top.source in h.def && h.def[top.source] == Glowmoth then h.moths + [top.source] else h.moths)
      && r == h.(board := r.board, queue := r.queue, staged := r.staged, moths := r.moths)
  {
    hide BoardOk, QueueOk, Matched, CardsOk, EffectOk, MothTriggers, EnterTrigger, Z.Moved;
    SummonResolves(h);
    ResolvesBelow(h);
    MothBound(h);
    assert h.staged + EnterTrigger(h, h.queue.pending[|h.queue.pending| - 1].source) ==
           EnterTrigger(h, h.queue.pending[|h.queue.pending| - 1].source);
  }

  lemma MothBound(h: Duel)
    requires Core(h) && h.queue.pending != [] && h.queue.pending[|h.queue.pending| - 1].kind == Summon
    ensures TwoPlayers(h)
    ensures
      var id := h.queue.pending[|h.queue.pending| - 1].source;
      ResolveTop(h).moths == if id in h.def && h.def[id] == Glowmoth then h.moths + [id] else h.moths
  {
    hide QueueOk, Matched, CardsOk, MothTriggers, EnterTrigger, Z.Moved, BoardOk;
    var top := h.queue.pending[|h.queue.pending| - 1];
    assert top in h.queue.pending && EffectOk(h, top);
    FieldZone(h, top.controller);
    MoveOk(h.board, h.order, top.source, FieldOf(top.controller));
  }

  lemma FlushFollows(g: Duel, x: Duel)
    requires Core(x) && TwoPlayers(g) && x.order == g.order && x.pos == g.pos && x.queue.nextId == g.queue.nextId
    ensures TwoPlayers(x)
    ensures
      var f := Flushed(x);
      && f == x.(queue := f.queue, staged := []) && Follows(g, x.queue.pending, x.staged, f.queue.pending)
  {
    hide BoardOk, QueueOk, Matched, CardsOk, EffectOk, StagedOk, OrderByPlayer, ControlledBy;
    StagedSeats(x);
    TwoListed(x);
    PushedAllIs(x.queue, OrderByPlayer(x.staged, Apnap(x)));
  }

  lemma StagedSeats(x: Duel)
    requires Core(x)
    ensures forall e | e in x.staged :: e.controller in x.order
  {
    hide BoardOk, QueueOk, Matched, CardsOk;
    forall e | e in x.staged ensures e.controller in x.order {
      assert StagedOk(x, e);
    }
  }

  /** Every staged trigger belongs to one of the two players. */
  lemma TwoListed(x: Duel)
    requires TwoPlayers(x) && forall e | e in x.staged :: e.controller in x.order
    ensures OrderByPlayer(x.staged, Apnap(x)) ==
            ControlledBy(x.staged, x.order[x.pos]) + ControlledBy(x.staged, x.order[1 - x.pos])
  {
    hide ControlledBy, Unlisted;
    var order := Apnap(x);
    ListedPair(x.staged, order);
    assert forall p | p in x.order :: p in order;
    NoneUnlisted(x.staged, order);
  }

  lemma {:induction false} NoneUnlisted(effs: seq<Effect>, order: seq<Pid>)
    requires forall e | e in effs :: e.controller in order
    ensures Unlisted(effs, order) == []
    decreases |effs|
  {
    if effs != [] {
      var n := |effs| - 1;
      assert effs[n] in effs;
      NoneUnlisted(effs[..n], order);
    }
  }

  lemma ListedPair(effs: seq<Effect>, order: seq<Pid>)
    requires |order| == 2 && order[0] != order[1]
    ensures Listed(effs, order) == ControlledBy(effs, order[0]) + ControlledBy(effs, order[1])
  {
    hide ControlledBy, Unlisted;
    assert order[..1] == [order[0]] && order[..1][..0] == [] && order[1] !in order[..1];
    assert Listed(effs, []) == [];
    assert Listed(effs, order[..1]) == ControlledBy(effs, order[0]);
  }

  // ---- the cards --------------------------------------------------------------------------------------------

  /** The mana a card costs of each kind, and of either. */
  function Price(d: Def): (int, int, int) {
    match d
    case Sunbolt => (1, 0, 0)
    case Emberfall => (2, 0, 1)
    case Moonveil => (0, 1, 0)
    case Lunartide => (0, 1, 0)
    case Eclipse => (1, 1, 0)
    case Glowmoth => (1, 0, 0)
    case Duskwisp => (0, 1, 0)
    case Starling => (0, 0, 2)
  }

  /** An accepted cast or response costs the card's price to the unit, and only instants are accepted as responses. */
  lemma PricesPaid(g: Duel, pid: Pid, move: Stackduel.Action)
    requires Inv(g) && ManaOk(g) && Allowed(g, pid, move) && (move.Cast? || move.Respond?)
    ensures
      var r := Step(g, pid, move);
      && move.id in g.def && (move.Respond? ==> g.def[move.id] in {Sunbolt, Moonveil, Lunartide})
      && var (sun, moon, either) := Price(g.def[move.id]);
         && Level(g.sun, pid) - Level(r.sun, pid) >= sun && Level(g.moon, pid) - Level(r.moon, pid) >= moon
         && Level(g.sun, pid) + Level(g.moon, pid) - Level(r.sun, pid) - Level(r.moon, pid) == sun + moon + either
         && (either > 0 && Level(g.moon, pid) - Level(r.moon, pid) > moon ==> Level(r.sun, pid) == 0)
         && Level(r.sun, pid) >= 0 && Level(r.moon, pid) >= 0
  {
    hide Core, Step;
    CoreSeats(g);
    PutsOnStack(g, pid, move);
    if g.window.open { HolderPlays(g); }
    CastableExactly(g, pid, move.id, move.Respond?);
  }

  /** A player's life after a spell's effect, which ends at zero. */
  function Hit(life: int, damage: int): int {
    if life > damage then life - damage else 0
  }

  /**
   What the four spells that touch life do when cast on an empty stack and let through: Sunbolt takes 2 of the opponent's,
   Emberfall 4, Eclipse 2 of both, Lunartide adds 2 to one's own.
   */
  lemma SpellsHit(g: Duel, pid: Pid, id: EntityID)
    requires Inv(g) && CountersOk(g) && Allowed(g, pid, Cast(id))
    requires id in g.def && g.def[id] in {Sunbolt, Emberfall, Eclipse, Lunartide}
    ensures TwoPlayers(g) && pid in g.order && pid in g.life && Other(g, pid) in g.life
    ensures
      var you, d := Other(g, pid), g.def[id];
      var r := StepAll(g, [(pid, Cast(id)), (pid, PassOn), (you, PassOn)]);
      && r.Some? && r.value.queue.pending == [] && !r.value.window.open
      && r.value.board.at == g.board.at[id := "graveyard:" + pid]
      && Level(r.value.life, you) ==
           (if d == Sunbolt || d == Eclipse then Hit(g.life[you], 2)
            else if d == Emberfall then Hit(g.life[you], 4) else g.life[you])
      && Level(r.value.life, pid) ==
           (if d == Eclipse then Hit(g.life[pid], 2) else if d == Lunartide then g.life[pid] + 2 else g.life[pid])
  {
    hide Core, Castable, StepAll, Step;
    CoreSeats(g);
    PutsOnStack(g, pid, Cast(id));
    var s, you := Step(g, pid, Cast(id)), Other(g, pid);
    StepKeeps(g, pid, Cast(id));
    CastBySeat(g, pid, id);
    SpellResolvesByPasses(s, pid);
    SpellResolvesByPasses(s, you);
    ThreeSteps(g, pid, id);
  }

  lemma CastBySeat(g: Duel, pid: Pid, id: EntityID)
    requires Inv(g) && CountersOk(g) && Allowed(g, pid, Cast(id))
    ensures TwoPlayers(g) && pid == g.order[g.pos] && g.queue.pending == []
  {
    hide Core, Castable;
    CoreSeats(g);
  }

  lemma ThreeSteps(g: Duel, pid: Pid, id: EntityID)
    requires TwoPlayers(g) && Allowed(g, pid, Cast(id)) && TwoPlayers(Step(g, pid, Cast(id)))
    ensures
      var s, you := Step(g, pid, Cast(id)), Other(g, pid);
      StepAll(g, [(pid, Cast(id)), (pid, PassOn), (you, PassOn)]) == StepAll(s, [(pid, PassOn), (you, PassOn)])
  {
    hide Step, Allowed;
    var moves: seq<(Pid, Stackduel.Action)> := [(pid, Cast(id)), (pid, PassOn), (Other(g, pid), PassOn)];
    assert moves[1..] == [(pid, PassOn), (Other(g, pid), PassOn)];
  }

  // ---- the end of a turn ------------------------------------------------------------------------------------

  /**
   Ending the turn: the other player is on turn, with both pools at 3 and the top card of their deck, if any, in their hand;
   nothing else changes.
   */
  lemma TurnPassesOn(g: Duel, pid: Pid)
    requires Inv(g) && Allowed(g, pid, Stackduel.Action.EndTurn)
    ensures
      var next, r := Other(g, pid), Step(g, pid, Stackduel.Action.EndTurn);
      && pid == g.order[g.pos] && r.pos == 1 - g.pos && r.order[r.pos] == next
      && r.sun == g.sun[next := 3] && r.moon == g.moon[next := 3] && r.window == P.CLOSED
      && r == g.(pos := r.pos, board := r.board, sun := r.sun, moon := r.moon, window := r.window)
      && var hand, deck := "hand:" + next, "deck:" + next;
         && hand in g.board.zones && deck in g.board.zones && hand in r.board.zones && deck in r.board.zones
         && var d, h := g.board.zones[deck].members, g.board.zones[hand].members;
            if d == [] then r.board == g.board
            else
              && r.board.zones[deck].members == d[..|d| - 1] && r.board.zones[hand].members == h + [d[|d| - 1]]
              && ZoneOrder.SameBut(g.board, r.board, {deck, hand})
              && r.board.at == g.board.at[d[|d| - 1] := hand]
  {
    hide Z.Drawn, Z.Inserted, Z.Agree, QueueOk, Matched, CardsOk, EffectOk, Uncapped;
    hide BoardOk, P.WindowOk, DrewOne, Step, Allowed;
    var next := Other(g, pid);
    EndsAsBegun(g, pid);
    var h := g.(pos := 1 - g.pos, window := P.CLOSED, sun := g.sun[next := MANA], moon := g.moon[next := MANA]);
    OneDrawn(h, next);
  }

  lemma EndsAsBegun(g: Duel, pid: Pid)
    requires Inv(g) && Allowed(g, pid, Stackduel.Action.EndTurn)
    ensures
      var next := Other(g, pid);
      && pid == g.order[g.pos] && g.order[1 - g.pos] == next
      && Step(g, pid, Stackduel.Action.EndTurn) ==
         DrewOne(g.(pos := 1 - g.pos, window := P.CLOSED, sun := g.sun[next := MANA], moon := g.moon[next := MANA]), next)
  {
    hide DrewOne, Core, P.WindowOk;
  }

  /** Drawing one card: the deck's last becomes the hand's last, and an empty deck gives none. */
  lemma OneDrawn(h: Duel, next: Pid)
    requires BoardOk(h.board, h.order) && next in h.order
    ensures
      var r, hand, deck := DrewOne(h, next), "hand:" + next, "deck:" + next;
      && r == h.(board := r.board)
      && hand in h.board.zones && deck in h.board.zones && hand in r.board.zones && deck in r.board.zones
      && var d, c := h.board.zones[deck].members, h.board.zones[hand].members;
         if d == [] then r.board == h.board
         else
           && r.board.zones[deck].members == d[..|d| - 1] && r.board.zones[hand].members == c + [d[|d| - 1]]
           && ZoneOrder.SameBut(h.board, r.board, {deck, hand})
           && r.board.at == h.board.at[d[|d| - 1] := hand]
  {
    hide Z.Drawn, Z.Inserted, Z.Agree, Uncapped;
    assert HasZones(h.board, next);
    NamesApart(next, next);
    if Z.DrawError(h.board, DeckOf(next)).None? {
      TakenOff(h.board, h.order, DeckOf(next));
      ZoneOrder.DrawnExactly(h.board, DeckOf(next), 1);
      var (left, cards) := Z.Drawn(h.board, DeckOf(next), 1);
      TakenUp(left, h.order, HandOf(next), cards[0]);
      InsertedLast(left, HandOf(next), cards[0]);
      OneOff(h.board.zones[DeckOf(next)].members, cards, left.zones[DeckOf(next)].members);
    }
  }

  lemma OneOff(pile: seq<EntityID>, cards: seq<EntityID>, left: seq<EntityID>)
    requires ZoneOrder.OffTheEnd(pile, cards, left) && |cards| == 1
    ensures pile != [] && cards == [pile[|pile| - 1]] && left == pile[..|pile| - 1]
  {
  }

  lemma InsertedLast(b: Z.Board, zone: Z.ZoneName, id: EntityID)
    requires zone in b.zones && Z.InsertError(b, zone, id, |b.zones[zone].members|).None?
    ensures
      var t := Z.Inserted(b, zone, id, |b.zones[zone].members|);
      && zone in t.zones && t.zones[zone].members == b.zones[zone].members + [id] && ZoneOrder.SameBut(b, t, {zone})
      && t.at == b.at[id := zone]
  {
  }

  // ---- whole runs -------------------------------------------------------------------------------------------

  /** Pools and life totals that the rules above ask for. */
  predicate CountersOk(g: Duel) {
    ManaOk(g) && forall p | p in g.order :: p in g.life && g.life[p] >= 0
  }

  lemma StepCounters(g: Duel, pid: Pid, move: Stackduel.Action)
    requires Inv(g) && CountersOk(g) && Allowed(g, pid, move)
    ensures CountersOk(Step(g, pid, move))
  {
    hide Core, Castable, OnStack, AllPassed, DrewOne, SpecOf;
    CoreSeats(g);
    match move
    case Cast(id) => PutsOnStack(g, pid, move); PaidStays(g, Step(g, pid, move), pid, id);
    case Respond(id) => HolderPlays(g); PutsOnStack(g, pid, move); PaidStays(g, Step(g, pid, move), pid, id);
    case PassOn =>
      PassedWindow(g, pid);
      if P.Pass(g.window, pid).closed { ResolvedCounters(g.(window := P.Pass(g.window, pid).w)); }
    case EndTurn => TurnPassesOn(g, pid);
  }

  /** Who can afford a card keeps no less than nothing. */
  lemma PaidStays(g: Duel, r: Duel, pid: Pid, id: EntityID)
    requires Inv(g) && CountersOk(g) && id in g.def && PaysFor(g, r, pid, SpecOf(g.def[id]))
    requires r.order == g.order && r.life == g.life
    requires Castable(g, pid, id, false) || Castable(g, pid, id, true)
    requires pid in g.order
    ensures CountersOk(r)
  {
    hide Core, SpecOf, Paid, Z.MoveError;
    PaidExactly(Level(g.sun, pid), Level(g.moon, pid), g.def[id]);
    CostsSomething(g.def[id]);
  }

  lemma CostsSomething(d: Def)
    ensures SpecOf(d).sun >= 0 && SpecOf(d).moon >= 0 && SpecOf(d).generic >= 0
  {
  }

  lemma ResolvedCounters(h: Duel)
    requires TwoPlayers(h) && CountersOk(h)
    ensures CountersOk(AllPassed(h))
  {
    if h.queue.pending != [] {
      hide Binned, MothTriggers, EnterTrigger, Z.Moved, Z.MoveError, RemovedFrom, OrderByPlayer, PushedAll, Resolver;
      var top := h.queue.pending[|h.queue.pending| - 1];
      ResolverLife(h, top);
      ResolverMana(h, top);
      ShiftedOk(h, top);
    }
  }

  lemma ShiftedOk(h: Duel, e: Effect)
    requires TwoPlayers(h) && CountersOk(h)
    ensures forall p, q, n | p in h.order :: p in Shifted(h.life, q, n) && Shifted(h.life, q, n)[p] >= 0
    ensures forall p | p in h.order :: p in Drained(h, e) && Drained(h, e)[p] >= 0
  {
  }

  lemma ResolverMana(h: Duel, e: Effect)
    requires TwoPlayers(h)
    ensures Resolver(h, e).sun == h.sun && Resolver(h, e).moon == h.moon
  {
    hide MothTriggers, EnterTrigger, Z.Moved, Z.MoveError, RemovedFrom, Shifted, Drained, Binned;
    forall x: Duel, id { BinnedMana(x, id); }
  }

  lemma BinnedMana(g: Duel, id: EntityID)
    ensures Binned(g, id).sun == g.sun && Binned(g, id).moon == g.moon
  {
  }

  /** In every state of every match the invariant and the counters are in order, so the rules above always apply. */
  lemma {:induction false} RulesApply(g: Duel, moves: seq<(Pid, Stackduel.Action)>)
    requires Inv(g) && CountersOk(g)
    ensures
      var r := StepAll(g, moves);
      r.Some? ==> Inv(r.value) && CountersOk(r.value)
    decreases |moves|
  {
    hide Inv, Allowed, Step, CountersOk;
    if moves != [] && Allowed(g, moves[0].0, moves[0].1) {
      StepKeeps(g, moves[0].0, moves[0].1);
      StepCounters(g, moves[0].0, moves[0].1);
      RulesApply(Step(g, moves[0].0, moves[0].1), moves[1..]);
    }
  }

  // ---- two matches ------------------------------------------------------------------------------------------

  /** The position play starts from, as far as these matches look at it. */
  lemma Opened()
    ensures
      var g := Opening();
      && TwoPlayers(g) && g.order == ["0", "1"] && g.pos == 0 && g.queue.pending == [] && g.queue.nextId == 0
      && CountersOk(g) && g.life == map["0" := 8, "1" := 8]
      && g.board.at.Keys == g.owner.Keys
      && (forall id: nat | id in {7, 9} :: id in g.board.at && g.board.at[id] == HandOf("0") && g.owner[id] == "0" && id in g.def)
      && 17 in g.board.at && g.board.at[17] == HandOf("1") && g.owner[17] == "1" && 17 in g.def
      && g.def[7] == Glowmoth && g.def[9] == Sunbolt && g.def[17] == Moonveil
  {
    assert DefAt(7) == Glowmoth && DefAt(9) == Sunbolt && DefAt(17) == Moonveil;
  }

  /** Where it has got to once the first turn has begun. */
  ghost predicate AtStart(g: Duel) {
    && Inv(g) && CountersOk(g) && !g.window.open && g.queue.pending == [] && g.order == ["0", "1"] && g.pos == 0
    && g.life == map["0" := 8, "1" := 8] && Level(g.sun, "0") == 3 && Level(g.moon, "1") == 3 && Level(g.sun, "1") == 3
    && Level(g.moon, "0") == 3
    && (forall id: nat | id in {7, 9} ::
          id in g.board.at && g.board.at[id] == HandOf("0") && id in g.owner && g.owner[id] == "0" && id in g.def)
    && 17 in g.board.at && g.board.at[17] == HandOf("1") && 17 in g.owner && g.owner[17] == "1" && 17 in g.def
    && g.def[7] == Glowmoth && g.def[9] == Sunbolt && g.def[17] == Moonveil
  }

  lemma Started()
    ensures TwoPlayers(Opening()) && AtStart(TurnBegun(Opening()))
  {
    StartOk();
    Opened();
    Levels();
    hide Core, Inv, Opening, DrewOne, BoardOk;
    var g := Opening();
    TurnBegunKeeps(g);
    var h := g.(window := P.CLOSED, sun := g.sun["0" := MANA], moon := g.moon["0" := MANA]);
    CoreBoard(g);
    DrewOk(h, "0");
    NamesApart("0", "0");
    NamesApart("1", "0");
  }

  lemma Levels()
    ensures Level(Opening().sun, "1") == 3 && Level(Opening().moon, "1") == 3
  {
  }

  /** Player 0 casts Sunbolt and both pass: player 1 is at 6, the card in the graveyard, one sun mana gone. */
  lemma SunboltHits()
    ensures TwoPlayers(Opening())
    ensures
      var r := StepAll(TurnBegun(Opening()), [("0", Cast(9)), ("0", PassOn), ("1", PassOn)]);
      && r.Some? && Level(r.value.life, "1") == 6 && Level(r.value.life, "0") == 8 && Level(r.value.sun, "0") == 2
      && r.value.queue.pending == [] && !r.value.window.open && 9 in r.value.board.at && r.value.board.at[9] == "graveyard:0"
  {
    hide Inv, Opening, TurnBegun, Step, Castable, CountersOk;
    Started();
    var g := TurnBegun(Opening());
    CastAccepted(g, 9);
    PutsOnStack(g, "0", Cast(9));
    var s := Step(g, "0", Cast(9));
    StepKeeps(g, "0", Cast(9));
    SunboltSteps(g, s);
    var moves: seq<(Pid, Stackduel.Action)> := [("0", Cast(9)), ("0", PassOn), ("1", PassOn)];
    assert moves[1..] == TwoPasses(s);
  }

  lemma CastAccepted(g: Duel, id: EntityID)
    requires AtStart(g) && id in {7, 9}
    ensures Allowed(g, "0", Cast(id)) && ManaOk(g)
  {
    hide Inv, Castable;
    AcceptedExactly(g, "0", Cast(id));
  }

  lemma SunboltSteps(g: Duel, s: Duel)
    requires AtStart(g) && Inv(s) && s.window == FreshWindow(g) && 9 in g.def
    requires |s.queue.pending| == 1 && Announces(g, "0", 9, s.queue.pending[0]) && PaysFor(g, s, "0", SpecOf(Sunbolt))
    requires s.board.at == g.board.at[9 := "stack"]
    requires s == g.(board := s.board, queue := s.queue, sun := s.sun, moon := s.moon, window := s.window)
    ensures TwoPlayers(s) && TwoPasses(s) == [("0", PassOn), ("1", PassOn)]
    ensures
      var r := StepAll(s, TwoPasses(s));
      && r.Some? && Level(r.value.life, "1") == 6 && Level(r.value.life, "0") == 8 && Level(r.value.sun, "0") == 2
      && r.value.queue.pending == [] && !r.value.window.open && 9 in r.value.board.at && r.value.board.at[9] == "graveyard:0"
  {
    hide Inv, StepAll;
    TwoSeats(s);
    SpellResolvesByPasses(s, "0");
    SpellResolvesByPasses(s, "1");
  }

  lemma TwoSeats(g: Duel)
    requires Inv(g)
    ensures TwoPlayers(g)
  {
    hide Core;
    CoreSeats(g);
  }

  /** Player 0 casts Glowmoth and passes; player 1 counters it with Moonveil; both pass: both cards are in graveyards. */
  lemma MoonveilCounters()
    ensures TwoPlayers(Opening())
    ensures
      var r := StepAll(TurnBegun(Opening()),
                       [("0", Cast(7)), ("0", PassOn), ("1", Respond(17)), ("1", PassOn), ("0", PassOn)]);
      && r.Some? && r.value.queue.pending == [] && !r.value.window.open
      && 7 in r.value.board.at && r.value.board.at[7] == "graveyard:0"
      && 17 in r.value.board.at && r.value.board.at[17] == "graveyard:1"
  {
    hide Inv, Opening, TurnBegun, Step, Castable, CountersOk;
    Started();
    var g := TurnBegun(Opening());
    CastAccepted(g, 7);
    PutsOnStack(g, "0", Cast(7));
    var s := Step(g, "0", Cast(7));
    StepKeeps(g, "0", Cast(7));
    MoonveilAnswers(g, s);
    var moves: seq<(Pid, Stackduel.Action)> := [("0", Cast(7)), ("0", PassOn), ("1", Respond(17)), ("1", PassOn), ("0", PassOn)];
    assert moves[1..] == [("0", PassOn), ("1", Respond(17)), ("1", PassOn), ("0", PassOn)];
  }

  lemma MoonveilAnswers(g: Duel, s: Duel)
    requires AtStart(g) && Inv(s) && s.window == FreshWindow(g) && 7 in g.def
    requires |s.queue.pending| == 1 && Announces(g, "0", 7, s.queue.pending[0]) && PaysFor(g, s, "0", SpecOf(Glowmoth))
    requires s.board.at == g.board.at[7 := "stack"]
    requires s == g.(board := s.board, queue := s.queue, sun := s.sun, moon := s.moon, window := s.window)
    ensures
      var r := StepAll(s, [("0", PassOn), ("1", Respond(17)), ("1", PassOn), ("0", PassOn)]);
      && r.Some? && r.value.queue.pending == [] && !r.value.window.open
      && 7 in r.value.board.at && r.value.board.at[7] == "graveyard:0"
      && 17 in r.value.board.at && r.value.board.at[17] == "graveyard:1"
  {
    hide Inv, Core, Step, Castable;
    TwoSeats(g);
    TwoSeats(s);
    FirstPass(s);
    StepKeeps(s, "0", PassOn);
    var t := Step(s, "0", PassOn);
    AcceptedExactly(t, "1", Respond(17));
    CounterTakesLast(t, 17);
    var moves: seq<(Pid, Stackduel.Action)> := [("0", PassOn), ("1", Respond(17)), ("1", PassOn), ("0", PassOn)];
    assert moves[1..] == [("1", Respond(17)), ("1", PassOn), ("0", PassOn)];
  }
}
