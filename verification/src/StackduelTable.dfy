/**
 games/stackduel as it runs: one object that holds the card state and the priority window as objects of their own, and
 changes them, the effect queue and the counters step by step.
 */
module StackduelTable {
  import opened Engine
  import opened Entities
  import opened Effects
  import S = Stackduel
  import P = Priority
  import Z = Zones
  import C = CardState

  class Game {
    const cards: C.State
    const priority: P.PriorityState
    const def: map<EntityID, S.Def>
    const owner: map<EntityID, Pid>
    const order: seq<Pid>
    var pos: nat
    var pending: seq<Effect>
    var nextId: nat
    var staged: seq<Effect>
    var life: map<Pid, int>
    var sun: map<Pid, int>
    var moon: map<Pid, int>
    var moths: seq<EntityID>

    constructor (cards: C.State, priority: P.PriorityState, def: map<EntityID, S.Def>, owner: map<EntityID, Pid>,
                 order: seq<Pid>, life: map<Pid, int>, mana: map<Pid, int>)
      ensures Value() == S.Duel(cards.Value(), def, owner, priority.Value(), Queue([], 0), [], life, mana, mana, [], order, 0)
    {
      this.cards, this.priority, this.def, this.owner, this.order := cards, priority, def, owner, order;
      pos, pending, nextId, staged, this.life, sun, moon, moths := 0, [], 0, [], life, mana, mana, [];
    }

    function Value(): S.Duel
      reads this, cards, priority
    {
      S.Duel(cards.Value(), def, owner, priority.Value(), Queue(pending, nextId), staged, life, sun, moon, moths, order, pos)
    }

    /** Two players, and an open window has players. */
    predicate Usable()
      reads this, priority
    {
      |order| == 2 && order[0] != order[1] && order[0] != "" && order[1] != "" && pos < 2 &&
      (priority.open ==> priority.order != [])
    }

    /** putOnStack: every check comes before the first change. */
    method PutOnStack(pid: Pid, id: EntityID, response: bool) returns (ok: bool)
      modifies this, cards
      ensures ok <==> S.Castable(old(Value()), pid, id, response)
      ensures Value() == if ok then S.OnStack(old(Value()), pid, id, response) else old(Value())
    {
      hide S.Paid, S.SpecOf, Z.Moved;
      if id !in cards.at || cards.at[id] != S.HandOf(pid) || id !in owner || owner[id] != pid { return false; }
      if id !in def { return false; }
      var s := S.SpecOf(def[id]);
      if response && !s.instant { return false; }
      var target := 0;
      if s.kind == Counter {
        if pending == [] { return false; }
        target := pending[|pending| - 1].id;
      }
      var paid := S.Paid(S.Level(sun, pid), S.Level(moon, pid), s);
      if paid.None? || Z.MoveError(cards.Value(), id, S.STACK).Some? { return false; }
      sun, moon := sun[pid := paid.value.0], moon[pid := paid.value.1];
      var err := cards.MoveTo(id, S.STACK);
      nextId := nextId + 1;
      pending := pending + [Effect(nextId, id, pid, s.kind, s.amount, false, target)];
      return true;
    }

    /** binSource. */
    method BinSource(id: EntityID)
      modifies cards
      ensures Value() == S.Binned(old(Value()), id)
    {
      hide Z.Moved, Z.MoveError;
      if id in cards.at && cards.at[id] == S.STACK && id in owner {
        var err := cards.MoveTo(id, S.GraveOf(owner[id]));
      }
    }

    /** RemoveEffect: scan for the ID and cut it out. */
    method RemoveEffect(id: nat)
      modifies this`pending
      ensures pending == RemovedFrom(old(pending), id)
    {
      for i := 0 to |pending|
        invariant pending == old(pending) && forall j | 0 <= j < i :: pending[j].id != id
      {
        if pending[i].id == id {
          CutEffect(pending, id, i);
          pending := pending[..i] + pending[i + 1..];
          return;
        }
      }
      CutEffect(pending, id, |pending|);
    }

    /** Counter, as the resolver does it: the named effect leaves the queue and its card the stack. */
    method CounterEffect(target: nat)
      modifies this`pending, cards
      ensures Value() == S.Countered(old(Value()), target)
    {
      hide S.Binned;
      var found := Find(pending, target);
      if found.Some? {
        RemoveEffect(target);
        BinSource(found.value.source);
      }
    }

    /** What the abilities bound before the event stage, in binding order. */
    method BoundTriggers(bound: seq<EntityID>, id: EntityID) returns (out: seq<Effect>)
      ensures out == S.MothTriggers(Value(), bound, id)
    {
      hide S.MothTrigger;
      out := [];
      for i := 0 to |bound|
        invariant out == S.MothTriggers(Value(), bound[..i], id)
      {
        assert bound[..i + 1][..i] == bound[..i];
        out := out + S.MothTrigger(Value(), bound[i], id);
      }
      assert bound[..|bound|] == bound;
    }

    /** creature_entered: the router stages or binds, then the abilities bound before it ran stage theirs. */
    method CreatureEntered(id: EntityID)
      modifies this
      ensures Value() == S.Entered(old(Value()), id)
    {
      hide S.MothTriggers, S.EnterTrigger;
      var own := S.EnterTrigger(Value(), id);
      var others := BoundTriggers(moths, id);
      staged := staged + own + others;
      if id in def && def[id] == S.Glowmoth { moths := moths + [id]; }
    }

    /** The resolver table. */
    method Resolve(e: Effect)
      requires Usable()
      modifies this, cards
      ensures Value() == S.Resolver(old(Value()), e)
    {
      hide S.Binned, S.Entered, S.Countered, Z.Moved, Z.MoveError, S.Shifted;
      match e.kind
      case Damage =>
        life := S.Shifted(life, S.Opponent(Value(), e.controller), -e.amount);
        BinSource(e.source);
      case GainLife =>
        life := S.Shifted(life, e.controller, e.amount);
        BinSource(e.source);
      case Drain =>
        if !(e.onlyOpponent && order[0] == e.controller) { life := S.Shifted(life, order[0], -e.amount); }
        if !(e.onlyOpponent && order[1] == e.controller) { life := S.Shifted(life, order[1], -e.amount); }
        BinSource(e.source);
      case Counter =>
        CounterEffect(e.target);
        BinSource(e.source);
      case Summon =>
        var err := cards.MoveTo(e.source, S.FieldOf(e.controller));
        if err.None? { CreatureEntered(e.source); }
    }

    /** ResolveNext with HaltWhileOpen over PickBack: nothing while the window is open, else the top. */
    method ResolveNext()
      requires Usable()
      modifies this, cards
      ensures
        var g := old(Value());
        Value() == if g.window.open || g.queue.pending == [] then g else S.ResolveTop(g)
    {
      hide S.Resolver;
      if priority.open || pending == [] { return; }
      var top := pending[|pending| - 1];
      Resolve(top);
      RemoveEffect(top.id);
    }

    /** The loop of FlushTriggers: push each effect with an ID of its own. */
    method PushAll(batch: seq<Effect>)
      modifies this`pending, this`nextId
      ensures Queue(pending, nextId) == PushedAll(Queue(old(pending), old(nextId)), batch)
    {
      for i := 0 to |batch|
        invariant PushedAll(Queue(pending, nextId), batch[i..]) == PushedAll(Queue(old(pending), old(nextId)), batch)
      {
        assert batch[i..][0] == batch[i] && batch[i..][1..] == batch[i + 1..];
        nextId := nextId + 1;
        pending := pending + [batch[i].(id := nextId)];
      }
    }

    /** FlushTriggers in APNAP order. */
    method FlushTriggers()
      requires Usable()
      modifies this
      ensures Value() == S.Flushed(old(Value()))
    {
      hide PushedAll, OrderByPlayer;
      var batch := OrderTriggers(staged, S.Apnap(Value()));
      staged := [];
      PushAll(batch);
    }

    /** cast. */
    method Cast(mc: P.MoveContext, id: EntityID) returns (ok: bool)
      requires Usable() && mc.pid == S.Current(Value())
      modifies this, cards, priority, mc
      ensures ok <==> S.Allowed(old(Value()), mc.pid, S.Cast(id))
      ensures Value() == if ok then S.Step(old(Value()), mc.pid, S.Cast(id)) else old(Value())
    {
      hide S.Castable, S.OnStack, P.OpenWindow;
      if priority.open { return false; }
      ok := PutOnStack(mc.pid, id, false);
      if ok {
        var err := priority.OpenWindow(mc, S.Apnap(Value()), S.RESPOND);
      }
    }

    /** respond, by the holder of priority. */
    method Respond(mc: P.MoveContext, id: EntityID) returns (ok: bool)
      requires Usable() && priority.open && mc.pid == P.Holder(priority.Value())
      modifies this, cards, priority, mc
      ensures ok <==> S.Allowed(old(Value()), mc.pid, S.Respond(id))
      ensures Value() == if ok then S.Step(old(Value()), mc.pid, S.Respond(id)) else old(Value())
    {
      hide S.Castable, S.OnStack, P.ActionTaken;
      ok := PutOnStack(mc.pid, id, true);
      if ok {
        var err := priority.ActionTaken(mc, true);
      }
    }

    /** pass, by the holder of priority: an unbroken round resolves the top and reopens while anything is left. */
    method Pass(mc: P.MoveContext)
      requires Usable() && priority.open && mc.pid == P.Holder(priority.Value())
      modifies this, cards, priority, mc
      ensures Value() == S.Step(old(Value()), mc.pid, S.PassOn)
    {
      hide S.ResolveTop, S.Flushed, P.OpenWindow;
      var closed, err := priority.Pass(mc);
      if !closed { return; }
      assert !priority.open;
      var busy := pending != [];
      ResolveNext();
      if !busy { return; }
      FlushTriggers();
      if pending != [] {
        err := priority.OpenWindow(mc, S.Apnap(Value()), S.RESPOND);
      }
    }

    /** drawCards(1). */
    method DrawCard(pid: Pid)
      modifies cards
      ensures Value() == S.DrewOne(old(Value()), pid)
    {
      hide Z.Inserted;
      var ids, err := cards.Draw(S.DeckOf(pid), 1);
      if err.Some? { return; }
      err := cards.Add(S.HandOf(pid), ids[0]);
    }

    /** endTurn and the next player's turnBegin. */
    method EndTurn() returns (ok: bool)
      requires Usable()
      modifies this, cards, priority
      ensures ok <==> S.Allowed(old(Value()), S.Current(old(Value())), S.EndTurn)
      ensures Value() == if ok then S.NextTurn(old(Value())) else old(Value())
    {
      hide S.DrewOne;
      if priority.open { return false; }
      if pending != [] { return false; }
      pos := 1 - pos;
      priority.Reset();
      sun, moon := sun[order[pos] := S.MANA], moon[order[pos] := S.MANA];
      DrawCard(order[pos]);
      return true;
    }
  }

  lemma {:induction false} CutEffect(xs: seq<Effect>, id: nat, i: nat)
    requires i <= |xs| && (i < |xs| ==> xs[i].id == id) && forall j | 0 <= j < i :: xs[j].id != id
    ensures RemovedFrom(xs, id) == if i < |xs| then xs[..i] + xs[i + 1..] else xs
    decreases |xs|
  {
    if i > 0 {
      CutEffect(xs[1..], id, i - 1);
    }
  }
}
