/**
 The zone operations of modules/ccg as they run: Members slices and the Entities map are overwritten in place, entity by
 entity, and a batch stops where a move fails. Each method does what the function of Zones says.
 */
module CardState {
  import opened Engine
  import opened Entities
  import opened Shuffling
  import Z = Zones

  /** core.Random: an arbitrary stream and how much of it is used. */
  class Random {
    const draw: Stream
    var k: nat

    constructor (draw: Stream)
      ensures this.draw == draw && k == 0
    {
      this.draw, k := draw, 0;
    }
  }

  class State {
    var zones: map<Z.ZoneName, Z.Zone>
    var at: map<EntityID, Z.ZoneName>

    constructor ()
      ensures Value() == Z.Board(map[], map[])
    {
      zones, at := map[], map[];
    }

    function Value(): Z.Board
      reads this
    {
      Z.Board(zones, at)
    }

    /** Scan a zone for an entity and cut it out. */
    method CutFrom(zone: Z.ZoneName, id: EntityID) returns (found: bool)
      requires zone in zones
      modifies this`zones
      ensures Value() == Z.Removed(old(Value()), zone, id) && (found <==> id in old(zones)[zone].members)
    {
      var m := zones[zone].members;
      for i := 0 to |m|
        invariant id !in m[..i] && zones == old(zones)
      {
        if m[i] == id {
          Z.CutAt(m, id, i);
          zones := zones[zone := zones[zone].(members := m[..i] + m[i + 1..])];
          return true;
        }
      }
      assert m[..|m|] == m;
      return false;
    }

    /** Add. */
    method Add(zone: Z.ZoneName, id: EntityID) returns (err: Option<Z.ZoneError>)
      modifies this
      ensures
        var b := old(Value());
        var end := if zone in b.zones then |b.zones[zone].members| else 0;
        && err == Z.InsertError(b, zone, id, end)
        && Value() == if err.None? then Z.Inserted(b, zone, id, end) else b
    {
      if zone !in zones { return Some(Z.UnknownZone); }
      if id !in at { return Some(Z.UnknownEntity); }
      var z := zones[zone];
      if z.capacity > 0 && |z.members| >= z.capacity { return Some(Z.ZoneFull); }
      assert z.members[..|z.members|] + [id] + z.members[|z.members|..] == z.members + [id];
      zones := zones[zone := z.(members := z.members + [id])];
      at := at[id := zone];
      err := None;
    }

    /** InsertAt. */
    method InsertAt(zone: Z.ZoneName, id: EntityID, pos: int) returns (err: Option<Z.ZoneError>)
      modifies this
      ensures
        var b := old(Value());
        err == Z.InsertError(b, zone, id, pos) && Value() == if err.None? then Z.Inserted(b, zone, id, pos) else b
    {
      if zone !in zones { return Some(Z.UnknownZone); }
      if id !in at { return Some(Z.UnknownEntity); }
      var z := zones[zone];
      if pos < 0 || pos > |z.members| { return Some(Z.InvalidPosition); }
      if z.capacity > 0 && |z.members| >= z.capacity { return Some(Z.ZoneFull); }
      zones := zones[zone := z.(members := z.members[..pos] + [id] + z.members[pos..])];
      at := at[id := zone];
      err := None;
    }

    /** Remove. */
    method Remove(zone: Z.ZoneName, id: EntityID) returns (err: Option<Z.ZoneError>)
      modifies this
      ensures
        var b := old(Value());
        && err == (if zone !in b.zones then Some(Z.UnknownZone)
                   else if id !in b.zones[zone].members then Some(Z.UnknownEntity) else None)
        && Value() == if zone in b.zones then Z.Removed(b, zone, id) else b
    {
      if zone !in zones { return Some(Z.UnknownZone); }
      var found := CutFrom(zone, id);
      err := if found then None else Some(Z.UnknownEntity);
    }

    /** The entity leaves the zone its index names, if that zone exists. */
    method Lift(id: EntityID)
      requires id in at
      modifies this`zones
      ensures Value() == Z.Lifted(old(Value()), id)
    {
      var from := at[id];
      if from != "" && from in zones {
        var found := CutFrom(from, id);
      }
    }

    /** MoveTo. */
    method MoveTo(id: EntityID, to: Z.ZoneName) returns (err: Option<Z.ZoneError>)
      modifies this
      ensures
        var b := old(Value());
        err == Z.MoveError(b, id, to) && Value() == if err.None? then Z.Moved(b, id, to) else b
    {
      if to !in zones { return Some(Z.UnknownZone); }
      if id !in at { return Some(Z.UnknownEntity); }
      var z := zones[to];
      if z.capacity > 0 && at[id] != to && |z.members| >= z.capacity { return Some(Z.ZoneFull); }
      Lift(id);
      zones := zones[to := zones[to].(members := zones[to].members + [id])];
      at := at[id := to];
      err := None;
    }

    /** Destroy. */
    method Destroy(id: EntityID)
      modifies this
      ensures Value() == Z.Destroyed(old(Value()), id)
    {
      if id !in at { return; }
      Lift(id);
      at := at - {id};
    }

    /** Pop n members off the end of a zone. */
    method Pop(zone: Z.ZoneName, n: nat) returns (cards: seq<EntityID>)
      requires zone in zones && n <= |zones[zone].members|
      modifies this`zones
      ensures
        var m := old(zones)[zone].members;
        cards == Z.TopOf(m, n) && Value() == Z.WithMembers(old(Value()), zone, m[..|m| - n])
    {
      var m := zones[zone].members;
      ghost var b := Value();
      cards := [];
      assert m[..|m|] == m;
      for i := 0 to n
        invariant cards == Z.TopOf(m, i) && Value() == Z.WithMembers(b, zone, m[..|m| - i])
      {
        var left := zones[zone].members;
        cards := cards + [left[|left| - 1]];
        zones := zones[zone := zones[zone].(members := left[..|left| - 1])];
        assert m[..|m| - i][..|m| - i - 1] == m[..|m| - i - 1];
      }
    }

    /** The drawn entities are in no zone any more. */
    method ClearIndex(cards: seq<EntityID>)
      modifies this`at
      ensures at == Z.Cleared(old(at), cards)
    {
      for i := 0 to |cards|
        invariant at == Z.Cleared(old(at), cards[..i])
      {
        assert forall id :: id in cards[..i + 1] <==> id in cards[..i] || id == cards[i];
        if cards[i] in at { at := at[cards[i] := ""]; }
      }
      assert cards[..|cards|] == cards;
    }

    /** Draw: pop from the end, then clear the drawn entities' index. */
    method Draw(zone: Z.ZoneName, count: nat) returns (cards: seq<EntityID>, err: Option<Z.ZoneError>)
      modifies this
      ensures
        var b := old(Value());
        && err == Z.DrawError(b, zone)
        && (if err.None? then (Value(), cards) == Z.Drawn(b, zone, count) else Value() == b && cards == [])
    {
      hide Z.TopOf, Z.Cleared;
      if zone !in zones { return [], Some(Z.UnknownZone); }
      var m := zones[zone].members;
      if m == [] { return [], Some(Z.ZoneEmpty); }
      cards := Pop(zone, Z.Min(count, |m|));
      ClearIndex(cards);
      err := None;
    }

    /** Shuffle a zone with the engine's generator. */
    method ShuffleZone(zone: Z.ZoneName, r: Random) returns (err: Option<Z.ZoneError>)
      requires r as object != this
      modifies this, r`k
      ensures
        var b := old(Value());
        && err == (if zone in b.zones then None else Some(Z.UnknownZone))
        && r.k == old(r.k) + Z.ShuffleUses(b, zone)
        && Value() == if err.None? then Z.ShuffledZone(b, zone, r.draw, old(r.k)) else b
    {
      if zone !in zones { return Some(Z.UnknownZone); }
      var mixed, used := Shuffle(zones[zone].members, r.draw, r.k);
      r.k := used;
      zones := zones[zone := zones[zone].(members := mixed)];
      err := None;
    }

    /** The loop both batches end in: move each entity, stopping at an error. */
    method MoveEach(ids: seq<EntityID>, to: Z.ZoneName) returns (err: Option<Z.ZoneError>)
      modifies this
      ensures (Value(), err) == Z.MoveEach(old(Value()), ids, to)
    {
      hide Z.Moved, Z.MoveError;
      var i := 0;
      while i < |ids|
        invariant 0 <= i <= |ids| && Z.MoveEach(Value(), ids[i..], to) == Z.MoveEach(old(Value()), ids, to)
        decreases |ids| - i
      {
        assert ids[i..][0] == ids[i] && ids[i..][1..] == ids[i + 1..];
        err := MoveTo(ids[i], to);
        if err.Some? { return; }
        i := i + 1;
      }
      err := None;
    }

    /** Transition: count what is inbound, refuse early, then move. */
    method Transition(ids: seq<EntityID>, to: Z.ZoneName) returns (err: Option<Z.ZoneError>)
      modifies this
      ensures (Value(), err) == Z.Transition(old(Value()), ids, to)
    {
      hide Z.MoveEach;
      if to !in zones { return Some(Z.UnknownZone); }
      var inbound := 0;
      for i := 0 to |ids|
        invariant Value() == old(Value()) && forall id | id in ids[..i] :: id in at
        invariant inbound == Z.Inbound(at, ids[..i], to)
      {
        assert ids[..i + 1][..i] == ids[..i];
        if ids[i] !in at { return Some(Z.UnknownEntity); }
        if at[ids[i]] != to { inbound := inbound + 1; }
      }
      assert ids[..|ids|] == ids;
      if zones[to].capacity > 0 && |zones[to].members| + inbound > zones[to].capacity { return Some(Z.ZoneFull); }
      err := MoveEach(ids, to);
    }

    /** MoveAllTo: snapshot the source zones, refuse early, then move. */
    method MoveAllTo(to: Z.ZoneName, from: seq<Z.ZoneName>) returns (err: Option<Z.ZoneError>)
      modifies this
      ensures (Value(), err) == Z.MoveAll(old(Value()), from, to)
    {
      hide Z.MoveEach;
      if to !in zones { return Some(Z.UnknownZone); }
      var ids: seq<EntityID> := [];
      for i := 0 to |from|
        invariant Value() == old(Value()) && forall z | z in from[..i] :: z in zones
        invariant ids == Z.Sweep(Value(), from[..i], to)
      {
        assert from[..i + 1][..i] == from[..i];
        if from[i] !in zones { return Some(Z.UnknownZone); }
        if from[i] != to { ids := ids + zones[from[i]].members; }
      }
      assert from[..|from|] == from;
      if zones[to].capacity > 0 && |zones[to].members| + |ids| > zones[to].capacity { return Some(Z.ZoneFull); }
      err := MoveEach(ids, to);
    }

    /** Mulligan. */
    method Mulligan(hand: Z.ZoneName, deck: Z.ZoneName, n: int, r: Random)
      returns (cards: seq<EntityID>, err: Option<Z.ZoneError>)
      requires r as object != this
      modifies this, r`k
      ensures Z.Dealt(Value(), cards, err) == Z.Mulligan(old(Value()), hand, deck, n, r.draw, old(r.k))
      ensures r.k == old(r.k) + Z.SweepUses(old(Value()), hand, deck)
    {
      hide Z.MoveAll, Z.ShuffledZone, Z.Drawn, Z.Transition, Z.DrawError;
      err := MoveAllTo(deck, [hand]);
      if err.Some? { return [], err; }
      err := ShuffleZone(deck, r);
      if err.Some? { return [], err; }
      if n <= 0 { return [], None; }
      cards, err := Draw(deck, n);
      if err.Some? { return; }
      err := Transition(cards, hand);
    }

    /** ReshuffleDiscardIntoDeck. */
    method ReshuffleDiscardIntoDeck(p: Z.DeckPile, r: Random) returns (err: Option<Z.ZoneError>)
      requires r as object != this
      modifies this, r`k
      ensures (Value(), err) == Z.Reshuffle(old(Value()), p, r.draw, old(r.k))
      ensures r.k == old(r.k) + if Z.Size(old(Value()), p.discard) == 0 then 0 else Z.SweepUses(old(Value()), p.discard, p.deck)
    {
      hide Z.MoveAll, Z.ShuffledZone;
      if Z.Size(Value(), p.discard) == 0 { return None; }
      err := MoveAllTo(p.deck, [p.discard]);
      if err.Some? { return; }
      err := ShuffleZone(p.deck, r);
    }

    /** DeckPile.Mill, its Draw with the automatic refill included. */
    method Mill(p: Z.DeckPile, n: nat, r: Random) returns (cards: seq<EntityID>, err: Option<Z.ZoneError>)
      requires r as object != this
      modifies this, r`k
      ensures Z.Dealt(Value(), cards, err) == Z.Mill(old(Value()), p, n, r.draw, old(r.k))
      ensures
        var b := old(Value());
        var refilled := Z.Size(b, p.deck) == 0 && p.auto && Z.Size(b, p.discard) > 0;
        r.k == old(r.k) + if refilled then Z.SweepUses(b, p.discard, p.deck) else 0
    {
      hide Z.Reshuffle, Z.Drawn, Z.Transition, Z.DrawError;
      if Z.Size(Value(), p.deck) == 0 && p.auto && Z.Size(Value(), p.discard) > 0 {
        err := ReshuffleDiscardIntoDeck(p, r);
        if err.Some? { return [], err; }
      }
      cards, err := Draw(p.deck, n);
      if err.Some? { return; }
      err := Transition(cards, p.discard);
    }
  }
}
