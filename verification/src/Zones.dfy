/**
 modules/ccg zones: every entity is listed in at most one zone's Members and, the other way, carries the name of that zone
 in Entity.Zone. The two are separate fields, written by separate statements; the invariant is that they agree.
 */
module Zones {
  import opened Engine
  import opened Entities
  import opened Transitions
  import opened Shuffling

  type ZoneName = string

  datatype Zone = Zone(capacity: int, members: seq<EntityID>)

  /** The zones of a ccg.State, and each entity's Zone field; "" for an entity in none. */
  datatype Board = Board(zones: map<ZoneName, Zone>, at: map<EntityID, ZoneName>)

  datatype ZoneError = UnknownZone | UnknownEntity | ZoneEmpty | InvalidPosition | ZoneFull

  // ---- the index --------------------------------------------------------------------------------------------

  /** What stands in a zone says so, and stands there once. */
  ghost predicate Sound(b: Board) {
    && "" !in b.zones
    && (forall z | z in b.zones :: Distinct(b.zones[z].members))
    && (forall z, id | z in b.zones && id in b.zones[z].members :: id in b.at && b.at[id] == z)
  }

  /** What says it is in a zone stands there. */
  ghost predicate Complete(b: Board) {
    forall id | id in b.at && b.at[id] != "" :: b.at[id] in b.zones && id in b.zones[b.at[id]].members
  }

  ghost predicate Agree(b: Board) {
    Sound(b) && Complete(b)
  }

  predicate Full(z: Zone) {
    z.capacity > 0 && |z.members| >= z.capacity
  }

  /** The first occurrence of an entity cut out. */
  function Cut(xs: seq<EntityID>, id: EntityID): (r: seq<EntityID>)
    ensures id !in xs ==> r == xs
  {
    if xs == [] then [] else if xs[0] == id then xs[1..] else [xs[0]] + Cut(xs[1..], id)
  }

  /** Cutting a listed entity takes exactly that one. */
  lemma {:induction false} CutOne(xs: seq<EntityID>, id: EntityID)
    requires id in xs
    ensures multiset(Cut(xs, id)) + multiset{id} == multiset(xs) && |Cut(xs, id)| == |xs| - 1
  {
    assert xs == [xs[0]] + xs[1..];
    if xs[0] != id {
      CutOne(xs[1..], id);
    }
  }

  /** A scan that stops at the first occurrence finds what Cut removes. */
  lemma {:induction false} CutAt(xs: seq<EntityID>, id: EntityID, i: nat)
    requires i < |xs| && xs[i] == id && id !in xs[..i]
    ensures Cut(xs, id) == xs[..i] + xs[i + 1..]
    decreases |xs|
  {
    if i > 0 {
      assert xs[..i] == [xs[0]] + xs[1..][..i - 1];
      CutAt(xs[1..], id, i - 1);
    }
  }

  function WithMembers(b: Board, zone: ZoneName, members: seq<EntityID>): Board
    requires zone in b.zones
  {
    b.(zones := b.zones[zone := b.zones[zone].(members := members)])
  }

  // ---- single operations ------------------------------------------------------------------------------------

  function InsertError(b: Board, zone: ZoneName, id: EntityID, pos: int): Option<ZoneError> {
    if zone !in b.zones then Some(UnknownZone)
    else if id !in b.at then Some(UnknownEntity)
    else if pos < 0 || pos > |b.zones[zone].members| then Some(InvalidPosition)
    else if Full(b.zones[zone]) then Some(ZoneFull)
    else None
  }

  function Inserted(b: Board, zone: ZoneName, id: EntityID, pos: int): Board
    requires InsertError(b, zone, id, pos).None?
  {
    var m := b.zones[zone].members;
    WithMembers(b, zone, m[..pos] + [id] + m[pos..]).(at := b.at[id := zone])
  }

  function MoveError(b: Board, id: EntityID, to: ZoneName): Option<ZoneError> {
    if to !in b.zones then Some(UnknownZone)
    else if id !in b.at then Some(UnknownEntity)
    else if b.at[id] != to && Full(b.zones[to]) then Some(ZoneFull)
    else None
  }

  /** The board once an entity has left the zone its index names. */
  function Lifted(b: Board, id: EntityID): Board
    requires id in b.at
  {
    var from := b.at[id];
    if from != "" && from in b.zones then WithMembers(b, from, Cut(b.zones[from].members, id)) else b
  }

  /** MoveTo. */
  function Moved(b: Board, id: EntityID, to: ZoneName): Board
    requires MoveError(b, id, to).None?
  {
    var up := Lifted(b, id);
    WithMembers(up, to, up.zones[to].members + [id]).(at := b.at[id := to])
  }

  /** Destroy. */
  function Destroyed(b: Board, id: EntityID): Board {
    if id !in b.at then b else Lifted(b, id).(at := b.at - {id})
  }

  /** Remove. The entity's own Zone field is left as it was. */
  function Removed(b: Board, zone: ZoneName, id: EntityID): Board
    requires zone in b.zones
  {
    WithMembers(b, zone, Cut(b.zones[zone].members, id))
  }

  function Min(a: int, b: int): int { if a < b then a else b }

  /** The top n, in draw order. */
  function TopOf(members: seq<EntityID>, n: nat): (r: seq<EntityID>)
    requires n <= |members|
    ensures |r| == n && forall i | 0 <= i < n :: r[i] == members[|members| - 1 - i]
  {
    seq(n, i requires 0 <= i < n => members[|members| - 1 - i])
  }

  function Cleared(at: map<EntityID, ZoneName>, ids: seq<EntityID>): map<EntityID, ZoneName> {
    map id | id in at :: if id in ids then "" else at[id]
  }

  function DrawError(b: Board, zone: ZoneName): Option<ZoneError> {
    if zone !in b.zones then Some(UnknownZone) else if b.zones[zone].members == [] then Some(ZoneEmpty) else None
  }

  /** Draw: the board left, and the cards, as many as there are up to n. */
  function Drawn(b: Board, zone: ZoneName, n: nat): (Board, seq<EntityID>)
    requires DrawError(b, zone).None?
  {
    var m := b.zones[zone].members;
    var k := Min(n, |m|);
    (WithMembers(b, zone, m[..|m| - k]).(at := Cleared(b.at, TopOf(m, k))), TopOf(m, k))
  }

  /** State.Shuffle. */
  function ShuffledZone(b: Board, zone: ZoneName, draw: Stream, k: nat): Board
    requires zone in b.zones
  {
    WithMembers(b, zone, Shuffled(b.zones[zone].members, draw, k))
  }

  // ---- batches ----------------------------------------------------------------------------------------------

  /** A batch of MoveTo calls that stops at the first that fails. */
  function MoveEach(b: Board, ids: seq<EntityID>, to: ZoneName): (Board, Option<ZoneError>)
    decreases |ids|
  {
    if ids == [] then (b, None)
    else
      var err := MoveError(b, ids[0], to);
      if err.Some? then (b, err) else MoveEach(Moved(b, ids[0], to), ids[1..], to)
  }

  /** How many of the entities would grow the target. */
  function Inbound(at: map<EntityID, ZoneName>, ids: seq<EntityID>, to: ZoneName): nat
    requires forall id | id in ids :: id in at
  {
    if ids == [] then 0
    else Inbound(at, ids[..|ids| - 1], to) + if at[ids[|ids| - 1]] != to then 1 else 0
  }

  /** Transition's pre-flight check. */
  function TransitionError(b: Board, ids: seq<EntityID>, to: ZoneName): Option<ZoneError> {
    if to !in b.zones then Some(UnknownZone)
    else if exists id | id in ids :: id !in b.at then Some(UnknownEntity)
    else if b.zones[to].capacity > 0 && |b.zones[to].members| + Inbound(b.at, ids, to) > b.zones[to].capacity
    then Some(ZoneFull)
    else None
  }

  /** Transition. */
  function Transition(b: Board, ids: seq<EntityID>, to: ZoneName): (Board, Option<ZoneError>) {
    if TransitionError(b, ids, to).Some? then (b, TransitionError(b, ids, to)) else MoveEach(b, ids, to)
  }

  /** Everything in the listed zones but the target, zone by zone. */
  function Sweep(b: Board, from: seq<ZoneName>, to: ZoneName): seq<EntityID>
    requires forall z | z in from :: z in b.zones
  {
    if from == [] then []
    else
      var last := from[|from| - 1];
      Sweep(b, from[..|from| - 1], to) + if last == to then [] else b.zones[last].members
  }

  function SweepError(b: Board, from: seq<ZoneName>, to: ZoneName): Option<ZoneError> {
    if to !in b.zones || exists z | z in from :: z !in b.zones then Some(UnknownZone)
    else if b.zones[to].capacity > 0 && |b.zones[to].members| + |Sweep(b, from, to)| > b.zones[to].capacity
    then Some(ZoneFull)
    else None
  }

  /** MoveAllTo. */
  function MoveAll(b: Board, from: seq<ZoneName>, to: ZoneName): (Board, Option<ZoneError>) {
    if SweepError(b, from, to).Some? then (b, SweepError(b, from, to)) else MoveEach(b, Sweep(b, from, to), to)
  }

  /** How many generator outputs shuffling a zone takes. */
  function ShuffleUses(b: Board, zone: ZoneName): nat {
    if zone !in b.zones || b.zones[zone].members == [] then 0 else |b.zones[zone].members| - 1
  }

  /** How many sweeping one zone into another and shuffling that takes: none if the sweep is refused. */
  function SweepUses(b: Board, from: ZoneName, to: ZoneName): nat {
    var (swept, err) := MoveAll(b, [from], to);
    if err.Some? then 0 else ShuffleUses(swept, to)
  }

  datatype Dealt = Dealt(b: Board, cards: seq<EntityID>, err: Option<ZoneError>)

  /** Mulligan: sweep the hand into the deck, shuffle it, draw n back. */
  function Mulligan(b: Board, hand: ZoneName, deck: ZoneName, n: int, draw: Stream, k: nat): Dealt {
    var (swept, err) := MoveAll(b, [hand], deck);
    if err.Some? then Dealt(swept, [], err)
    else if deck !in swept.zones then Dealt(swept, [], Some(UnknownZone))
    else
      var mixed := ShuffledZone(swept, deck, draw, k);
      if n <= 0 then Dealt(mixed, [], None)
      else if DrawError(mixed, deck).Some? then Dealt(mixed, [], DrawError(mixed, deck))
      else
        var (left, cards) := Drawn(mixed, deck, n);
        var (dealt, err') := Transition(left, cards, hand);
        Dealt(dealt, cards, err')
  }

  datatype DeckPile = DeckPile(deck: ZoneName, discard: ZoneName, auto: bool)

  function Size(b: Board, zone: ZoneName): nat {
    if zone in b.zones then |b.zones[zone].members| else 0
  }

  /** ReshuffleDiscardIntoDeck. */
  function Reshuffle(b: Board, p: DeckPile, draw: Stream, k: nat): (Board, Option<ZoneError>) {
    if Size(b, p.discard) == 0 then (b, None)
    else
      var (swept, err) := MoveAll(b, [p.discard], p.deck);
      if err.Some? then (swept, err)
      else if p.deck !in swept.zones then (swept, Some(UnknownZone))
      else (ShuffledZone(swept, p.deck, draw, k), None)
  }

  /** DeckPile.Draw. */
  function PileDraw(b: Board, p: DeckPile, n: nat, draw: Stream, k: nat): Dealt {
    var (ready, err) :=
      if Size(b, p.deck) == 0 && p.auto && Size(b, p.discard) > 0 then Reshuffle(b, p, draw, k) else (b, None);
    if err.Some? then Dealt(ready, [], err)
    else if DrawError(ready, p.deck).Some? then Dealt(ready, [], DrawError(ready, p.deck))
    else
      var (left, cards) := Drawn(ready, p.deck, n);
      Dealt(left, cards, None)
  }

  /** Mill. */
  function Mill(b: Board, p: DeckPile, n: nat, draw: Stream, k: nat): Dealt {
    var d := PileDraw(b, p, n, draw, k);
    if d.err.Some? then d
    else
      var (milled, err) := Transition(d.b, d.cards, p.discard);
      Dealt(milled, d.cards, err)
  }

  // ---- one entity at a time keeps the index -----------------------------------------------------------------

  lemma {:induction false} CutMembers(xs: seq<EntityID>, id: EntityID)
    requires Distinct(xs)
    ensures Distinct(Cut(xs, id)) && forall x :: x in Cut(xs, id) <==> x in xs && x != id
    ensures |Cut(xs, id)| == |xs| - if id in xs then 1 else 0
  {
    if xs != [] {
      assert Distinct(xs[1..]);
      assert xs[0] !in xs[1..];
      assert forall x :: x in xs <==> x == xs[0] || x in xs[1..];
      CutMembers(xs[1..], id);
    }
  }

  lemma LiftedKeeps(b: Board, id: EntityID)
    requires Sound(b) && id in b.at
    ensures Sound(Lifted(b, id)) && Lifted(b, id).zones.Keys == b.zones.Keys && Lifted(b, id).at == b.at
    ensures forall z, x :: z in b.zones ==>
      (x in Lifted(b, id).zones[z].members <==> x in b.zones[z].members && x != id)
    ensures forall z | z in b.zones :: Lifted(b, id).zones[z].capacity == b.zones[z].capacity
    ensures forall z | z in b.zones ::
              |Lifted(b, id).zones[z].members| == |b.zones[z].members| - if id in b.zones[z].members then 1 else 0
  {
    hide Cut, Distinct;
    var from := b.at[id];
    if from != "" && from in b.zones { CutMembers(b.zones[from].members, id); }
  }

  lemma AppendedFresh(xs: seq<EntityID>, id: EntityID)
    requires Distinct(xs) && id !in xs
    ensures Distinct(xs + [id]) && forall x :: x in xs + [id] <==> x in xs || x == id
  {
  }

  /** MoveTo keeps the index in agreement, even one a Remove has left stale. */
  lemma MovedKeeps(b: Board, id: EntityID, to: ZoneName)
    requires Sound(b) && MoveError(b, id, to).None?
    ensures Sound(Moved(b, id, to)) && (Complete(b) ==> Complete(Moved(b, id, to)))
    ensures Moved(b, id, to).at == b.at[id := to] && Moved(b, id, to).zones.Keys == b.zones.Keys
    ensures Moved(b, id, to).zones[to].capacity == b.zones[to].capacity
    ensures |Moved(b, id, to).zones[to].members| == |b.zones[to].members| + if id in b.zones[to].members then 0 else 1
  {
    hide Lifted, Distinct, Sound;
    var up, t := Lifted(b, id), Moved(b, id, to);
    LiftedKeeps(b, id);
    ToIsNamed(b, id, to);
    AppendedSound(up, id, to);
    assert forall z | z in b.zones && z != to :: t.zones[z] == up.zones[z];
  }

  lemma ToIsNamed(b: Board, id: EntityID, to: ZoneName)
    requires Sound(b) && MoveError(b, id, to).None?
    ensures to != "" && to in b.zones && id in b.at
  {
  }

  /** An entity that stands nowhere is put at the end of a zone. */
  lemma AppendedSound(up: Board, id: EntityID, to: ZoneName)
    requires Sound(up) && to in up.zones && id in up.at && forall z | z in up.zones :: id !in up.zones[z].members
    ensures Sound(WithMembers(up, to, up.zones[to].members + [id]).(at := up.at[id := to]))
  {
    hide Distinct;
    AppendedFresh(up.zones[to].members, id);
  }

  lemma DestroyedKeeps(b: Board, id: EntityID)
    requires Sound(b)
    ensures Sound(Destroyed(b, id)) && (Complete(b) ==> Complete(Destroyed(b, id)))
    ensures id !in Destroyed(b, id).at
  {
    hide Lifted;
    if id in b.at { LiftedKeeps(b, id); }
  }

  ghost predicate Placed(b: Board, id: EntityID) {
    exists z :: z in b.zones && id in b.zones[z].members
  }

  /** Add and InsertAt keep the index in agreement exactly when the entity stands in no zone. */
  lemma InsertedKeepsExactly(b: Board, zone: ZoneName, id: EntityID, pos: int)
    requires Sound(b) && InsertError(b, zone, id, pos).None?
    ensures Sound(Inserted(b, zone, id, pos)) <==> !Placed(b, id)
    ensures Complete(b) && !Placed(b, id) ==> Complete(Inserted(b, zone, id, pos))
  {
    var m, t := b.zones[zone].members, Inserted(b, zone, id, pos);
    var now := t.zones[zone].members;
    assert now == m[..pos] + [id] + m[pos..];
    assert forall x :: x in m <==> x in m[..pos] || x in m[pos..];
    assert now[pos] == id;
    if Placed(b, id) {
      var z :| z in b.zones && id in b.zones[z].members;
      if z == zone {
        var i :| 0 <= i < |m| && m[i] == id;
        assert now[if i < pos then i else i + 1] == id;
      } else {
        assert t.zones[z] == b.zones[z] && t.at[id] == zone;
      }
    } else {
      InsertedOnce(m, id, pos);
    }
  }

  lemma InsertedOnce(m: seq<EntityID>, id: EntityID, pos: nat)
    requires Distinct(m) && id !in m && pos <= |m|
    ensures Distinct(m[..pos] + [id] + m[pos..])
  {
  }

  /** Remove keeps members indexed, and breaks only the removed entity's own entry. */
  lemma RemovedKeeps(b: Board, zone: ZoneName, id: EntityID)
    requires Agree(b) && zone in b.zones
    ensures Sound(Removed(b, zone, id)) && (Complete(Removed(b, zone, id)) <==> id !in b.zones[zone].members)
  {
    hide Cut, Distinct;
    CutMembers(b.zones[zone].members, id);
    assert id in b.zones[zone].members ==> b.at[id] == zone;
  }

  /** The top of a duplicate-free pile and what it leaves are a partition of it. */
  lemma TopSplits(m: seq<EntityID>, k: nat)
    requires Distinct(m) && k <= |m|
    ensures Distinct(TopOf(m, k)) && Distinct(m[..|m| - k])
    ensures forall x :: x in m <==> x in m[..|m| - k] || x in TopOf(m, k)
    ensures forall x | x in TopOf(m, k) :: x !in m[..|m| - k]
  {
    var cards := TopOf(m, k);
    forall i | 0 <= i < |m| ensures m[i] in m[..|m| - k] || m[i] in cards {
      if i >= |m| - k { assert cards[|m| - 1 - i] == m[i]; }
    }
  }

  lemma DrawnKeeps(b: Board, zone: ZoneName, n: nat)
    requires Sound(b) && DrawError(b, zone).None?
    ensures
      var (t, cards) := Drawn(b, zone, n);
      && Sound(t) && (Complete(b) ==> Complete(t)) && t.zones.Keys == b.zones.Keys
      && t.at == Cleared(b.at, cards) && Distinct(cards) && |cards| == Min(n, |b.zones[zone].members|)
      && (forall x | x in cards :: x in b.at && b.at[x] == zone)
  {
    hide TopOf;
    var m := b.zones[zone].members;
    TopSplits(m, Min(n, |m|));
    var (t, cards) := Drawn(b, zone, n);
    forall z, x | z in t.zones && x in t.zones[z].members ensures x in b.zones[z].members && x !in cards {
      if z != zone { assert x in b.zones[z].members && b.at[x] == z; }
    }
  }

  lemma ShuffledKeeps(b: Board, zone: ZoneName, draw: Stream, k: nat)
    requires Sound(b) && zone in b.zones
    ensures
      var t := ShuffledZone(b, zone, draw, k);
      && Sound(t) && (Complete(b) ==> Complete(t)) && t.at == b.at && t.zones.Keys == b.zones.Keys
      && multiset(t.zones[zone].members) == multiset(b.zones[zone].members)
      && (forall x :: x in t.zones[zone].members <==> x in b.zones[zone].members)
  {
    hide Shuffled;
    SameCards(b.zones[zone].members, draw, k);
  }

  lemma SameCards(m: seq<EntityID>, draw: Stream, k: nat)
    ensures multiset(Shuffled(m, draw, k)) == multiset(m)
    ensures Distinct(m) ==> Distinct(Shuffled(m, draw, k))
    ensures forall x :: x in Shuffled(m, draw, k) <==> x in m
  {
    var s := Shuffled(m, draw, k);
    ShufflePermutes(m, |m| - 1, draw, k);
    assert forall x :: x in s <==> x in multiset(s);
    assert forall x :: x in m <==> x in multiset(m);
    OnceEach(m);
    OnceEach(s);
  }

  /** A list is duplicate-free exactly when its multiset counts nothing twice. */
  lemma {:induction false} OnceEach(xs: seq<EntityID>)
    ensures Distinct(xs) <==> forall x :: multiset(xs)[x] <= 1
  {
    if xs != [] {
      OnceEach(xs[1..]);
      assert xs == [xs[0]] + xs[1..];
      assert multiset(xs) == multiset{xs[0]} + multiset(xs[1..]);
      if Distinct(xs) {
        assert Distinct(xs[1..]) && xs[0] !in xs[1..];
      }
      if forall x :: multiset(xs)[x] <= 1 {
        assert multiset(xs)[xs[0]] <= 1;
        assert xs[0] !in multiset(xs[1..]);
        assert forall x :: multiset(xs[1..])[x] <= multiset(xs)[x];
      }
    }
  }

  // ---- batches ----------------------------------------------------------------------------------------------

  /** Every listed entity is in the target, every other where it was. */
  function Sent(at: map<EntityID, ZoneName>, ids: seq<EntityID>, to: ZoneName): map<EntityID, ZoneName> {
    map id | id in at :: if id in ids then to else at[id]
  }

  lemma {:induction false} MoveEachKeeps(b: Board, ids: seq<EntityID>, to: ZoneName)
    requires Sound(b)
    ensures
      var (t, err) := MoveEach(b, ids, to);
      && Sound(t) && (Complete(b) ==> Complete(t)) && t.zones.Keys == b.zones.Keys && t.at.Keys == b.at.Keys
      && (err.None? ==> t.at == Sent(b.at, ids, to))
    decreases |ids|
  {
    hide Moved, Complete, Sound;
    if ids == [] {
      assert Sent(b.at, [], to) == b.at;
    } else if MoveError(b, ids[0], to).None? {
      MovedKeeps(b, ids[0], to);
      MoveEachKeeps(Moved(b, ids[0], to), ids[1..], to);
      assert Sent(b.at[ids[0] := to], ids[1..], to) == Sent(b.at, ids, to) by {
        assert forall id :: id in ids <==> id == ids[0] || id in ids[1..];
      }
    }
  }

  lemma {:induction false} InboundFirst(at: map<EntityID, ZoneName>, ids: seq<EntityID>, to: ZoneName)
    requires ids != [] && forall id | id in ids :: id in at
    ensures Inbound(at, ids, to) == (if at[ids[0]] != to then 1 else 0) + Inbound(at, ids[1..], to)
  {
    if |ids| > 1 {
      var n := |ids| - 1;
      InboundFirst(at, ids[..n], to);
      assert ids[..n][1..] == ids[1..][..n - 1];
    }
  }

  lemma {:induction false} InboundShrinks(at: map<EntityID, ZoneName>, ids: seq<EntityID>, to: ZoneName, id: EntityID)
    requires forall x | x in ids :: x in at
    ensures Inbound(at[id := to], ids, to) <= Inbound(at, ids, to)
  {
    if ids != [] { InboundShrinks(at, ids[..|ids| - 1], to, id); }
  }

  /** Room for what a batch brings is room enough: no MoveTo in it can fail. */
  lemma {:induction false} PreflightSuffices(b: Board, ids: seq<EntityID>, to: ZoneName)
    requires Agree(b) && TransitionError(b, ids, to).None?
    ensures MoveEach(b, ids, to).1.None?
    decreases |ids|
  {
    hide Moved, Complete, Sound;
    if ids != [] {
      InboundFirst(b.at, ids, to);
      NotFullYet(b, ids, to);
      MovedKeeps(b, ids[0], to);
      InboundShrinks(b.at, ids[1..], to, ids[0]);
      StandsInTarget(b, ids[0], to);
      PreflightSuffices(Moved(b, ids[0], to), ids[1..], to);
    }
  }

  lemma NotFullYet(b: Board, ids: seq<EntityID>, to: ZoneName)
    requires ids != [] && TransitionError(b, ids, to).None?
    requires Inbound(b.at, ids, to) >= if b.at[ids[0]] != to then 1 else 0
    ensures MoveError(b, ids[0], to).None?
  {
  }

  lemma StandsInTarget(b: Board, id: EntityID, to: ZoneName)
    requires Agree(b) && id in b.at && to in b.zones
    ensures id in b.zones[to].members <==> b.at[id] == to
  {
  }

  lemma {:induction false} SweepMembers(b: Board, from: seq<ZoneName>, to: ZoneName)
    requires Sound(b) && forall z | z in from :: z in b.zones
    ensures forall id | id in Sweep(b, from, to) :: id in b.at && b.at[id] in from && b.at[id] != to
    ensures Complete(b) ==> forall id | id in b.at && b.at[id] in from && b.at[id] != to :: id in Sweep(b, from, to)
  {
    if from != [] {
      var n := |from| - 1;
      SweepMembers(b, from[..n], to);
      assert forall z :: z in from <==> z in from[..n] || z == from[n];
    }
  }

  lemma {:induction false} AllInbound(at: map<EntityID, ZoneName>, ids: seq<EntityID>, to: ZoneName)
    requires forall id | id in ids :: id in at && at[id] != to
    ensures Inbound(at, ids, to) == |ids|
  {
    if ids != [] { AllInbound(at, ids[..|ids| - 1], to); }
  }

  /** The entities of the listed zones are in the target, every other where it was. */
  function Swept(at: map<EntityID, ZoneName>, from: seq<ZoneName>, to: ZoneName): map<EntityID, ZoneName> {
    map id | id in at :: if at[id] in from then to else at[id]
  }

  /** MoveAllTo fails only before it moves anything, and then moves exactly the listed zones' entities. */
  lemma MoveAllKeeps(b: Board, from: seq<ZoneName>, to: ZoneName)
    requires Agree(b)
    ensures
      var (t, err) := MoveAll(b, from, to);
      && Agree(t) && t.zones.Keys == b.zones.Keys && err == SweepError(b, from, to)
      && (if err.None? then t.at == Swept(b.at, from, to) else t == b)
  {
    hide Sound, Complete, MoveEach;
    if SweepError(b, from, to).None? {
      var ids := Sweep(b, from, to);
      SweepMembers(b, from, to);
      AllInbound(b.at, ids, to);
      PreflightSuffices(b, ids, to);
      MoveEachKeeps(b, ids, to);
      assert Sent(b.at, ids, to) == Swept(b.at, from, to);
    }
  }

  /** Transition is all or nothing. */
  lemma TransitionAllOrNothing(b: Board, ids: seq<EntityID>, to: ZoneName)
    requires Agree(b)
    ensures
      var (t, err) := Transition(b, ids, to);
      && Agree(t) && t.zones.Keys == b.zones.Keys && err == TransitionError(b, ids, to)
      && (if err.None? then t.at == Sent(b.at, ids, to) else t == b)
  {
    hide Sound, Complete, MoveEach;
    if TransitionError(b, ids, to).None? {
      PreflightSuffices(b, ids, to);
      MoveEachKeeps(b, ids, to);
    }
  }

  /** One zone swept into another adds all its members; shuffling loses none. */
  lemma SweptSize(b: Board, from: ZoneName, to: ZoneName, draw: Stream, k: nat)
    requires Agree(b) && from != to && MoveAll(b, [from], to).1.None?
    ensures
      var swept := MoveAll(b, [from], to).0;
      && to in swept.zones && from in b.zones && to in b.zones
      && |ShuffledZone(swept, to, draw, k).zones[to].members| == |b.zones[from].members| + |b.zones[to].members|
  {
    hide Sound, Complete;
    MoveAllKeeps(b, [from], to);
    assert from in [from];
    SweepKeepsOrder(b, [from], to);
    assert [from][..0] == [] && Sweep(b, [from], to) == Sweep(b, [], to) + b.zones[from].members;
    var swept := MoveAll(b, [from], to).0;
    ShuffledKeeps(swept, to, draw, k);
    var was, now := swept.zones[to].members, ShuffledZone(swept, to, draw, k).zones[to].members;
    assert |multiset(now)| == |now| && |multiset(was)| == |was|;
  }

  /**
   Mulligan: the index stays in agreement and nobody but the cards of the hand and the deck moves. When it succeeds the
   cards it returns are the hand, the rest of hand and deck together are the deck, and it drew n, or all there were.
   */
  lemma MulliganConserves(b: Board, hand: ZoneName, deck: ZoneName, n: int, draw: Stream, k: nat)
    requires Agree(b)
    ensures
      var r := Mulligan(b, hand, deck, n, draw, k);
      && Agree(r.b) && r.b.at.Keys == b.at.Keys && r.b.zones.Keys == b.zones.Keys
      && (forall id | id in b.at && b.at[id] != hand && b.at[id] != deck :: r.b.at[id] == b.at[id])
      && (r.err.None? && hand != deck ==>
            forall id | id in b.at && (b.at[id] == hand || b.at[id] == deck) ::
              r.b.at[id] == if id in r.cards then hand else deck)
      && (r.err.None? && hand != deck ==>
            Distinct(r.cards) && |r.cards| == if n <= 0 then 0 else Min(n, Size(b, hand) + Size(b, deck)))
  {
    hide Sound, Complete, MoveAll, ShuffledZone, Drawn, Transition, Distinct;
    var (swept, err) := MoveAll(b, [hand], deck);
    MoveAllKeeps(b, [hand], deck);
    NoneDistinct();
    if err.None? {
      if hand != deck { SweptSize(b, hand, deck, draw, k); }
      ShuffledKeeps(swept, deck, draw, k);
      var mixed := ShuffledZone(swept, deck, draw, k);
      if n > 0 && DrawError(mixed, deck).None? {
        DrawnKeeps(mixed, deck, n);
        var (left, cards) := Drawn(mixed, deck, n);
        TransitionAllOrNothing(left, cards, hand);
      }
    }
  }

  lemma NoneDistinct()
    ensures Distinct<EntityID>([])
  {
  }

  lemma ReshuffleKeeps(b: Board, p: DeckPile, draw: Stream, k: nat)
    requires Agree(b)
    ensures
      var (t, err) := Reshuffle(b, p, draw, k);
      && Agree(t) && t.zones.Keys == b.zones.Keys
      && (if err.None? && Size(b, p.discard) > 0 then t.at == Swept(b.at, [p.discard], p.deck) else t == b)
      && (err.None? && Size(b, p.discard) > 0 && p.discard != p.deck ==>
            p.deck in t.zones && |t.zones[p.deck].members| == Size(b, p.discard) + Size(b, p.deck))
  {
    hide Sound, Complete, MoveAll, ShuffledZone;
    if Size(b, p.discard) > 0 {
      var (swept, err) := MoveAll(b, [p.discard], p.deck);
      MoveAllKeeps(b, [p.discard], p.deck);
      if err.None? {
        ShuffledKeeps(swept, p.deck, draw, k);
        if p.discard != p.deck { SweptSize(b, p.discard, p.deck, draw, k); }
      }
    }
  }

  /**
   Mill: the index stays in agreement. When it succeeds, the milled cards are the ones it returns, they all came off the
   deck, or off the discard it was refilled from, and everything else is where it was or, after a refill, in the deck; it
   milled n, or all there were.
   */
  lemma MillConserves(b: Board, p: DeckPile, n: nat, draw: Stream, k: nat)
    requires Agree(b)
    ensures
      var r := Mill(b, p, n, draw, k);
      var refilled := Size(b, p.deck) == 0 && p.auto && Size(b, p.discard) > 0;
      && Agree(r.b) && r.b.at.Keys == b.at.Keys && r.b.zones.Keys == b.zones.Keys
      && (r.err.None? ==>
            forall id | id in b.at :: r.b.at[id] ==
              if id in r.cards then p.discard else if refilled && b.at[id] == p.discard then p.deck else b.at[id])
      && (r.err.None? ==> forall id | id in r.cards ::
            id in b.at && (b.at[id] == p.deck || (refilled && b.at[id] == p.discard)))
      && (r.err.None? ==> Distinct(r.cards) && |r.cards| == Min(n, Size(b, if refilled then p.discard else p.deck)))
  {
    hide Sound, Complete, Reshuffle, Drawn, Transition, Distinct;
    var refilled := Size(b, p.deck) == 0 && p.auto && Size(b, p.discard) > 0;
    ReshuffleKeeps(b, p, draw, k);
    var (ready, err) := if refilled then Reshuffle(b, p, draw, k) else (b, None);
    if err.None? && DrawError(ready, p.deck).None? {
      DrawnKeeps(ready, p.deck, n);
      var (left, cards) := Drawn(ready, p.deck, n);
      TransitionAllOrNothing(left, cards, p.discard);
    }
  }

  /** A sweep of distinct zones keeps the order: the target's own cards, then each zone's in turn. */
  lemma SweepKeepsOrder(b: Board, from: seq<ZoneName>, to: ZoneName)
    requires Agree(b) && SweepError(b, from, to).None? && to !in from
    requires Distinct(from)
    ensures
      var t := MoveAll(b, from, to).0;
      && t.zones.Keys == b.zones.Keys && t.zones[to].members == b.zones[to].members + Sweep(b, from, to)
      && forall z | z in from :: t.zones[z].members == []
  {
    hide Sound, Complete;
    var ids, t := Sweep(b, from, to), MoveAll(b, from, to).0;
    SweepMembers(b, from, to);
    SweepDistinct(b, from, to);
    AllInbound(b.at, ids, to);
    PreflightSuffices(b, ids, to);
    MoveAllKeeps(b, from, to);
    AppendsInOrder(b, ids, to);
    forall z | z in from ensures t.zones[z].members == [] {
      Occupied(t, z);
    }
  }

  lemma Occupied(b: Board, zone: ZoneName)
    requires Agree(b) && zone in b.zones
    ensures b.zones[zone].members != [] ==> exists id :: id in b.at && b.at[id] == zone
  {
    var m := b.zones[zone].members;
    if m != [] {
      var id := m[0];
      assert id in b.zones[zone].members;
      assert id in b.at && b.at[id] == zone;
    }
  }

  lemma {:induction false} SweepDistinct(b: Board, from: seq<ZoneName>, to: ZoneName)
    requires Sound(b) && (forall z | z in from :: z in b.zones)
    requires Distinct(from)
    ensures Distinct(Sweep(b, from, to))
  {
    if from != [] {
      var n := |from| - 1;
      SweepDistinct(b, from[..n], to);
      SweepMembers(b, from[..n], to);
      JoinDistinct(Sweep(b, from[..n], to), if from[n] == to then [] else b.zones[from[n]].members);
    }
  }

  lemma JoinDistinct(xs: seq<EntityID>, ys: seq<EntityID>)
    requires Distinct(xs) && Distinct(ys) && forall x | x in xs :: x !in ys
    ensures Distinct(xs + ys)
  {
    forall i, j | 0 <= i < j < |xs + ys| ensures (xs + ys)[i] != (xs + ys)[j] {
      if i < |xs| <= j { assert xs[i] in xs && ys[j - |xs|] in ys; }
    }
  }

  lemma {:induction false} AppendsInOrder(b: Board, ids: seq<EntityID>, to: ZoneName)
    requires Agree(b) && to in b.zones && Distinct(ids) && MoveEach(b, ids, to).1.None?
    requires forall id | id in ids :: id in b.at && b.at[id] != to
    ensures to in MoveEach(b, ids, to).0.zones
    ensures MoveEach(b, ids, to).0.zones[to].members == b.zones[to].members + ids
    decreases |ids|
  {
    hide Sound, Complete, Lifted;
    if ids != [] {
      MovedKeeps(b, ids[0], to);
      LiftedKeeps(b, ids[0]);
      LiftedElsewhere(b, ids[0], to);
      assert ids == [ids[0]] + ids[1..];
      AppendsInOrder(Moved(b, ids[0], to), ids[1..], to);
    }
  }

  lemma LiftedElsewhere(b: Board, id: EntityID, to: ZoneName)
    requires id in b.at && b.at[id] != to && to in b.zones
    ensures Lifted(b, id).zones[to] == b.zones[to]
  {
  }

  // ---- capacity ---------------------------------------------------------------------------------------------

  /**
   Exactly when MoveTo takes a zone past its capacity: when a Remove left the entity's index naming a zone that has since
   filled up. The capacity check is skipped for a move within one zone, and the index says it is one.
   */
  lemma MoveOverfillsExactly(b: Board, id: EntityID, to: ZoneName)
    requires Sound(b) && MoveError(b, id, to).None? && b.zones[to].capacity > 0
    ensures
      var after := Moved(b, id, to);
      to in after.zones &&
      (|after.zones[to].members| > b.zones[to].capacity && |after.zones[to].members| > |b.zones[to].members| <==>
         Full(b.zones[to]) && b.at[id] == to && id !in b.zones[to].members)
  {
    hide Lifted;
    MovedKeeps(b, id, to);
  }

  /** It happens: two entities in a zone for one. */
  lemma RemoveThenMoveOverfills()
    ensures
      var b := Board(map["z" := Zone(1, [1])], map[1 := "z", 2 := ""]);
      var taken := Removed(b, "z", 1);
      var filled := Moved(taken, 2, "z");
      Agree(b) && MoveError(taken, 2, "z").None? && MoveError(filled, 1, "z").None? &&
      Moved(filled, 1, "z").zones["z"] == Zone(1, [2, 1])
  {
  }

  // ---- runs -------------------------------------------------------------------------------------------------

  datatype Op =
    | Inserts(zone: ZoneName, id: EntityID, pos: int) | Moves(id: EntityID, to: ZoneName) | Draws(zone: ZoneName, n: nat)
    | Shuffles(zone: ZoneName, draw: Stream, k: nat) | Destroys(id: EntityID) | Transitions(ids: seq<EntityID>, to: ZoneName)
    | Sweeps(from: seq<ZoneName>, to: ZoneName)
    | Mulligans(hand: ZoneName, deck: ZoneName, number: int, draw: Stream, k: nat)
    | Mills(p: DeckPile, n: nat, draw: Stream, k: nat) | Refills(p: DeckPile, draw: Stream, k: nat)
    | Mints(id: EntityID) | Declares(zone: ZoneName, capacity: int)

  /** The board after one call, whether or not it failed. */
  function Do(b: Board, op: Op): Board {
    match op
    case Inserts(zone, id, pos) => if InsertError(b, zone, id, pos).Some? then b else Inserted(b, zone, id, pos)
    case Moves(id, to) => if MoveError(b, id, to).Some? then b else Moved(b, id, to)
    case Draws(zone, n) => if DrawError(b, zone).Some? then b else Drawn(b, zone, n).0
    case Shuffles(zone, draw, k) => if zone in b.zones then ShuffledZone(b, zone, draw, k) else b
    case Destroys(id) => Destroyed(b, id)
    case Transitions(ids, to) => Transition(b, ids, to).0
    case Sweeps(from, to) => MoveAll(b, from, to).0
    case Mulligans(hand, deck, n, draw, k) => Mulligan(b, hand, deck, n, draw, k).b
    case Mills(p, n, draw, k) => Mill(b, p, n, draw, k).b
    case Refills(p, draw, k) => Reshuffle(b, p, draw, k).0
    case Mints(id) => if id in b.at then b else b.(at := b.at[id := ""])
    case Declares(zone, capacity) => if zone in b.zones then b else b.(zones := b.zones[zone := Zone(capacity, [])])
  }

  /** Only an entity that stands nowhere is added, and no zone is named "". */
  ghost predicate Proper(b: Board, op: Op) {
    (op.Inserts? ==> !Placed(b, op.id)) && (op.Declares? ==> op.zone != "")
  }

  lemma DoKeeps(b: Board, op: Op)
    requires Agree(b) && Proper(b, op)
    ensures Agree(Do(b, op))
  {
    hide Inserted, Moved, Drawn, ShuffledZone, Destroyed, Transition, MoveAll, Mulligan, Mill, Reshuffle,
      DrawError, InsertError, MoveError;
    match op
    case Inserts(zone, id, pos) => if InsertError(b, zone, id, pos).None? { InsertedKeepsExactly(b, zone, id, pos); }
    case Moves(id, to) => if MoveError(b, id, to).None? { MovedKeeps(b, id, to); }
    case Draws(zone, n) => if DrawError(b, zone).None? { DrawnKeeps(b, zone, n); }
    case Shuffles(zone, draw, k) => if zone in b.zones { ShuffledKeeps(b, zone, draw, k); }
    case Destroys(id) => DestroyedKeeps(b, id);
    case Transitions(ids, to) => TransitionAllOrNothing(b, ids, to);
    case Sweeps(from, to) => MoveAllKeeps(b, from, to);
    case Mulligans(hand, deck, n, draw, k) => MulliganConserves(b, hand, deck, n, draw, k);
    case Mills(p, n, draw, k) => MillConserves(b, p, n, draw, k);
    case Refills(p, draw, k) => ReshuffleKeeps(b, p, draw, k);
    case Mints(id) =>
    case Declares(zone, capacity) =>
  }

  function DoAll(b: Board, ops: seq<Op>): Board
    decreases |ops|
  {
    if ops == [] then b else DoAll(Do(b, ops[0]), ops[1..])
  }

  ghost predicate ProperRun(b: Board, ops: seq<Op>)
    decreases |ops|
  {
    ops != [] ==> Proper(b, ops[0]) && ProperRun(Do(b, ops[0]), ops[1..])
  }

  /** Zone index: over any run of zone operations, Entity.Zone and zone membership agree. */
  lemma {:induction false} IndexAgrees(b: Board, ops: seq<Op>)
    requires Agree(b) && ProperRun(b, ops)
    ensures Agree(DoAll(b, ops))
    decreases |ops|
  {
    hide Agree, Do, Proper;
    if ops != [] {
      DoKeeps(b, ops[0]);
      IndexAgrees(Do(b, ops[0]), ops[1..]);
    }
  }
}
