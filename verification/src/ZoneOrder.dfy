/**
 Where the cards of a batch end up, card by card: what draw, mulligan, reshuffle and mill leave in each zone and in which
 order. A mulligan can bring any hand, in any order.
 */
module ZoneOrder {
  import opened Engine
  import opened Entities
  import opened Shuffling
  import opened Transitions
  import opened Zones

  /** The cards come off the end of a pile, last first. */
  predicate OffTheEnd(pile: seq<EntityID>, cards: seq<EntityID>, left: seq<EntityID>) {
    |cards| <= |pile| && left == pile[..|pile| - |cards|] && forall i | 0 <= i < |cards| :: cards[i] == pile[|pile| - 1 - i]
  }

  /** The board with other members in one zone. */
  predicate SameBut(b: Board, t: Board, zones: set<ZoneName>) {
    b.zones.Keys == t.zones.Keys && forall z | z in b.zones && z !in zones :: t.zones[z] == b.zones[z]
  }

  /** Draw takes the end of the zone, as many as asked for or all there are. */
  lemma DrawnExactly(b: Board, zone: ZoneName, n: nat)
    requires DrawError(b, zone).None?
    ensures
      var (t, cards) := Drawn(b, zone, n);
      && |cards| == Min(n, |b.zones[zone].members|) && SameBut(b, t, {zone}) && zone in t.zones
      && OffTheEnd(b.zones[zone].members, cards, t.zones[zone].members)
  {
  }

  /** Cards in no zone are appended one by one, and nothing else moves. */
  lemma {:induction false} AppendsOnly(b: Board, ids: seq<EntityID>, to: ZoneName)
    requires to in b.zones && Distinct(ids) && (forall id | id in ids :: id in b.at && b.at[id] == "")
    requires MoveEach(b, ids, to).1.None? && to != ""
    ensures
      var t := MoveEach(b, ids, to).0;
      SameBut(b, t, {to}) && to in t.zones && t.zones[to].members == b.zones[to].members + ids
    decreases |ids|
  {
    if ids != [] {
      var next := Moved(b, ids[0], to);
      assert next == WithMembers(b, to, b.zones[to].members + [ids[0]]).(at := b.at[ids[0] := to]);
      assert ids == [ids[0]] + ids[1..] && ids[0] !in ids[1..];
      AppendsOnly(next, ids[1..], to);
    }
  }

  /** Draw and then a batch move: off the end of one zone, onto the end of the other, in draw order. */
  lemma DrawsOver(b: Board, deck: ZoneName, to: ZoneName, n: nat)
    requires Agree(b) && DrawError(b, deck).None? && deck != to
    requires Transition(Drawn(b, deck, n).0, Drawn(b, deck, n).1, to).1.None?
    ensures
      var cards := Drawn(b, deck, n).1;
      var t := Transition(Drawn(b, deck, n).0, cards, to).0;
      && |cards| == Min(n, |b.zones[deck].members|) && SameBut(b, t, {deck, to}) && deck in t.zones && to in t.zones
      && OffTheEnd(b.zones[deck].members, cards, t.zones[deck].members) && to in b.zones
      && t.zones[to].members == b.zones[to].members + cards
  {
    hide Sound, Complete, MoveEach;
    DrawnExactly(b, deck, n);
    DrawnKeeps(b, deck, n);
    var (left, cards) := Drawn(b, deck, n);
    ToKnown(left, cards, to);
    AppendsOnly(left, cards, to);
  }

  lemma ToKnown(b: Board, ids: seq<EntityID>, to: ZoneName)
    requires Sound(b) && Transition(b, ids, to).1.None?
    ensures to in b.zones && to != "" && MoveEach(b, ids, to) == Transition(b, ids, to)
  {
    hide MoveEach;
  }

  /** One zone swept into another and the target shuffled. */
  lemma SweptAndShuffled(b: Board, from: ZoneName, to: ZoneName, draw: Stream, k: nat)
    requires Agree(b) && from != to && MoveAll(b, [from], to).1.None?
    ensures
      var swept := MoveAll(b, [from], to).0;
      && from in b.zones && to in b.zones && to in swept.zones && Agree(swept) && from in swept.zones
      && swept.zones[from].members == [] && swept.zones[to].members == b.zones[to].members + b.zones[from].members
      && ShuffledZone(swept, to, draw, k).zones[to].members ==
         Shuffled(b.zones[to].members + b.zones[from].members, draw, k)
      && SweepUses(b, from, to) ==
         (var n := |b.zones[to].members| + |b.zones[from].members|; if n == 0 then 0 else n - 1)
  {
    hide Sound, Complete, Shuffled;
    MoveAllKeeps(b, [from], to);
    assert from in [from];
    SweepKeepsOrder(b, [from], to);
    assert [from][..0] == [] && Sweep(b, [from], to) == Sweep(b, [], to) + b.zones[from].members;
  }

  // ---- single moves -----------------------------------------------------------------------------------------

  /** InsertAt: the entity stands at the position, the others as before; a zone with a capacity is never filled past it. */
  lemma InsertedExactly(b: Board, zone: ZoneName, id: EntityID, pos: int)
    requires zone in b.zones && id in b.at && 0 <= pos <= |b.zones[zone].members|
    ensures
      var cap, n := b.zones[zone].capacity, |b.zones[zone].members|;
      InsertError(b, zone, id, pos) == if cap > 0 && n >= cap then Some(ZoneFull) else None
    ensures InsertError(b, zone, id, pos).None? ==>
              var t := Inserted(b, zone, id, pos);
              && SameBut(b, t, {zone}) && zone in t.zones && t.at == b.at[id := zone]
              && var m := t.zones[zone].members;
              |m| == |b.zones[zone].members| + 1 && m[pos] == id && m[..pos] + m[pos + 1..] == b.zones[zone].members
  {
    hide Sound, Complete;
  }

  /** MoveTo between two zones: out of one, the others in order, and onto the end of the other. */
  lemma MovedExactly(b: Board, id: EntityID, to: ZoneName)
    requires Agree(b) && MoveError(b, id, to).None? && b.at[id] != to && b.at[id] != ""
    ensures
      var from, t := b.at[id], Moved(b, id, to);
      && from in b.zones && SameBut(b, t, {from, to}) && from in t.zones && to in t.zones
      && t.zones[to].members == b.zones[to].members + [id]
      && exists i | 0 <= i < |b.zones[from].members| ::
           && b.zones[from].members[i] == id
           && t.zones[from].members == b.zones[from].members[..i] + b.zones[from].members[i + 1..]
  {
    var m := b.zones[b.at[id]].members;
    var i := IndexOf(m, id);
    CutAt(m, id, i);
  }

  // ---- mulligan ---------------------------------------------------------------------------------------------

  /**
   A successful mulligan of at least one card: the hand goes under the deck, the whole pile is shuffled, and the new hand
   comes off its end, in draw order.
   */
  lemma MulliganExactly(b: Board, hand: ZoneName, deck: ZoneName, n: int, draw: Stream, k: nat)
    requires Agree(b) && hand != deck && 0 < n && Mulligan(b, hand, deck, n, draw, k).err.None?
    ensures hand in b.zones && deck in b.zones
    ensures
      var r := Mulligan(b, hand, deck, n, draw, k);
      var pile := Shuffled(b.zones[deck].members + b.zones[hand].members, draw, k);
      && hand in r.b.zones && deck in r.b.zones && |r.cards| == Min(n, |pile|)
      && OffTheEnd(pile, r.cards, r.b.zones[deck].members) && r.b.zones[hand].members == r.cards
  {
    hide Sound, Complete, Shuffled, MoveAll, Transition, ShuffledZone;
    SweptAndShuffled(b, hand, deck, draw, k);
    var swept := MoveAll(b, [hand], deck).0;
    ShuffledKeeps(swept, deck, draw, k);
    ShuffledElsewhere(swept, deck, hand, draw, k);
    DrawsOver(ShuffledZone(swept, deck, draw, k), deck, hand, n);
  }

  lemma ShuffledElsewhere(b: Board, zone: ZoneName, z: ZoneName, draw: Stream, k: nat)
    requires zone in b.zones && z in b.zones && z != zone
    ensures z in ShuffledZone(b, zone, draw, k).zones && ShuffledZone(b, zone, draw, k).zones[z] == b.zones[z]
    ensures ShuffledZone(b, zone, draw, k).zones[zone].capacity == b.zones[zone].capacity
  {
  }

  /** Whether a mulligan succeeds does not depend on the generator. */
  lemma MulliganErrorAlike(b: Board, hand: ZoneName, deck: ZoneName, n: int, one: Stream, other: Stream, k: nat)
    requires Agree(b) && hand != deck && 0 < n && Mulligan(b, hand, deck, n, one, k).err.None?
    ensures Mulligan(b, hand, deck, n, other, k).err.None?
  {
    hide Sound, Complete, Shuffled, MoveAll, ShuffledZone, MoveEach;
    SweptAndShuffled(b, hand, deck, one, k);
    SweptAndShuffled(b, hand, deck, other, k);
    var swept := MoveAll(b, [hand], deck).0;
    ShuffledKeeps(swept, deck, one, k);
    ShuffledKeeps(swept, deck, other, k);
    ShuffledElsewhere(swept, deck, hand, one, k);
    ShuffledElsewhere(swept, deck, hand, other, k);
    var x, y := ShuffledZone(swept, deck, one, k), ShuffledZone(swept, deck, other, k);
    DrawnKeeps(x, deck, n);
    DrawnKeeps(y, deck, n);
    DrawnExactly(x, deck, n);
    DrawnExactly(y, deck, n);
    AllInboundIs(Drawn(x, deck, n).0.at, Drawn(x, deck, n).1, hand);
    AllInboundIs(Drawn(y, deck, n).0.at, Drawn(y, deck, n).1, hand);
    SoundNames(swept, hand);
    TransitionAllOrNothing(Drawn(y, deck, n).0, Drawn(y, deck, n).1, hand);
  }

  lemma SoundNames(b: Board, z: ZoneName)
    requires Sound(b) && z in b.zones
    ensures z != ""
  {
  }

  lemma {:induction false} AllInboundIs(at: map<EntityID, ZoneName>, ids: seq<EntityID>, to: ZoneName)
    requires forall id | id in ids :: id in at && (to != "" ==> at[id] != to)
    ensures to != "" ==> Inbound(at, ids, to) == |ids|
  {
    if ids != [] {
      assert forall id | id in ids[..|ids| - 1] :: id in ids;
      AllInboundIs(at, ids[..|ids| - 1], to);
      assert ids[|ids| - 1] in ids;
    }
  }

  /** Any n of the cards of hand and deck, in any order, come out as the new hand for some generator. */
  lemma AnyHandMayCome(
    b: Board, hand: ZoneName, deck: ZoneName, n: nat, draw: Stream, k: nat, wanted: seq<EntityID>, rest: seq<EntityID>)
    returns (lucky: Stream)
    requires Agree(b) && hand != deck && 0 < n && Mulligan(b, hand, deck, n, draw, k).err.None?
    requires hand in b.zones && deck in b.zones && |wanted| == n
    requires multiset(wanted + rest) == multiset(b.zones[deck].members + b.zones[hand].members)
    ensures Mulligan(b, hand, deck, n, lucky, k).err.None? && Mulligan(b, hand, deck, n, lucky, k).cards == wanted
  {
    hide Mulligan, Agree, ShuffledFrom;
    var pile := b.zones[deck].members + b.zones[hand].members;
    var target := rest + Backwards(wanted);
    BackwardsKeeps(wanted);
    assert multiset(target) == multiset(rest) + multiset(wanted) == multiset(wanted + rest);
    assert |multiset(target)| == |target| && |multiset(pile)| == |pile|;
    lucky := EveryOrderReachable(pile, target, |pile| - 1, k);
    MulliganErrorAlike(b, hand, deck, n, draw, lucky, k);
    MulliganExactly(b, hand, deck, n, lucky, k);
    var cards := Mulligan(b, hand, deck, n, lucky, k).cards;
    assert Shuffled(pile, lucky, k) == target;
    forall i | 0 <= i < n ensures cards[i] == wanted[i] {
      assert target[|target| - 1 - i] == Backwards(wanted)[n - 1 - i];
    }
  }

  function Backwards(xs: seq<EntityID>): (r: seq<EntityID>)
    ensures |r| == |xs| && forall i | 0 <= i < |xs| :: r[i] == xs[|xs| - 1 - i]
  {
    seq(|xs|, i requires 0 <= i < |xs| => xs[|xs| - 1 - i])
  }

  lemma {:induction false} BackwardsKeeps(xs: seq<EntityID>)
    ensures multiset(Backwards(xs)) == multiset(xs)
  {
    if xs != [] {
      BackwardsKeeps(xs[1..]);
      assert xs == [xs[0]] + xs[1..];
      assert Backwards(xs) == Backwards(xs[1..]) + [xs[0]];
    } else {
      assert Backwards(xs) == [];
    }
  }

  // ---- what a batch is refused for --------------------------------------------------------------------------

  lemma {:induction false} InboundCounts(at: map<EntityID, ZoneName>, ids: seq<EntityID>, to: ZoneName)
    requires forall id | id in ids :: id in at
    ensures Inbound(at, ids, to) == |set i | 0 <= i < |ids| && at[ids[i]] != to|
  {
    if ids != [] {
      var n := |ids| - 1;
      InboundCounts(at, ids[..n], to);
      var before := set i | 0 <= i < n && at[ids[..n][i]] != to;
      var all := set i | 0 <= i < |ids| && at[ids[i]] != to;
      assert all == before + if at[ids[n]] != to then {n} else {};
    }
  }

  /** Transition is refused for an unknown zone or entity, or if the places of the list outside the target would overfill it. */
  lemma BatchRefusedExactly(b: Board, ids: seq<EntityID>, to: ZoneName)
    requires Agree(b)
    ensures
      var err := Transition(b, ids, to).1;
      && (err == Some(UnknownZone) <==> to !in b.zones)
      && (err == Some(UnknownEntity) <==> to in b.zones && exists id :: id in ids && id !in b.at)
      && (err == Some(ZoneFull) <==>
            && to in b.zones && (forall id | id in ids :: id in b.at) && b.zones[to].capacity > 0
            && |b.zones[to].members| + |set i | 0 <= i < |ids| && b.at[ids[i]] != to| > b.zones[to].capacity)
      && (err.Some? ==> err.value in {UnknownZone, UnknownEntity, ZoneFull})
  {
    hide Sound, Complete, MoveEach;
    TransitionAllOrNothing(b, ids, to);
    if forall id | id in ids :: id in b.at { InboundCounts(b.at, ids, to); }
  }

  function Members(xs: seq<EntityID>): (r: set<EntityID>)
    ensures forall x :: x in r <==> x in xs
  {
    set x | x in xs
  }

  lemma {:induction false} DistinctSize(xs: seq<EntityID>)
    requires Distinct(xs)
    ensures |Members(xs)| == |xs|
  {
    hide Members;
    if xs == [] {
      assert Members(xs) == {};
    } else {
      var n := |xs| - 1;
      DistinctSize(xs[..n]);
      SplitsOff(xs);
    }
  }

  lemma SplitsOff(xs: seq<EntityID>)
    requires xs != [] && Distinct(xs)
    ensures
      var n := |xs| - 1;
      Members(xs) == Members(xs[..n]) + {xs[n]} && xs[n] !in Members(xs[..n]) && Distinct(xs[..n])
  {
    hide Members;
    assert xs == xs[..|xs| - 1] + [xs[|xs| - 1]];
  }

  /** MoveAllTo over different zones is refused for an unknown zone, or if all that lies in the others would overfill the target. */
  lemma SweepRefusedExactly(b: Board, from: seq<ZoneName>, to: ZoneName)
    requires Agree(b) && Distinct(from)
    ensures
      var err := MoveAll(b, from, to).1;
      var swept := set id | id in b.at && b.at[id] in from && b.at[id] != to;
      && (err == Some(UnknownZone) <==> to !in b.zones || exists z :: z in from && z !in b.zones)
      && (err == Some(ZoneFull) <==>
            && to in b.zones && (forall z | z in from :: z in b.zones) && b.zones[to].capacity > 0
            && |b.zones[to].members| + |swept| > b.zones[to].capacity)
      && (err.Some? ==> err.value in {UnknownZone, ZoneFull})
  {
    hide Sound, Complete, MoveEach, Sweep;
    MoveAllKeeps(b, from, to);
    if forall z | z in from :: z in b.zones {
      SweepMembers(b, from, to);
      SweepDistinct(b, from, to);
      DistinctSize(Sweep(b, from, to));
      assert Members(Sweep(b, from, to)) == set id | id in b.at && b.at[id] in from && b.at[id] != to;
    }
  }

  // ---- reshuffle and mill -----------------------------------------------------------------------------------

  /** The discard goes under the deck, and the whole pile is shuffled. */
  lemma ReshuffleExactly(b: Board, p: DeckPile, draw: Stream, k: nat)
    requires Agree(b) && p.deck != p.discard && Size(b, p.discard) > 0 && Reshuffle(b, p, draw, k).1.None?
    ensures p.deck in b.zones && p.discard in b.zones
    ensures
      var t := Reshuffle(b, p, draw, k).0;
      && p.deck in t.zones && p.discard in t.zones && t.zones[p.discard].members == []
      && t.zones[p.deck].members == Shuffled(b.zones[p.deck].members + b.zones[p.discard].members, draw, k)
  {
    hide Sound, Complete, Shuffled, MoveAll, ShuffledZone;
    SweptAndShuffled(b, p.discard, p.deck, draw, k);
    var swept := MoveAll(b, [p.discard], p.deck).0;
    ShuffledKeeps(swept, p.deck, draw, k);
    ShuffledElsewhere(swept, p.deck, p.discard, draw, k);
  }

  /** With nothing in the discard there is nothing to do, known deck or not. */
  lemma NothingToReshuffle(b: Board, p: DeckPile, draw: Stream, k: nat)
    requires p.discard in b.zones ==> b.zones[p.discard].members == []
    ensures Reshuffle(b, p, draw, k) == (b, None)
  {
  }

  /** A successful mill: off the end of the deck, or of the reshuffled discard if the deck was empty, onto the discard. */
  lemma MillExactly(b: Board, p: DeckPile, n: nat, draw: Stream, k: nat)
    requires Agree(b) && p.deck != p.discard && Mill(b, p, n, draw, k).err.None?
    ensures p.deck in b.zones && p.discard in b.zones
    ensures
      var r := Mill(b, p, n, draw, k);
      var refilled := b.zones[p.deck].members == [] && p.auto && b.zones[p.discard].members != [];
      var pile := if refilled then Shuffled(b.zones[p.discard].members, draw, k) else b.zones[p.deck].members;
      && p.deck in r.b.zones && p.discard in r.b.zones && |r.cards| == Min(n, |pile|)
      && OffTheEnd(pile, r.cards, r.b.zones[p.deck].members)
      && r.b.zones[p.discard].members == (if refilled then [] else b.zones[p.discard].members) + r.cards
  {
    hide Sound, Complete, Shuffled, Reshuffle, Transition;
    var refilled := Size(b, p.deck) == 0 && p.auto && Size(b, p.discard) > 0;
    if refilled {
      ReshuffleKeeps(b, p, draw, k);
      ReshuffleExactly(b, p, draw, k);
      assert b.zones[p.deck].members + b.zones[p.discard].members == b.zones[p.discard].members;
      DrawsOver(Reshuffle(b, p, draw, k).0, p.deck, p.discard, n);
    } else {
      DrawsOver(b, p.deck, p.discard, n);
    }
  }
}
