/**
 Two checks of one answer: core.ValidateAssignment against the request BlockRequest builds, and Combat.DeclareBlocks on the
 converted pairs. For entity IDs a float64 can hold exactly they agree, whether the answer arrives as Go values or as
 numbers decoded from JSON.
 */
module Validators {
  import opened Engine
  import opened Entities
  import opened Assignment
  import opened Combat

  /** BlockRequest over the pairs LegalBlocks lists. */
  function BlockRequest(r: Round, offered: seq<(EntityID, EntityID)>): (q: Assignment.Request)
    ensures |q.pairs| == |offered| && forall i | 0 <= i < |offered| :: q.pairs[i] == (Whole(offered[i].0), Whole(offered[i].1))
  {
    Assignment.Request(seq(|offered|, i requires 0 <= i < |offered| => (Whole(offered[i].0), Whole(offered[i].1))),
                       1, MaxBlockers(r), true)
  }

  /** An integer that a float64 holds exactly. */
  predicate IsFloat64(id: EntityID) {
    Nearest(id) == id
  }

  /** The forms an entity ID arrives in. */
  predicate Spells(item: Item, id: EntityID) {
    item == Whole(id) || (item == Float(id as real) && IsFloat64(id))
  }

  predicate SpellsAll(args: seq<Arg>, pairs: seq<(EntityID, EntityID)>) {
    |args| == |pairs| &&
    forall i | 0 <= i < |args| :: args[i].Pair? && Spells(args[i].left, pairs[i].0) && Spells(args[i].right, pairs[i].1)
  }

  predicate Small(id: EntityID) {
    id < TWO_TO_53
  }

  /** No other ID has the same float64. */
  ghost predicate Alone(id: EntityID) {
    forall x: EntityID :: Nearest(x) == Nearest(id) ==> x == id
  }

  const HALF := TWO_TO_53 / 2

  lemma LargeStaysLarge(n: nat)
    requires n >= TWO_TO_53
    ensures Nearest(n) >= TWO_TO_53
  {
    var s := Spacing(n, 1);
    SpacingFits(n, 1);
    var q := n / s;
    if s > 1 { QuotientAtLeast(n, s, HALF); }
    ProductGrows(q, s, if s > 1 then HALF else TWO_TO_53, if s > 1 then 2 else 1);
  }

  lemma QuotientAtLeast(n: nat, s: nat, q: nat)
    requires s > 0 && n >= s * q
    ensures n / s >= q
  {
    if n / s + 1 <= q { ProductGrows(q, s, n / s + 1, s); }
  }

  lemma ProductGrows(a: nat, b: nat, c: nat, d: nat)
    requires a >= c && b >= d
    ensures a * b >= c * d && (a + 1) * b >= c * d
  {
  }

  /** Once the spacing has grown at all, at least half of 2^53 of it fits below the number. */
  lemma {:induction false} SpacingFits(n: nat, step: nat)
    requires step == 1 || (step >= 2 && n >= step * HALF)
    ensures var s := Spacing(n, step); s == 1 || (s >= 2 && n >= s * HALF)
    decreases if n < step * TWO_TO_53 then 0 else n - step + 1
  {
    if n >= step * TWO_TO_53 { SpacingFits(n, 2 * step); }
  }

  lemma SmallIsAlone(id: EntityID)
    requires Small(id)
    ensures Alone(id)
  {
    SmallIsExact(id);
    forall x: EntityID | Nearest(x) == Nearest(id) ensures x == id {
      if Small(x) { SmallIsExact(x); } else { LargeStaysLarge(x); }
    }
  }

  /** toEntityID. */
  function ToEntityID(item: Item): Option<EntityID> {
    match item
    case Whole(n) => if n >= 0 then Some(n) else None
    case Float(r) => if r >= 0.0 && r < 0x1_0000_0000_0000_0000 as real && r == r.Floor as real then Some(r.Floor) else None
    case Other(_) => None
  }

  /** EntityPairs turns an accepted answer back into the pairs it spells: a Go value spells the ID it converts to. */
  lemma ConversionIsExact(item: Item, id: EntityID)
    requires id < 0x1_0000_0000_0000_0000
    requires item.Float? && item.r == item.r.Floor as real && item.r >= 0.0 ==> IsFloat64(item.r.Floor)
    ensures ToEntityID(item) == Some(id) <==> Spells(item, id)
  {
  }

  lemma SpelledAlike(a: Item, m: EntityID, b: Item, n: EntityID)
    requires Spells(a, m) && Spells(b, n)
    ensures SameItem(a, b) <==> Nearest(m) == Nearest(n)
  {
  }

  // ---- counting ---------------------------------------------------------------------------------------------

  /** How many pairs use a blocker. */
  function Uses(pairs: seq<(EntityID, EntityID)>, blocker: EntityID): nat {
    if pairs == [] then 0
    else Uses(pairs[..|pairs| - 1], blocker) + if pairs[|pairs| - 1].0 == blocker then 1 else 0
  }

  lemma {:induction false} CountsMatch(
    chosen: seq<(Item, Item)>, pairs: seq<(EntityID, EntityID)>, left: Item, blocker: EntityID, right: Item, attacker: EntityID)
    requires |chosen| == |pairs| && Alone(blocker) && Alone(attacker)
    requires forall i | 0 <= i < |pairs| :: Spells(chosen[i].0, pairs[i].0) && Spells(chosen[i].1, pairs[i].1)
    requires Spells(left, blocker) && Spells(right, attacker)
    ensures CountLeft(chosen, left) == Uses(pairs, blocker)
    ensures CountRight(chosen, right) == |BlockersIn(pairs, attacker)|
  {
    hide SameItem, Spells, Nearest;
    if pairs != [] {
      var n := |pairs| - 1;
      CountsMatch(chosen[..n], pairs[..n], left, blocker, right, attacker);
      SpelledAlike(chosen[n].0, pairs[n].0, left, blocker);
      SpelledAlike(chosen[n].1, pairs[n].1, right, attacker);
    }
  }

  lemma {:induction false} NotUsed(pairs: seq<(EntityID, EntityID)>, blocker: EntityID)
    ensures Uses(pairs, blocker) == 0 <==> forall i | 0 <= i < |pairs| :: pairs[i].0 != blocker
  {
    if pairs != [] {
      var n := |pairs| - 1;
      NotUsed(pairs[..n], blocker);
      assert forall i | 0 <= i < n :: pairs[..n][i] == pairs[i];
    }
  }

  lemma {:induction false} UsesGrow(pairs: seq<(EntityID, EntityID)>, n: nat, blocker: EntityID)
    requires n <= |pairs|
    ensures Uses(pairs[..n], blocker) <= Uses(pairs, blocker)
    decreases |pairs|
  {
    if n < |pairs| {
      UsesGrow(pairs[..|pairs| - 1], n, blocker);
      assert pairs[..|pairs| - 1][..n] == pairs[..n];
    } else {
      assert pairs[..n] == pairs;
    }
  }

  /** A blocker used twice is counted twice. */
  lemma UsedTwice(pairs: seq<(EntityID, EntityID)>, i: nat, j: nat)
    requires i < j < |pairs| && pairs[i].0 == pairs[j].0
    ensures Uses(pairs, pairs[j].0) >= 2
  {
    var b := pairs[j].0;
    NotUsed(pairs[..j], b);
    assert pairs[..j][i].0 == b;
    assert pairs[..j + 1][..j] == pairs[..j];
    UsesGrow(pairs, j + 1, b);
  }

  lemma {:induction false} UsedOnce(pairs: seq<(EntityID, EntityID)>, blocker: EntityID)
    requires DistinctBlockers(pairs)
    ensures Uses(pairs, blocker) <= 1
  {
    if pairs != [] {
      var n := |pairs| - 1;
      UsedOnce(pairs[..n], blocker);
      NotUsed(pairs[..n], blocker);
    }
  }

  // ---- agreement --------------------------------------------------------------------------------------------

  /** The pairs DeclareBlocks accepts with every blocker taken from the candidates. */
  predicate Acceptable(r: Round, candidates: seq<EntityID>, legal: Legality, pairs: seq<(EntityID, EntityID)>) {
    CanBlock(r, pairs, legal) && forall i | 0 <= i < |pairs| :: pairs[i].0 in candidates
  }

  /** No ID of an offered pair shares its float64 with another ID. */
  ghost predicate OfferedAlone(offered: seq<(EntityID, EntityID)>) {
    forall i | 0 <= i < |offered| :: Alone(offered[i].0) && Alone(offered[i].1)
  }

  /** What the request takes for offered: the pairs that have the same float64s as an offered one. */
  lemma OfferedExactly(r: Round, offered: seq<(EntityID, EntityID)>, left: Item, blocker: EntityID, right: Item, attacker: EntityID)
    requires Spells(left, blocker) && Spells(right, attacker)
    ensures Offered(BlockRequest(r, offered), (left, right)) <==>
            exists i | 0 <= i < |offered| :: Collide(offered[i], (blocker, attacker))
  {
    hide SameItem, Nearest;
    var req := BlockRequest(r, offered);
    forall i | 0 <= i < |offered|
      ensures SamePair(req.pairs[i], (left, right)) <==> Collide(offered[i], (blocker, attacker))
    {
      SpelledAlike(req.pairs[i].0, offered[i].0, left, blocker);
      SpelledAlike(req.pairs[i].1, offered[i].1, right, attacker);
    }
    if Offered(req, (left, right)) {
      var i :| 0 <= i < |req.pairs| && SamePair(req.pairs[i], (left, right));
      assert Collide(offered[i], (blocker, attacker));
    }
    if i :| 0 <= i < |offered| && Collide(offered[i], (blocker, attacker)) {
      assert SamePair(req.pairs[i], (left, right));
    }
  }

  predicate Collide(p: (EntityID, EntityID), q: (EntityID, EntityID)) {
    Nearest(p.0) == Nearest(q.0) && Nearest(p.1) == Nearest(q.1)
  }

  lemma CollideAlone(offered: seq<(EntityID, EntityID)>, p: (EntityID, EntityID))
    requires OfferedAlone(offered)
    ensures (exists i | 0 <= i < |offered| :: Collide(offered[i], p)) <==> p in offered
  {
    hide Nearest;
    if p in offered {
      var i :| 0 <= i < |offered| && offered[i] == p;
      assert Collide(offered[i], p);
    }
  }

  lemma OfferedAreAlone(r: Round, candidates: seq<EntityID>, legal: Legality, offered: seq<(EntityID, EntityID)>)
    requires IsLegalBlocks(r, candidates, legal, offered)
    requires (forall c | c in candidates :: Small(c)) && (forall i | 0 <= i < |r.attacks| :: Small(r.attacks[i].attacker))
    ensures OfferedAlone(offered)
  {
    forall i | 0 <= i < |offered| ensures Alone(offered[i].0) && Alone(offered[i].1) {
      var (b, a) := offered[i];
      assert (b, a) in offered;
      SmallIsAlone(b);
      SmallIsAlone(a);
    }
  }

  /**
   Two validators agree: for any declared, not yet blocked round whose candidates and attackers are below 2^53, any legality
   predicate, and any answer whatever IDs it spells, the request's validator accepts the answer exactly when DeclareBlocks
   accepts the pairs it spells with every blocker taken from the candidates.
   */
  lemma ValidatorsAgree(
    r: Round, candidates: seq<EntityID>, legal: Legality, offered: seq<(EntityID, EntityID)>,
    pairs: seq<(EntityID, EntityID)>, args: seq<Arg>)
    requires IsLegalBlocks(r, candidates, legal, offered) && SpellsAll(args, pairs)
    requires (forall c | c in candidates :: Small(c)) && (forall i | 0 <= i < |r.attacks| :: Small(r.attacks[i].attacker))
    ensures Accepts(BlockRequest(r, offered), args) <==> Acceptable(r, candidates, legal, pairs)
  {
    OfferedAreAlone(r, candidates, legal, offered);
    AgreeWhenAlone(r, candidates, legal, offered, pairs, args);
  }

  /** More generally they agree on every answer if no offered ID, of whatever size, shares its float64 with another ID. */
  lemma AgreeWhenAlone(
    r: Round, candidates: seq<EntityID>, legal: Legality, offered: seq<(EntityID, EntityID)>,
    pairs: seq<(EntityID, EntityID)>, args: seq<Arg>)
    requires IsLegalBlocks(r, candidates, legal, offered) && SpellsAll(args, pairs) && OfferedAlone(offered)
    ensures Accepts(BlockRequest(r, offered), args) <==> Acceptable(r, candidates, legal, pairs)
  {
    hide SameItem, IsLegalBlocks, BlockersIn, CountLeft, CountRight, Uses, Spells, Alone, Offered, Attacking, SamePair, Collide;
    var chosen := Chosen(args);
    forall i | 0 <= i < |pairs|
      ensures Offered(BlockRequest(r, offered), chosen[i]) <==> pairs[i] in offered
      ensures pairs[i] in offered <==>
              pairs[i].0 in candidates && Attacking(r, pairs[i].1) && LegalPair(legal, pairs[i].0, pairs[i].1)
    {
      OfferedExactly(r, offered, chosen[i].0, pairs[i].0, chosen[i].1, pairs[i].1);
      CollideAlone(offered, pairs[i]);
      OfferedIsLegal(r, candidates, legal, offered, pairs[i]);
    }
    if forall i | 0 <= i < |pairs| :: pairs[i] in offered {
      forall i | 0 <= i < |pairs|
        ensures CountLeft(chosen, chosen[i].0) == Uses(pairs, pairs[i].0)
        ensures CountRight(chosen, chosen[i].1) == |BlockersIn(pairs, pairs[i].1)|
      {
        CountsMatch(chosen, pairs, chosen[i].0, pairs[i].0, chosen[i].1, pairs[i].1);
      }
      if DistinctBlockers(pairs) {
        forall i | 0 <= i < |pairs| ensures Uses(pairs, pairs[i].0) <= 1 { UsedOnce(pairs, pairs[i].0); }
        NoPairTwice(chosen, pairs, offered);
      } else {
        var i, j :| 0 <= i < j < |pairs| && pairs[i].0 == pairs[j].0;
        UsedTwice(pairs, i, j);
        assert CountLeft(chosen, chosen[j].0) > 1;
      }
    }
  }

  lemma OfferedIsLegal(
    r: Round, candidates: seq<EntityID>, legal: Legality, offered: seq<(EntityID, EntityID)>, p: (EntityID, EntityID))
    requires IsLegalBlocks(r, candidates, legal, offered)
    ensures p in offered <==> p.0 in candidates && Attacking(r, p.1) && LegalPair(legal, p.0, p.1)
  {
    assert p == (p.0, p.1);
  }

  lemma NoPairTwice(chosen: seq<(Item, Item)>, pairs: seq<(EntityID, EntityID)>, offered: seq<(EntityID, EntityID)>)
    requires |chosen| == |pairs| && DistinctBlockers(pairs) && OfferedAlone(offered)
    requires forall i | 0 <= i < |pairs| :: pairs[i] in offered
    requires forall i | 0 <= i < |pairs| :: Spells(chosen[i].0, pairs[i].0) && Spells(chosen[i].1, pairs[i].1)
    ensures NoRepeats(chosen)
  {
    hide SameItem, Spells, Nearest;
    forall i, j | 0 <= i < j < |chosen| ensures !SamePair(chosen[i], chosen[j]) {
      SpelledAlike(chosen[i].0, pairs[i].0, chosen[j].0, pairs[j].0);
      assert Alone(pairs[i].0);
    }
  }

  // ---- rounding twice ---------------------------------------------------------------------------------------

  lemma SpacingBounds(n: nat, step: nat)
    requires step >= 1
    ensures n < Spacing(n, step) * TWO_TO_53
    decreases if n < step * TWO_TO_53 then 0 else n - step + 1
  {
    if n >= step * TWO_TO_53 { SpacingBounds(n, 2 * step); }
  }

  /** A number in the range of a spacing, or of the next one, has that spacing. */
  lemma {:induction false} SpacingAt(n: nat, v: nat, step: nat, t: nat)
    requires step >= 1 && (t == Spacing(n, step) || t == 2 * Spacing(n, step)) && t * HALF <= v < t * TWO_TO_53
    ensures Spacing(v, step) == t
    decreases if n < step * TWO_TO_53 then 0 else n - step + 1
  {
    if t >= 2 * step {
      ReachesDouble(step, t);
      if n >= step * TWO_TO_53 { SpacingAt(n, v, 2 * step, t); }
    }
  }

  lemma ReachesDouble(step: nat, t: nat)
    requires t >= 2 * step
    ensures t * HALF >= step * TWO_TO_53
  {
    ProductGrows(t, HALF, 2 * step, HALF);
    Doubled(step);
  }

  /** A multiple of its own spacing is a float64. */
  lemma MultipleIsFloat64(q: nat, t: nat)
    requires t > 0 && Spacing(q * t, 1) == t
    ensures IsFloat64(q * t)
  {
    DivisionExact(q, t);
  }

  lemma DivisionExact(q: nat, t: nat)
    requires t > 0
    ensures q * t / t == q && q * t % t == 0
  {
    var d, r := q * t / t, q * t % t;
    assert d * t + r == q * t;
    if d < q { ProductGrows(q, t, d + 1, t); }
    if d > q { ProductGrows(d, t, q + 1, t); }
  }

  /** Rounding to a float64 twice is rounding once. */
  lemma NearestIsFloat64(n: nat)
    ensures IsFloat64(Nearest(n))
  {
    if n < TWO_TO_53 {
      SmallIsExact(n);
    } else {
      var s := Spacing(n, 1);
      SpacingFits(n, 1);
      SpacingBounds(n, 1);
      QuotientAtLeast(n, s, HALF);
      QuotientBelow(n, s);
      var q := if Nearest(n) == n / s * s then n / s else n / s + 1;
      assert Nearest(n) == q * s && HALF <= q <= TWO_TO_53;
      RoundedIsFloat64(n, q, s);
    }
  }

  lemma QuotientBelow(n: nat, s: nat)
    requires s > 0 && n < s * TWO_TO_53
    ensures n / s < TWO_TO_53
  {
    if n / s >= TWO_TO_53 { ProductGrows(n / s, s, TWO_TO_53, s); }
  }

  lemma RoundedIsFloat64(n: nat, q: nat, s: nat)
    requires s == Spacing(n, 1) && HALF <= q <= TWO_TO_53
    ensures IsFloat64(q * s)
  {
    hide Spacing, IsFloat64;
    if q < TWO_TO_53 {
      InRange(q, s);
      SpacingAt(n, q * s, 1, s);
      MultipleIsFloat64(q, s);
    } else {
      InRange(HALF, 2 * s);
      Doubled(s);
      SpacingAt(n, HALF * (2 * s), 1, 2 * s);
      MultipleIsFloat64(HALF, 2 * s);
    }
  }

  lemma InRange(q: nat, s: nat)
    requires s > 0 && HALF <= q < TWO_TO_53
    ensures s * HALF <= q * s < s * TWO_TO_53
  {
    ProductGrows(q, s, HALF, s);
    ProductGrows(TWO_TO_53, s, q + 1, s);
  }

  lemma Doubled(s: nat)
    ensures TWO_TO_53 * s == HALF * (2 * s)
  {
  }

  // ---- what an accepted answer is ---------------------------------------------------------------------------

  /** An item with the float64 of an ID that no other ID shares spells that ID. */
  lemma OnlySpelling(item: Item, id: EntityID)
    requires Alone(id) && SameItem(Whole(id), item)
    ensures Spells(item, id)
  {
    hide Nearest;
    NearestIsFloat64(id);
    NearestIsNat(id);
    assert Nearest(id) == id;
    match item
    case Whole(n) => if n < 0 { NegativeIsNone(-n); }
    case Float(r) =>
    case Other(_) =>
  }

  lemma NearestIsNat(n: nat)
    ensures Nearest(n) >= 0
  {
    if n > 0 { NegativeIsNone(n); } else { SmallIsExact(0); }
  }

  lemma NegativeIsNone(n: nat)
    requires n > 0
    ensures Nearest(n) > 0
  {
    if n < TWO_TO_53 { SmallIsExact(n); } else { LargeStaysLarge(n); }
  }

  /** What an answer spells, if each of its pairs is offered. */
  function OfferedSpelled(r: Round, offered: seq<(EntityID, EntityID)>, chosen: seq<(Item, Item)>): (pairs: seq<(EntityID, EntityID)>)
    requires forall i | 0 <= i < |chosen| :: Offered(BlockRequest(r, offered), chosen[i])
    ensures |pairs| == |chosen|
    ensures forall i | 0 <= i < |chosen| :: pairs[i] in offered && SamePair((Whole(pairs[i].0), Whole(pairs[i].1)), chosen[i])
  {
    seq(|chosen|, i requires 0 <= i < |chosen| => OfferedPair(r, offered, chosen[i]))
  }

  function OfferedPair(r: Round, offered: seq<(EntityID, EntityID)>, p: (Item, Item)): (pair: (EntityID, EntityID))
    requires Offered(BlockRequest(r, offered), p)
    ensures pair in offered && SamePair((Whole(pair.0), Whole(pair.1)), p)
  {
    assert exists i | 0 <= i < |offered| :: SamePair(BlockRequest(r, offered).pairs[i], p);
    var i := FirstSame(BlockRequest(r, offered).pairs, p);
    offered[i]
  }

  function FirstSame(pairs: seq<(Item, Item)>, p: (Item, Item)): (i: nat)
    requires exists i | 0 <= i < |pairs| :: SamePair(pairs[i], p)
    ensures i < |pairs| && SamePair(pairs[i], p)
  {
    if SamePair(pairs[0], p) then 0
    else
      assert exists i | 0 <= i < |pairs| - 1 :: SamePair(pairs[1..][i], p) by {
        var i :| 0 <= i < |pairs| && SamePair(pairs[i], p);
        assert SamePair(pairs[1..][i - 1], p);
      }
      FirstSame(pairs[1..], p) + 1
  }

  /**
   The answers the request's validator accepts, for any arguments at all: exactly those that spell pairs DeclareBlocks
   accepts with every blocker from the candidates. In particular an accepted answer spells entity IDs throughout.
   */
  lemma AcceptsExactly(
    r: Round, candidates: seq<EntityID>, legal: Legality, offered: seq<(EntityID, EntityID)>, args: seq<Arg>)
    requires IsLegalBlocks(r, candidates, legal, offered) && OfferedAlone(offered)
    ensures Accepts(BlockRequest(r, offered), args) <==>
            exists pairs :: SpellsAll(args, pairs) && Acceptable(r, candidates, legal, pairs)
  {
    hide SameItem, IsLegalBlocks, BlockersIn, CountLeft, CountRight, Spells, Alone, Offered, Acceptable;
    var req := BlockRequest(r, offered);
    if Accepts(req, args) {
      var chosen := Chosen(args);
      var pairs := OfferedSpelled(r, offered, chosen);
      forall i | 0 <= i < |args| ensures Spells(args[i].left, pairs[i].0) && Spells(args[i].right, pairs[i].1) {
        assert args[i] in args && pairs[i] in offered;
        OnlySpelling(args[i].left, pairs[i].0);
        OnlySpelling(args[i].right, pairs[i].1);
      }
      AgreeWhenAlone(r, candidates, legal, offered, pairs, args);
    }
    forall pairs | SpellsAll(args, pairs) && Acceptable(r, candidates, legal, pairs) ensures Accepts(req, args) {
      AgreeWhenAlone(r, candidates, legal, offered, pairs, args);
    }
  }

  // ---- large IDs --------------------------------------------------------------------------------------------

  /** Whatever pair has the float64s of an offered one is offered itself. */
  ghost predicate ClosedUnderRounding(offered: seq<(EntityID, EntityID)>) {
    forall i, b: EntityID, a: EntityID | 0 <= i < |offered| :: Collide(offered[i], (b, a)) ==> (b, a) in offered
  }

  /** The validator lets through nothing DeclareBlocks would refuse. */
  ghost predicate Sound(r: Round, candidates: seq<EntityID>, legal: Legality, offered: seq<(EntityID, EntityID)>) {
    forall pairs: seq<(EntityID, EntityID)>, args: seq<Arg> ::
      SpellsAll(args, pairs) && Accepts(BlockRequest(r, offered), args) ==> Acceptable(r, candidates, legal, pairs)
  }

  /** One pair with the float64s of an offered one is accepted, offered or not. */
  lemma CollidingAnswerPasses(r: Round, offered: seq<(EntityID, EntityID)>, i: nat, b: EntityID, a: EntityID)
    requires i < |offered| && Collide(offered[i], (b, a))
    ensures SpellsAll([Pair(Whole(b), Whole(a))], [(b, a)])
    ensures Accepts(BlockRequest(r, offered), [Pair(Whole(b), Whole(a))])
  {
    hide Nearest;
    var req, args := BlockRequest(r, offered), [Pair(Whole(b), Whole(a))];
    var chosen := Chosen(args);
    assert chosen == [(Whole(b), Whole(a))];
    OfferedExactly(r, offered, Whole(b), b, Whole(a), a);
    assert chosen[..|chosen| - 1] == [];
    assert SameItem(chosen[0].0, chosen[0].0) && SameItem(chosen[0].1, chosen[0].1);
    assert CountLeft(chosen, chosen[0].0) == 1;
    assert CountRight(chosen, chosen[0].1) == 1;
  }

  /** An accepted answer over a set closed under rounding is acceptable, collisions among its IDs or not. */
  lemma ClosedIsSound(
    r: Round, candidates: seq<EntityID>, legal: Legality, offered: seq<(EntityID, EntityID)>,
    pairs: seq<(EntityID, EntityID)>, args: seq<Arg>)
    requires IsLegalBlocks(r, candidates, legal, offered) && ClosedUnderRounding(offered)
    requires SpellsAll(args, pairs) && Accepts(BlockRequest(r, offered), args)
    ensures Acceptable(r, candidates, legal, pairs)
  {
    hide SameItem, IsLegalBlocks, BlockersIn, CountLeft, CountRight, Uses, Spells, Attacking, SamePair, Offered;
    var chosen := Chosen(args);
    forall i | 0 <= i < |pairs|
      ensures pairs[i].0 in candidates && Attacking(r, pairs[i].1) && LegalPair(legal, pairs[i].0, pairs[i].1)
      ensures Uses(pairs, pairs[i].0) <= 1 && |BlockersIn(pairs, pairs[i].1)| <= MaxBlockers(r)
    {
      OfferedExactly(r, offered, chosen[i].0, pairs[i].0, chosen[i].1, pairs[i].1);
      OfferedIsLegal(r, candidates, legal, offered, pairs[i]);
      CountsCover(chosen, pairs, chosen[i].0, pairs[i].0, chosen[i].1, pairs[i].1);
    }
    forall i, j | 0 <= i < j < |pairs| ensures pairs[i].0 != pairs[j].0 {
      if pairs[i].0 == pairs[j].0 { UsedTwice(pairs, i, j); }
    }
  }

  /** Equal IDs are equal numbers, so the validator never counts less than DeclareBlocks. */
  lemma {:induction false} CountsCover(
    chosen: seq<(Item, Item)>, pairs: seq<(EntityID, EntityID)>, left: Item, blocker: EntityID, right: Item, attacker: EntityID)
    requires |chosen| == |pairs|
    requires forall i | 0 <= i < |pairs| :: Spells(chosen[i].0, pairs[i].0) && Spells(chosen[i].1, pairs[i].1)
    requires Spells(left, blocker) && Spells(right, attacker)
    ensures CountLeft(chosen, left) >= Uses(pairs, blocker)
    ensures CountRight(chosen, right) >= |BlockersIn(pairs, attacker)|
  {
    hide SameItem, Spells, Nearest;
    if pairs != [] {
      var n := |pairs| - 1;
      CountsCover(chosen[..n], pairs[..n], left, blocker, right, attacker);
      SpelledAlike(chosen[n].0, pairs[n].0, left, blocker);
      SpelledAlike(chosen[n].1, pairs[n].1, right, attacker);
    }
  }

  /**
   When the validator lets through nothing DeclareBlocks refuses, for any IDs: exactly when no pair outside the offered
   ones has the float64s of one inside.
   */
  lemma SoundExactly(r: Round, candidates: seq<EntityID>, legal: Legality, offered: seq<(EntityID, EntityID)>)
    requires IsLegalBlocks(r, candidates, legal, offered)
    ensures Sound(r, candidates, legal, offered) <==> ClosedUnderRounding(offered)
  {
    hide Accepts, SpellsAll, Collide, IsLegalBlocks, BlockersIn;
    if Sound(r, candidates, legal, offered) {
      forall i, b: EntityID, a: EntityID | 0 <= i < |offered| && Collide(offered[i], (b, a)) ensures (b, a) in offered {
        CollidingAnswerPasses(r, offered, i, b, a);
        var pairs := [(b, a)];
        assert Acceptable(r, candidates, legal, pairs);
        assert pairs[0].0 in candidates && Attacking(r, pairs[0].1) && LegalPair(legal, pairs[0].0, pairs[0].1);
        OfferedIsLegal(r, candidates, legal, offered, (b, a));
      }
    }
    if ClosedUnderRounding(offered) {
      forall pairs: seq<(EntityID, EntityID)>, args: seq<Arg>
        | SpellsAll(args, pairs) && Accepts(BlockRequest(r, offered), args)
        ensures Acceptable(r, candidates, legal, pairs)
      {
        ClosedIsSound(r, candidates, legal, offered, pairs, args);
      }
    }
  }

  /** Past 2^53 they part: the validator lets through a blocker nobody offered. */
  lemma LargeIDsDisagree(r: Round, attacker: EntityID, target: Value)
    requires r.attacks == [Attack(attacker, target)] && Small(attacker)
    ensures
      var big := TWO_TO_53;
      var offered := [(big, attacker)];
      && IsLegalBlocks(r, [big], None, offered) && big + 1 !in [big]
      && Accepts(BlockRequest(r, offered), [Pair(Whole(big + 1), Whole(attacker))])
  {
    var big := TWO_TO_53;
    var offered := [(big, attacker)];
    forall b: EntityID, a: EntityID
      ensures (b, a) in offered <==> b in [big] && Attacking(r, a) && LegalPair(None, b, a)
    {
      if a == attacker { assert r.attacks[0].attacker == a; }
    }
    LargeCollide();
    CollidingAnswerPasses(r, offered, 0, big + 1, attacker);
  }
}
