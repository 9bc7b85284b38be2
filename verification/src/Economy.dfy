/**
 modules/economy: paying a multi-kind cost all or nothing. A basket names pools, each a counter of some entity; a payment
 reserves every specific kind, draws a generic remainder greedily from a fallback order, and only then deducts.

 No counter has subscribers here, so the order in which kinds are deducted is not observable.
 */
module Economy {
  import opened Engine
  import opened Transitions

  /** Pool: the counter `kind` of the entity `owner`. Cap and AllowNegative play no part in a payment. */
  datatype Pool = Pool(owner: int, kind: string)

  type Counters = map<Pool, int>

  /** Basket.Pools. Two names may draw from one counter. */
  type Basket = map<string, Pool>

  datatype PayError = NegativeCost | UnknownKind | InsufficientFunds

  /** Pool.Current: unset counters and unknown entities read as 0. */
  function Current(c: Counters, p: Pool): int {
    if p in c then c[p] else 0
  }

  /** changeCounter, downwards: a counter that reaches 0 is deleted. */
  function Removed(c: Counters, p: Pool, n: int): Counters {
    var left := Current(c, p) - n;
    if left == 0 then c - {p} else c[p := left]
  }

  function Amount(m: map<string, int>, kind: string): int {
    if kind in m then m[kind] else 0
  }

  // ---- sums over a map --------------------------------------------------------------------------------------

  ghost function Sum(kinds: set<string>, m: map<string, int>): int
    requires kinds <= m.Keys
  {
    if kinds == {} then 0
    else
      var k :| k in kinds;
      m[k] + Sum(kinds - {k}, m)
  }

  lemma {:induction false} SumWithout(kinds: set<string>, m: map<string, int>, kind: string)
    requires kinds <= m.Keys && kind in kinds
    ensures Sum(kinds, m) == m[kind] + Sum(kinds - {kind}, m)
    decreases |kinds|
  {
    var k :| k in kinds && Sum(kinds, m) == m[k] + Sum(kinds - {k}, m);
    if k != kind {
      SumWithout(kinds - {k}, m, kind);
      SumWithout(kinds - {kind}, m, k);
      assert kinds - {k} - {kind} == kinds - {kind} - {k};
    }
  }

  lemma {:induction false} SumAgrees(kinds: set<string>, m: map<string, int>, n: map<string, int>)
    requires kinds <= m.Keys && kinds <= n.Keys && forall k | k in kinds :: m[k] == n[k]
    ensures Sum(kinds, m) == Sum(kinds, n)
    decreases |kinds|
  {
    if kinds != {} {
      var k :| k in kinds;
      SumWithout(kinds, m, k);
      SumWithout(kinds, n, k);
      SumAgrees(kinds - {k}, m, n);
    }
  }

  lemma {:induction false} SumGrows(some: set<string>, all: set<string>, m: map<string, int>)
    requires some <= all <= m.Keys && forall k | k in all :: m[k] >= 0
    ensures 0 <= Sum(some, m) <= Sum(all, m)
    decreases |all|
  {
    if all != {} {
      var k :| k in all;
      SumWithout(all, m, k);
      if k in some {
        SumWithout(some, m, k);
        SumGrows(some - {k}, all - {k}, m);
      } else {
        SumGrows(some, all - {k}, m);
      }
    }
  }

  ghost function Total(m: map<string, int>): int {
    Sum(m.Keys, m)
  }

  lemma TotalRaised(m: map<string, int>, kind: string, more: int)
    ensures Total(m[kind := Amount(m, kind) + more]) == Total(m) + more
  {
    var n := m[kind := Amount(m, kind) + more];
    SumWithout(n.Keys, n, kind);
    SumAgrees(n.Keys - {kind}, m, n);
    if kind in m {
      SumWithout(m.Keys, m, kind);
      assert n.Keys == m.Keys;
    } else {
      assert n.Keys - {kind} == m.Keys;
    }
  }

  // ---- what a payment should do -----------------------------------------------------------------------------

  /** Every specific amount is non-negative and, unless 0, covered by a pool of the basket. */
  predicate Affordable(b: Basket, c: Counters, cost: map<string, int>) {
    forall k | k in cost :: cost[k] >= 0 && (cost[k] > 0 ==> k in b && Current(c, b[k]) >= cost[k])
  }

  function Specific(cost: map<string, int>): map<string, int> {
    map k | k in cost && cost[k] > 0 :: cost[k]
  }

  /** What a pool has left once the specific cost is reserved. */
  function Room(b: Basket, c: Counters, cost: map<string, int>, kind: string): int {
    if kind !in b then 0
    else
      var left := Current(c, b[kind]) - Amount(Specific(cost), kind);
      if left > 0 then left else 0
  }

  /** The room in the distinct kinds of a fallback order. */
  function Slack(b: Basket, c: Counters, cost: map<string, int>, order: seq<string>): (n: int)
    ensures n >= 0
  {
    if order == [] then 0
    else
      var last := order[|order| - 1];
      Slack(b, c, cost, order[..|order| - 1]) +
      if last in order[..|order| - 1] then 0 else Room(b, c, cost, last)
  }

  lemma {:induction false} SlackGrows(b: Basket, c: Counters, cost: map<string, int>, order: seq<string>, i: nat)
    requires i <= |order|
    ensures Slack(b, c, cost, order[..i]) <= Slack(b, c, cost, order)
    decreases |order|
  {
    if i < |order| {
      SlackGrows(b, c, cost, order[..|order| - 1], i);
      assert order[..|order| - 1][..i] == order[..i];
    } else {
      assert order[..i] == order;
    }
  }

  /** The fallback kinds before the first the basket does not know. */
  function Known(b: Basket, order: seq<string>): (r: seq<string>)
    ensures r <= order && forall k | k in r :: k in b
    ensures r != order ==> order[|r|] !in b
  {
    if order == [] || order[0] !in b then [] else [order[0]] + Known(b, order[1..])
  }

  /** What a fallback kind gives to the generic part: its room, as far as the kinds before it leave anything to pay. */
  function Share(b: Basket, c: Counters, cost: map<string, int>, generic: int, order: seq<string>, kind: string): int {
    var i := IndexOf(order, kind);
    if i < 0 then 0 else Min(Room(b, c, cost, kind), generic - Slack(b, c, cost, order[..i]))
  }

  /** The lesser of the two, and nothing when that is negative. */
  function Min(a: int, b: int): int {
    if a <= 0 || b <= 0 then 0 else if a <= b then a else b
  }

  function DrawOf(b: Basket, c: Counters, cost: map<string, int>, generic: int, order: seq<string>, kind: string): int {
    Amount(Specific(cost), kind) + Share(b, c, cost, generic, order, kind)
  }

  /** The greedy draw of a payment, kind by kind. */
  function Draw(b: Basket, c: Counters, cost: map<string, int>, generic: int, order: seq<string>): (d: map<string, int>)
    ensures forall k | k in cost.Keys + (set x | x in order) ::
              (k in d <==> DrawOf(b, c, cost, generic, order, k) > 0) && (k in d ==> d[k] == DrawOf(b, c, cost, generic, order, k))
    ensures d.Keys <= cost.Keys + set x | x in order
  {
    map k | k in cost.Keys + (set x | x in order) && DrawOf(b, c, cost, generic, order, k) > 0
      :: DrawOf(b, c, cost, generic, order, k)
  }

  /** A draw covers the cost, takes nothing a pool does not have, and adds up. */
  ghost predicate Draws(b: Basket, c: Counters, cost: map<string, int>, generic: int, order: seq<string>, d: map<string, int>) {
    && d.Keys <= b.Keys && Total(d) == Total(Specific(cost)) + generic
    && (forall k | k in d :: 0 < d[k] <= Current(c, b[k]))
    && (forall k :: Amount(Specific(cost), k) <= Amount(d, k))
    && (forall k :: k !in order ==> Amount(d, k) == Amount(Specific(cost), k))
  }

  /** A fallback kind is drawn from only once every kind before it is used up. */
  ghost predicate Greedy(b: Basket, c: Counters, cost: map<string, int>, order: seq<string>, d: map<string, int>) {
    forall i, j | 0 <= i < j < |order| :: DrawnLater(cost, order, d, j) ==> UsedUp(b, c, d, order[i])
  }

  ghost predicate DrawnLater(cost: map<string, int>, order: seq<string>, d: map<string, int>, j: nat)
    requires j < |order|
  {
    order[j] !in order[..j] && Amount(d, order[j]) > Amount(Specific(cost), order[j])
  }

  ghost predicate UsedUp(b: Basket, c: Counters, d: map<string, int>, kind: string) {
    kind in b && Amount(d, kind) >= Current(c, b[kind])
  }

  /** The names under which a draw reaches one counter. */
  ghost function Names(b: Basket, d: map<string, int>, p: Pool): set<string> {
    set k | k in d && k in b && b[k] == p
  }

  /** Why one kind of a cost cannot be reserved. */
  predicate Unpayable(b: Basket, c: Counters, amount: int, kind: string, why: PayError) {
    match why
    case NegativeCost => amount < 0
    case UnknownKind => amount > 0 && kind !in b
    case InsufficientFunds => amount > 0 && kind in b && Current(c, b[kind]) < amount
  }

  /** What a draw takes from one counter, through whatever names. */
  ghost function DrawnFrom(b: Basket, d: map<string, int>, p: Pool): int {
    Sum(Names(b, d, p), d)
  }

  /** No counter is asked for more than it holds. */
  ghost predicate Fits(b: Basket, c: Counters, d: map<string, int>) {
    forall k | k in d && k in b :: DrawnFrom(b, d, b[k]) <= Current(c, b[k])
  }

  ghost predicate DistinctPools(b: Basket) {
    forall j, k | j in b && k in b && j != k :: b[j] != b[k]
  }

  // ---- the basket at work -----------------------------------------------------------------------------------

  /** ccg.State, as far as counters go. */
  class Ledger {
    var counters: Counters

    constructor (c: Counters)
      ensures counters == c
    {
      counters := c;
    }

    /** Pool.Spend. */
    method Spend(p: Pool, n: int) returns (err: Option<PayError>)
      modifies this
      ensures err == if n < 0 then Some(NegativeCost)
                     else if n > 0 && Current(old(counters), p) < n then Some(InsufficientFunds) else None
      ensures forall q :: Current(counters, q) == Current(old(counters), q) - (if err.None? && q == p then n else 0)
      ensures err.Some? ==> counters == old(counters)
    {
      if n < 0 { return Some(NegativeCost); }
      if n == 0 { return None; }
      if Current(counters, p) < n { return Some(InsufficientFunds); }
      counters := Removed(counters, p, n);
      err := None;
    }

    /** Basket.reserve: range over the cost, refusing at the first kind that cannot be paid. */
    method Reserve(b: Basket, cost: map<string, int>) returns (reserved: map<string, int>, err: Option<PayError>)
      ensures err.None? <==> Affordable(b, counters, cost)
      ensures err.None? ==> reserved == Specific(cost)
      ensures err.Some? ==> exists k :: k in cost && Unpayable(b, counters, cost[k], k, err.value)
    {
      reserved := map[];
      var todo := cost.Keys;
      while todo != {}
        invariant todo <= cost.Keys
        invariant reserved == map k | k in cost && k !in todo && cost[k] > 0 :: cost[k]
        invariant forall k | k in cost && k !in todo ::
                    cost[k] >= 0 && (cost[k] > 0 ==> k in b && Current(counters, b[k]) >= cost[k])
        decreases todo
      {
        var kind :| kind in todo;
        todo := todo - {kind};
        if cost[kind] < 0 { return map[], Some(NegativeCost); }
        if cost[kind] > 0 {
          if kind !in b { return map[], Some(UnknownKind); }
          if Current(counters, b[kind]) < cost[kind] { return map[], Some(InsufficientFunds); }
          reserved := reserved[kind := cost[kind]];
        }
      }
      err := None;
    }

    /** spendReserved. A false result is the panic "reservation invariant broken". */
    method SpendReserved(b: Basket, d: map<string, int>) returns (ok: bool)
      requires d.Keys <= b.Keys && forall k | k in d :: 0 < d[k]
      modifies this
      ensures ok <==> Fits(b, old(counters), d)
      ensures ok ==> forall p :: Current(counters, p) == Current(old(counters), p) - DrawnFrom(b, d, p)
    {
      hide DrawnFrom;
      ghost var before := counters;
      var todo := d.Keys;
      ghost var done: map<string, int> := map[];
      NothingDrawn(b);
      while todo != {}
        invariant todo <= d.Keys && done == map k | k in d && k !in todo :: d[k]
        invariant forall p :: Current(counters, p) == Current(before, p) - DrawnFrom(b, done, p)
        invariant Fits(b, before, done)
        decreases todo
      {
        var kind :| kind in todo;
        todo := todo - {kind};
        ghost var more := done[kind := d[kind]];
        DrawnOneMore(b, done, kind, d[kind]);
        var err := Spend(b[kind], d[kind]);
        if err.Some? {
          OverdrawnStays(b, before, more, d, kind);
          return false;
        }
        FitsOneMore(b, before, done, kind, d[kind]);
        done := more;
      }
      assert done == d;
      ok := true;
    }

    /**
     Basket.PayWithGeneric. It refuses exactly when the cost is invalid or not covered, and then changes nothing;
     otherwise it deducts the greedy draw of exactly the cost and the generic amount. It panics instead exactly when that
     draw asks some counter, through all the names it goes by, for more than it holds; never over distinct counters.
     */
    method PayWithGeneric(b: Basket, cost: map<string, int>, generic: int, order: seq<string>)
      returns (err: Option<PayError>, panicked: bool)
      modifies this
      ensures err.None? <==> generic >= 0 && Affordable(b, old(counters), cost) &&
                             Slack(b, old(counters), cost, Known(b, order)) >= generic
      ensures err.Some? ==> !panicked && counters == old(counters)
      ensures generic < 0 ==> err == Some(NegativeCost)
      ensures err.Some? && generic >= 0 && Affordable(b, old(counters), cost) ==>
                err == Some(if Known(b, order) != order then UnknownKind else InsufficientFunds)
      ensures err.None? ==>
                var d := Draw(b, old(counters), cost, generic, order);
                && Draws(b, old(counters), cost, generic, order, d) && Greedy(b, old(counters), cost, order, d)
                && (panicked <==> !Fits(b, old(counters), d))
                && (!panicked ==> forall p :: Current(counters, p) == Current(old(counters), p) - DrawnFrom(b, d, p))
      ensures DistinctPools(b) ==> !panicked
    {
      hide Slack, Known, Greedy, Affordable, Draws, DrawnFrom, Fits, Specific, Draw, DistinctPools;
      panicked := false;
      if generic < 0 { return Some(NegativeCost), false; }
      var reserved: map<string, int>;
      reserved, err := Reserve(b, cost);
      if err.Some? { return; }
      reserved, err := DrawGeneric(b, counters, cost, generic, order, reserved);
      if err.Some? { return; }
      DrawIsCovered(b, counters, cost, generic, order, reserved);
      if DistinctPools(b) { DistinctPoolsFit(b, counters, cost, generic, order, reserved); }
      var ok := SpendReserved(b, reserved);
      panicked := !ok;
    }
  }

  lemma NothingDrawn(b: Basket)
    ensures forall p :: DrawnFrom(b, map[], p) == 0
  {
  }

  lemma DrawnOneMore(b: Basket, done: map<string, int>, kind: string, n: int)
    requires done.Keys <= b.Keys && kind in b && kind !in done
    ensures forall p :: DrawnFrom(b, done[kind := n], p) == DrawnFrom(b, done, p) + if p == b[kind] then n else 0
  {
    var more := done[kind := n];
    forall p ensures DrawnFrom(b, more, p) == DrawnFrom(b, done, p) + if p == b[kind] then n else 0 {
      var was, now := Names(b, done, p), Names(b, more, p);
      SumAgrees(was, done, more);
      if p == b[kind] {
        assert now - {kind} == was;
        SumWithout(now, more, kind);
      } else {
        assert now == was;
      }
    }
  }

  lemma FitsOneMore(b: Basket, c: Counters, done: map<string, int>, kind: string, n: int)
    requires done.Keys <= b.Keys && kind in b && kind !in done && Fits(b, c, done)
    requires DrawnFrom(b, done, b[kind]) + n <= Current(c, b[kind])
    ensures Fits(b, c, done[kind := n])
  {
    DrawnOneMore(b, done, kind, n);
  }

  lemma OverdrawnStays(b: Basket, c: Counters, some: map<string, int>, all: map<string, int>, kind: string)
    requires some.Keys <= all.Keys <= b.Keys && kind in some
    requires forall k | k in all :: 0 < all[k]
    requires forall k | k in some :: some[k] == all[k]
    requires DrawnFrom(b, some, b[kind]) > Current(c, b[kind])
    ensures !Fits(b, c, all)
  {
    var few, many := Names(b, some, b[kind]), Names(b, all, b[kind]);
    SumAgrees(few, some, all);
    SumGrows(few, many, all);
  }

  lemma DrawIsCovered(b: Basket, c: Counters, cost: map<string, int>, generic: int, order: seq<string>, d: map<string, int>)
    requires Draws(b, c, cost, generic, order, d)
    ensures d.Keys <= b.Keys && forall k | k in d :: 0 < d[k]
  {
  }

  // ---- the generic part -------------------------------------------------------------------------------------

  /** The loop of PayWithGeneric over the fallback order, on top of the specific reservation. */
  method DrawGeneric(b: Basket, c: Counters, cost: map<string, int>, generic: int, order: seq<string>, base: map<string, int>)
    returns (d: map<string, int>, err: Option<PayError>)
    requires generic >= 0 && Affordable(b, c, cost) && base == Specific(cost)
    ensures err.None? <==> Slack(b, c, cost, Known(b, order)) >= generic
    ensures err.Some? ==> err.value == if Known(b, order) != order then UnknownKind else InsufficientFunds
    ensures err.None? ==> Draws(b, c, cost, generic, order, d) && Greedy(b, c, cost, order, d)
    ensures err.None? ==> d == Draw(b, c, cost, generic, order)
  {
    hide Slack, Known, Draws, Greedy, Affordable, Specific, Shared, Draw;
    d := base;
    var need, i := generic, 0;
    NothingDrawnYet(b, c, cost, generic, order);
    NothingShared(b, c, cost, generic, order);
    while i < |order| && need > 0
      invariant 0 <= i <= |order| && 0 <= need <= generic
      invariant DrawnSoFar(b, c, cost, generic, order, i, d, need) && Shared(b, c, cost, generic, order, i, d)
      decreases |order| - i
    {
      var kind := order[i];
      if kind !in b {
        StoppedAtUnknown(b, c, cost, generic, order, i, d, need);
        return d, Some(UnknownKind);
      }
      var avail := Current(c, b[kind]) - Amount(d, kind);
      var take := if avail <= 0 then 0 else if avail > need then need else avail;
      DrawOneMore(b, c, cost, generic, order, i, d, need, take);
      ShareOneMore(b, c, cost, generic, order, i, d, need, take);
      if take > 0 {
        d := d[kind := Amount(d, kind) + take];
      }
      need, i := need - take, i + 1;
    }
    if need > 0 {
      RanOut(b, c, cost, generic, order, d, need);
      return d, Some(InsufficientFunds);
    }
    AllDrawn(b, c, cost, generic, order, i, d);
    AllShared(b, c, cost, generic, order, i, d);
    err := None;
  }

  /** The loop's state after so many fallback kinds. */
  ghost predicate DrawnSoFar(
    b: Basket, c: Counters, cost: map<string, int>, generic: int, order: seq<string>, i: nat, d: map<string, int>, need: int)
  {
    && i <= |order|
    && (forall k | k in order[..i] :: k in b)
    && Draws(b, c, cost, generic - need, order[..i], d) && Greedy(b, c, cost, order[..i], d)
    && (need > 0 ==> need == generic - Slack(b, c, cost, order[..i]) && forall k | k in order[..i] :: UsedUp(b, c, d, k))
    && (need == 0 ==> generic <= Slack(b, c, cost, order[..i]))
  }

  /** So far, each of the first i kinds has given its share and the others nothing. */
  ghost predicate Shared(
    b: Basket, c: Counters, cost: map<string, int>, generic: int, order: seq<string>, i: nat, d: map<string, int>)
  {
    i <= |order| &&
    forall k :: Amount(d, k) == Amount(Specific(cost), k) + if k in order[..i] then Share(b, c, cost, generic, order, k) else 0
  }

  lemma NothingShared(b: Basket, c: Counters, cost: map<string, int>, generic: int, order: seq<string>)
    ensures Shared(b, c, cost, generic, order, 0, Specific(cost))
  {
  }

  /** The first place of a kind that has not come up before. */
  lemma FirstPlace(order: seq<string>, i: nat)
    requires i < |order| && order[i] !in order[..i]
    ensures IndexOf(order, order[i]) == i
  {
    var j := IndexOf(order, order[i]);
    PrefixHas(order, i, j);
    PrefixHas(order, j, i);
  }

  lemma PrefixHas(order: seq<string>, n: nat, j: nat)
    requires n <= |order| && j < |order|
    ensures j < n ==> order[j] in order[..n]
  {
    if j < n { assert order[..n][j] == order[j]; }
  }

  lemma ShareOneMore(
    b: Basket, c: Counters, cost: map<string, int>, generic: int, order: seq<string>, i: nat, d: map<string, int>,
    need: int, take: int)
    requires i < |order| && need > 0 && DrawnSoFar(b, c, cost, generic, order, i, d, need) && order[i] in b
    requires Shared(b, c, cost, generic, order, i, d)
    requires
      var avail := Current(c, b[order[i]]) - Amount(d, order[i]);
      take == if avail <= 0 then 0 else if avail > need then need else avail
    ensures
      var more := if take > 0 then d[order[i] := Amount(d, order[i]) + take] else d;
      Shared(b, c, cost, generic, order, i + 1, more)
  {
    hide Draws, Greedy, Slack, Specific, Share;
    var kind := order[i];
    assert order[..i + 1] == order[..i] + [kind];
    if kind in order[..i] {
      assert UsedUp(b, c, d, kind);
    } else {
      RoomLeft(b, c, cost, generic - need, order, i, d);
      FirstPlace(order, i);
      ShareAt(b, c, cost, generic, order, i);
    }
  }

  lemma ShareAt(b: Basket, c: Counters, cost: map<string, int>, generic: int, order: seq<string>, i: nat)
    requires i < |order| && IndexOf(order, order[i]) == i
    ensures Share(b, c, cost, generic, order, order[i]) ==
            Min(Room(b, c, cost, order[i]), generic - Slack(b, c, cost, order[..i]))
  {
  }

  /** The generic part is paid: the kinds still to come have no share, and the draw is complete. */
  lemma AllShared(b: Basket, c: Counters, cost: map<string, int>, generic: int, order: seq<string>, i: nat, d: map<string, int>)
    requires i <= |order| && DrawnSoFar(b, c, cost, generic, order, i, d, 0) && Shared(b, c, cost, generic, order, i, d)
    ensures d == Draw(b, c, cost, generic, order)
  {
    hide Slack, Greedy, Share;
    forall k ensures Amount(d, k) == DrawOf(b, c, cost, generic, order, k) {
      LaterShares(b, c, cost, generic, order, i, k);
    }
    var all := Draw(b, c, cost, generic, order);
    forall k ensures k in d <==> k in all {
      if k in d || k in all { OnlyKnownKinds(b, c, cost, generic, order, k); }
    }
  }

  lemma LaterShares(b: Basket, c: Counters, cost: map<string, int>, generic: int, order: seq<string>, i: nat, k: string)
    requires i <= |order| && generic <= Slack(b, c, cost, order[..i])
    ensures k !in order[..i] ==> Share(b, c, cost, generic, order, k) == 0
  {
    var j := IndexOf(order, k);
    if j >= i {
      SlackGrows(b, c, cost, order[..j], i);
      assert order[..j][..i] == order[..i];
    } else if j >= 0 {
      assert order[..i][j] == k;
    }
  }

  lemma OnlyKnownKinds(b: Basket, c: Counters, cost: map<string, int>, generic: int, order: seq<string>, k: string)
    ensures DrawOf(b, c, cost, generic, order, k) != 0 ==> k in cost.Keys + set x | x in order
  {
  }

  lemma NothingDrawnYet(b: Basket, c: Counters, cost: map<string, int>, generic: int, order: seq<string>)
    requires generic >= 0 && Affordable(b, c, cost)
    ensures DrawnSoFar(b, c, cost, generic, order, 0, Specific(cost), generic)
  {
  }

  lemma SlackOneMore(b: Basket, c: Counters, cost: map<string, int>, order: seq<string>, i: nat)
    requires i < |order|
    ensures Slack(b, c, cost, order[..i + 1]) ==
            Slack(b, c, cost, order[..i]) + if order[i] in order[..i] then 0 else Room(b, c, cost, order[i])
  {
    assert order[..i + 1][..i] == order[..i];
  }

  lemma DrawOneMore(
    b: Basket, c: Counters, cost: map<string, int>, generic: int, order: seq<string>, i: nat, d: map<string, int>,
    need: int, take: int)
    requires i < |order| && need > 0 && DrawnSoFar(b, c, cost, generic, order, i, d, need) && order[i] in b
    requires
      var avail := Current(c, b[order[i]]) - Amount(d, order[i]);
      take == if avail <= 0 then 0 else if avail > need then need else avail
    ensures
      var more := if take > 0 then d[order[i] := Amount(d, order[i]) + take] else d;
      DrawnSoFar(b, c, cost, generic, order, i + 1, more, need - take)
  {
    hide Draws, Greedy, Slack;
    var kind := order[i];
    var more := if take > 0 then d[kind := Amount(d, kind) + take] else d;
    assert order[..i + 1] == order[..i] + [kind];
    DrawsOneMore(b, c, cost, generic - need, order, i, d, take);
    SlackOneMore(b, c, cost, order, i);
    RoomLeft(b, c, cost, generic - need, order, i, d);
    GreedyOneMore(b, c, cost, order, i, d, more);
  }

  /** A kind not yet drawn from has its whole room left. */
  lemma RoomLeft(b: Basket, c: Counters, cost: map<string, int>, drawn: int, order: seq<string>, i: nat, d: map<string, int>)
    requires i < |order| && order[i] in b && Draws(b, c, cost, drawn, order[..i], d)
    ensures order[i] !in order[..i] ==>
              var left := Current(c, b[order[i]]) - Amount(d, order[i]);
              Room(b, c, cost, order[i]) == if left > 0 then left else 0
  {
  }

  lemma DrawsOneMore(
    b: Basket, c: Counters, cost: map<string, int>, drawn: int, order: seq<string>, i: nat, d: map<string, int>, take: int)
    requires i < |order| && order[i] in b && Draws(b, c, cost, drawn, order[..i], d)
    requires 0 <= take && (take > 0 ==> take <= Current(c, b[order[i]]) - Amount(d, order[i]))
    ensures
      var more := if take > 0 then d[order[i] := Amount(d, order[i]) + take] else d;
      Draws(b, c, cost, drawn + take, order[..i + 1], more) && forall k :: Amount(d, k) <= Amount(more, k)
  {
    hide Specific, Total;
    var kind := order[i];
    assert order[..i + 1] == order[..i] + [kind];
    TotalRaised(d, kind, take);
  }

  /** Everything before was used up, so drawing on the next kind is still greedy. */
  lemma GreedyOneMore(
    b: Basket, c: Counters, cost: map<string, int>, order: seq<string>, i: nat, d: map<string, int>, more: map<string, int>)
    requires i < |order| && forall k | k in order[..i] :: UsedUp(b, c, d, k)
    requires forall k :: Amount(d, k) <= Amount(more, k)
    ensures Greedy(b, c, cost, order[..i + 1], more)
  {
    var now := order[..i + 1];
    forall x, y | 0 <= x < y < |now| && DrawnLater(cost, now, more, y) ensures UsedUp(b, c, more, now[x]) {
      assert now[x] in order[..i];
    }
  }

  lemma {:induction false} KnownPrefix(b: Basket, order: seq<string>, i: nat)
    requires i <= |order| && forall k | k in order[..i] :: k in b
    ensures order[..i] <= Known(b, order)
    ensures i < |order| && order[i] !in b ==> Known(b, order) == order[..i]
    ensures i == |order| ==> Known(b, order) == order
    decreases |order|
  {
    if i > 0 {
      assert order[0] in order[..i];
      assert order[..i] == [order[0]] + order[1..][..i - 1];
      KnownPrefix(b, order[1..], i - 1);
    }
  }

  lemma StoppedAtUnknown(
    b: Basket, c: Counters, cost: map<string, int>, generic: int, order: seq<string>, i: nat, d: map<string, int>, need: int)
    requires i < |order| && need > 0 && DrawnSoFar(b, c, cost, generic, order, i, d, need) && order[i] !in b
    ensures Slack(b, c, cost, Known(b, order)) < generic && Known(b, order) != order
  {
    KnownPrefix(b, order, i);
  }

  lemma RanOut(
    b: Basket, c: Counters, cost: map<string, int>, generic: int, order: seq<string>, d: map<string, int>, need: int)
    requires need > 0 && DrawnSoFar(b, c, cost, generic, order, |order|, d, need)
    ensures Slack(b, c, cost, Known(b, order)) < generic && Known(b, order) == order
  {
    KnownPrefix(b, order, |order|);
    assert order[..|order|] == order;
  }

  lemma PrefixMembers(order: seq<string>, i: nat, y: nat)
    requires i <= |order| && y <= |order|
    ensures i <= y ==> forall k | k in order[..i] :: k in order[..y]
  {
    if i <= y {
      assert order[..y][..i] == order[..i];
    }
  }

  lemma AllDrawn(b: Basket, c: Counters, cost: map<string, int>, generic: int, order: seq<string>, i: nat, d: map<string, int>)
    requires i <= |order| && DrawnSoFar(b, c, cost, generic, order, i, d, 0)
    ensures Slack(b, c, cost, Known(b, order)) >= generic
    ensures Draws(b, c, cost, generic, order, d) && Greedy(b, c, cost, order, d)
  {
    var known := Known(b, order);
    KnownPrefix(b, order, i);
    SlackGrows(b, c, cost, known, i);
    assert known[..i] == order[..i];
    assert forall k :: k !in order ==> k !in order[..i];
    forall x, y | 0 <= x < y < |order| && DrawnLater(cost, order, d, y) ensures UsedUp(b, c, d, order[x]) {
      PrefixMembers(order, i, y);
      assert order[..i][..y] == order[..y];
      assert DrawnLater(cost, order[..i], d, y);
    }
  }

  // ---- distinct counters ------------------------------------------------------------------------------------

  /**
   Over distinct counters the payment is exact: it cannot panic, each kind goes down by exactly what was drawn from it,
   and no pool that was drawn from ends below zero.
   */
  lemma DistinctPoolsFit(b: Basket, c: Counters, cost: map<string, int>, generic: int, order: seq<string>, d: map<string, int>)
    requires DistinctPools(b) && Draws(b, c, cost, generic, order, d)
    ensures Fits(b, c, d)
    ensures forall k | k in b :: DrawnFrom(b, d, b[k]) == Amount(d, k)
    ensures forall k | k in d :: Current(c, b[k]) - DrawnFrom(b, d, b[k]) >= 0
  {
    forall k | k in b ensures DrawnFrom(b, d, b[k]) == Amount(d, k) {
      if k in d {
        assert Names(b, d, b[k]) == {k};
        SumWithout({k}, d, k);
      } else {
        assert Names(b, d, b[k]) == {};
      }
    }
  }

  /** Two names for one counter: the check passes, and the draw is one the payment panics over. */
  lemma AliasedPoolsPanic(p: Pool)
    ensures
      var b := map["a" := p, "b" := p];
      var c := map[p := 1];
      var cost := map["a" := 1, "b" := 1];
      Affordable(b, c, cost) && Slack(b, c, cost, Known(b, [])) >= 0 && !Fits(b, c, Draw(b, c, cost, 0, []))
  {
    hide Slack, Known, Share;
    var b, c, cost := map["a" := p, "b" := p], map[p := 1], map["a" := 1, "b" := 1];
    var d := Draw(b, c, cost, 0, []);
    assert Specific(cost) == cost;
    NoFallback(b, c, cost, 0);
    assert d == cost;
    assert Names(b, d, p) == {"a", "b"};
    SumWithout({"a", "b"}, d, "a");
    assert {"a", "b"} - {"a"} == {"b"};
    SumWithout({"b"}, d, "b");
  }

  lemma NoFallback(b: Basket, c: Counters, cost: map<string, int>, generic: int)
    ensures forall k :: DrawOf(b, c, cost, generic, [], k) == Amount(Specific(cost), k)
  {
  }
}
