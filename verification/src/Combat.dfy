/**
 modules/ccg/combat.go: declaring attacks and blocks. The round is checked twice, by the generic assignment validator when
 the defender answers and by DeclareBlocks when the answer is recorded; both are modelled, and shown to agree.
 */
module Combat {
  import opened Engine
  import opened Entities
  import opened Assignment

  datatype Attack = Attack(attacker: EntityID, target: Value)

  /** A legality predicate; a nil one accepts every pair. */
  type Legality = Option<(EntityID, EntityID) -> bool>

  /** The declaration state of a combat round. */
  datatype Round = Round(
    attacks: seq<Attack>, attacksDeclared: bool, blocks: map<EntityID, seq<EntityID>>, blocksDeclared: bool, max: int)

  datatype CombatError =
    | NoAttacks | DuplicateAttacker | AttacksAlreadyDeclared | AttacksNotDeclared | BlocksAlreadyDeclared | NotAttacking
    | BlockerReused | TooManyBlockers | IllegalBlock | Rejected(why: Error)

  function MaxBlockers(r: Round): int {
    if r.max <= 0 then 1 else r.max
  }

  predicate Attacking(r: Round, id: EntityID) {
    exists i | 0 <= i < |r.attacks| :: r.attacks[i].attacker == id
  }

  predicate LegalPair(legal: Legality, blocker: EntityID, attacker: EntityID) {
    legal.Some? ==> legal.value(blocker, attacker)
  }

  predicate DistinctAttackers(attacks: seq<Attack>) {
    forall i, j | 0 <= i < j < |attacks| :: attacks[i].attacker != attacks[j].attacker
  }

  /** The blockers a list of pairs gives one attacker, in order. */
  function BlockersIn(pairs: seq<(EntityID, EntityID)>, attacker: EntityID): (r: seq<EntityID>)
    ensures forall b | b in r :: exists i | 0 <= i < |pairs| :: pairs[i] == (b, attacker)
  {
    if pairs == [] then []
    else
      var last := pairs[|pairs| - 1];
      BlockersIn(pairs[..|pairs| - 1], attacker) + if last.1 == attacker then [last.0] else []
  }

  function Grouped(pairs: seq<(EntityID, EntityID)>): map<EntityID, seq<EntityID>> {
    map a | a in Blocked(pairs) :: BlockersIn(pairs, a)
  }

  function Blocked(pairs: seq<(EntityID, EntityID)>): set<EntityID> {
    set i | 0 <= i < |pairs| :: pairs[i].1
  }

  predicate DistinctBlockers(pairs: seq<(EntityID, EntityID)>) {
    forall i, j | 0 <= i < j < |pairs| :: pairs[i].0 != pairs[j].0
  }

  /** The block lists a round accepts. */
  predicate CanBlock(r: Round, pairs: seq<(EntityID, EntityID)>, legal: Legality) {
    && (forall i | 0 <= i < |pairs| :: Attacking(r, pairs[i].1) && LegalPair(legal, pairs[i].0, pairs[i].1))
    && DistinctBlockers(pairs)
    && (forall i | 0 <= i < |pairs| :: |BlockersIn(pairs, pairs[i].1)| <= MaxBlockers(r))
  }

  /** Attackers and blockers each appear once, blocks belong to attackers, and no attacker has more than it may. */
  ghost predicate RoundOk(r: Round) {
    && DistinctAttackers(r.attacks)
    && (forall a | a in r.blocks :: Attacking(r, a) && |r.blocks[a]| <= MaxBlockers(r))
    && (forall a, i, b, j | a in r.blocks && b in r.blocks && 0 <= i < |r.blocks[a]| && 0 <= j < |r.blocks[b]| ::
          r.blocks[a][i] == r.blocks[b][j] ==> a == b && i == j)
    && (!r.blocksDeclared ==> r.blocks == map[]) && (!r.attacksDeclared ==> r.attacks == [] && !r.blocksDeclared)
  }

  // ---- what declared blocks look like -----------------------------------------------------------------------

  lemma {:induction false} BlockersAt(pairs: seq<(EntityID, EntityID)>, attacker: EntityID, i: nat) returns (k: nat)
    requires i < |BlockersIn(pairs, attacker)|
    ensures k < |pairs| && pairs[k] == (BlockersIn(pairs, attacker)[i], attacker)
    ensures BlockersIn(pairs[..k], attacker) == BlockersIn(pairs, attacker)[..i]
  {
    var n := |pairs| - 1;
    var before := BlockersIn(pairs[..n], attacker);
    if i < |before| {
      k := BlockersAt(pairs[..n], attacker, i);
      assert pairs[..n][..k] == pairs[..k];
    } else {
      k := n;
      assert BlockersIn(pairs, attacker)[..i] == before;
    }
  }

  /** The rising positions of the pairs. */
  predicate Rising(ks: seq<nat>) {
    forall i, j | 0 <= i < j < |ks| :: ks[i] < ks[j]
  }

  /** An attacker's blockers are those of all its pairs, in the order the pairs came. */
  lemma {:induction false} BlockersExactly(pairs: seq<(EntityID, EntityID)>, attacker: EntityID) returns (ks: seq<nat>)
    ensures Rising(ks) && |ks| == |BlockersIn(pairs, attacker)|
    ensures forall i | 0 <= i < |ks| :: ks[i] < |pairs| && pairs[ks[i]] == (BlockersIn(pairs, attacker)[i], attacker)
    ensures forall k: nat | k < |pairs| && pairs[k].1 == attacker :: k in ks
  {
    ks := [];
    if pairs != [] {
      var n := |pairs| - 1;
      var before := BlockersExactly(pairs[..n], attacker);
      var own := if pairs[n].1 == attacker then [n] else [];
      assert BlockersIn(pairs, attacker) == BlockersIn(pairs[..n], attacker) + if pairs[n].1 == attacker then [pairs[n].0] else [];
      hide BlockersIn;
      ks := before + own;
      forall k: nat | k < |pairs| && pairs[k].1 == attacker ensures k in before || k in own {
        if k < n { assert pairs[..n][k].1 == attacker; }
      }
    }
  }

  /** Each pair is a legal one of an attacker, and no blocker comes twice. */
  predicate PairsFit(r: Round, pairs: seq<(EntityID, EntityID)>, legal: Legality) {
    && (forall i | 0 <= i < |pairs| :: Attacking(r, pairs[i].1) && (legal.Some? ==> legal.value(pairs[i].0, pairs[i].1)))
    && (forall i, j | 0 <= i < j < |pairs| :: pairs[i].0 != pairs[j].0)
  }

  /** A round accepts such lists as give no attacker more blockers than the cap, which is one unless configured. */
  lemma CapExactly(r: Round, pairs: seq<(EntityID, EntityID)>, legal: Legality)
    ensures CanBlock(r, pairs, legal) ==> PairsFit(r, pairs, legal)
    ensures CanBlock(r, pairs, legal) ==> forall a :: |BlockersIn(pairs, a)| <= if r.max <= 0 then 1 else r.max
    ensures
      PairsFit(r, pairs, legal) && (forall a :: |BlockersIn(pairs, a)| <= if r.max <= 0 then 1 else r.max) ==>
        CanBlock(r, pairs, legal)
  {
    hide BlockersIn;
    forall a | CanBlock(r, pairs, legal) && |BlockersIn(pairs, a)| > 0
      ensures |BlockersIn(pairs, a)| <= if r.max <= 0 then 1 else r.max
    {
      var ks := BlockersExactly(pairs, a);
      assert pairs[ks[0]].1 == a;
    }
  }

  /** Exactly the paired attackers are blocked once blocks are declared. */
  lemma BlockedExactly(pairs: seq<(EntityID, EntityID)>, a: EntityID)
    ensures a in Grouped(pairs) <==> exists i | 0 <= i < |pairs| :: pairs[i].1 == a
    ensures a in Grouped(pairs) ==> Grouped(pairs)[a] == BlockersIn(pairs, a) != []
  {
    var ks := BlockersExactly(pairs, a);
  }

  lemma GroupedUnique(pairs: seq<(EntityID, EntityID)>, a: EntityID, i: nat, b: EntityID, j: nat)
    requires DistinctBlockers(pairs) && i < |BlockersIn(pairs, a)| && j < |BlockersIn(pairs, b)|
    requires BlockersIn(pairs, a)[i] == BlockersIn(pairs, b)[j]
    ensures a == b && i == j
  {
    var k := BlockersAt(pairs, a, i);
    var l := BlockersAt(pairs, b, j);
    assert k == l;
    assert |BlockersIn(pairs[..k], a)| == i && |BlockersIn(pairs[..l], b)| == j;
  }

  /** An accepted declaration leaves a round in order. */
  lemma DeclaredOk(r: Round, pairs: seq<(EntityID, EntityID)>, legal: Legality)
    requires RoundOk(r) && r.attacksDeclared && !r.blocksDeclared && CanBlock(r, pairs, legal)
    ensures RoundOk(r.(blocks := Grouped(pairs), blocksDeclared := true))
  {
    var t := r.(blocks := Grouped(pairs), blocksDeclared := true);
    forall a | a in t.blocks ensures Attacking(t, a) && |t.blocks[a]| <= MaxBlockers(t) {
      var i :| 0 <= i < |pairs| && pairs[i].1 == a;
      assert Attacking(r, a);
    }
    forall a, i, b, j | a in t.blocks && b in t.blocks && 0 <= i < |t.blocks[a]| && 0 <= j < |t.blocks[b]| &&
                        t.blocks[a][i] == t.blocks[b][j]
      ensures a == b && i == j
    {
      GroupedUnique(pairs, a, i, b, j);
    }
  }

  // ---- what a defender is offered ---------------------------------------------------------------------------

  /** The position of an attacker among the attacks. */
  function Rank(attacks: seq<Attack>, id: EntityID): (i: nat)
    ensures i <= |attacks| && (i < |attacks| ==> attacks[i].attacker == id)
    ensures forall j | 0 <= j < i :: attacks[j].attacker != id
  {
    if attacks == [] || attacks[0].attacker == id then 0 else 1 + Rank(attacks[1..], id)
  }

  /** Attack by attack in declaration order, blocker IDs ascending; so no pair appears twice. */
  predicate InOrder(attacks: seq<Attack>, out: seq<(EntityID, EntityID)>) {
    forall i, j | 0 <= i < j < |out| ::
      Rank(attacks, out[i].1) < Rank(attacks, out[j].1) || (out[i].1 == out[j].1 && out[i].0 < out[j].0)
  }

  /** Every legal pair of a candidate and an attacker, and nothing else, in order. */
  ghost predicate IsLegalBlocks(r: Round, candidates: seq<EntityID>, legal: Legality, out: seq<(EntityID, EntityID)>) {
    && (forall b: EntityID, a: EntityID :: (b, a) in out <==> b in candidates && Attacking(r, a) && LegalPair(legal, b, a))
    && InOrder(r.attacks, out)
  }

  function Inserted(x: EntityID, xs: seq<EntityID>): (r: seq<EntityID>)
    requires forall i, j | 0 <= i < j < |xs| :: xs[i] <= xs[j]
    ensures forall i, j | 0 <= i < j < |r| :: r[i] <= r[j]
    ensures forall y :: y in r <==> y == x || y in xs
  {
    if xs == [] || x <= xs[0] then [x] + xs
    else
      var rest := Inserted(x, xs[1..]);
      assert forall i | 0 <= i < |rest| :: rest[i] in rest;
      assert forall y | y in rest :: xs[0] <= y;
      [xs[0]] + rest
  }

  /** The candidates sorted, as sort.Slice leaves them. */
  function Ascending(xs: seq<EntityID>): (r: seq<EntityID>)
    ensures forall i, j | 0 <= i < j < |r| :: r[i] <= r[j]
    ensures forall y :: y in r <==> y in xs
  {
    if xs == [] then [] else Inserted(xs[0], Ascending(xs[1..]))
  }

  /** The inner loop of LegalBlocks: one attacker's legal blockers, a repeated candidate considered once. */
  method LegalRow(sorted: seq<EntityID>, attacker: EntityID, legal: Legality) returns (row: seq<(EntityID, EntityID)>)
    requires forall i, j | 0 <= i < j < |sorted| :: sorted[i] <= sorted[j]
    ensures forall b: EntityID, a: EntityID :: (b, a) in row <==> b in sorted && a == attacker && LegalPair(legal, b, a)
    ensures forall i, j | 0 <= i < j < |row| :: row[i].0 < row[j].0
  {
    row := [];
    var prev := 0;
    for i := 0 to |sorted|
      invariant i > 0 ==> prev == sorted[i - 1]
      invariant forall b: EntityID, a: EntityID ::
                  (b, a) in row <==> b in sorted[..i] && a == attacker && LegalPair(legal, b, a)
      invariant forall j, k | 0 <= j < k < |row| :: row[j].0 < row[k].0
      invariant forall j | 0 <= j < |row| :: i > 0 && row[j].0 <= prev
    {
      var b := sorted[i];
      assert sorted[..i + 1] == sorted[..i] + [b];
      if i > 0 && b == prev {
        assert sorted[..i][i - 1] == b;
        continue;
      }
      prev := b;
      if legal.None? || legal.value(b, attacker) {
        row := row + [(b, attacker)];
      }
    }
    assert sorted[..|sorted|] == sorted;
  }

  lemma RankPrefix(attacks: seq<Attack>, i: nat, id: EntityID)
    requires DistinctAttackers(attacks) && i < |attacks|
    ensures Rank(attacks[..i], id) < i ==> Rank(attacks[..i + 1], id) == Rank(attacks[..i], id)
    ensures id == attacks[i].attacker ==> Rank(attacks[..i], id) == i == Rank(attacks[..i + 1], id)
  {
    var short, long := Rank(attacks[..i], id), Rank(attacks[..i + 1], id);
    assert short < i ==> attacks[..i + 1][short] == attacks[short];
    assert long < i ==> attacks[..i][long] == attacks[long];
  }

  lemma OneMoreAttack(
    r: Round, i: nat, candidates: seq<EntityID>, legal: Legality, out: seq<(EntityID, EntityID)>,
    row: seq<(EntityID, EntityID)>)
    requires RoundOk(r) && i < |r.attacks| && IsLegalBlocks(r.(attacks := r.attacks[..i]), candidates, legal, out)
    requires forall b: EntityID, a: EntityID ::
               (b, a) in row <==> b in candidates && a == r.attacks[i].attacker && LegalPair(legal, b, a)
    requires forall j, k | 0 <= j < k < |row| :: row[j].0 < row[k].0
    ensures IsLegalBlocks(r.(attacks := r.attacks[..i + 1]), candidates, legal, out + row)
  {
    var was, now := r.(attacks := r.attacks[..i]), r.(attacks := r.attacks[..i + 1]);
    assert now.attacks[i] == r.attacks[i] && now.attacks[..i] == was.attacks;
    forall a ensures Attacking(now, a) <==> Attacking(was, a) || a == r.attacks[i].attacker {
      if j :| 0 <= j < i && was.attacks[j].attacker == a { assert now.attacks[j].attacker == a; }
    }
    var all := out + row;
    forall b: EntityID, a: EntityID ensures (b, a) in all <==> b in candidates && Attacking(now, a) && LegalPair(legal, b, a) {
    }
    forall j, k | 0 <= j < k < |all|
      ensures Rank(now.attacks, all[j].1) < Rank(now.attacks, all[k].1) || (all[j].1 == all[k].1 && all[j].0 < all[k].0)
    {
      RankPrefix(r.attacks, i, all[j].1);
      RankPrefix(r.attacks, i, all[k].1);
      if j < |out| { assert (out[j].0, out[j].1) in out; RankOfAttacker(was, out[j].1); }
      if k < |out| { assert (out[k].0, out[k].1) in out; RankOfAttacker(was, out[k].1); }
      if j >= |out| { assert (all[j].0, all[j].1) in row; }
      if k >= |out| { assert (all[k].0, all[k].1) in row; }
    }
  }

  lemma RankOfAttacker(r: Round, a: EntityID)
    requires Attacking(r, a)
    ensures Rank(r.attacks, a) < |r.attacks|
  {
  }

  // ---- the object -------------------------------------------------------------------------------------------

  /** The first half of Remove: the attack of the entity, if it has one. */
  method CutAttacker(attacks: seq<Attack>, id: EntityID) returns (left: seq<Attack>, found: bool)
    requires DistinctAttackers(attacks)
    ensures left == WithoutAttacker(attacks, id)
    ensures found <==> exists i | 0 <= i < |attacks| :: attacks[i].attacker == id
    ensures !found ==> left == attacks
  {
    hide WithoutAttacker;
    for i := 0 to |attacks|
      invariant forall j | 0 <= j < i :: attacks[j].attacker != id
    {
      if attacks[i].attacker == id {
        WithoutAttackerAt(attacks, id, i);
        return attacks[..i] + attacks[i + 1..], true;
      }
    }
    WithoutAttackerAt(attacks, id, |attacks|);
    return attacks, false;
  }

  lemma DistinctIn(r: Round)
    requires RoundOk(r)
    ensures DistinctAttackers(r.attacks)
  {
  }

  lemma RemovedBlocks(r: Round, id: EntityID)
    ensures Removed(r, id).blocks == map a | a in r.blocks - {id} :: WithoutBlocker((r.blocks - {id})[a], id)
  {
    hide WithoutBlocker;
  }

  /** The second half of Remove: in every list, cut the entity out where it first stands. */
  method WithoutBlockers(blocks: map<EntityID, seq<EntityID>>, id: EntityID) returns (r: map<EntityID, seq<EntityID>>)
    ensures r == map a | a in blocks :: WithoutBlocker(blocks[a], id)
  {
    hide WithoutBlocker;
    r := blocks;
    var todo := blocks.Keys;
    while todo != {}
      invariant todo <= blocks.Keys == r.Keys
      invariant forall a | a in todo :: r[a] == blocks[a]
      invariant forall a | a in blocks && a !in todo :: r[a] == WithoutBlocker(blocks[a], id)
      decreases todo
    {
      var attacker :| attacker in todo;
      todo := todo - {attacker};
      var bs := r[attacker];
      var j := 0;
      while j < |bs| && bs[j] != id
        invariant 0 <= j <= |bs| && id !in bs[..j]
      {
        j := j + 1;
      }
      WithoutBlockerAt(bs, id, j);
      if j < |bs| {
        r := r[attacker := bs[..j] + bs[j + 1..]];
      }
    }
  }

  /** The attacks without an entry, in order. */
  function Without(attacks: seq<Attack>, blocks: map<EntityID, seq<EntityID>>): seq<Attack> {
    if attacks == [] then []
    else
      var last := attacks[|attacks| - 1];
      Without(attacks[..|attacks| - 1], blocks) + if last.attacker in blocks then [] else [last]
  }

  class Combat {
    var attacks: seq<Attack>
    var attacksDeclared: bool
    var blocks: map<EntityID, seq<EntityID>>
    var blocksDeclared: bool
    var maxBlockersPerAttacker: int

    constructor (max: int)
      ensures Value() == Round([], false, map[], false, max) && RoundOk(Value())
    {
      attacks, attacksDeclared, blocks, blocksDeclared, maxBlockersPerAttacker := [], false, map[], false, max;
    }

    function Value(): Round
      reads this
    {
      Round(attacks, attacksDeclared, blocks, blocksDeclared, maxBlockersPerAttacker)
    }

    method DeclareAttacks(list: seq<Attack>, legal: Option<Attack -> Option<Error>>) returns (err: Option<CombatError>)
      requires RoundOk(Value())
      modifies this
      ensures RoundOk(Value())
      ensures err.None? <==>
        !old(attacksDeclared) && list != [] && DistinctAttackers(list) &&
        (legal.Some? ==> forall i | 0 <= i < |list| :: legal.value(list[i]).None?)
      ensures Value() == if err.Some? then old(Value()) else old(Value()).(attacks := list, attacksDeclared := true)
      ensures err == Some(AttacksAlreadyDeclared) <==> old(attacksDeclared)
      ensures err == Some(NoAttacks) <==> !old(attacksDeclared) && list == []
      ensures err == Some(DuplicateAttacker) ==> !DistinctAttackers(list)
      ensures err.Some? && err.value.Rejected? ==>
        legal.Some? && exists i | 0 <= i < |list| :: legal.value(list[i]) == Some(err.value.why)
    {
      if attacksDeclared { return Some(AttacksAlreadyDeclared); }
      if list == [] { return Some(NoAttacks); }
      var seen: set<EntityID> := {};
      for i := 0 to |list|
        invariant seen == set j | 0 <= j < i :: list[j].attacker
        invariant DistinctAttackers(list[..i])
        invariant legal.Some? ==> forall j | 0 <= j < i :: legal.value(list[j]).None?
      {
        if list[i].attacker in seen { return Some(DuplicateAttacker); }
        seen := seen + {list[i].attacker};
        if legal.Some? {
          var e := legal.value(list[i]);
          if e.Some? { return Some(Rejected(e.value)); }
        }
      }
      assert list[..|list|] == list;
      attacks, attacksDeclared := list, true;
      err := None;
    }

    method IsAttacking(id: EntityID) returns (found: bool)
      ensures found <==> Attacking(Value(), id)
    {
      for i := 0 to |attacks|
        invariant forall j | 0 <= j < i :: attacks[j].attacker != id
      {
        if attacks[i].attacker == id { return true; }
      }
      return false;
    }

    /** LegalBlocks: attack by attack, the legal candidates in ascending order, each once. */
    method LegalBlocks(candidates: seq<EntityID>, legal: Legality) returns (out: seq<(EntityID, EntityID)>)
      requires RoundOk(Value())
      ensures IsLegalBlocks(Value(), candidates, legal, out)
    {
      var sorted := Ascending(candidates);
      out := [];
      for i := 0 to |attacks|
        invariant IsLegalBlocks(Value().(attacks := attacks[..i]), candidates, legal, out)
      {
        var row := LegalRow(sorted, attacks[i].attacker, legal);
        OneMoreAttack(Value(), i, candidates, legal, out, row);
        out := out + row;
      }
      assert attacks[..|attacks|] == attacks;
    }

    /** DeclareBlocks: it records exactly the block lists the round accepts and the hook lets through. */
    method DeclareBlocks(pairs: seq<(EntityID, EntityID)>, legal: Legality, whole: Option<Round -> Option<Error>>)
      returns (err: Option<CombatError>)
      requires RoundOk(Value())
      modifies this
      ensures RoundOk(Value())
      ensures
        var declared := old(Value()).(blocks := Grouped(pairs), blocksDeclared := true);
        && (err.None? <==>
              && old(attacksDeclared) && !old(blocksDeclared) && CanBlock(old(Value()), pairs, legal)
              && (whole.Some? ==> whole.value(declared).None?))
        && Value() == (if err.None? then declared else old(Value()))
        && (err == Some(AttacksNotDeclared) <==> !old(attacksDeclared))
        && (err == Some(BlocksAlreadyDeclared) <==> old(attacksDeclared) && old(blocksDeclared))
        && (err == Some(NotAttacking) ==> exists i | 0 <= i < |pairs| :: !Attacking(old(Value()), pairs[i].1))
        && (err == Some(BlockerReused) ==> !DistinctBlockers(pairs))
        && (err == Some(IllegalBlock) ==> exists i | 0 <= i < |pairs| :: !LegalPair(legal, pairs[i].0, pairs[i].1))
        && (err == Some(TooManyBlockers) ==>
              exists i | 0 <= i < |pairs| :: |BlockersIn(pairs[..i], pairs[i].1)| >= MaxBlockers(old(Value())))
        && (err.Some? && err.value.Rejected? ==>
              CanBlock(old(Value()), pairs, legal) && whole.Some? && whole.value(declared) == Some(err.value.why))
    {
      hide RoundOk, BlockersIn, CanBlock, Grouped;
      if !attacksDeclared { return Some(AttacksNotDeclared); }
      if blocksDeclared { return Some(BlocksAlreadyDeclared); }
      ghost var r := Value();
      var max := MaxBlockers(Value());
      var used: set<EntityID> := {};
      var found: map<EntityID, seq<EntityID>> := map[];
      NothingGrouped(r, legal);
      assert pairs[..0] == [];
      for i := 0 to |pairs|
        invariant Value() == r && used == set j | 0 <= j < i :: pairs[j].0
        invariant found == Grouped(pairs[..i]) && CanBlock(r, pairs[..i], legal)
      {
        var (blocker, attacker) := pairs[i];
        GroupedOneMore(r, pairs, i, legal);
        var known := IsAttacking(attacker);
        if !known { return Some(NotAttacking); }
        if blocker in used { return Some(BlockerReused); }
        used := used + {blocker};
        if legal.Some? && !legal.value(blocker, attacker) { return Some(IllegalBlock); }
        var sofar := if attacker in found then found[attacker] else [];
        if |sofar| >= max { return Some(TooManyBlockers); }
        found := found[attacker := sofar + [blocker]];
      }
      assert pairs[..|pairs|] == pairs;
      if whole.Some? {
        var e := whole.value(Value().(blocks := found, blocksDeclared := true));
        if e.Some? { return Some(Rejected(e.value)); }
      }
      DeclaredOk(r, pairs, legal);
      blocks, blocksDeclared := found, true;
      err := None;
    }

    /** Remove: the entity leaves as an attacker with its blockers, and as a blocker; its attacker stays blocked. */
    method Remove(id: EntityID)
      requires RoundOk(Value())
      modifies this
      ensures Value() == Removed(old(Value()), id) && RoundOk(Value())
    {
      hide RoundOk, WithoutAttacker;
      ghost var r := Value();
      RemovedOk(r, id);
      DistinctIn(r);
      var left, found := CutAttacker(attacks, id);
      if found {
        attacks := left;
        blocks := blocks - {id};
      } else {
        NotBlocked(r, id);
      }
      blocks := WithoutBlockers(blocks, id);
      RemovedBlocks(r, id);
    }

    method Reset()
      modifies this
      ensures Value() == Round([], false, map[], false, old(maxBlockersPerAttacker)) && RoundOk(Value())
    {
      attacks, attacksDeclared, blocks, blocksDeclared := [], false, map[], false;
    }

    /** Blocking: the one attacker an entity blocks. */
    method Blocking(id: EntityID) returns (attacker: Option<EntityID>)
      requires RoundOk(Value())
      ensures forall a :: attacker == Some(a) <==> a in blocks && id in blocks[a]
    {
      for i := 0 to |attacks|
        invariant forall j | 0 <= j < i && attacks[j].attacker in blocks :: id !in blocks[attacks[j].attacker]
      {
        var a := attacks[i].attacker;
        if a in blocks && id in blocks[a] { return Some(a); }
      }
      return None;
    }

    /** Unblocked: once blocks are declared, the attacks without an entry, in declaration order. */
    method Unblocked() returns (out: seq<Attack>)
      ensures forall a :: a in out <==> blocksDeclared && a in attacks && a.attacker !in blocks
      ensures out == if blocksDeclared then Without(attacks, blocks) else []
    {
      out := [];
      if !blocksDeclared { return; }
      for i := 0 to |attacks|
        invariant forall a :: a in out <==> a in attacks[..i] && a.attacker !in blocks
        invariant out == Without(attacks[..i], blocks)
      {
        assert attacks[..i + 1][..i] == attacks[..i];
        if attacks[i].attacker !in blocks { out := out + [attacks[i]]; }
      }
      assert attacks[..|attacks|] == attacks;
    }
  }

  // ---- declaring blocks -------------------------------------------------------------------------------------

  lemma NothingGrouped(r: Round, legal: Legality)
    ensures Grouped([]) == map[] && CanBlock(r, [], legal)
  {
  }

  lemma {:induction false} BlockersPrefix(pairs: seq<(EntityID, EntityID)>, i: nat, attacker: EntityID)
    requires i <= |pairs|
    ensures BlockersIn(pairs[..i], attacker) <= BlockersIn(pairs, attacker)
    decreases |pairs|
  {
    if i < |pairs| {
      BlockersPrefix(pairs[..|pairs| - 1], i, attacker);
      assert pairs[..|pairs| - 1][..i] == pairs[..i];
    } else {
      assert pairs[..i] == pairs;
    }
  }

  lemma {:induction false} NoBlockers(pairs: seq<(EntityID, EntityID)>, attacker: EntityID)
    requires attacker !in Blocked(pairs)
    ensures BlockersIn(pairs, attacker) == []
  {
    if pairs != [] {
      var n := |pairs| - 1;
      assert pairs[n].1 in Blocked(pairs);
      forall i | 0 <= i < n ensures pairs[i].1 in Blocked(pairs) {
      }
      NoBlockers(pairs[..n], attacker);
    }
  }

  lemma BlockersStep(pairs: seq<(EntityID, EntityID)>, i: nat, a: EntityID)
    requires i < |pairs|
    ensures BlockersIn(pairs[..i + 1], a) == BlockersIn(pairs[..i], a) + if pairs[i].1 == a then [pairs[i].0] else []
  {
    assert pairs[..i + 1][..i] == pairs[..i];
  }

  lemma BlockedStep(pairs: seq<(EntityID, EntityID)>, i: nat)
    requires i < |pairs|
    ensures Blocked(pairs[..i + 1]) == Blocked(pairs[..i]) + {pairs[i].1}
  {
    var was, now := pairs[..i], pairs[..i + 1];
    assert now[i] == pairs[i];
    assert forall j | 0 <= j < i :: now[j] == was[j];
  }

  /** One more pair joins its attacker's group. */
  lemma GroupedGrows(pairs: seq<(EntityID, EntityID)>, i: nat)
    requires i < |pairs|
    ensures
      var (blocker, attacker) := pairs[i];
      && Grouped(pairs[..i + 1]) == Grouped(pairs[..i])[attacker := BlockersIn(pairs[..i], attacker) + [blocker]]
      && BlockersIn(pairs[..i], attacker) ==
           (if attacker in Grouped(pairs[..i]) then Grouped(pairs[..i])[attacker] else [])
  {
    hide BlockersIn, Blocked;
    var (blocker, attacker) := pairs[i];
    var was, now := Grouped(pairs[..i]), Grouped(pairs[..i + 1]);
    BlockedStep(pairs, i);
    if attacker !in was { NoBlockers(pairs[..i], attacker); }
    forall a | a in now ensures now[a] == was[attacker := BlockersIn(pairs[..i], attacker) + [blocker]][a] {
      BlockersStep(pairs, i, a);
    }
  }

  /** What DeclareBlocks asks of one more pair. */
  predicate Fine(r: Round, pairs: seq<(EntityID, EntityID)>, i: nat, legal: Legality)
    requires i < |pairs|
  {
    && Attacking(r, pairs[i].1) && LegalPair(legal, pairs[i].0, pairs[i].1)
    && (forall j | 0 <= j < i :: pairs[j].0 != pairs[i].0)
    && |BlockersIn(pairs[..i], pairs[i].1)| < MaxBlockers(r)
  }

  lemma FineGrows(r: Round, pairs: seq<(EntityID, EntityID)>, i: nat, legal: Legality)
    requires i < |pairs| && CanBlock(r, pairs[..i], legal) && Fine(r, pairs, i, legal)
    ensures CanBlock(r, pairs[..i + 1], legal)
  {
    var was, now := pairs[..i], pairs[..i + 1];
    assert now[..i] == was && now == was + [pairs[i]];
    forall j | 0 <= j < |now| ensures |BlockersIn(now, now[j].1)| <= MaxBlockers(r) {
      if j < i { assert now[j] == was[j]; }
    }
  }

  lemma NotFineFails(r: Round, pairs: seq<(EntityID, EntityID)>, i: nat, legal: Legality)
    requires i < |pairs| && !Fine(r, pairs, i, legal)
    ensures !CanBlock(r, pairs, legal)
  {
    var now := pairs[..i + 1];
    assert now[..i] == pairs[..i];
    BlockersPrefix(pairs, i + 1, pairs[i].1);
    assert |BlockersIn(now, pairs[i].1)| == |BlockersIn(pairs[..i], pairs[i].1)| + 1;
  }

  /** One more pair: the group it joins, and exactly when the list stays acceptable, now and to the end. */
  lemma GroupedOneMore(r: Round, pairs: seq<(EntityID, EntityID)>, i: nat, legal: Legality)
    requires i < |pairs| && CanBlock(r, pairs[..i], legal)
    ensures
      var (blocker, attacker) := pairs[i];
      var sofar := if attacker in Grouped(pairs[..i]) then Grouped(pairs[..i])[attacker] else [];
      && sofar == BlockersIn(pairs[..i], attacker)
      && Grouped(pairs[..i + 1]) == Grouped(pairs[..i])[attacker := sofar + [blocker]]
      && (Fine(r, pairs, i, legal) ==> CanBlock(r, pairs[..i + 1], legal))
      && (!Fine(r, pairs, i, legal) ==> !CanBlock(r, pairs, legal))
  {
    hide CanBlock, Fine, Grouped, BlockersIn;
    GroupedGrows(pairs, i);
    if Fine(r, pairs, i, legal) { FineGrows(r, pairs, i, legal); } else { NotFineFails(r, pairs, i, legal); }
  }

  // ---- removing ---------------------------------------------------------------------------------------------

  function WithoutAttacker(attacks: seq<Attack>, id: EntityID): seq<Attack> {
    if attacks == [] then []
    else (if attacks[0].attacker == id then [] else [attacks[0]]) + WithoutAttacker(attacks[1..], id)
  }

  function WithoutBlocker(bs: seq<EntityID>, id: EntityID): seq<EntityID> {
    if bs == [] then [] else if bs[0] == id then bs[1..] else [bs[0]] + WithoutBlocker(bs[1..], id)
  }

  /** The round without an entity. */
  function Removed(r: Round, id: EntityID): Round {
    r.(attacks := WithoutAttacker(r.attacks, id),
       blocks := map a | a in r.blocks && a != id :: WithoutBlocker(r.blocks[a], id))
  }

  lemma {:induction false} WithoutAttackerAt(attacks: seq<Attack>, id: EntityID, i: nat)
    requires DistinctAttackers(attacks) && i <= |attacks| && forall j | 0 <= j < i :: attacks[j].attacker != id
    requires i < |attacks| ==> attacks[i].attacker == id
    ensures WithoutAttacker(attacks, id) == if i < |attacks| then attacks[..i] + attacks[i + 1..] else attacks
    decreases |attacks|
  {
    if attacks != [] {
      if i == 0 {
        NoSuchAttacker(attacks[1..], id);
      } else {
        WithoutAttackerAt(attacks[1..], id, i - 1);
      }
    }
  }

  lemma {:induction false} NoSuchAttacker(attacks: seq<Attack>, id: EntityID)
    requires forall j | 0 <= j < |attacks| :: attacks[j].attacker != id
    ensures WithoutAttacker(attacks, id) == attacks
  {
    if attacks != [] { NoSuchAttacker(attacks[1..], id); }
  }

  lemma {:induction false} WithoutBlockerAt(bs: seq<EntityID>, id: EntityID, j: nat)
    requires j <= |bs| && id !in bs[..j] && (j < |bs| ==> bs[j] == id)
    ensures WithoutBlocker(bs, id) == if j < |bs| then bs[..j] + bs[j + 1..] else bs
    decreases |bs|
  {
    if bs != [] && j > 0 {
      assert bs[..j] == [bs[0]] + bs[1..][..j - 1];
      WithoutBlockerAt(bs[1..], id, j - 1);
    }
  }

  lemma NotBlocked(r: Round, id: EntityID)
    requires RoundOk(r) && forall j | 0 <= j < |r.attacks| :: r.attacks[j].attacker != id
    ensures id !in r.blocks && r.blocks - {id} == r.blocks
  {
  }

  /** Where the entries of a shortened list were. */
  lemma {:induction false} WithoutBlockerFrom(bs: seq<EntityID>, id: EntityID, i: nat) returns (k: nat)
    requires i < |WithoutBlocker(bs, id)|
    ensures i <= k <= i + 1 && k < |bs| && bs[k] == WithoutBlocker(bs, id)[i]
    ensures |WithoutBlocker(bs, id)| <= |bs| && (k == i + 1 ==> id in bs[..k])
  {
    WithoutShortens(bs, id);
    if bs[0] == id {
      k := i + 1;
      assert bs[..k][0] == id;
    } else if i == 0 {
      k := 0;
    } else {
      k := WithoutBlockerFrom(bs[1..], id, i - 1);
      assert bs[..k + 1] == [bs[0]] + bs[1..][..k];
      k := k + 1;
    }
  }

  lemma {:induction false} WithoutShortens(bs: seq<EntityID>, id: EntityID)
    ensures |bs| - 1 <= |WithoutBlocker(bs, id)| <= |bs| && (id !in bs ==> WithoutBlocker(bs, id) == bs)
  {
    if bs != [] { WithoutShortens(bs[1..], id); }
  }

  lemma {:induction false} WithoutAttackerKeeps(attacks: seq<Attack>, id: EntityID)
    requires DistinctAttackers(attacks)
    ensures DistinctAttackers(WithoutAttacker(attacks, id))
    ensures forall a :: a in WithoutAttacker(attacks, id) <==> a in attacks && a.attacker != id
  {
    if attacks != [] {
      WithoutAttackerKeeps(attacks[1..], id);
      assert forall a | a in attacks[1..] :: a.attacker != attacks[0].attacker;
    }
  }

  /** Without one element, and otherwise as it was. */
  ghost predicate TakenOut<T(!new)>(xs: seq<T>, left: seq<T>, gone: T -> bool) {
    if forall x | x in xs :: !gone(x) then left == xs
    else exists i | 0 <= i < |xs| :: gone(xs[i]) && left == xs[..i] + xs[i + 1..]
  }

  /** An entity leaves as attacker, with its blockers, or as blocker; whom it blocked counts as blocked still. */
  lemma RemovedExactly(r: Round, id: EntityID)
    requires RoundOk(r)
    ensures
      var t := Removed(r, id);
      && t == r.(attacks := t.attacks, blocks := t.blocks)
      && TakenOut(r.attacks, t.attacks, (a: Attack) => a.attacker == id)
      && (forall a :: a in t.blocks <==> a in r.blocks && a != id)
      && (forall a | a in t.blocks :: TakenOut(r.blocks[a], t.blocks[a], b => b == id) && id !in t.blocks[a])
  {
    var t := Removed(r, id);
    if i :| 0 <= i < |r.attacks| && r.attacks[i].attacker == id {
      WithoutAttackerAt(r.attacks, id, i);
      assert r.attacks[i] in r.attacks;
    } else {
      NoSuchAttacker(r.attacks, id);
    }
    forall a | a in t.blocks ensures TakenOut(r.blocks[a], t.blocks[a], b => b == id) && id !in t.blocks[a] {
      BlockerOut(r.blocks[a], id);
    }
  }

  lemma BlockerOut(bs: seq<EntityID>, id: EntityID)
    requires forall i, j | 0 <= i < j < |bs| :: bs[i] != bs[j]
    ensures TakenOut(bs, WithoutBlocker(bs, id), b => b == id) && id !in WithoutBlocker(bs, id)
  {
    if j :| 0 <= j < |bs| && bs[j] == id {
      assert id !in bs[..j];
      WithoutBlockerAt(bs, id, j);
    } else {
      WithoutShortens(bs, id);
    }
  }

  lemma SameEntry(r: Round, id: EntityID, a: EntityID, i: nat, b: EntityID, j: nat)
    requires RoundOk(r) && a in r.blocks && b in r.blocks
    requires i < |WithoutBlocker(r.blocks[a], id)| && j < |WithoutBlocker(r.blocks[b], id)|
    requires WithoutBlocker(r.blocks[a], id)[i] == WithoutBlocker(r.blocks[b], id)[j]
    ensures a == b && i == j
  {
    var k := WithoutBlockerFrom(r.blocks[a], id, i);
    var l := WithoutBlockerFrom(r.blocks[b], id, j);
    assert a == b && k == l;
    if i < j {
      ShiftedTwice(r.blocks[a], id, i, j);
    } else if j < i {
      ShiftedTwice(r.blocks[a], id, j, i);
    }
  }

  /** Different places of a shortened duplicate-free list hold different entries. */
  lemma {:induction false} ShiftedTwice(bs: seq<EntityID>, id: EntityID, i: nat, j: nat)
    requires i < j < |WithoutBlocker(bs, id)| && forall x, y | 0 <= x < y < |bs| :: bs[x] != bs[y]
    ensures WithoutBlocker(bs, id)[i] != WithoutBlocker(bs, id)[j]
  {
    var k := WithoutBlockerFrom(bs, id, j);
    if bs[0] != id {
      if i > 0 { ShiftedTwice(bs[1..], id, i - 1, j - 1); }
    }
  }

  /** Whatever is removed, the round stays in order. */
  lemma RemovedOk(r: Round, id: EntityID)
    requires RoundOk(r)
    ensures RoundOk(Removed(r, id))
  {
    var t := Removed(r, id);
    WithoutAttackerKeeps(r.attacks, id);
    forall a | a in t.blocks ensures Attacking(t, a) && |t.blocks[a]| <= MaxBlockers(t) {
      WithoutShortens(r.blocks[a], id);
      var i :| 0 <= i < |r.attacks| && r.attacks[i].attacker == a;
      assert r.attacks[i] in t.attacks;
    }
    forall a, i, b, j | a in t.blocks && b in t.blocks && 0 <= i < |t.blocks[a]| && 0 <= j < |t.blocks[b]| &&
                        t.blocks[a][i] == t.blocks[b][j]
      ensures a == b && i == j
    {
      SameEntry(r, id, a, i, b, j);
    }
  }
}
