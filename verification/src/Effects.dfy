/**
 modules/ccg/effect.go and trigger.go: the queue of pending effects and the buffer of staged triggers. IDs come from one
 counter, so an effect keeps its identity while others are pushed, removed or resolved around it.
 */
module Effects {
  import opened Engine
  import opened Entities

  datatype Kind = Damage | GainLife | Drain | Counter | Summon

  /** Effect; `amount`, `onlyOpponent` and `target` are its Data. */
  datatype Effect = Effect(
    id: nat, source: EntityID, controller: Pid, kind: Kind, amount: int, onlyOpponent: bool, target: nat)

  datatype Queue = Queue(pending: seq<Effect>, nextId: nat)

  /** No two effects share an ID. */
  predicate UniqueIDs(pending: seq<Effect>) {
    forall i, j | 0 <= i < j < |pending| :: pending[i].id != pending[j].id
  }

  /** Every pending effect has an ID of its own that the counter has passed. */
  predicate QueueOk(q: Queue) {
    && UniqueIDs(q.pending)
    && (forall i | 0 <= i < |q.pending| :: 0 < q.pending[i].id <= q.nextId)
  }

  /** PushEffect. */
  function Pushed(q: Queue, e: Effect): Queue {
    Queue(q.pending + [e.(id := q.nextId + 1)], q.nextId + 1)
  }

  function PushedAll(q: Queue, batch: seq<Effect>): Queue
    decreases |batch|
  {
    if batch == [] then q else PushedAll(Pushed(q, batch[0]), batch[1..])
  }

  /** RemoveEffect. */
  function RemovedFrom(pending: seq<Effect>, id: nat): seq<Effect> {
    if pending == [] then [] else if pending[0].id == id then pending[1..] else [pending[0]] + RemovedFrom(pending[1..], id)
  }

  /** FindEffect. */
  function Find(pending: seq<Effect>, id: nat): (e: Option<Effect>)
    ensures e.Some? ==> e.value in pending && e.value.id == id
    ensures e.None? ==> forall x | x in pending :: x.id != id
  {
    if pending == [] then None else if pending[0].id == id then Some(pending[0]) else Find(pending[1..], id)
  }

  lemma {:induction false} PushedAllIs(q: Queue, batch: seq<Effect>)
    ensures PushedAll(q, batch).nextId == q.nextId + |batch|
    ensures |PushedAll(q, batch).pending| == |q.pending| + |batch| && q.pending <= PushedAll(q, batch).pending
    ensures forall i | 0 <= i < |batch| ::
              PushedAll(q, batch).pending[|q.pending| + i] == batch[i].(id := q.nextId + i + 1)
    decreases |batch|
  {
    if batch != [] {
      var next := Pushed(q, batch[0]);
      PushedAllIs(next, batch[1..]);
      var all := PushedAll(q, batch).pending;
      forall i | 0 <= i < |batch| ensures all[|q.pending| + i] == batch[i].(id := q.nextId + i + 1) {
        if i == 0 {
          assert all[|q.pending|] == next.pending[|q.pending|];
        } else {
          assert all[|next.pending| + (i - 1)] == batch[1..][i - 1].(id := next.nextId + (i - 1) + 1);
        }
      }
    }
  }

  lemma PushedAllOk(q: Queue, batch: seq<Effect>)
    requires QueueOk(q)
    ensures QueueOk(PushedAll(q, batch))
  {
    PushedAllIs(q, batch);
    var r, n := PushedAll(q, batch), |q.pending|;
    forall i | 0 <= i < |r.pending|
      ensures r.pending[i].id == if i < n then q.pending[i].id else q.nextId + (i - n) + 1
    {
      if i >= n { assert r.pending[n + (i - n)] == batch[i - n].(id := q.nextId + (i - n) + 1); }
    }
  }

  /** The first effect's ID does not come again. */
  lemma HeadIsUnique(pending: seq<Effect>)
    requires pending != [] && UniqueIDs(pending)
    ensures UniqueIDs(pending[1..]) && forall e | e in pending[1..] :: e.id != pending[0].id
  {
  }

  lemma Headed(head: Effect, rest: seq<Effect>)
    ensures forall e :: e in [head] + rest <==> e == head || e in rest
    ensures UniqueIDs(rest) && (forall e | e in rest :: e.id != head.id) ==> UniqueIDs([head] + rest)
  {
  }

  lemma {:induction false} RemovedIs(pending: seq<Effect>, id: nat)
    requires UniqueIDs(pending)
    ensures forall e :: e in RemovedFrom(pending, id) <==> e in pending && e.id != id
    ensures UniqueIDs(RemovedFrom(pending, id))
  {
    if pending != [] {
      hide UniqueIDs;
      RemovedIs(pending[1..], id);
      HeadIsUnique(pending);
      Headed(pending[0], pending[1..]);
      assert pending == [pending[0]] + pending[1..];
      Headed(pending[0], RemovedFrom(pending[1..], id));
    }
  }

  lemma RemovedOk(q: Queue, id: nat)
    requires QueueOk(q)
    ensures QueueOk(q.(pending := RemovedFrom(q.pending, id)))
  {
    RemovedIs(q.pending, id);
    var r := RemovedFrom(q.pending, id);
    forall i | 0 <= i < |r| ensures 0 < r[i].id <= q.nextId {
      assert r[i] in r && r[i] in q.pending;
    }
  }

  /** Removing the last effect leaves the ones below it. */
  lemma {:induction false} RemoveTop(pending: seq<Effect>)
    requires pending != [] && UniqueIDs(pending)
    ensures RemovedFrom(pending, pending[|pending| - 1].id) == pending[..|pending| - 1]
  {
    if |pending| > 1 {
      RemoveTop(pending[1..]);
      assert pending[..|pending| - 1] == [pending[0]] + pending[1..][..|pending| - 2];
    }
  }

  // ---- ordering staged triggers -----------------------------------------------------------------------------

  /** The effects one player controls, in order. */
  function ControlledBy(effs: seq<Effect>, p: Pid): (r: seq<Effect>)
    ensures forall e :: e in r <==> e in effs && e.controller == p
  {
    if effs == [] then []
    else ControlledBy(effs[..|effs| - 1], p) + if effs[|effs| - 1].controller == p then [effs[|effs| - 1]] else []
  }

  /** The effects of players outside the order, in order. */
  function Unlisted(effs: seq<Effect>, order: seq<Pid>): (r: seq<Effect>)
    ensures forall e :: e in r <==> e in effs && e.controller !in order
  {
    if effs == [] then []
    else Unlisted(effs[..|effs| - 1], order) + if effs[|effs| - 1].controller !in order then [effs[|effs| - 1]] else []
  }

  /** The effects of the order's players, each player's at their first place in it. */
  function Listed(effs: seq<Effect>, order: seq<Pid>): seq<Effect> {
    if order == [] then []
    else
      var n := |order| - 1;
      Listed(effs, order[..n]) + if order[n] in order[..n] then [] else ControlledBy(effs, order[n])
  }

  /** OrderByPlayer: player by player, each player's effects as staged, then the rest. */
  function OrderByPlayer(effs: seq<Effect>, order: seq<Pid>): seq<Effect> {
    Listed(effs, order) + Unlisted(effs, order)
  }

  lemma JoinedCount(a: seq<Effect>, b: seq<Effect>, e: Effect)
    ensures multiset(a + b)[e] == multiset(a)[e] + multiset(b)[e]
  {
  }

  /** The last player of an order adds their effects, unless the order has named them before. */
  lemma ListedStep(effs: seq<Effect>, order: seq<Pid>, e: Effect)
    requires order != []
    ensures
      var n := |order| - 1;
      && (e.controller in order <==> e.controller in order[..n] || e.controller == order[n])
      && multiset(Listed(effs, order))[e] == multiset(Listed(effs, order[..n]))[e] +
           if e.controller == order[n] && order[n] !in order[..n] then multiset(effs)[e] else 0
  {
    var n := |order| - 1;
    ControlledCount(effs, order[n], e);
    JoinedCount(Listed(effs, order[..n]), ControlledBy(effs, order[n]), e);
  }

  /** A listed player's effects come up once, however often the player does. */
  lemma {:induction false} ListedCount(effs: seq<Effect>, order: seq<Pid>, e: Effect)
    ensures multiset(Listed(effs, order))[e] == if e.controller in order then multiset(effs)[e] else 0
  {
    if order != [] {
      hide Listed;
      ListedCount(effs, order[..|order| - 1], e);
      ListedStep(effs, order, e);
    } else {
      assert Listed(effs, order) == [];
    }
  }

  lemma LastCount(init: seq<Effect>, last: seq<Effect>, e: Effect)
    requires |last| <= 1
    ensures multiset(init + last)[e] == multiset(init)[e] + if e in last then 1 else 0
  {
    if last != [] { assert last == [last[0]]; }
  }

  lemma ControlledLast(effs: seq<Effect>, p: Pid)
    requires effs != []
    ensures
      var n := |effs| - 1;
      ControlledBy(effs, p) == ControlledBy(effs[..n], p) + if effs[n].controller == p then [effs[n]] else []
  {
  }

  lemma {:induction false} ControlledCount(effs: seq<Effect>, p: Pid, e: Effect)
    ensures multiset(ControlledBy(effs, p))[e] == if e.controller == p then multiset(effs)[e] else 0
  {
    if effs != [] {
      var n := |effs| - 1;
      ControlledCount(effs[..n], p, e);
      hide ControlledBy;
      ControlledLast(effs, p);
      SplitLast(effs);
      LastCount(effs[..n], [effs[n]], e);
      LastCount(ControlledBy(effs[..n], p), if effs[n].controller == p then [effs[n]] else [], e);
    }
  }

  lemma SplitLast(effs: seq<Effect>)
    requires effs != []
    ensures effs == effs[..|effs| - 1] + [effs[|effs| - 1]]
  {
  }

  lemma UnlistedLast(effs: seq<Effect>, order: seq<Pid>)
    requires effs != []
    ensures
      var n := |effs| - 1;
      Unlisted(effs, order) == Unlisted(effs[..n], order) + if effs[n].controller !in order then [effs[n]] else []
  {
  }

  lemma {:induction false} UnlistedCount(effs: seq<Effect>, order: seq<Pid>, e: Effect)
    ensures multiset(Unlisted(effs, order))[e] == if e.controller !in order then multiset(effs)[e] else 0
  {
    if effs != [] {
      var n := |effs| - 1;
      UnlistedCount(effs[..n], order, e);
      hide Unlisted;
      UnlistedLast(effs, order);
      SplitLast(effs);
      LastCount(effs[..n], [effs[n]], e);
      LastCount(Unlisted(effs[..n], order), if effs[n].controller !in order then [effs[n]] else [], e);
    }
  }

  /** Ordering loses no trigger and doubles none. */
  lemma OrderingPermutes(effs: seq<Effect>, order: seq<Pid>)
    ensures multiset(OrderByPlayer(effs, order)) == multiset(effs) && |OrderByPlayer(effs, order)| == |effs|
  {
    var r := OrderByPlayer(effs, order);
    forall e ensures multiset(r)[e] == multiset(effs)[e] {
      ListedCount(effs, order, e);
      UnlistedCount(effs, order, e);
    }
    assert multiset(r) == multiset(effs);
    assert |r| == |multiset(r)| && |effs| == |multiset(effs)|;
  }

  /** The effects that answer to a description, in order. */
  function Chosen(effs: seq<Effect>, sel: Effect -> bool): (r: seq<Effect>) {
    if effs == [] then [] else (if sel(effs[0]) then [effs[0]] else []) + Chosen(effs[1..], sel)
  }

  function Of(p: Pid): Effect -> bool {
    (e: Effect) => e.controller == p
  }

  function Stray(order: seq<Pid>): Effect -> bool {
    (e: Effect) => e.controller !in order
  }

  /** Player by player as the order first names them, those it does not name last. */
  predicate InTurn(order: seq<Pid>, r: seq<Effect>) {
    forall i, j, y | 0 <= i < j < |r| && 0 <= y < |order| && r[j].controller == order[y] :: r[i].controller in order[..y + 1]
  }

  lemma {:induction false} ChosenJoined(a: seq<Effect>, b: seq<Effect>, sel: Effect -> bool)
    ensures Chosen(a + b, sel) == Chosen(a, sel) + Chosen(b, sel)
    decreases |a|
  {
    if a == [] {
      assert a + b == b && Chosen(a, sel) == [];
    } else {
      hide Chosen;
      ChosenJoined(a[1..], b, sel);
      assert (a + b)[0] == a[0] && (a + b)[1..] == a[1..] + b;
      ChosenHead(a, sel);
      ChosenHead(a + b, sel);
    }
  }

  lemma ChosenHead(effs: seq<Effect>, sel: Effect -> bool)
    requires effs != []
    ensures Chosen(effs, sel) == (if sel(effs[0]) then [effs[0]] else []) + Chosen(effs[1..], sel)
  {
  }

  lemma ChosenOne(e: Effect, sel: Effect -> bool)
    ensures Chosen([e], sel) == if sel(e) then [e] else []
  {
    assert [e][1..] == [];
  }

  lemma {:induction false} AllOrNoneChosen(effs: seq<Effect>, sel: Effect -> bool, all: bool)
    requires forall e | e in effs :: sel(e) == all
    ensures Chosen(effs, sel) == if all then effs else []
    decreases |effs|
  {
    if effs != [] {
      assert effs[0] in effs;
      AllOrNoneChosen(effs[1..], sel, all);
    }
  }

  lemma {:induction false} ControlledChosen(effs: seq<Effect>, p: Pid)
    ensures ControlledBy(effs, p) == Chosen(effs, Of(p))
    decreases |effs|
  {
    if effs != [] {
      var n := |effs| - 1;
      ControlledChosen(effs[..n], p);
      hide ControlledBy, Chosen;
      ControlledLast(effs, p);
      SplitLast(effs);
      ChosenJoined(effs[..n], [effs[n]], Of(p));
      ChosenOne(effs[n], Of(p));
    }
  }

  lemma {:induction false} UnlistedChosen(effs: seq<Effect>, order: seq<Pid>)
    ensures Unlisted(effs, order) == Chosen(effs, Stray(order))
    decreases |effs|
  {
    if effs != [] {
      var n := |effs| - 1;
      UnlistedChosen(effs[..n], order);
      hide Unlisted, Chosen;
      UnlistedLast(effs, order);
      SplitLast(effs);
      ChosenJoined(effs[..n], [effs[n]], Stray(order));
      ChosenOne(effs[n], Stray(order));
    }
  }

  lemma {:induction false} ListedMembers(effs: seq<Effect>, order: seq<Pid>)
    ensures forall e | e in Listed(effs, order) :: e.controller in order
  {
    if order != [] { ListedMembers(effs, order[..|order| - 1]); }
  }

  /** What the last player of an order adds. */
  function Own(effs: seq<Effect>, order: seq<Pid>): seq<Effect>
    requires order != []
  {
    var n := |order| - 1;
    if order[n] in order[..n] then [] else ControlledBy(effs, order[n])
  }

  lemma OwnChosen(effs: seq<Effect>, order: seq<Pid>, p: Pid)
    requires order != []
    ensures
      var n := |order| - 1;
      && Listed(effs, order) == Listed(effs, order[..n]) + Own(effs, order)
      && Chosen(Own(effs, order), Of(p)) == if order[n] == p && p !in order[..n] then Chosen(effs, Of(p)) else []
  {
    hide Chosen, ControlledBy;
    var n := |order| - 1;
    AllOrNoneChosen(Own(effs, order), Of(p), order[n] == p);
    ControlledChosen(effs, p);
  }

  lemma {:induction false} ListedChosen(effs: seq<Effect>, order: seq<Pid>, p: Pid)
    ensures Chosen(Listed(effs, order), Of(p)) == if p in order then Chosen(effs, Of(p)) else []
    decreases |order|
  {
    hide Own;
    if order == [] {
      assert Listed(effs, order) == [];
    } else {
      hide Listed, Chosen;
      var n := |order| - 1;
      OwnChosen(effs, order, p);
      ListedChosen(effs, order[..n], p);
      ChosenJoined(Listed(effs, order[..n]), Own(effs, order), Of(p));
      assert p in order <==> p in order[..n] || p == order[n];
    }
  }

  lemma JoinedInTurn(order: seq<Pid>, a: seq<Effect>, b: seq<Effect>)
    requires InTurn(order, a)
    requires forall e, y | e in b && 0 <= y < |order| && e.controller == order[y] ::
               forall x | x in a || x in b :: x.controller in order[..y + 1]
    ensures InTurn(order, a + b)
  {
    var r := a + b;
    forall i, j, y | 0 <= i < j < |r| && 0 <= y < |order| && r[j].controller == order[y]
      ensures r[i].controller in order[..y + 1]
    {
      if j >= |a| {
        assert r[j] in b;
        assert r[i] in a || r[i] in b;
      }
    }
  }

  lemma {:induction false} ListedInTurn(effs: seq<Effect>, order: seq<Pid>)
    ensures InTurn(order, Listed(effs, order))
  {
    if order != [] {
      hide ControlledBy;
      var n := |order| - 1;
      var rest := order[..n];
      ListedInTurn(effs, rest);
      ListedMembers(effs, rest);
      StillInTurn(order, Listed(effs, rest));
      OwnIsLast(effs, order);
      JoinedInTurn(order, Listed(effs, rest), Own(effs, order));
    }
  }

  lemma OwnIsLast(effs: seq<Effect>, order: seq<Pid>)
    requires order != []
    ensures forall e, y | e in Own(effs, order) && 0 <= y < |order| && e.controller == order[y] ::
              order[..y + 1] == order && forall x | x in Own(effs, order) :: x.controller in order
  {
    var n := |order| - 1;
    forall y | 0 <= y < n ensures order[y] in order[..n] {
      assert order[..n][y] == order[y];
    }
  }

  /** One more player at the end of an order changes nothing for those before. */
  lemma StillInTurn(order: seq<Pid>, r: seq<Effect>)
    requires order != [] && InTurn(order[..|order| - 1], r) && forall e | e in r :: e.controller in order[..|order| - 1]
    ensures InTurn(order, r)
  {
    var rest := order[..|order| - 1];
    forall i, j, y | 0 <= i < j < |r| && 0 <= y < |order| && r[j].controller == order[y]
      ensures r[i].controller in order[..y + 1]
    {
      assert r[i] in r;
      if y < |rest| {
        assert rest[..y + 1] == order[..y + 1] && rest[y] == order[y];
      } else {
        assert order[..y + 1] == rest + [order[y]];
      }
    }
  }

  /**
   Ordering is stable: the players come up as the order first names them, everybody else's triggers last, and what is one
   player's, or nobody's the order names, keeps the order it was staged in.
   */
  lemma OrderedExactly(effs: seq<Effect>, order: seq<Pid>)
    ensures
      var r := OrderByPlayer(effs, order);
      && InTurn(order, r) && Chosen(r, Stray(order)) == Chosen(effs, Stray(order))
      && forall p | p in order :: Chosen(r, Of(p)) == Chosen(effs, Of(p))
  {
    hide Listed, Unlisted, Chosen, InTurn;
    var listed, rest := Listed(effs, order), Unlisted(effs, order);
    ListedMembers(effs, order);
    ChosenJoined(listed, rest, Stray(order));
    AllOrNoneChosen(listed, Stray(order), false);
    UnlistedChosen(effs, order);
    StraysLast(effs, order);
    forall p | p in order ensures Chosen(listed + rest, Of(p)) == Chosen(effs, Of(p)) {
      ChosenJoined(listed, rest, Of(p));
      ListedChosen(effs, order, p);
      StraysOf(effs, order, p);
    }
  }

  lemma StraysOf(effs: seq<Effect>, order: seq<Pid>, p: Pid)
    requires p in order
    ensures Chosen(Unlisted(effs, order), Of(p)) == []
  {
    AllOrNoneChosen(Unlisted(effs, order), Of(p), false);
  }

  lemma StraysLast(effs: seq<Effect>, order: seq<Pid>)
    ensures InTurn(order, OrderByPlayer(effs, order))
    ensures Chosen(Unlisted(effs, order), Stray(order)) == Unlisted(effs, order)
  {
    hide Listed, InTurn, Chosen;
    ListedInTurn(effs, order);
    AllOrNoneChosen(Unlisted(effs, order), Stray(order), true);
    JoinedInTurn(order, Listed(effs, order), Unlisted(effs, order));
  }

  /** The inner loop of OrderByPlayer: append what one player controls, unless already taken, and mark it taken. */
  method TakePlayer(effs: seq<Effect>, taken: array<bool>, p: Pid, ghost again: bool) returns (out: seq<Effect>)
    requires taken.Length == |effs| && forall i | 0 <= i < |effs| :: effs[i].controller == p ==> taken[i] == again
    modifies taken
    ensures out == if again then [] else ControlledBy(effs, p)
    ensures forall i | 0 <= i < |effs| :: taken[i] <==> old(taken[i]) || effs[i].controller == p
  {
    hide ControlledBy;
    out := [];
    NoneControlled(p);
    for i := 0 to |effs|
      invariant out == if again then [] else ControlledBy(effs[..i], p)
      invariant forall j | 0 <= j < |effs| :: taken[j] <==> old(taken[j]) || (j < i && effs[j].controller == p)
    {
      ControlledNext(effs, i, p);
      if !taken[i] && effs[i].controller == p {
        out := out + [effs[i]];
        taken[i] := true;
      }
    }
    assert effs[..|effs|] == effs;
  }

  lemma NoneControlled(p: Pid)
    ensures ControlledBy([], p) == []
  {
  }

  lemma ControlledNext(effs: seq<Effect>, i: nat, p: Pid)
    requires i < |effs|
    ensures ControlledBy(effs[..i + 1], p) == ControlledBy(effs[..i], p) + if effs[i].controller == p then [effs[i]] else []
  {
    assert effs[..i + 1][..i] == effs[..i];
  }

  /** OrderByPlayer's loops, with its array of what is taken. */
  method OrderTriggers(effs: seq<Effect>, order: seq<Pid>) returns (out: seq<Effect>)
    ensures out == OrderByPlayer(effs, order)
  {
    out := [];
    var taken := new bool[|effs|](_ => false);
    for k := 0 to |order|
      invariant out == Listed(effs, order[..k])
      invariant forall i | 0 <= i < |effs| :: taken[i] <==> effs[i].controller in order[..k]
    {
      assert order[..k + 1][..k] == order[..k];
      var own := TakePlayer(effs, taken, order[k], order[k] in order[..k]);
      out := out + own;
      assert forall p :: p in order[..k + 1] <==> p in order[..k] || p == order[k];
    }
    assert order[..|order|] == order;
    var rest: seq<Effect> := [];
    for i := 0 to |effs|
      invariant rest == Unlisted(effs[..i], order)
    {
      assert effs[..i + 1][..i] == effs[..i];
      if !taken[i] { rest := rest + [effs[i]]; }
    }
    assert effs[..|effs|] == effs;
    out := out + rest;
  }
}
