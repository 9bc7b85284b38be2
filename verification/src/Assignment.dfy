/**
 core/assignment.go: checking a player's pairing against the pairs a request offers. Items are compared as numbers where
 they are numbers, so a float64 decoded from JSON matches the integer ID it came from.
 */
module Assignment {
  import opened Engine
  import opened Entities

  /** A pair side: a Go integer (an EntityID among them), a float64, or something that is not a number. */
  datatype Item = Whole(n: int) | Float(r: real) | Other(text: string)

  /** One move argument: a two-element array, or anything else. */
  datatype Arg = Pair(left: Item, right: Item) | NotAPair

  datatype AssignmentError = BadRequest | EmptyAssignment | Malformed | NotLegal | Duplicate | Cardinality

  /** AssignmentRequest, as far as validation goes. */
  datatype Request = Request(pairs: seq<(Item, Item)>, maxPerLeft: int, maxPerRight: int, allowEmpty: bool)

  const TWO_TO_53 := 0x20_0000_0000_0000

  /** The spacing of float64 values around n: the least power of two such that n is below 2^53 of them. */
  function Spacing(n: nat, step: nat): (s: nat)
    requires step >= 1
    ensures s >= step && (n < step * TWO_TO_53 ==> s == step)
    decreases if n < step * TWO_TO_53 then 0 else n - step + 1
  {
    if n < step * TWO_TO_53 then step else Spacing(n, 2 * step)
  }

  /** float64 of a non-negative integer: to nearest, ties to even. */
  function Nearest(n: nat): int {
    var s := Spacing(n, 1);
    var q, r := n / s, n % s;
    if 2 * r > s || (2 * r == s && q % 2 == 1) then (q + 1) * s else q * s
  }

  function ToFloat(n: int): real {
    (if n >= 0 then Nearest(n) else -Nearest(-n)) as real
  }

  lemma SmallIsExact(n: nat)
    requires n < TWO_TO_53
    ensures ToFloat(n) == n as real
  {
  }

  /** Past 2^53 neighbouring IDs are the same number. */
  lemma LargeCollide()
    ensures ToFloat(TWO_TO_53) == ToFloat(TWO_TO_53 + 1)
  {
    var n := TWO_TO_53;
    assert Spacing(n, 1) == Spacing(n, 2) == 2;
    assert Spacing(n + 1, 1) == Spacing(n + 1, 2) == 2;
    assert n / 2 * 2 == n && n % 2 == 0 && (n + 1) / 2 == n / 2 && (n + 1) % 2 == 1 && (n / 2) % 2 == 0;
  }

  function AsNumber(i: Item): Option<real> {
    match i
    case Whole(n) => Some(ToFloat(n))
    case Float(r) => Some(r)
    case Other(_) => None
  }

  predicate SameItem(a: Item, b: Item) {
    if AsNumber(a).Some? then AsNumber(b) == AsNumber(a) else a == b
  }

  predicate SamePair(a: (Item, Item), b: (Item, Item)) {
    SameItem(a.0, b.0) && SameItem(a.1, b.1)
  }

  // ---- what the validator promises --------------------------------------------------------------------------

  /** How often an item is the left side of a chosen pair. */
  function CountLeft(chosen: seq<(Item, Item)>, item: Item): nat {
    if chosen == [] then 0
    else CountLeft(chosen[..|chosen| - 1], item) + if SameItem(chosen[|chosen| - 1].0, item) then 1 else 0
  }

  function CountRight(chosen: seq<(Item, Item)>, item: Item): nat {
    if chosen == [] then 0
    else CountRight(chosen[..|chosen| - 1], item) + if SameItem(chosen[|chosen| - 1].1, item) then 1 else 0
  }

  function Cap(n: int): int {
    if n == 0 then 1 else n
  }

  predicate AllPairs(args: seq<Arg>) {
    forall a | a in args :: a.Pair?
  }

  /** The pairs the arguments spell. */
  function Chosen(args: seq<Arg>): (r: seq<(Item, Item)>)
    requires AllPairs(args)
    ensures |r| == |args| && forall i | 0 <= i < |args| :: r[i] == (args[i].left, args[i].right)
  {
    seq(|args|, i requires 0 <= i < |args| => (args[i].left, args[i].right))
  }

  predicate Offered(req: Request, p: (Item, Item)) {
    exists i | 0 <= i < |req.pairs| :: SamePair(req.pairs[i], p)
  }

  predicate NoRepeats(chosen: seq<(Item, Item)>) {
    forall i, j | 0 <= i < j < |chosen| :: !SamePair(chosen[i], chosen[j])
  }

  predicate WithinCaps(req: Request, chosen: seq<(Item, Item)>) {
    forall i | 0 <= i < |chosen| ::
      CountLeft(chosen, chosen[i].0) <= Cap(req.maxPerLeft) && CountRight(chosen, chosen[i].1) <= Cap(req.maxPerRight)
  }

  /** The answers a request admits. */
  predicate Accepts(req: Request, args: seq<Arg>) {
    && req.maxPerLeft >= 0 && req.maxPerRight >= 0
    && (args == [] ==> req.allowEmpty)
    && AllPairs(args)
    && (forall i | 0 <= i < |args| :: Offered(req, Chosen(args)[i]))
    && NoRepeats(Chosen(args)) && WithinCaps(req, Chosen(args))
  }

  // ---- the validator ----------------------------------------------------------------------------------------

  method ContainsPair(pairs: seq<(Item, Item)>, want: (Item, Item)) returns (found: bool)
    ensures found <==> exists i | 0 <= i < |pairs| :: SamePair(pairs[i], want)
  {
    for i := 0 to |pairs|
      invariant forall j | 0 <= j < i :: !SamePair(pairs[j], want)
    {
      if SamePair(pairs[i], want) { return true; }
    }
    return false;
  }

  method Tally(chosen: seq<(Item, Item)>, p: (Item, Item)) returns (left: nat, right: nat)
    ensures left == CountLeft(chosen, p.0) && right == CountRight(chosen, p.1)
  {
    hide SameItem;
    left, right := 0, 0;
    for i := 0 to |chosen|
      invariant left == CountLeft(chosen[..i], p.0) && right == CountRight(chosen[..i], p.1)
    {
      assert chosen[..i + 1][..i] == chosen[..i];
      if SameItem(chosen[i].0, p.0) { left := left + 1; }
      if SameItem(chosen[i].1, p.1) { right := right + 1; }
    }
    assert chosen[..|chosen|] == chosen;
  }

  /** ValidateAssignment: it accepts exactly the answers the request admits, and hands their pairs back. */
  method ValidateAssignment(req: Request, args: seq<Arg>) returns (chosen: seq<(Item, Item)>, err: Option<AssignmentError>)
    ensures err.None? <==> Accepts(req, args)
    ensures err.None? ==> AllPairs(args) && chosen == Chosen(args)
    ensures err.Some? ==> chosen == []
  {
    hide SameItem, CountLeft, CountRight;
    chosen := [];
    if req.maxPerLeft < 0 || req.maxPerRight < 0 { return [], Some(BadRequest); }
    if args == [] {
      return [], if req.allowEmpty then None else Some(EmptyAssignment);
    }
    for i := 0 to |args|
      invariant |chosen| == i && forall j | 0 <= j < i :: args[j].Pair? && chosen[j] == (args[j].left, args[j].right)
    {
      if args[i].NotAPair? {
        assert args[i] in args;
        return [], Some(Malformed);
      }
      chosen := chosen + [(args[i].left, args[i].right)];
    }
    assert AllPairs(args) && chosen == Chosen(args);
    for i := 0 to |chosen|
      invariant forall j | 0 <= j < i :: Offered(req, chosen[j])
      invariant forall j, k | 0 <= j < k < i :: !SamePair(chosen[j], chosen[k])
    {
      var offered := ContainsPair(req.pairs, chosen[i]);
      if !offered { return [], Some(NotLegal); }
      for j := 0 to i
        invariant forall k | 0 <= k < j :: !SamePair(chosen[k], chosen[i])
      {
        if SamePair(chosen[j], chosen[i]) { return [], Some(Duplicate); }
      }
    }
    for i := 0 to |chosen|
      invariant forall j | 0 <= j < i ::
        CountLeft(chosen, chosen[j].0) <= Cap(req.maxPerLeft) && CountRight(chosen, chosen[j].1) <= Cap(req.maxPerRight)
    {
      var left, right := Tally(chosen, chosen[i]);
      if left > Cap(req.maxPerLeft) { return [], Some(Cardinality); }
      if right > Cap(req.maxPerRight) { return [], Some(Cardinality); }
    }
    err := None;
  }
}
