/** core/random.go: the Fisher-Yates shuffle, over an arbitrary stream of generator outputs. */
module Shuffling {

  /** The generator: `draw(k)` is its k-th output. Nothing is assumed about it. */
  type Stream = nat -> nat

  function Swapped<T>(s: seq<T>, i: nat, j: nat): seq<T>
    requires i < |s| && j < |s|
  {
    s[i := s[j]][j := s[i]]
  }

  /** A drawn position from 0 to i. */
  function Pick(n: nat, i: nat): (j: nat)
    ensures j <= i
  {
    n % (i + 1)
  }

  /** The loop from position i down: swap i with a drawn position at most i. */
  function ShuffledFrom<T>(s: seq<T>, i: int, draw: Stream, k: nat): (r: seq<T>)
    requires i < |s|
    ensures |r| == |s|
    decreases i
  {
    if i <= 0 then s else ShuffledFrom(Swapped(s, i, Pick(draw(k), i)), i - 1, draw, k + 1)
  }

  function Shuffled<T>(s: seq<T>, draw: Stream, k: nat): (r: seq<T>)
    ensures |r| == |s|
  {
    ShuffledFrom(s, |s| - 1, draw, k)
  }

  /** Shuffle: a shuffled copy. `k` outputs were used before; `used` is the count after. */
  method Shuffle<T>(s: seq<T>, draw: Stream, k: nat) returns (r: seq<T>, used: nat)
    ensures r == Shuffled(s, draw, k) && used == k + (if s == [] then 0 else |s| - 1)
  {
    hide Swapped, Pick;
    if s == [] { return s, k; }
    var out := new T[|s|](i requires 0 <= i < |s| => s[i]);
    var i := |s| - 1;
    used := k;
    assert out[..] == s;
    while i > 0
      invariant 0 <= i < out.Length == |s| && used == k + (|s| - 1 - i)
      invariant ShuffledFrom(out[..], i, draw, used) == Shuffled(s, draw, k)
    {
      var j := Pick(draw(used), i);
      ghost var before := out[..];
      out[i], out[j] := out[j], out[i];
      SwappedIs(before, out[..], i, j);
      used := used + 1;
      i := i - 1;
    }
    r := out[..];
  }

  lemma SwappedIs<T>(s: seq<T>, t: seq<T>, i: nat, j: nat)
    requires i < |s| == |t| && j < |s| && t[i] == s[j] && t[j] == s[i]
    requires forall p | 0 <= p < |s| && p != i && p != j :: t[p] == s[p]
    ensures t == Swapped(s, i, j)
  {
  }

  lemma SwapKeeps<T>(s: seq<T>, i: nat, j: nat)
    requires i < |s| && j < |s|
    ensures multiset(Swapped(s, i, j)) == multiset(s)
  {
  }

  /** A shuffle loses nothing and invents nothing. */
  lemma {:induction false} ShufflePermutes<T>(s: seq<T>, i: int, draw: Stream, k: nat)
    requires i < |s|
    ensures multiset(ShuffledFrom(s, i, draw, k)) == multiset(s)
    decreases i
  {
    hide Swapped, Pick;
    if i > 0 {
      SwapKeeps(s, i, Pick(draw(k), i));
      ShufflePermutes(Swapped(s, i, Pick(draw(k), i)), i - 1, draw, k + 1);
    }
  }

  /** Positions past i are settled. */
  lemma {:induction false} ShuffleSettles<T>(s: seq<T>, i: int, draw: Stream, k: nat)
    requires i < |s|
    ensures forall p | 0 <= p < |s| && p > i :: ShuffledFrom(s, i, draw, k)[p] == s[p]
    decreases i
  {
    hide Pick;
    if i > 0 {
      ShuffleSettles(Swapped(s, i, Pick(draw(k), i)), i - 1, draw, k + 1);
    }
  }

  /** Only the outputs from k on matter. */
  lemma {:induction false} ShuffleReads<T>(s: seq<T>, i: int, a: Stream, b: Stream, k: nat)
    requires i < |s| && forall n | n >= k :: a(n) == b(n)
    ensures ShuffledFrom(s, i, a, k) == ShuffledFrom(s, i, b, k)
    decreases i
  {
    hide Pick;
    if i > 0 {
      ShuffleReads(Swapped(s, i, Pick(a(k), i)), i - 1, a, b, k + 1);
    }
  }

  function Before(k: nat, n: nat, rest: Stream): Stream {
    x => if x == k then n else rest(x)
  }

  lemma PickSmall(n: nat, i: nat)
    requires n <= i
    ensures Pick(n, i) == n
  {
  }

  lemma NothingToSwap<T>(s: seq<T>, i: int, draw: Stream, k: nat)
    requires i < |s| && i <= 0
    ensures ShuffledFrom(s, i, draw, k) == s
  {
  }

  lemma OneSwap<T>(s: seq<T>, i: nat, draw: Stream, k: nat, j: nat)
    requires 0 < i < |s| && j <= i && Pick(draw(k), i) == j
    ensures ShuffledFrom(s, i, draw, k) == ShuffledFrom(Swapped(s, i, j), i - 1, draw, k + 1)
  {
    hide Swapped, Pick;
  }

  /** Every order is possible: any rearrangement of the first i + 1 entries comes out for some stream. */
  lemma {:induction false} EveryOrderReachable<T>(s: seq<T>, t: seq<T>, i: int, k: nat) returns (draw: Stream)
    requires i < |s| == |t| && multiset(s) == multiset(t) && forall p | 0 <= p < |s| && p > i :: s[p] == t[p]
    ensures ShuffledFrom(s, i, draw, k) == t
    decreases i
  {
    hide ShuffledFrom;
    if i <= 0 {
      draw := x => 0;
      SingleLeft(s, t, i);
      NothingToSwap(s, i, draw, k);
    } else {
      var j := Stands(s, t, i);
      var next := Swapped(s, i, j);
      SwapKeeps(s, i, j);
      assert next[i] == t[i];
      var rest := EveryOrderReachable(next, t, i - 1, k + 1);
      draw := Before(k, j, rest);
      ShuffleReads(next, i - 1, draw, rest, k + 1);
      PickSmall(j, i);
      OneSwap(s, i, draw, k, j);
    }
  }

  lemma Cancel<T>(a: multiset<T>, b: multiset<T>, c: multiset<T>)
    requires a + c == b + c
    ensures a == b
  {
    forall x | x in a + b ensures a[x] == b[x] {
      assert (a + c)[x] == (b + c)[x];
    }
  }

  lemma Exchange<T>(a: multiset<T>, b: multiset<T>, p: multiset<T>, q: multiset<T>, n: multiset<T>)
    requires a + p == b + q
    ensures a + n + p == b + n + q
  {
    assert a + n + p == a + p + n;
  }

  lemma SingleLeft<T>(s: seq<T>, t: seq<T>, i: int)
    requires i <= 0 && i < |s| == |t| && multiset(s) == multiset(t) && forall p | 0 <= p < |s| && p > i :: s[p] == t[p]
    ensures s == t
  {
    if s != [] {
      assert s == [s[0]] + s[1..] && t == [t[0]] + t[1..] && s[1..] == t[1..];
      assert multiset(s) == multiset{s[0]} + multiset(s[1..]) && multiset(t) == multiset{t[0]} + multiset(s[1..]);
      Cancel(multiset{s[0]}, multiset{t[0]}, multiset(s[1..]));
      assert s[0] in multiset{t[0]};
    }
  }

  /** The entry that belongs at i stands somewhere up to i. */
  lemma Stands<T>(s: seq<T>, t: seq<T>, i: nat) returns (j: nat)
    requires i < |s| == |t| && multiset(s) == multiset(t) && forall p | 0 <= p < |s| && p > i :: s[p] == t[p]
    ensures j <= i && s[j] == t[i]
  {
    assert s == s[..i + 1] + s[i + 1..] && t == t[..i + 1] + t[i + 1..] && s[i + 1..] == t[i + 1..];
    Cancel(multiset(s[..i + 1]), multiset(t[..i + 1]), multiset(s[i + 1..]));
    assert t[..i + 1][i] in multiset(t[..i + 1]);
    j :| 0 <= j < i + 1 && s[..i + 1][j] == t[i];
  }
}
