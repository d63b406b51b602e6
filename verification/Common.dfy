/** What every other module needs: an optional value, the first of a list, the smaller and the larger. */
module Common {

  datatype Option<+T> = None | Some(value: T)

  datatype Result<+T, +E> = Ok(value: T) | Err(error: E)

  /** The index of the first element with a property, or -1. */
  function FirstIndex<T>(xs: seq<T>, p: T -> bool): (i: int)
    ensures -1 <= i < |xs|
    ensures i >= 0 ==> p(xs[i])
    ensures forall k :: 0 <= k < |xs| && (i == -1 || k < i) ==> !p(xs[k])
  {
    if xs == [] then -1
    else if p(xs[0]) then 0
    else
      var rest := FirstIndex(xs[1..], p);
      assert forall k :: 0 < k < |xs| ==> xs[k] == xs[1..][k - 1];
      if rest == -1 then -1 else rest + 1
  }

  /** A loop that stops at the first element with the property computes it. */
  lemma FirstIndexUnique<T>(xs: seq<T>, p: T -> bool, i: nat)
    requires i <= |xs| && (forall k :: 0 <= k < i ==> !p(xs[k])) && (i < |xs| ==> p(xs[i]))
    ensures FirstIndex(xs, p) == if i == |xs| then -1 else i
  {
  }

  /** The list without its first occurrence of an element. */
  function WithoutFirst<T(==)>(xs: seq<T>, x: T): seq<T>
  {
    if xs == [] then []
    else if xs[0] == x then xs[1..]
    else [xs[0]] + WithoutFirst(xs[1..], x)
  }

  lemma {:induction false} WithoutFirstAt<T>(xs: seq<T>, x: T, i: nat)
    requires i <= |xs| && x !in xs[..i] && (i < |xs| ==> xs[i] == x)
    ensures WithoutFirst(xs, x) == if i == |xs| then xs else xs[..i] + xs[i + 1..]
  {
    if i > 0 {
      assert xs[0] in xs[..i];
      assert xs[1..][..i - 1] == xs[..i][1..];
      WithoutFirstAt(xs[1..], x, i - 1);
      assert xs == [xs[0]] + xs[1..];
    }
  }

  lemma {:induction false} WithoutFirstCounts<T>(xs: seq<T>, x: T)
    ensures multiset(WithoutFirst(xs, x)) == multiset(xs) - multiset{x}
  {
    if xs != [] {
      assert xs == [xs[0]] + xs[1..];
      assert multiset(xs) == multiset{xs[0]} + multiset(xs[1..]);
      if xs[0] != x {
        var rest := WithoutFirst(xs[1..], x);
        WithoutFirstCounts(xs[1..], x);
        assert multiset([xs[0]] + rest) == multiset{xs[0]} + multiset(rest);
      }
    }
  }

  function Min(a: int, b: int): (r: int)
    ensures r <= a && r <= b && (r == a || r == b)
  {
    if a <= b then a else b
  }

  function Max(a: int, b: int): (r: int)
    ensures r >= a && r >= b && (r == a || r == b)
  {
    if a >= b then a else b
  }

  function MinReal(a: real, b: real): (r: real)
    ensures r <= a && r <= b && (r == a || r == b)
  {
    if a <= b then a else b
  }

  function MaxReal(a: real, b: real): (r: real)
    ensures r >= a && r >= b && (r == a || r == b)
  {
    if a >= b then a else b
  }
}
