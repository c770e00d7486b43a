// Types shared by the protocol models.

module Common {
  newtype byte = b: int | 0 <= b < 256

  // The low eight bits of a number.
  function Byte(n: nat): byte { (n % 256) as byte }

  datatype Option<+T> = None | Some(value: T)

  // ------------------------------------------------------------ lists of identifiers

  ghost predicate NoDuplicates(xs: seq<nat>) {
    forall i, j :: 0 <= i < j < |xs| ==> xs[i] != xs[j]
  }

  // The list without the first occurrence of x.
  function Remove(xs: seq<nat>, x: nat): seq<nat> {
    if xs == [] then [] else if xs[0] == x then xs[1..] else [xs[0]] + Remove(xs[1..], x)
  }

  lemma {:induction false} RemoveOnce(xs: seq<nat>, x: nat)
    requires NoDuplicates(xs)
    ensures NoDuplicates(Remove(xs, x)) && x !in Remove(xs, x)
    ensures forall y :: y != x ==> (y in Remove(xs, x) <==> y in xs)
    ensures |Remove(xs, x)| == if x in xs then |xs| - 1 else |xs|
  {
    if xs != [] {
      assert NoDuplicates(xs[1..]);
      RemoveOnce(xs[1..], x);
      if xs[0] != x {
        AddHead(xs[0], Remove(xs[1..], x));
      }
    }
  }

  lemma AddHead(y: nat, rest: seq<nat>)
    requires NoDuplicates(rest) && y !in rest
    ensures NoDuplicates([y] + rest)
  {
  }

  // The list xs without one occurrence of x, if there is any; all others stay in their order.
  ghost predicate LessOne(xs: seq<nat>, x: nat, rest: seq<nat>) {
    if x in xs then exists i :: 0 <= i < |xs| && xs[i] == x && rest == xs[..i] + xs[i + 1..] else rest == xs
  }

  lemma {:induction false} RemoveAt(xs: seq<nat>, x: nat) returns (i: nat)
    requires x in xs
    ensures i < |xs| && xs[i] == x && Remove(xs, x) == xs[..i] + xs[i + 1..]
  {
    if xs[0] == x {
      i := 0;
      assert xs[..0] + xs[1..] == xs[1..];
    } else {
      var tail := xs[1..];
      i := RemoveAt(tail, x);
      WithHead(xs, i);
      i := i + 1;
    }
  }

  // Leaving out an element of the tail.
  lemma WithHead(xs: seq<nat>, i: nat)
    requires i + 1 < |xs|
    ensures [xs[0]] + (xs[1..][..i] + xs[1..][i + 1..]) == xs[..i + 1] + xs[i + 2..]
  {
    var a, b := xs[1..][..i], xs[1..][i + 1..];
    assert b == xs[i + 2..];
    assert [xs[0]] + a == xs[..i + 1];
    assert [xs[0]] + (a + b) == ([xs[0]] + a) + b;
  }

  lemma RemoveLessOne(xs: seq<nat>, x: nat)
    ensures LessOne(xs, x, Remove(xs, x))
  {
    if x in xs {
      var i := RemoveAt(xs, x);
    } else {
      RemoveNothing(xs, x);
    }
  }

  lemma {:induction false} RemoveNothing(xs: seq<nat>, x: nat)
    requires x !in xs
    ensures Remove(xs, x) == xs
  {
    if xs != [] {
      RemoveNothing(xs[1..], x);
    }
  }
}
