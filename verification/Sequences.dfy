// Sums and multiset sums over sequences of thread states, with the one fact the
// protocol proofs need about each: what changing a single element does to them.

module Sequences {

  datatype Option<+T> = None | Some(value: T)

  function Total<T>(xs: seq<T>, weight: T -> nat): nat {
    if xs == [] then 0 else weight(xs[0]) + Total(xs[1..], weight)
  }

  lemma {:induction false} TotalUpdate<T>(xs: seq<T>, i: nat, x: T, weight: T -> nat)
    requires i < |xs|
    ensures Total(xs[i := x], weight) + weight(xs[i]) == Total(xs, weight) + weight(x)
  {
    if i == 0 {
      assert xs[0 := x][1..] == xs[1..];
    } else {
      assert xs[i := x][1..] == xs[1..][i - 1 := x];
      TotalUpdate(xs[1..], i - 1, x, weight);
    }
  }

  lemma {:induction false} TotalAtLeast<T>(xs: seq<T>, i: nat, weight: T -> nat)
    requires i < |xs|
    ensures weight(xs[i]) <= Total(xs, weight)
  {
    if i > 0 {
      TotalAtLeast(xs[1..], i - 1, weight);
    }
  }

  lemma {:induction false} TotalWitness<T>(xs: seq<T>, weight: T -> nat) returns (i: nat)
    requires Total(xs, weight) > 0
    ensures i < |xs| && weight(xs[i]) > 0
  {
    if weight(xs[0]) > 0 {
      i := 0;
    } else {
      i := TotalWitness(xs[1..], weight);
      i := i + 1;
    }
  }

  lemma {:induction false} TotalZero<T>(xs: seq<T>, weight: T -> nat)
    requires forall i :: 0 <= i < |xs| ==> weight(xs[i]) == 0
    ensures Total(xs, weight) == 0
  {
    if xs != [] {
      assert forall i :: 0 <= i < |xs[1..]| ==> xs[1..][i] == xs[i + 1];
      TotalZero(xs[1..], weight);
    }
  }

  function Gather<T, V>(xs: seq<T>, carried: T -> multiset<V>): multiset<V> {
    if xs == [] then multiset{} else carried(xs[0]) + Gather(xs[1..], carried)
  }

  lemma Trade<V>(a: multiset<V>, b: multiset<V>, rest: multiset<V>)
    ensures (a + rest) + b == (b + rest) + a
  {
  }

  lemma AddInFront<V>(h: multiset<V>, a: multiset<V>, b: multiset<V>, c: multiset<V>, d: multiset<V>)
    requires a + b == c + d
    ensures (h + a) + b == (h + c) + d
  {
    assert (h + a) + b == h + (a + b);
    assert (h + c) + d == h + (c + d);
  }

  lemma {:induction false} GatherUpdate<T, V>(xs: seq<T>, i: nat, x: T, carried: T -> multiset<V>)
    requires i < |xs|
    ensures Gather(xs[i := x], carried) + carried(xs[i]) == Gather(xs, carried) + carried(x)
  {
    var rest := Gather(xs[1..], carried);
    if i == 0 {
      assert xs[0 := x][1..] == xs[1..];
      Trade(carried(x), carried(xs[0]), rest);
    } else {
      assert xs[i := x][1..] == xs[1..][i - 1 := x];
      GatherUpdate(xs[1..], i - 1, x, carried);
      AddInFront(carried(xs[0]), Gather(xs[1..][i - 1 := x], carried), carried(xs[i]), rest, carried(x));
    }
  }

  lemma GatherSame<T, V>(xs: seq<T>, i: nat, x: T, carried: T -> multiset<V>)
    requires i < |xs| && carried(x) == carried(xs[i])
    ensures Gather(xs[i := x], carried) == Gather(xs, carried)
  {
    GatherUpdate(xs, i, x, carried);
    Cancel(Gather(xs[i := x], carried), Gather(xs, carried), carried(x));
  }

  lemma Cancel<V>(a: multiset<V>, b: multiset<V>, c: multiset<V>)
    requires a + c == b + c
    ensures a == b
  {
    forall v ensures a[v] == b[v] {
      assert (a + c)[v] == (b + c)[v];
    }
  }

  lemma GatherGains<T, V>(xs: seq<T>, i: nat, x: T, carried: T -> multiset<V>)
    requires i < |xs| && carried(xs[i]) == multiset{}
    ensures Gather(xs[i := x], carried) == Gather(xs, carried) + carried(x)
  {
    GatherUpdate(xs, i, x, carried);
    assert Gather(xs[i := x], carried) + multiset{} == Gather(xs[i := x], carried);
  }

  lemma {:induction false} GatherEmpty<T, V>(xs: seq<T>, carried: T -> multiset<V>)
    requires forall i :: 0 <= i < |xs| ==> carried(xs[i]) == multiset{}
    ensures Gather(xs, carried) == multiset{}
  {
    if xs != [] {
      assert forall i :: 0 <= i < |xs[1..]| ==> xs[1..][i] == xs[i + 1];
      GatherEmpty(xs[1..], carried);
    }
  }

  function Flatten<T>(xss: seq<seq<T>>): seq<T> {
    if xss == [] then [] else xss[0] + Flatten(xss[1..])
  }

  lemma {:induction false} FlattenAppend<T>(xss: seq<seq<T>>, xs: seq<T>)
    ensures Flatten(xss + [xs]) == Flatten(xss) + xs
  {
    if xss == [] {
      assert [xs][1..] == [];
      assert xss + [xs] == [xs];
    } else {
      assert (xss + [xs])[1..] == xss[1..] + [xs];
      FlattenAppend(xss[1..], xs);
    }
  }

  lemma {:induction false} FlattenHead<T>(xss: seq<seq<T>>)
    requires Flatten(xss) == []
    ensures xss == [] || xss[0] == []
  {
  }
}
