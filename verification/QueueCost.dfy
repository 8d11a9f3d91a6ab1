// What a run of pushes and nexts costs. The ledger is what Queue.Push and Queue.Next change
// according to their contracts.

module QueueCost {
  import opened Bits
  import RingQueue
  import Fifo

  datatype Ledger<T> = Ledger(contents: seq<T>, bits: nat, moved: nat) {
    function Capacity(): nat { Pow2(bits) }
  }

  datatype Op<T> = Push(val: T) | Next

  function Start<T>(): Ledger<T> {
    Ledger([], 3, 0)
  }

  function Do<T>(l: Ledger<T>, op: Op<T>): Ledger<T> {
    match op
    case Push(val) =>
      var grows := |l.contents| == l.Capacity();
      Ledger(Fifo.Append(l.contents, val),
             if grows then l.bits + 1 else l.bits,
             if grows then l.moved + l.Capacity() else l.moved)
    case Next => l.(contents := Fifo.Rest(l.contents))
  }

  function Run<T>(l: Ledger<T>, ops: seq<Op<T>>): Ledger<T>
    decreases |ops|
  {
    if ops == [] then l else Run(Do(l, ops[0]), ops[1..])
  }

  ghost predicate Accounts<T>(l: Ledger<T>) {
    l.bits >= 3 && |l.contents| <= l.Capacity() && l.moved == l.Capacity() - RingQueue.DEFAULT_SIZE
  }

  lemma {:induction false} RunAccounts<T>(l: Ledger<T>, ops: seq<Op<T>>)
    requires Accounts(l)
    ensures Accounts(Run(l, ops))
    decreases |ops|
  {
    if ops != [] {
      RunAccounts(Do(l, ops[0]), ops[1..]);
    }
  }

  // The positions of the pushes.
  ghost function Pushes<T>(ops: seq<Op<T>>): set<nat> {
    set i: nat | i < |ops| && ops[i].Push?
  }

  lemma LastOp<T>(ops: seq<Op<T>>, n: nat)
    requires |ops| == n + 1
    ensures Pushes(ops) == if ops[n].Push? then Pushes(ops[..n]) + {n} else Pushes(ops[..n])
    ensures n !in Pushes(ops[..n])
  {
  }

  lemma {:induction false} RunNext<T>(l: Ledger<T>, ops: seq<Op<T>>, n: nat)
    requires |ops| == n + 1
    ensures Run(l, ops) == Do(Run(l, ops[..n]), ops[n])
    decreases n
  {
    if n == 0 {
      assert ops[1..] == [];
    } else {
      assert ops[1..][..n - 1] == ops[..n][1..];
      RunNext(Do(l, ops[0]), ops[1..], n - 1);
    }
  }

  // At some moment of the run the queue held more than half of what it can hold now.
  ghost predicate Needed<T>(ops: seq<Op<T>>, capacity: nat) {
    exists k: nat :: k <= |ops| && capacity < 2 * |Run(Start(), ops[..k]).contents|
  }

  lemma {:induction false} GrowthIsNeeded<T>(ops: seq<Op<T>>)
    ensures var l := Run(Start(), ops); Accounts(l) && |l.contents| <= |Pushes(ops)|
    ensures var l := Run(Start(), ops); l.bits > 3 ==> Needed(ops, l.Capacity())
    decreases |ops|
  {
    assert Pow2(3) == 8;
    RunAccounts(Start<T>(), ops);
    if ops != [] {
      var n := |ops| - 1;
      var before, now := Run(Start(), ops[..n]), Run(Start(), ops);
      GrowthIsNeeded(ops[..n]);
      RunNext(Start(), ops, n);
      LastOp(ops, n);
      assert ops[..n + 1] == ops;
      if now.bits == before.bits && now.bits > 3 {
        var k: nat :| k <= n && now.Capacity() < 2 * |Run(Start(), ops[..n][..k]).contents|;
        assert ops[..n][..k] == ops[..k];
      }
    }
  }

  lemma PushesOfPrefix<T>(ops: seq<Op<T>>, k: nat)
    requires k <= |ops|
    ensures Pushes(ops[..k]) <= Pushes(ops) && |Pushes(ops[..k])| <= |Pushes(ops)|
  {
    Subset(Pushes(ops[..k]), Pushes(ops));
  }

  lemma Subset(small: set<nat>, large: set<nat>)
    requires small <= large
    ensures |small| <= |large|
  {
    assert large == small + (large - small);
  }

  // The copies of a run add up to the capacity beyond the initial 8. They are fewer than two a
  // push, and the capacity, when it is more than 8, is less than twice what the queue held at
  // some moment.
  lemma {:induction false} AmortisedGrowth<T>(ops: seq<Op<T>>)
    ensures var l := Run(Start(), ops);
      && l.moved == l.Capacity() - 8 && |l.contents| <= l.Capacity()
      && (l.moved > 0 ==> l.moved < 2 * |Pushes(ops)|)
      && (l.Capacity() != 8 ==> exists k: nat ::
            k <= |ops| && l.Capacity() < 2 * |Run(Start(), ops[..k]).contents|)
  {
    assert Pow2(3) == 8;
    GrowthIsNeeded(ops);
    var l := Run(Start(), ops);
    if l.moved > 0 {
      var k: nat :| k <= |ops| && l.Capacity() < 2 * |Run(Start(), ops[..k]).contents|;
      GrowthIsNeeded(ops[..k]);
      PushesOfPrefix(ops, k);
    }
  }

  // Queue.Push and Queue.Next keep the books as Do does.
  method PushKeepsBooks<T(0)>(q: RingQueue.Queue<T>, val: T, ghost l: Ledger<T>) returns (ghost l': Ledger<T>)
    requires q.Valid() && q.size < RingQueue.MAX_CAPACITY
    requires l.contents == q.Contents() && l.bits == q.bits && l.moved == q.moved
    modifies q, q.data
    ensures q.Valid() && l' == Do(l, Push(val))
    ensures l'.contents == q.Contents() && l'.bits == q.bits && l'.moved == q.moved
  {
    q.Push(val);
    l' := Do(l, Push(val));
  }

  method NextKeepsBooks<T(0)>(q: RingQueue.Queue<T>, ghost l: Ledger<T>) returns (next: T, ghost l': Ledger<T>)
    requires q.Valid()
    requires l.contents == q.Contents() && l.bits == q.bits && l.moved == q.moved
    modifies q`front, q`size
    ensures q.Valid() && l' == Do(l, Next)
    ensures l'.contents == q.Contents() && l'.bits == q.bits && l'.moved == q.moved
    ensures next == Fifo.Head(old(q.Contents()), q.nil)
  {
    next := q.Next();
    l' := Do(l, Next);
  }
}
