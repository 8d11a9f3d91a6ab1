// The ring buffer: power-of-two capacity, indices wrapped by a mask, doubling when full.

module RingQueue {
  import opened Bits
  import Fifo

  const DEFAULT_SIZE: nat := 8
  // `1 << msb` is a shift of a 32-bit int, so no larger capacity can be asked for.
  const MAX_BITS: nat := 30
  const MAX_CAPACITY: nat := 0x4000_0000

  lemma MaxCapacity()
    ensures Pow2(MAX_BITS) == MAX_CAPACITY && MAX_CAPACITY < Pow2(64)
  {
    assert Pow2(10) == 1024;
    Pow2Sum(10, 10);
    Pow2Sum(20, 10);
    Pow2Increases(MAX_BITS, 64);
  }

  // The position of the highest set bit of a 64-bit pattern; 0 for the pattern 0.
  method MSB(number: nat) returns (msb: nat)
    requires number < Pow2(64)
    ensures number > 0 ==> Pow2(msb) <= number < Pow2(msb + 1)
    ensures number == 0 ==> msb == 0
  {
    msb := 63;
    var val := Pow2(63);
    while And(number, val) == 0 && msb != 0
      invariant msb <= 63 && val == Pow2(msb) && number < Pow2(msb + 1)
    {
      ClearBit(number, msb);
      val := val / 2;
      msb := msb - 1;
    }
    if msb != 0 { SetBit(number, msb); }
  }

  lemma {:induction false} ClearBit(number: nat, msb: nat)
    requires number < Pow2(msb + 1) && And(number, Pow2(msb)) == 0
    ensures number < Pow2(msb)
  {
    AndPow2(number, msb);
    var p := Pow2(msb);
    assert Bit(number, msb) * p == 0;
    if number >= p { DivUnique(number, p, 1, number - p); }
  }

  lemma {:induction false} SetBit(number: nat, msb: nat)
    requires And(number, Pow2(msb)) != 0
    ensures Pow2(msb) <= number
  {
    AndPow2(number, msb);
    if number < Pow2(msb) { DivUnique(number, Pow2(msb), 0, number); }
  }

  // The exponent of the least power of two that is not below n.
  ghost predicate CeilBits(n: nat, bits: nat) {
    n <= Pow2(bits) && (bits > 0 ==> Pow2(bits - 1) < n)
  }

  lemma {:induction false} CeilIsLeast(n: nat, bits: nat, other: nat)
    requires CeilBits(n, bits) && n <= Pow2(other)
    ensures bits <= other
  {
    if other < bits && other != bits - 1 { Pow2Increases(other, bits - 1); }
  }

  lemma {:induction false} CeilOfPower(n: nat, bits: nat)
    requires CeilBits(Pow2(n), bits)
    ensures bits == n
  {
    CeilIsLeast(Pow2(n), bits, n);
    if bits < n { Pow2Increases(bits, n); }
  }

  lemma {:induction false} SamePower(m: nat, n: nat)
    requires Pow2(m) == Pow2(n)
    ensures m == n
  {
    if m < n { Pow2Increases(m, n); }
    if n < m { Pow2Increases(n, m); }
  }

  // The exponent that q_resize rounds a requested size up to.
  method RoundUp(requested: nat) returns (msb: nat)
    requires requested <= MAX_CAPACITY
    ensures msb <= MAX_BITS && CeilBits(requested, msb)
  {
    MaxCapacity();
    msb := MSB(requested);
    CeilFromMsb(requested, msb);
    if requested > Pow2(msb) {
      msb := msb + 1;
    }
    CeilIsLeast(requested, msb, MAX_BITS);
  }

  lemma CeilFromMsb(n: nat, msb: nat)
    requires if n == 0 then msb == 0 else Pow2(msb) <= n < Pow2(msb + 1)
    ensures CeilBits(n, if n > Pow2(msb) then msb + 1 else msb)
  {
  }

  lemma RoomToDouble(bits: nat)
    requires bits <= MAX_BITS && Pow2(bits) < MAX_CAPACITY
    ensures Pow2(bits) * 2 == Pow2(bits + 1) <= MAX_CAPACITY
  {
    MaxCapacity();
    Pow2Increases(bits, MAX_BITS);
  }

  // ---- Cells in circular order ----

  // x modulo the capacity, for the sums of two indices that the queue forms.
  function Wrap(x: nat, capacity: nat): nat {
    if x < capacity then x else x - capacity
  }

  lemma {:induction false} MaskWraps(x: nat, bits: nat)
    requires x < 2 * Pow2(bits)
    ensures And(x, Pow2(bits) - 1) == x % Pow2(bits) == Wrap(x, Pow2(bits)) < Pow2(bits)
  {
    AndMask(x, bits);
    if x < Pow2(bits) {
      DivUnique(x, Pow2(bits), 0, x);
    } else {
      DivUnique(x, Pow2(bits), 1, x - Pow2(bits));
    }
  }

  lemma {:induction false} MaskIsWrap(x: nat, bits: nat)
    requires x < 2 * Pow2(bits)
    ensures And(x, Pow2(bits) - 1) == Wrap(x, Pow2(bits)) < Pow2(bits)
  {
    MaskWraps(x, bits);
  }

  // The `size` cells that start at `front` and continue past the end at index 0.
  function Window<T>(cells: seq<T>, front: nat, size: nat): (w: seq<T>)
    requires front < |cells| && size <= |cells|
    ensures |w| == size
    ensures forall i :: 0 <= i < size ==> w[i] == cells[Wrap(front + i, |cells|)]
  {
    seq(size, i requires 0 <= i < size => cells[Wrap(front + i, |cells|)])
  }

  lemma WindowNext<T>(cells: seq<T>, front: nat, size: nat)
    requires front < |cells| && 1 <= size <= |cells|
    ensures Window(cells, front, size)[0] == cells[front]
    ensures Wrap(front + 1, |cells|) < |cells|
    ensures Window(cells, Wrap(front + 1, |cells|), size - 1) == Window(cells, front, size)[1..]
  {
    var shorter := Window(cells, Wrap(front + 1, |cells|), size - 1);
    forall i | 0 <= i < size - 1 ensures shorter[i] == Window(cells, front, size)[1..][i] {
      assert Wrap(Wrap(front + 1, |cells|) + i, |cells|) == Wrap(front + (i + 1), |cells|);
    }
  }

  lemma WindowPush<T>(cells: seq<T>, front: nat, size: nat, x: T)
    requires front < |cells| && size < |cells|
    ensures var back := Wrap(front + size, |cells|);
      && back < |cells|
      && Window(cells[back := x], front, size + 1) == Window(cells, front, size) + [x]
  {
    var back := Wrap(front + size, |cells|);
    var longer := Window(cells[back := x], front, size + 1);
    forall i | 0 <= i < size + 1 ensures longer[i] == (Window(cells, front, size) + [x])[i] {
      assert i < size ==> Wrap(front + i, |cells|) != back;
    }
  }

  // The front index after a read, and what the queue then holds. The back index stays.
  lemma {:induction false} NextFront<T>(cells: seq<T>, front: nat, size: nat, bits: nat)
    requires |cells| == Pow2(bits) && front < Pow2(bits) && 1 <= size <= Pow2(bits)
    ensures var next := And(front + 1, Pow2(bits) - 1);
      && next < Pow2(bits) && Wrap(next + (size - 1), Pow2(bits)) == Wrap(front + size, Pow2(bits))
      && Window(cells, front, size) == [cells[front]] + Window(cells, next, size - 1)
  {
    MaskIsWrap(front + 1, bits);
    WindowNext(cells, front, size);
    var all := Window(cells, front, size);
    assert all == [all[0]] + all[1..];
  }

  // The back index after a store.
  lemma NextBack(last: nat, back: nat, bits: nat)
    requires last + 1 < 2 * Pow2(bits) && back == Wrap(last, Pow2(bits))
    ensures And(back + 1, Pow2(bits) - 1) == Wrap(last + 1, Pow2(bits))
  {
    MaskIsWrap(back + 1, bits);
  }

  lemma WindowFromStart<T>(cells: seq<T>, size: nat)
    requires size <= |cells| && |cells| > 0
    ensures Window(cells, 0, size) == cells[..size]
  {
    assert forall i :: 0 <= i < size ==> Window(cells, 0, size)[i] == cells[..size][i];
  }

  class Queue<T(0)> {
    const nil: T
    var front: nat
    var back: nat
    var size: nat
    var rangeMask: nat
    var data: array<T>
    ghost var bits: nat     // the capacity is 2^bits
    ghost var moved: nat    // elements copied by all resizes so far

    ghost predicate Valid()
      reads this
    {
      && bits <= MAX_BITS
      && data.Length == Pow2(bits) && rangeMask == Pow2(bits) - 1
      && front < Pow2(bits) && size <= Pow2(bits)
      && back == Wrap(front + size, Pow2(bits))
    }

    ghost function Contents(): (s: seq<T>)
      requires Valid()
      reads this, data
      ensures |s| == size
    {
      Window(data[..], front, size)
    }

    constructor (nil: T)
      ensures Valid() && fresh(data) && this.nil == nil
      ensures Contents() == [] && bits == 3 && moved == 0
    {
      this.nil := nil;
      front, back, size := 0, 0, 0;
      data := new T[DEFAULT_SIZE];
      rangeMask := DEFAULT_SIZE - 1;
      bits, moved := 3, 0;
      assert Pow2(3) == 8;
    }

    method IsEmpty() returns (empty: bool)
      requires Valid()
      ensures empty <==> Contents() == []
    {
      empty := size == 0;
    }

    method Next() returns (next: T)
      requires Valid()
      modifies this`front, this`size
      ensures Valid()
      ensures next == Fifo.Head(old(Contents()), nil)
      ensures Contents() == Fifo.Rest(old(Contents()))
    {
      if size <= 0 {
        return nil;
      }
      NextFront(data[..], front, size, bits);
      next := data[front];
      front := front + 1;
      front := And(front, rangeMask);
      size := size - 1;
    }

    // The loop of q_resize: moves the oldest elements out through Next.
    method Drain(newData: array<T>, moveSize: nat)
      requires Valid() && moveSize <= size && moveSize <= newData.Length && newData != data
      modifies this`front, this`size, newData
      ensures Valid() && newData[..moveSize] == old(Contents())[..moveSize]
    {
      ghost var before := Contents();
      var i := 0;
      while i < moveSize
        invariant 0 <= i <= moveSize <= |before|
        invariant Valid() && Contents() == before[i..]
        invariant newData[..i] == before[..i]
      {
        var next := Next();
        assert next == before[i];
        newData[i] := next;
        i := i + 1;
      }
    }

    // The part of q_resize after the loop: the new array holds what the queue held.
    method Install(newData: array<T>, moveSize: nat, newSize: nat, ghost newBits: nat)
      requires newBits <= MAX_BITS && newSize == Pow2(newBits) == newData.Length && moveSize <= newSize
      modifies this
      ensures Valid() && data == newData && bits == newBits && moved == old(moved) + moveSize
      ensures Contents() == newData[..moveSize]
    {
      MaskIsWrap(moveSize, newBits);
      data := newData;
      size := moveSize;
      rangeMask := newSize - 1;
      front := 0;
      back := moveSize;
      back := And(back, rangeMask);
      bits, moved := newBits, moved + moveSize;
      WindowFromStart(data[..], size);
    }

    // Keeps the oldest elements that fit; the new capacity is the least power of two that
    // is not below the size asked for.
    method Resize(requested: nat)
      requires Valid() && requested <= MAX_CAPACITY
      modifies this
      ensures Valid() && CeilBits(requested, bits)
      ensures bits == old(bits) ==> data == old(data) && moved == old(moved) && Contents() == old(Contents())
      ensures bits != old(bits) ==>
        && fresh(data)
        && var kept := if old(size) < Pow2(bits) then old(size) else Pow2(bits);
           Contents() == old(Contents())[..kept] && moved == old(moved) + kept
    {
      var msb := RoundUp(requested);
      var newSize := Pow2(msb);
      if newSize == rangeMask + 1 {
        SamePower(msb, bits);
        return;
      }
      var newData := new T[newSize];
      var moveSize := if size < newSize then size else newSize;
      Drain(newData, moveSize);
      Install(newData, moveSize, newSize, msb);
    }

    // The part of q_push after the check for room.
    method Store(val: T)
      requires Valid() && size < Pow2(bits)
      modifies this`back, this`size, data
      ensures Valid() && Contents() == Fifo.Append(old(Contents()), val)
    {
      ghost var cells, at := data[..], back;
      WindowPush(cells, front, size, val);
      NextBack(front + size, back, bits);
      data[back] := val;
      assert data[..] == cells[at := val];
      size := size + 1;
      back := back + 1;
      back := And(back, rangeMask);
    }

    // The part of q_push that makes room.
    method Grow()
      requires Valid() && size == Pow2(bits) < MAX_CAPACITY
      modifies this
      ensures Valid() && bits == old(bits) + 1 && size == old(size) < Pow2(bits)
      ensures fresh(data) && Contents() == old(Contents()) && moved == old(moved) + Pow2(old(bits))
    {
      ghost var before := Contents();
      RoomToDouble(bits);
      Resize((rangeMask + 1) * 2);
      CeilOfPower(old(bits) + 1, bits);
      assert Contents() == before;
    }

    method Push(val: T)
      requires Valid() && size < MAX_CAPACITY
      modifies this, data
      ensures Valid() && Contents() == Fifo.Append(old(Contents()), val)
      ensures old(size) < Pow2(old(bits)) ==> bits == old(bits) && data == old(data) && moved == old(moved)
      ensures old(size) == Pow2(old(bits)) ==>
        bits == old(bits) + 1 && fresh(data) && moved == old(moved) + Pow2(old(bits))
    {
      if size >= rangeMask + 1 {
        Grow();
      }
      Store(val);
    }
  }
}
