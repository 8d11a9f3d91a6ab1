// The file descriptor and the event flags of one epoll event travel through the worker pool
// packed into the single argument of a job.

module EventPacking {
  import opened Bits
  import opened BitWords

  const INT_LIMIT: int := 0x8000_0000
  const UINT_LIMIT: nat := 0x1_0000_0000
  const LONG_LIMIT: nat := 0x8000_0000_0000_0000

  type CInt = x: int | -INT_LIMIT <= x < INT_LIMIT

  datatype Event = Event(client: CInt, flag: CInt)

  // The 64-bit word of an int converted to int64_t, and the int64_t of a word.
  function WordOf(x: CInt): ULong { if x < 0 then x + ULONG_LIMIT else x }

  // The low 32 bits of an int.
  function HalfOf(x: CInt): nat { if x < 0 then x + UINT_LIMIT else x }

  function Signed(w: ULong): int { if w < LONG_LIMIT then w else w - ULONG_LIMIT }

  // `(int64_t)client | ((int64_t)event_flag << 32)`
  function Pack(e: Event): nat {
    Or(WordOf(e.client), WordOf(e.flag) * UINT_LIMIT % ULONG_LIMIT)
  }

  // `(int) arg` keeps the low half, and `arg >> 32` is arithmetic.
  function Unpack(w: ULong): Event {
    var low := w % UINT_LIMIT;
    Event(if low < INT_LIMIT then low else low - UINT_LIMIT, Signed(w) / UINT_LIMIT)
  }

  // ---- The or of two words, half by half ----

  // `a << k`, before it is cut to the width of a word.
  function Shifted(a: nat, k: nat): nat {
    if k == 0 then a else 2 * Shifted(a, k - 1)
  }

  lemma {:induction false} ShiftedIs(a: nat, k: nat)
    ensures Shifted(a, k) == a * Pow2(k)
    decreases k
  {
    if k > 0 {
      ShiftedIs(a, k - 1);
      var p := Pow2(k - 1);
      assert 2 * (a * p) == a * (2 * p);
    }
  }

  lemma {:induction false} OrStep(u: nat, v: nat)
    ensures Or(u, v) == 2 * Or(u / 2, v / 2) + if u % 2 + v % 2 > 0 then 1 else 0
  {
  }

  lemma OrOfDoubles(x: nat, b: nat, y: nat, d: nat)
    ensures Or(2 * x + b, 2 * y + d) == 2 * Or(x + b / 2, y + d / 2) + if b % 2 + d % 2 > 0 then 1 else 0
  {
    OrStep(2 * x + b, 2 * y + d);
    assert (2 * x + b) / 2 == x + b / 2 && (2 * x + b) % 2 == b % 2;
    assert (2 * y + d) / 2 == y + d / 2 && (2 * y + d) % 2 == d % 2;
  }

  lemma {:induction false} OrSplits(a: nat, b: nat, c: nat, d: nat, k: nat)
    requires b < Pow2(k) && d < Pow2(k)
    ensures Or(Shifted(a, k) + b, Shifted(c, k) + d) == Shifted(Or(a, c), k) + Or(b, d)
    decreases k
  {
    if k > 0 {
      OrOfDoubles(Shifted(a, k - 1), b, Shifted(c, k - 1), d);
      OrSplits(a, b / 2, c, d / 2, k - 1);
      OrStep(b, d);
    }
  }

  lemma {:induction false} OrZero(a: nat)
    ensures Or(a, 0) == a && Or(0, a) == a
    decreases a
  {
    if a > 0 { OrZero(a / 2); }
  }

  lemma {:induction false} OrOnes(a: nat, k: nat)
    requires a < Pow2(k)
    ensures Or(Pow2(k) - 1, a) == Pow2(k) - 1
    decreases k
  {
    if k > 0 { OrOnes(a / 2, k - 1); }
  }

  lemma UintLimit()
    ensures Pow2(32) == UINT_LIMIT
  {
    assert Pow2(8) == 256;
    Pow2Sum(8, 8);
    Pow2Sum(16, 16);
  }

  lemma ShiftedFlag(x: CInt)
    ensures WordOf(x) * UINT_LIMIT % ULONG_LIMIT == HalfOf(x) * UINT_LIMIT
  {
    DivUnique(WordOf(x) * UINT_LIMIT, ULONG_LIMIT, if x < 0 then UINT_LIMIT - 1 else 0, HalfOf(x) * UINT_LIMIT);
  }

  // The flags fill the high half and the client the low half, except that the sign of a
  // negative client fills the high half with ones.
  lemma PackHalves(e: Event)
    ensures var high := if e.client < 0 then UINT_LIMIT - 1 else HalfOf(e.flag);
      Pack(e) == high * UINT_LIMIT + HalfOf(e.client)
  {
    var low, flag := HalfOf(e.client), HalfOf(e.flag);
    var sign := if e.client < 0 then UINT_LIMIT - 1 else 0;
    ShiftedFlag(e.flag);
    UintLimit();
    OrSplits(sign, low, flag, 0, 32);
    ShiftedIs(sign, 32);
    ShiftedIs(flag, 32);
    ShiftedIs(Or(sign, flag), 32);
    OrZero(low);
    if e.client < 0 { OrOnes(flag, 32); } else { OrZero(flag); }
  }

  lemma PackIs(e: Event)
    ensures Pack(e) % 0x1_0000_0000 == if e.client < 0 then e.client + 0x1_0000_0000 else e.client
    ensures e.client >= 0 ==> Pack(e) / 0x1_0000_0000 == if e.flag < 0 then e.flag + 0x1_0000_0000 else e.flag
  {
    PackHalves(e);
    DivUnique(Pack(e), UINT_LIMIT, if e.client < 0 then UINT_LIMIT - 1 else HalfOf(e.flag),
      HalfOf(e.client));
  }

  lemma UnpackIs(high: nat, low: nat)
    requires high < UINT_LIMIT && low < UINT_LIMIT
    ensures high * UINT_LIMIT + low < ULONG_LIMIT
    ensures var e := Unpack(high * UINT_LIMIT + low); HalfOf(e.client) == low && HalfOf(e.flag) == high
  {
    var w := high * UINT_LIMIT + low;
    DivUnique(w, UINT_LIMIT, high, low);
    DivUnique(Signed(w), UINT_LIMIT, if w < LONG_LIMIT then high else high - UINT_LIMIT, low);
  }

  // What survives the trip: an fd, or flags that are all ones.
  predicate Survives(e: Event) { e.client >= 0 || e.flag == -1 }

  // Unpacking always gives back the client. It gives back the flags exactly when the client is
  // not negative or the flags are all ones.
  lemma UnpackOfPack(e: Event)
    ensures Pack(e) < ULONG_LIMIT
    ensures Unpack(Pack(e)).client == e.client && Survives(Unpack(Pack(e)))
    ensures Unpack(Pack(e)) == e <==> Survives(e)
  {
    PackHalves(e);
    UnpackIs(if e.client < 0 then UINT_LIMIT - 1 else HalfOf(e.flag), HalfOf(e.client));
  }
}
