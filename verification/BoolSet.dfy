// The bit set: bits packed into 64-bit words, grown on demand, against a plain set.

module BitWords {
  import opened Bits

  const WORD_BITS: nat := 64
  const ULONG_LIMIT: nat := 0x1_0000_0000_0000_0000

  // An unsigned long: the type of words and of indices.
  type ULong = n: nat | n < ULONG_LIMIT

  lemma UlongLimit()
    ensures Pow2(WORD_BITS) == ULONG_LIMIT
  {
    assert Pow2(8) == 256;
    Pow2Sum(8, 8);
    Pow2Sum(16, 16);
    Pow2Sum(32, 32);
  }

  // `1 << i`
  function Mask(i: nat): (mask: ULong)
    requires i < WORD_BITS
    ensures mask == Pow2(i)
  {
    UlongLimit();
    Pow2Increases(i, WORD_BITS);
    Pow2(i)
  }

  // `w & ~mask`
  function Clear(w: ULong, mask: ULong): ULong {
    UlongLimit();
    AndBelow(w, Not(mask, WORD_BITS));
    And(w, Not(mask, WORD_BITS))
  }

  // `w | (mask * val)` for a val that is 0 or 1
  function OrIn(w: ULong, mask: ULong, val: nat): ULong
    requires val <= 1
  {
    UlongLimit();
    OrBelow(w, mask * val, WORD_BITS);
    Or(w, mask * val)
  }

  predicate BitIn(w: ULong, i: nat)
    requires i < WORD_BITS
  {
    And(w, Mask(i)) != 0
  }

  lemma BitInIsBit(w: ULong, i: nat)
    requires i < WORD_BITS
    ensures BitIn(w, i) <==> Bit(w, i) == 1
  {
    AndPow2(w, i);
  }

  // Clearing one bit and or-ing in a value sets that bit and leaves every other.
  lemma PutBit(w: ULong, i: nat, val: nat, j: nat)
    requires i < WORD_BITS && j < WORD_BITS && val <= 1
    ensures BitIn(OrIn(Clear(w, Mask(i)), Mask(i), val), j) <==> if i == j then val == 1 else BitIn(w, j)
  {
    UlongLimit();
    Pow2Increases(i, WORD_BITS);
    PutBits(w, i, WORD_BITS, val, j);
    BitInIsBit(w, j);
    BitInIsBit(OrIn(Clear(w, Mask(i)), Mask(i), val), j);
  }

  lemma NoBitOfZero(i: nat)
    requires i < WORD_BITS
    ensures !BitIn(0, i)
  {
  }

  // The set that an array of words stands for.
  function Members(words: seq<ULong>): set<nat> {
    set i: nat | i < WORD_BITS * |words| && BitIn(words[i / WORD_BITS], i % WORD_BITS)
  }

  lemma MembersPut(words: seq<ULong>, index: nat, val: nat)
    requires index < WORD_BITS * |words| && val <= 1
    ensures var major := index / WORD_BITS;
      Members(words[major := OrIn(Clear(words[major], Mask(index % WORD_BITS)), Mask(index % WORD_BITS), val)])
      == if val == 1 then Members(words) + {index} else Members(words) - {index}
  {
    var major, minor := index / WORD_BITS, index % WORD_BITS;
    var words' := words[major := OrIn(Clear(words[major], Mask(minor)), Mask(minor), val)];
    forall i: nat | i < WORD_BITS * |words|
      ensures BitIn(words'[i / WORD_BITS], i % WORD_BITS)
              == if i == index then val == 1 else BitIn(words[i / WORD_BITS], i % WORD_BITS)
    {
      if i / WORD_BITS == major { PutBit(words[major], minor, val, i % WORD_BITS); }
    }
  }

  lemma MembersExtend(words: seq<ULong>, longer: seq<ULong>)
    requires |words| <= |longer| && longer[..|words|] == words
    requires forall k :: |words| <= k < |longer| ==> longer[k] == 0
    ensures Members(longer) == Members(words)
  {
    forall i: nat | i < WORD_BITS * |longer|
      ensures i in Members(longer) <==> i in Members(words)
    {
      if i < WORD_BITS * |words| {
        assert longer[i / WORD_BITS] == words[i / WORD_BITS];
      } else {
        NoBitOfZero(i % WORD_BITS);
      }
    }
  }
}

module BitSet {
  import opened BitWords

  // xs lists s in ascending order, each element once.
  ghost predicate Lists(xs: seq<nat>, s: set<nat>) {
    && (forall i, j :: 0 <= i < j < |xs| ==> xs[i] < xs[j])
    && (forall x :: x in xs <==> x in s)
  }

  lemma ListsAppend(xs: seq<nat>, s: set<nat>, x: nat)
    requires Lists(xs, s) && forall y :: y in s ==> y < x
    ensures Lists(xs + [x], s + {x})
  {
    forall i, j | 0 <= i < j < |xs + [x]| ensures (xs + [x])[i] < (xs + [x])[j] {
      assert xs[i] in xs;
    }
  }

  class BoolSet {
    var size: nat
    var data: array<ULong>

    ghost predicate Valid()
      reads this
    {
      size == data.Length && size >= 1 && WORD_BITS * size <= ULONG_LIMIT
    }

    ghost function Contents(): set<nat>
      reads this, data
    {
      Members(data[..])
    }

    constructor ()
      ensures Valid() && fresh(data) && size == 1 && Contents() == {}
    {
      size := 1;
      data := new ULong[1](_ => 0);
      new;
      MembersExtend([], data[..]);
    }

    // Keeps every bit; the added words hold none.
    method Expand(newSize: nat)
      requires Valid() && size <= newSize && WORD_BITS * newSize <= ULONG_LIMIT
      modifies this
      ensures Valid() && fresh(data) && size == newSize && Contents() == old(Contents())
      ensures data[..old(size)] == old(data[..])
    {
      var oldData := data;
      var newData := new ULong[newSize](_ => 0);
      forall i | 0 <= i < size { newData[i] := oldData[i]; }
      assert newData[..size] == oldData[..];
      MembersExtend(oldData[..], newData[..]);
      data := newData;
      size := newSize;
    }

    // Changes one bit of the set, growing it when the index is past the end.
    method Set(index: ULong, val: int)
      requires Valid()
      modifies this, data
      ensures Valid()
      ensures Contents() == if val != 0 then old(Contents()) + {index} else old(Contents()) - {index}
      ensures index < WORD_BITS * old(size) ==> data == old(data) && size == old(size)
      ensures index >= WORD_BITS * old(size) ==> fresh(data) && size == index / WORD_BITS + 1
    {
      var majorIndex := index / WORD_BITS;
      var requiredSize := majorIndex + 1;
      if requiredSize > size {
        Expand(requiredSize);
      }
      var minorIndex := index % WORD_BITS;
      var on: nat := if val != 0 then 1 else 0;
      var mask := Mask(minorIndex);
      ghost var words := data[..];
      MembersPut(words, index, on);
      data[majorIndex] := Clear(data[majorIndex], mask);
      data[majorIndex] := OrIn(data[majorIndex], mask, on);
      assert data[..] == words[majorIndex := OrIn(Clear(words[majorIndex], mask), mask, on)];
    }

    method Get(index: ULong) returns (on: bool)
      requires Valid() && index < WORD_BITS * size
      ensures on <==> index in Contents()
    {
      var majorIndex, minorIndex := index / WORD_BITS, index % WORD_BITS;
      on := BitIn(data[majorIndex], minorIndex);
    }

    // The walk, with a callback that clears the bit it is called for when that is one of
    // `clears`, and leaves the rest of the set alone: the indices visited, in order. Whatever
    // the callback clears, each word is read once, before any of its bits is visited.
    method Foreach(clears: set<nat>) returns (visited: seq<nat>)
      requires Valid()
      modifies this, data
      ensures Valid() && data == old(data) && size == old(size)
      ensures Lists(visited, old(Contents())) && Contents() == old(Contents()) - clears
    {
      visited := [];
      ghost var all := Contents();
      var majorIndex := 0;
      while majorIndex < size
        invariant majorIndex <= size && Valid() && data == old(data) && size == old(size)
        invariant Walked(all, clears, visited, WORD_BITS * majorIndex)
      {
        var value := data[majorIndex];
        if value == 0 {
          EmptyWord(data[..], majorIndex);
          SkipWord(all, Contents(), clears, WORD_BITS * majorIndex);
        } else {
          WordBits(data[..], majorIndex);
          WordIsUnchanged(all, Contents(), clears, WORD_BITS * majorIndex);
          var minorIndex := 0;
          while minorIndex < WORD_BITS
            invariant minorIndex <= WORD_BITS && Valid() && data == old(data) && size == old(size)
            invariant Walked(all, clears, visited, WORD_BITS * majorIndex + minorIndex)
            invariant forall k :: minorIndex <= k < WORD_BITS ==>
              (BitIn(value, k) <==> WORD_BITS * majorIndex + k in all)
          {
            var index := majorIndex * WORD_BITS + minorIndex;
            BelowNext(all, index);
            if BitIn(value, minorIndex) {
              ListsAppend(visited, Below(all, index), index);
              visited := visited + [index];
              if index in clears { Set(index, 0); }
            }
            minorIndex := minorIndex + 1;
          }
        }
        majorIndex := majorIndex + 1;
      }
      assert Below(all, WORD_BITS * size) == all;
    }

    // The members below `bound` have been visited, and those of them to be cleared are.
    ghost predicate Walked(all: set<nat>, clears: set<nat>, visited: seq<nat>, bound: nat)
      reads this, data
    {
      Lists(visited, Below(all, bound)) && Contents() == all - Below(all, bound) * clears
    }
  }

  // A word with no bits left held none when the walk began.
  lemma SkipWord(all: set<nat>, left: set<nat>, clears: set<nat>, bound: nat)
    requires left == all - Below(all, bound) * clears
    requires Below(left, bound + WORD_BITS) == Below(left, bound)
    ensures Below(all, bound + WORD_BITS) == Below(all, bound)
  {
    forall i: nat | i in all && bound <= i < bound + WORD_BITS ensures i in Below(left, bound) {
      assert i in Below(left, bound + WORD_BITS);
    }
  }

  // The walk has cleared nothing at or above `bound`.
  lemma WordIsUnchanged(all: set<nat>, left: set<nat>, clears: set<nat>, bound: nat)
    requires left == all - Below(all, bound) * clears
    ensures forall k :: bound <= k ==> (k in left <==> k in all)
  {
  }

  lemma WordBits(words: seq<ULong>, major: nat)
    requires major < |words|
    ensures forall k :: 0 <= k < WORD_BITS ==>
      (BitIn(words[major], k) <==> WORD_BITS * major + k in Members(words))
  {
    forall k | 0 <= k < WORD_BITS
      ensures BitIn(words[major], k) <==> WORD_BITS * major + k in Members(words)
    {
      var i := WORD_BITS * major + k;
      assert i / WORD_BITS == major && i % WORD_BITS == k;
    }
  }

  ghost function Below(s: set<nat>, bound: nat): set<nat> {
    set i | i in s && i < bound
  }

  lemma BelowNext(s: set<nat>, index: nat)
    ensures Below(s, index + 1) == if index in s then Below(s, index) + {index} else Below(s, index)
  {
  }

  lemma EmptyWord(words: seq<ULong>, major: nat)
    requires major < |words| && words[major] == 0
    ensures Below(Members(words), WORD_BITS * (major + 1)) == Below(Members(words), WORD_BITS * major)
  {
    forall i: nat | WORD_BITS * major <= i < WORD_BITS * (major + 1) ensures i !in Members(words) {
      NoBitOfZero(i % WORD_BITS);
    }
  }
}
