// A printed list of headers in a string that ends where the list ends: a null follows the last
// line instead of a carriage return. The scan takes the null in with the last of several lines,
// and the header still comes back as a C string if its value leaves room for it.

module HeaderNullClosed {
  import opened Sequences
  import opened HeaderText
  import opened Headers
  import opened HeaderList
  import opened HeaderRoundTrip

  // The field read from the last line when the null is taken in.
  function WithNull(f: Field): Field { Field(f.key, f.value + ['\0']) }

  // What becomes of the last of several lines.
  function LastOutcome(f: Field): Option<Field> {
    if |f.value| + 2 <= MAX_LENGTH then Some(WithNull(f)) else None
  }

  lemma LineWithNull(f: Field)
    requires Sendable(f)
    ensures Print(f) + ['\0'] == Print(WithNull(f))
    ensures ':' in Print(f) + ['\0'] && Parse(Print(f) + ['\0']) == WithNull(f)
    ensures Outcome(Print(f) + ['\0']) == LastOutcome(f)
    ensures Trim(KeyPart(Print(f) + ['\0'])) != [] && Trim(ValuePart(Print(f) + ['\0'])) != []
  {
    assert Print(f) + ['\0'] == Print(WithNull(f));
    RoundTrip(WithNull(f));
  }

  // The outcomes of the lines that the loop sees.
  ghost function Arrived(fields: seq<Field>): seq<Option<Field>> {
    seq(|fields|, i requires 0 <= i < |fields| =>
      if i == |fields| - 1 && i > 0 then LastOutcome(fields[i]) else Some(fields[i]))
  }

  lemma BlockOfPrinted(fields: seq<Field>, mem: string, len: nat)
    requires AllSendable(fields) && len < |mem| && mem[..len] == Join(Printed(fields))
    ensures |BlockSpans(mem, len)| == |fields|
    ensures forall i :: 0 <= i < |fields| ==> TextAt(mem, BlockSpans(mem, len), i) == Print(fields[i])
  {
    BlockSpansAreLines(mem, 0, len);
    PrintedLines(fields);
    var spans := BlockSpans(mem, len);
    forall i | 0 <= i < |fields| ensures TextAt(mem, spans, i) == Print(fields[i]) {
      assert TextAt(mem, spans, i) == Texts(mem, spans)[i];
    }
  }

  // The last line of a block that does not end at a carriage return ends with the block.
  lemma {:induction false} LastSpanEnds(mem: string, start: nat, len: nat)
    requires start < len < |mem| && mem[len - 1] != '\r' && (len > start + 1 ==> mem[len - 2] != '\r')
    ensures EndsOpen(SpansFrom(mem, start, LineEnd(mem, start, len), len, len), len)
    decreases len - start
  {
    var e := LineEnd(mem, start, len);
    LineEndStops(mem, start, len);
    var rest := SpansFrom(mem, e + 2, LineEnd(mem, e + 2, len), len, len);
    if e < len {
      LastSpanEnds(mem, e + 2, len);
      assert ([Span(start, e)] + rest)[|rest|] == rest[|rest| - 1];
    } else {
      assert rest == [];
    }
  }

  lemma {:induction false} JoinEndsInLast(lines: seq<string>)
    requires lines != []
    ensures var block, last := Join(lines), lines[|lines| - 1];
      |last| <= |block| && block[|block| - |last|..] == last
    decreases |lines|
  {
    if |lines| > 1 {
      var rest := Join(lines[1..]);
      JoinEndsInLast(lines[1..]);
      var last := lines[|lines| - 1];
      var head := lines[0] + "\r\n";
      assert Join(lines) == head + rest;
      assert (head + rest)[|head| + |rest| - |last|..] == rest[|rest| - |last|..];
    }
  }

  lemma PrintedEndsOpen(fields: seq<Field>, mem: string, len: nat)
    requires AllSendable(fields) && fields != [] && len < |mem| && mem[..len] == Join(Printed(fields))
    ensures EndsOpen(BlockSpans(mem, len), len)
  {
    var last := Print(fields[|fields| - 1]);
    PrintedLine(fields[|fields| - 1]);
    JoinEndsInLast(Printed(fields));
    LastCharacters(mem, len, Join(Printed(fields)), last);
    LastSpanEnds(mem, 0, len);
  }

  lemma LastCharacters(mem: string, len: nat, block: string, last: string)
    requires len <= |mem| && mem[..len] == block && 2 <= |last| <= |block| && block[|block| - |last|..] == last
    requires '\r' !in last
    ensures mem[len - 1] != '\r' && mem[len - 2] != '\r'
  {
    assert mem[len - 1] == block[len - 1] == last[|last| - 1];
    assert mem[len - 2] == block[len - 2] == last[|last| - 2];
  }

  // The lines the loop sees: the block's, except that the last of several has the null.
  lemma ScannedLines(fields: seq<Field>, mem: string, len: nat, i: nat)
    requires AllSendable(fields) && len < |mem| && mem[len] == '\0' && mem[..len] == Join(Printed(fields))
    requires i < |fields|
    ensures |LoopSpans(mem, len)| == |fields|
    ensures TextAt(mem, LoopSpans(mem, len), i)
      == Print(fields[i]) + if i == |fields| - 1 && i > 0 then ['\0'] else []
  {
    var block, n := BlockSpans(mem, len), |fields| - 1;
    BlockOfPrinted(fields, mem, len);
    assert TextAt(mem, block, i) == Print(fields[i]);
    if n == 0 {
      OneLineBlock(mem, len);
    } else {
      PrintedEndsOpen(fields, mem, len);
      OpenBlockStretches(mem, len);
      if i == n {
        assert mem[block[n].start..len + 1] == mem[block[n].start..len] + [mem[len]];
      }
    }
  }

  lemma ScannedOutcome(fields: seq<Field>, mem: string, len: nat, i: nat)
    requires AllSendable(fields) && len < |mem| && mem[len] == '\0' && mem[..len] == Join(Printed(fields))
    requires i < |fields|
    ensures |LoopSpans(mem, len)| == |fields|
    ensures Outcome(TextAt(mem, LoopSpans(mem, len), i)) == Arrived(fields)[i]
  {
    ScannedLines(fields, mem, len, i);
    PrintedLine(fields[i]);
    LineWithNull(fields[i]);
    assert Print(fields[i]) + [] == Print(fields[i]);
  }

  lemma ScannedOutcomes(fields: seq<Field>, mem: string, len: nat)
    requires AllSendable(fields) && len < |mem| && mem[len] == '\0' && mem[..len] == Join(Printed(fields))
    ensures Outcomes(Texts(mem, LoopSpans(mem, len))) == Arrived(fields)
  {
    var spans, outcomes := LoopSpans(mem, len), Outcomes(Texts(mem, LoopSpans(mem, len)));
    ScannedCount(fields, mem, len);
    forall i | 0 <= i < |fields| ensures outcomes[i] == Arrived(fields)[i] {
      ScannedOutcome(fields, mem, len, i);
    }
  }

  lemma ScannedCount(fields: seq<Field>, mem: string, len: nat)
    requires AllSendable(fields) && len < |mem| && mem[len] == '\0' && mem[..len] == Join(Printed(fields))
    ensures |LoopSpans(mem, len)| == |fields|
  {
    if fields == [] {
      BlockOfPrinted(fields, mem, len);
      OneLineBlock(mem, len);
    } else {
      ScannedLines(fields, mem, len, 0);
    }
  }

  // All headers but the last come back, and the last if it stands alone or its value fits.
  lemma KeptOfArrived(fields: seq<Field>)
    requires fields != []
    ensures var n := |fields| - 1;
      Kept(Arrived(fields)) == fields[..n] + KeptOne(if n > 0 then LastOutcome(fields[n]) else Some(fields[n]))
  {
    var n := |fields| - 1;
    AllKept(fields[..n], Arrived(fields)[..n]);
  }

  lemma ScannedIsReadable(fields: seq<Field>, mem: string, len: nat, size: int)
    requires AllSendable(fields) && len + 3 < |mem| && mem[len] == '\0' && mem[..len] == Join(Printed(fields))
    ensures Readable(mem, len, size)
  {
    var spans := LoopSpans(mem, len);
    ScannedCount(fields, mem, len);
    forall i | 0 <= i < |spans| ensures Reachable(mem, len, spans[i]) {
      LoopSpanEnds(mem, len, i);
      ScannedLines(fields, mem, len, i);
      PrintedIsFilled(fields[i], TextAt(mem, spans, i));
      FilledIsReachable(mem, len, spans[i]);
    }
  }

  lemma LoopSpanEnds(mem: string, len: nat, i: nat)
    requires len < |mem| && i < |LoopSpans(mem, len)|
    ensures LoopSpans(mem, len)[i].end <= len + 1
  {
    SpansNext(mem, 0, LineEnd(mem, 0, len), len, len + 1, i);
  }

  ghost predicate FilledLine(line: string) {
    ':' in line && Trim(KeyPart(line)) != [] && Trim(ValuePart(line)) != []
  }

  lemma PrintedIsFilled(f: Field, line: string)
    requires Sendable(f) && (line == Print(f) || line == Print(f) + ['\0'])
    ensures FilledLine(line)
  {
    PrintedLine(f);
    LineWithNull(f);
    assert line == Print(f) ==> Parse(line) == f;
  }

  lemma FilledIsReachable(mem: string, len: nat, line: Span)
    requires len + 3 < |mem| && line.start <= line.end <= len + 1 && FilledLine(mem[line.start..line.end])
    ensures Reachable(mem, len, line)
  {
    FilledIsParsable(mem, line.start, line.end);
    NextWithin(mem, len, line.end);
  }

  lemma NextWithin(mem: string, len: nat, end: nat)
    requires len + 3 < |mem| && end <= len + 1
    ensures LineEnd(mem, end + 2, len + 1) < |mem|
  {
  }

  // The null costs a header exactly when the last of several is wanted and its value fills the
  // buffer.
  ghost predicate LosesLast(fields: seq<Field>, size: int) {
    2 <= |fields| <= size && |fields[|fields| - 1].value| + 2 > MAX_LENGTH
  }

  // The loop on a printed list that a null follows. What it leaves are the list's headers, read
  // as C strings; all that were asked for are there if and only if the null costs none.
  method ReadNullClosed(dst: array<HttpHeader>, dstSize: int, mem: string, len: nat, ghost fields: seq<Field>)
      returns (n: nat)
    requires dstSize <= dst.Length && forall i :: 0 <= i < dstSize ==> dst[i].Valid()
    requires AllSendable(fields) && len + 3 < |mem|
    requires mem[..len] == Join(Printed(fields)) && mem[len] == '\0'
    modifies dst
    ensures n == |Take(fields, dstSize)| - if LosesLast(fields, dstSize) then 1 else 0
    ensures forall i :: 0 <= i < n ==>
      CString(dst[i].key) == fields[i].key && CString(dst[i].value) == fields[i].value
  {
    ghost var before := dst[..];
    ScannedIsReadable(fields, mem, len, dstSize);
    ScannedOutcomes(fields, mem, len);
    n := StrToHeaders(dst, dstSize, mem, len);
    ghost var taken := Take(Kept(Arrived(fields)), dstSize);
    TakenOfArrived(fields, dstSize, taken);
    forall i: nat | i < n
      ensures CString(dst[i].key) == fields[i].key && CString(dst[i].value) == fields[i].value
    {
      ArrivedIsRead(dst[..], before, taken, fields[i], i);
    }
  }

  lemma TakenOfArrived(fields: seq<Field>, size: int, taken: seq<Field>)
    requires taken == Take(Kept(Arrived(fields)), size)
    ensures |taken| == |Take(fields, size)| - if LosesLast(fields, size) then 1 else 0
    ensures |taken| <= |fields|
    ensures forall i :: 0 <= i < |taken| ==> taken[i] == fields[i] || taken[i] == WithNull(fields[i])
  {
    if fields != [] { KeptOfArrived(fields); }
  }

  lemma ArrivedIsRead(now: seq<HttpHeader>, before: seq<HttpHeader>, taken: seq<Field>, f: Field, i: nat)
    requires Filled(now, before, taken) && i < |taken| && Sendable(f) && (taken[i] == f || taken[i] == WithNull(f))
    ensures CString(now[i].key) == f.key && CString(now[i].value) == f.value
  {
    if taken[i] == f {
      StoredIsRead(before[i], f);
    } else {
      IndexOfIs(now[i].key, '\0', |f.key|);
      assert now[i].value[..|f.value|] == WithNull(f).value[..|f.value|] == f.value;
      IndexOfIs(now[i].value, '\0', |f.value|);
    }
  }
}
