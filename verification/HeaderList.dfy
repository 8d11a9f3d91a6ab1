// A block of header lines: the index-scanning loop against "split, parse, keep what fits".
// The scan for the end of every line but the first may run one character past the block,
// so what the loop parses depends on the character that follows the block.

module HeaderList {
  import opened Sequences
  import opened HeaderText
  import opened Headers

  // A line as the loop delimits it: mem[start..end].
  datatype Span = Span(start: nat, end: nat)

  // The first carriage return at or after start, or limit.
  function LineEnd(mem: string, start: nat, limit: nat): (e: nat)
    requires limit <= |mem|
    ensures start <= e && (start <= limit ==> e <= limit)
    decreases limit - start
  {
    if start >= limit || mem[start] == '\r' then start else LineEnd(mem, start + 1, limit)
  }

  // The lines from the one at mem[start..end] on, when the scans for the ends of the lines
  // after it stop at `limit`.
  function SpansFrom(mem: string, start: nat, end: nat, len: nat, limit: nat): seq<Span>
    requires len <= limit <= |mem| && start <= end && (start < len ==> end <= limit)
    decreases len + 3 - start
  {
    if start >= len then []
    else [Span(start, end)] + SpansFrom(mem, end + 2, LineEnd(mem, end + 2, limit), len, limit)
  }

  ghost predicate Inside(mem: string, spans: seq<Span>) {
    forall i :: 0 <= i < |spans| ==> spans[i].start <= spans[i].end <= |mem|
  }

  lemma {:induction false} SpansInside(mem: string, start: nat, end: nat, len: nat, limit: nat)
    requires len <= limit <= |mem| && start <= end && (start < len ==> end <= limit)
    ensures Inside(mem, SpansFrom(mem, start, end, len, limit))
    decreases len + 3 - start
  {
    if start < len { SpansInside(mem, end + 2, LineEnd(mem, end + 2, limit), len, limit); }
  }

  // The lines the loop sees, and the lines of the block.
  function LoopSpans(mem: string, len: nat): (spans: seq<Span>)
    requires len < |mem|
    ensures Inside(mem, spans)
  {
    SpansInside(mem, 0, LineEnd(mem, 0, len), len, len + 1);
    SpansFrom(mem, 0, LineEnd(mem, 0, len), len, len + 1)
  }

  function BlockSpans(mem: string, len: nat): (spans: seq<Span>)
    requires len <= |mem|
    ensures Inside(mem, spans)
  {
    SpansInside(mem, 0, LineEnd(mem, 0, len), len, len);
    SpansFrom(mem, 0, LineEnd(mem, 0, len), len, len)
  }

  function TextAt(mem: string, spans: seq<Span>, i: nat): string
    requires i < |spans| && spans[i].start <= spans[i].end <= |mem|
  {
    mem[spans[i].start..spans[i].end]
  }

  function Texts(mem: string, spans: seq<Span>): seq<string>
    requires Inside(mem, spans)
  {
    seq(|spans|, i requires 0 <= i < |spans| => TextAt(mem, spans, i))
  }

  // ---- When the lines the loop sees are the lines of the block ----

  lemma {:induction false} LineEndIsIndex(mem: string, start: nat, len: nat)
    requires start <= len <= |mem|
    ensures LineEnd(mem, start, len) == IndexFrom(mem[..len], '\r', start)
    decreases len - start
  {
    if start < len && mem[start] != '\r' { LineEndIsIndex(mem, start + 1, len); }
  }

  lemma LinesStep(mem: string, start: nat, len: nat)
    requires start < len <= |mem|
    ensures var e := LineEnd(mem, start, len);
      LinesFrom(mem[..len], start) == [mem[start..e]] + LinesFrom(mem[..len], e + 2)
  {
    LineEndIsIndex(mem, start, len);
    assert mem[start..LineEnd(mem, start, len)] == mem[..len][start..LineEnd(mem, start, len)];
  }

  lemma TextsStep(mem: string, first: Span, rest: seq<Span>, spans: seq<Span>)
    requires first.start <= first.end <= |mem| && spans == [first] + rest && Inside(mem, spans)
    ensures Inside(mem, rest) && Texts(mem, spans) == [mem[first.start..first.end]] + Texts(mem, rest)
  {
    assert forall i :: 0 <= i < |rest| ==> rest[i] == spans[i + 1];
  }

  lemma {:induction false} BlockSpansAreLines(mem: string, start: nat, len: nat)
    requires len <= |mem|
    ensures var spans := SpansFrom(mem, start, LineEnd(mem, start, len), len, len);
      Inside(mem, spans) && Texts(mem, spans) == LinesFrom(mem[..len], start)
    decreases len + 3 - start
  {
    var e := LineEnd(mem, start, len);
    SpansInside(mem, start, e, len, len);
    if start < len {
      BlockSpansAreLines(mem, e + 2, len);
      LinesStep(mem, start, len);
      TextsStep(mem, Span(start, e), SpansFrom(mem, e + 2, LineEnd(mem, e + 2, len), len, len),
        SpansFrom(mem, start, e, len, len));
    }
  }

  // Allowing one more character changes the end of a line only if the line is open.
  lemma {:induction false} EndsAgree(mem: string, start: nat, len: nat)
    requires start <= len < |mem|
    ensures var e := LineEnd(mem, start, len);
      LineEnd(mem, start, len + 1) == if e == len && mem[len] != '\r' then len + 1 else e
    decreases len - start
  {
    if start == len {
      assert mem[len] != '\r' ==> LineEnd(mem, len, len + 1) == LineEnd(mem, len + 1, len + 1);
    } else if mem[start] != '\r' {
      EndsAgree(mem, start + 1, len);
    }
  }

  // Some line from `start` on runs to the end of the block, and the character after the
  // block does not end it.
  ghost predicate OpenFrom(mem: string, start: nat, len: nat)
    requires len < |mem|
    decreases len + 3 - start
  {
    && start < len
    && var e := LineEnd(mem, start, len);
       (e == len && mem[len] != '\r') || OpenFrom(mem, e + 2, len)
  }

  lemma SameSpans(a: Span, b: Span, x: seq<Span>, y: seq<Span>)
    ensures [a] + x == [b] + y <==> a == b && x == y
  {
    assert ([a] + x)[0] == a && ([b] + y)[0] == b;
    assert ([a] + x)[1..] == x && ([b] + y)[1..] == y;
  }

  lemma {:induction false} ScanFromIsSplitIff(mem: string, start: nat, len: nat)
    requires len < |mem|
    ensures SpansFrom(mem, start, LineEnd(mem, start, len + 1), len, len + 1)
         == SpansFrom(mem, start, LineEnd(mem, start, len), len, len)
      <==> !OpenFrom(mem, start, len)
    decreases len + 3 - start
  {
    if start < len {
      EndsAgree(mem, start, len);
      var e, e' := LineEnd(mem, start, len), LineEnd(mem, start, len + 1);
      SameSpans(Span(start, e'), Span(start, e),
        SpansFrom(mem, e' + 2, LineEnd(mem, e' + 2, len + 1), len, len + 1),
        SpansFrom(mem, e + 2, LineEnd(mem, e + 2, len), len, len));
      ScanFromIsSplitIff(mem, e + 2, len);
    }
  }

  // The loop sees the lines of the block exactly when no line but the first is left open
  // at its end.
  lemma {:induction false} ScanIsSplitIff(mem: string, len: nat)
    requires 0 < len < |mem|
    ensures LoopSpans(mem, len) == BlockSpans(mem, len) <==> !OpenFrom(mem, LineEnd(mem, 0, len) + 2, len)
  {
    var e := LineEnd(mem, 0, len);
    ScanFromIsSplitIff(mem, e + 2, len);
    SameSpans(Span(0, e), Span(0, e),
      SpansFrom(mem, e + 2, LineEnd(mem, e + 2, len + 1), len, len + 1),
      SpansFrom(mem, e + 2, LineEnd(mem, e + 2, len), len, len));
  }

  lemma {:induction false} ReturnCloses(mem: string, start: nat, len: nat)
    requires len < |mem| && mem[len] == '\r'
    ensures !OpenFrom(mem, start, len)
    decreases len + 3 - start
  {
    if start < len { ReturnCloses(mem, LineEnd(mem, start, len) + 2, len); }
  }

  // A carriage return after the block makes sure of that.
  lemma ReturnSplits(mem: string, len: nat)
    requires len < |mem| && mem[len] == '\r'
    ensures LoopSpans(mem, len) == BlockSpans(mem, len)
    ensures Texts(mem, LoopSpans(mem, len)) == Lines(mem[..len])
  {
    if len > 0 {
      ReturnCloses(mem, LineEnd(mem, 0, len) + 2, len);
      ScanIsSplitIff(mem, len);
    }
    BlockSpansAreLines(mem, 0, len);
  }

  // ---- The loop ----

  // Every line the loop reaches before it has filled `size` headers is one the parser can be
  // given, and the scan for the next line stays inside mem.
  ghost predicate Readable(mem: string, len: nat, size: int)
    requires len < |mem|
  {
    var spans := LoopSpans(mem, len);
    forall i {:trigger TextAt(mem, spans, i)} :: 0 <= i < |spans| && |ParseAll(Texts(mem, spans)[..i])| < size ==>
      Reachable(mem, len, spans[i])
  }

  ghost predicate Reachable(mem: string, len: nat, line: Span)
    requires len < |mem| && line.start <= line.end
  {
    Parsable(mem, line.start, line.end) && LineEnd(mem, line.end + 2, len + 1) < |mem|
  }

  // The same, with what becomes of each line at hand.
  ghost predicate Follows(mem: string, len: nat, spans: seq<Span>, outcomes: seq<Option<Field>>, size: int)
    requires len < |mem| && Inside(mem, spans)
  {
    && |outcomes| == |spans|
    && forall i {:trigger TextAt(mem, spans, i)} :: 0 <= i < |spans| ==>
         && outcomes[i] == Outcome(TextAt(mem, spans, i))
         && (|Kept(outcomes[..i])| < size ==> Reachable(mem, len, spans[i]))
  }

  lemma OutcomesFollow(mem: string, len: nat, size: int) returns (outcomes: seq<Option<Field>>)
    requires len < |mem| && Readable(mem, len, size)
    ensures Follows(mem, len, LoopSpans(mem, len), outcomes, size)
    ensures Kept(outcomes) == ParseAll(Texts(mem, LoopSpans(mem, len)))
  {
    var spans := LoopSpans(mem, len);
    var lines := Texts(mem, spans);
    outcomes := Outcomes(lines);
    forall i | 0 <= i < |spans|
      ensures outcomes[..i] == Outcomes(lines[..i]) && outcomes[i] == Outcome(TextAt(mem, spans, i))
    {
    }
  }

  lemma {:induction false} SpansNext(mem: string, start: nat, end: nat, len: nat, limit: nat, k: nat)
    requires len <= limit <= |mem| && start <= end && (start < len ==> end <= limit)
    requires k < |SpansFrom(mem, start, end, len, limit)|
    ensures var spans := SpansFrom(mem, start, end, len, limit);
      var next := spans[k].end + 2;
      && spans[k].start < len && spans[k].start <= spans[k].end <= limit
      && (next >= len ==> k + 1 == |spans|)
      && (next < len ==> k + 1 < |spans| && spans[k + 1] == Span(next, LineEnd(mem, next, limit)))
    decreases k
  {
    if k > 0 { SpansNext(mem, end + 2, LineEnd(mem, end + 2, limit), len, limit, k - 1); }
  }

  // The first headers hold these fields, and the others are as they were.
  ghost predicate Filled(now: seq<HttpHeader>, before: seq<HttpHeader>, fields: seq<Field>) {
    && |fields| <= |before| == |now|
    && (forall i :: 0 <= i < |fields| ==>
          before[i].Valid() && Fits(fields[i]) && now[i] == Stored(before[i], fields[i]))
    && (forall i :: |fields| <= i < |now| ==> now[i] == before[i])
  }

  // One more line, which fills the next header or none.
  lemma FillNext(now: seq<HttpHeader>, next: seq<HttpHeader>, before: seq<HttpHeader>, done: seq<Field>,
      outcome: Option<Field>)
    requires Filled(now, before, done) && |done| < |now| && now[|done|].Valid()
    requires outcome.Some? ==> Fits(outcome.value)
    requires next == match outcome case Some(f) => now[|done| := Stored(now[|done|], f)] case None => now
    ensures Filled(next, before, done + KeptOne(outcome))
  {
    assert done + [] == done;
  }

  // The scan of the source, which looks at a character before it tests the limit.
  method ScanLine(mem: string, from: nat, limit: nat) returns (end: nat)
    requires limit <= |mem| && LineEnd(mem, from, limit) < |mem|
    ensures end == LineEnd(mem, from, limit)
  {
    end := from;
    while mem[end] != '\r' && end < limit
      invariant from <= end && LineEnd(mem, end, limit) == LineEnd(mem, from, limit)
      decreases limit - end
    {
      end := end + 1;
    }
  }

  lemma {:induction false} KeptIsTake(outcomes: seq<Option<Field>>, k: nat, size: int)
    requires k <= |outcomes| && (|Kept(outcomes[..k])| <= size || Kept(outcomes[..k]) == [])
    requires k == |outcomes| || |Kept(outcomes[..k])| >= size
    ensures Kept(outcomes[..k]) == Take(Kept(outcomes), size)
  {
    KeptGrows(outcomes, k);
    if k == |outcomes| { assert outcomes[..k] == outcomes; }
  }

  // The call for one line, in terms of what becomes of it.
  method StoreLine(dst: array<HttpHeader>, at: nat, mem: string, ghost len: nat, start: nat, end: nat,
      ghost outcome: Option<Field>) returns (err: int)
    requires at < dst.Length && dst[at].Valid()
    requires len < |mem| && start <= end <= |mem| && Reachable(mem, len, Span(start, end))
    requires outcome == Outcome(mem[start..end])
    modifies dst
    ensures (err == 0 <==> outcome.Some?) && (outcome.Some? ==> Fits(outcome.value))
    ensures dst[..] == match outcome
                       case Some(f) => old(dst[..])[at := Stored(old(dst[at]), f)]
                       case None => old(dst[..])
    ensures LineEnd(mem, end + 2, len + 1) < |mem|
  {
    ghost var was, f := dst[..], Parse(mem[start..end]);
    err := StrToHeader(dst, at, mem, start, end - start);
    assert dst[..] == was[at := if Fits(f) then Stored(was[at], f) else was[at]];
  }

  lemma LineFollows(mem: string, len: nat, spans: seq<Span>, outcomes: seq<Option<Field>>, size: int, k: nat)
    requires len < |mem| && Inside(mem, spans) && Follows(mem, len, spans, outcomes, size)
    requires k < |spans| && |Kept(outcomes[..k])| < size
    ensures outcomes[k] == Outcome(mem[spans[k].start..spans[k].end]) && Reachable(mem, len, spans[k])
  {
    assert TextAt(mem, spans, k) == mem[spans[k].start..spans[k].end];
  }

  // The call for line k.
  method CallLine(dst: array<HttpHeader>, at: nat, mem: string, len: nat, start: nat, end: nat,
      ghost k: nat, ghost spans: seq<Span>, ghost outcomes: seq<Option<Field>>, ghost size: int) returns (err: int)
    requires len < |mem| && Inside(mem, spans) && Follows(mem, len, spans, outcomes, size)
    requires k < |spans| && spans[k] == Span(start, end) && |Kept(outcomes[..k])| < size
    requires at < dst.Length && dst[at].Valid()
    modifies dst
    ensures var outcome := outcomes[k];
      && (err == 0 <==> outcome.Some?) && (outcome.Some? ==> Fits(outcome.value))
      && dst[..] == match outcome
                    case Some(f) => old(dst[..])[at := Stored(old(dst[at]), f)]
                    case None => old(dst[..])
    ensures LineEnd(mem, end + 2, len + 1) < |mem|
  {
    LineFollows(mem, len, spans, outcomes, size, k);
    err := StoreLine(dst, at, mem, len, start, end, outcomes[k]);
  }

  // One turn of the loop: the next header is filled if the field of line k fits.
  method ParseLine(dst: array<HttpHeader>, at: nat, mem: string, len: nat, start: nat, end: nat,
      ghost k: nat, ghost spans: seq<Span>, ghost outcomes: seq<Option<Field>>, ghost size: int,
      ghost before: seq<HttpHeader>) returns (index: nat)
    requires len < |mem| && Inside(mem, spans) && Follows(mem, len, spans, outcomes, size)
    requires k < |spans| && spans[k] == Span(start, end)
    requires at == |Kept(outcomes[..k])| < size <= dst.Length
    requires Filled(dst[..], before, Kept(outcomes[..k])) && before[at].Valid()
    modifies dst
    ensures index == |Kept(outcomes[..k + 1])| <= at + 1 && Filled(dst[..], before, Kept(outcomes[..k + 1]))
    ensures LineEnd(mem, end + 2, len + 1) < |mem|
  {
    ghost var now, done := dst[..], Kept(outcomes[..k]);
    var err := CallLine(dst, at, mem, len, start, end, k, spans, outcomes, size);
    index := at + if err == 0 then 1 else 0;
    KeptNext(outcomes, k);
    FillNext(now, dst[..], before, done, outcomes[k]);
  }

  // Line k of the loop is at mem[start..end], or the loop is past the last one.
  ghost predicate At(spans: seq<Span>, len: nat, k: nat, start: nat, end: nat) {
    if k < |spans| then start < len && spans[k] == Span(start, end) else k == |spans| && start >= len
  }

  lemma {:induction false} AtNext(mem: string, len: nat, k: nat, start: nat, end: nat)
    requires len < |mem| && start < len && At(LoopSpans(mem, len), len, k, start, end)
    ensures At(LoopSpans(mem, len), len, k + 1, end + 2, LineEnd(mem, end + 2, len + 1))
  {
    SpansNext(mem, 0, LineEnd(mem, 0, len), len, len + 1, k);
  }

  method NextLine(mem: string, len: nat, end: nat, ghost k: nat, ghost start: nat, ghost spans: seq<Span>)
      returns (start': nat, end': nat)
    requires len < |mem| && LineEnd(mem, end + 2, len + 1) < |mem|
    requires spans == LoopSpans(mem, len) && start < len && At(spans, len, k, start, end)
    ensures At(spans, len, k + 1, start', end')
  {
    start' := end + 2;
    end' := ScanLine(mem, start', len + 1);
    AtNext(mem, len, k, start, end);
  }

  method StrToHeaders(dst: array<HttpHeader>, dstSize: int, mem: string, len: nat) returns (n: nat)
    requires dstSize <= dst.Length && forall i :: 0 <= i < dstSize ==> dst[i].Valid()
    requires len < |mem| && Readable(mem, len, dstSize)
    modifies dst
    ensures var fields := Take(ParseAll(Texts(mem, LoopSpans(mem, len))), dstSize);
      n == |fields| && Filled(dst[..], old(dst[..]), fields)
  {
    n := 0;
    var start: nat := 0;
    var end := ScanLine(mem, 0, len);
    ghost var before, spans, k: nat := dst[..], LoopSpans(mem, len), 0;
    ghost var outcomes := OutcomesFollow(mem, len, dstSize);
    while start < len && n < dstSize
      invariant At(spans, len, k, start, end)
      invariant n == |Kept(outcomes[..k])| && (n <= dstSize || n == 0)
      invariant Filled(dst[..], before, Kept(outcomes[..k]))
      decreases |spans| - k
    {
      assert n < dst.Length && before[n].Valid();
      n := ParseLine(dst, n, mem, len, start, end, k, spans, outcomes, dstSize, before);
      start, end := NextLine(mem, len, end, k, start, spans);
      k := k + 1;
    }
    KeptIsTake(outcomes, k, dstSize);
  }

  // The loop on a block that a carriage return follows: the lines of the block, parsed.
  method BlockToHeaders(dst: array<HttpHeader>, dstSize: int, mem: string, len: nat) returns (n: nat)
    requires dstSize <= dst.Length && forall i :: 0 <= i < dstSize ==> dst[i].Valid()
    requires len < |mem| && mem[len] == '\r' && Readable(mem, len, dstSize)
    modifies dst
    ensures var fields := Take(ParseAll(Lines(mem[..len])), dstSize);
      n == |fields| && Filled(dst[..], old(dst[..]), fields)
  {
    ReturnSplits(mem, len);
    n := StrToHeaders(dst, dstSize, mem, len);
  }

  // ---- A block that something else follows ----

  // The last of these lines ends at the end of the block.
  ghost predicate EndsOpen(spans: seq<Span>, len: nat) {
    spans != [] && spans[|spans| - 1].end == len
  }

  // The same lines, the last one longer by a character.
  function Stretched(spans: seq<Span>): seq<Span>
    requires spans != []
  {
    var n := |spans| - 1;
    spans[n := Span(spans[n].start, spans[n].end + 1)]
  }

  lemma {:induction false} OpenEndStretches(mem: string, start: nat, len: nat, block: seq<Span>, loop: seq<Span>)
    requires len < |mem| && mem[len] != '\r' && EndsOpen(block, len)
    requires block == SpansFrom(mem, start, LineEnd(mem, start, len), len, len)
    requires loop == SpansFrom(mem, start, LineEnd(mem, start, len + 1), len, len + 1)
    ensures loop == Stretched(block)
    decreases len + 3 - start
  {
    var e, e' := LineEnd(mem, start, len), LineEnd(mem, start, len + 1);
    var blockRest := SpansFrom(mem, e + 2, LineEnd(mem, e + 2, len), len, len);
    var loopRest := SpansFrom(mem, e' + 2, LineEnd(mem, e' + 2, len + 1), len, len + 1);
    EndsAgree(mem, start, len);
    assert block == [Span(start, e)] + blockRest && loop == [Span(start, e')] + loopRest;
    if e + 2 < len {
      OpenEndStretches(mem, e + 2, len, blockRest, loopRest);
      StretchedTail(Span(start, e), blockRest);
    } else {
      assert blockRest == [] && loopRest == [];
    }
  }

  lemma StretchedTail(first: Span, rest: seq<Span>)
    requires rest != []
    ensures Stretched([first] + rest) == [first] + Stretched(rest)
  {
  }

  // When the block ends inside its second or a later line, and no carriage return follows, the
  // loop takes that line with the character after the block.
  lemma OpenBlockStretches(mem: string, len: nat)
    requires len < |mem| && mem[len] != '\r'
    requires |BlockSpans(mem, len)| >= 2 && EndsOpen(BlockSpans(mem, len), len)
    ensures LoopSpans(mem, len) == Stretched(BlockSpans(mem, len))
  {
    var e := LineEnd(mem, 0, len);
    var blockRest := SpansFrom(mem, e + 2, LineEnd(mem, e + 2, len), len, len);
    var loopRest := SpansFrom(mem, e + 2, LineEnd(mem, e + 2, len + 1), len, len + 1);
    FirstSpan(mem, len);
    OpenEndStretches(mem, e + 2, len, blockRest, loopRest);
    StretchedTail(Span(0, e), blockRest);
  }

  lemma {:induction false} FirstSpan(mem: string, len: nat)
    requires 0 < len < |mem|
    ensures var e := LineEnd(mem, 0, len);
      && BlockSpans(mem, len) == [Span(0, e)] + SpansFrom(mem, e + 2, LineEnd(mem, e + 2, len), len, len)
      && LoopSpans(mem, len) == [Span(0, e)] + SpansFrom(mem, e + 2, LineEnd(mem, e + 2, len + 1), len, len + 1)
  {
  }

  // A block of one line is taken as it is.
  lemma OneLineBlock(mem: string, len: nat)
    requires len < |mem| && |BlockSpans(mem, len)| <= 1
    ensures LoopSpans(mem, len) == BlockSpans(mem, len)
  {
    if len > 0 {
      FirstSpan(mem, len);
      var e := LineEnd(mem, 0, len);
      assert e + 2 < len ==> |SpansFrom(mem, e + 2, LineEnd(mem, e + 2, len), len, len)| >= 1;
    }
  }
}
