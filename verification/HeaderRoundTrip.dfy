// Printing a list of headers and reading it back.

module HeaderRoundTrip {
  import opened HeaderText
  import opened Headers
  import opened HeaderList

  // A header that can be sent: texts that fit, are not empty, have no space at their ends and
  // no character that ends a line or a string, and no colon in the key.
  ghost predicate Sendable(f: Field) {
    && Fits(f)
    && f.key != [] && Trimmed(f.key) && ':' !in f.key && '\r' !in f.key && '\0' !in f.key
    && f.value != [] && Trimmed(f.value) && '\r' !in f.value && '\0' !in f.value
  }

  ghost predicate AllSendable(fields: seq<Field>) {
    forall i :: 0 <= i < |fields| ==> Sendable(fields[i])
  }

  function Printed(fields: seq<Field>): seq<string> {
    seq(|fields|, i requires 0 <= i < |fields| => Print(fields[i]))
  }

  lemma PrintedLine(f: Field)
    requires Sendable(f)
    ensures '\r' !in Print(f) && Print(f) != [] && WellFormed(Print(f)) && Parse(Print(f)) == f
  {
    RoundTrip(f);
    var line := Print(f);
    forall i | 0 <= i < |line| ensures line[i] != '\r' {
      assert i < |f.key| ==> line[i] == f.key[i];
      assert i >= |f.key| + 2 ==> line[i] == f.value[i - |f.key| - 2];
    }
  }

  // What HeaderToStr leaves in a buffer is a line that parses back to the header.
  lemma PrintedHeaderReadsBack(h: HttpHeader, buffer: string)
    requires var f := Field(CString(h.key), CString(h.value));
      Sendable(f) && Print(f) + ['\0'] <= buffer
    ensures var f := Field(CString(h.key), CString(h.value));
      Parsable(buffer, 0, |Print(f)|) && Parse(buffer[0..|Print(f)|]) == f
  {
    var f := Field(CString(h.key), CString(h.value));
    PrintedLine(f);
    assert buffer[0..|Print(f)|] == Print(f);
    WellFormedIsParsable(buffer, 0, |Print(f)|);
  }

  // The parser on a line known to hold this field.
  method StoreField(dst: array<HttpHeader>, at: nat, mem: string, len: nat, ghost f: Field) returns (err: int)
    requires at < dst.Length && dst[at].Valid()
    requires Parsable(mem, 0, 0 + len) && Parse(mem[0..0 + len]) == f && Fits(f)
    modifies dst
    ensures err == 0 && dst[..] == old(dst[..])[at := Stored(old(dst[at]), f)]
  {
    err := StrToHeader(dst, at, mem, 0, len);
  }

  // Parsing a buffer that starts with a printed header.
  method ParsePrinted(dst: array<HttpHeader>, at: nat, buffer: string, len: nat, ghost f: Field) returns (err: int)
    requires at < dst.Length && dst[at].Valid() && Sendable(f)
    requires len == |Print(f)| && Print(f) + ['\0'] <= buffer
    modifies dst
    ensures err == 0 && dst[..] == old(dst[..])[at := Stored(old(dst[at]), f)]
  {
    PrintedParses(buffer, len, f);
    err := StoreField(dst, at, buffer, len, f);
  }

  lemma PrintedParses(buffer: string, len: nat, f: Field)
    requires Sendable(f) && len == |Print(f)| && Print(f) + ['\0'] <= buffer
    ensures Parsable(buffer, 0, 0 + len) && Parse(buffer[0..0 + len]) == f
  {
    PrintedLine(f);
    assert buffer[0..0 + len] == Print(f);
    WellFormedIsParsable(buffer, 0, len);
  }

  // A header printed into a buffer that has room, and parsed from it, is the same header.
  method PrintThenParse(text: array<char>, header: HttpHeader, maxStrLen: nat, dst: array<HttpHeader>, at: nat)
      returns (tooLong: bool, err: int)
    requires '\0' in header.key && '\0' in header.value && maxStrLen <= text.Length
    requires Sendable(Field(CString(header.key), CString(header.value)))
    requires at < dst.Length && dst[at].Valid()
    modifies text, dst
    ensures tooLong <==> |CString(header.key)| + |CString(header.value)| + 3 > maxStrLen
    ensures !tooLong ==> err == 0
    ensures !tooLong ==>
      CString(dst[at].key) == CString(header.key) && CString(dst[at].value) == CString(header.value)
    ensures dst[..] == if tooLong then old(dst[..]) else old(dst[..])[at := dst[at]]
  {
    ghost var f := Field(CString(header.key), CString(header.value));
    err := 0;
    tooLong := HeaderToStr(text, header, maxStrLen);
    if !tooLong {
      var buffer := text[..];
      NullFollows(buffer, Print(f));
      var keyLen := StrLen(header.key);
      var valLen := StrLen(header.value);
      StoredIsRead(dst[at], f);
      err := ParsePrinted(dst, at, buffer, keyLen + valLen + 2, f);
    }
  }

  lemma NullFollows(buffer: string, text: string)
    requires |text| < |buffer| && buffer[..|text|] == text && buffer[|text|] == '\0'
    ensures text + ['\0'] <= buffer
  {
  }

  lemma PrintedLines(fields: seq<Field>)
    requires AllSendable(fields)
    ensures Lines(Join(Printed(fields))) == Printed(fields) && ParseAll(Printed(fields)) == fields
  {
    var lines := Printed(fields);
    forall i | 0 <= i < |fields|
      ensures lines[i] != [] && '\r' !in lines[i] && Outcomes(lines)[i] == Sequences.Some(fields[i])
    {
      PrintedLine(fields[i]);
    }
    LinesOfJoin(lines);
    AllKept(fields, Outcomes(lines));
  }

  lemma {:induction false} LineEndStops(mem: string, start: nat, limit: nat)
    requires start <= limit < |mem|
    ensures var e := LineEnd(mem, start, limit); e == limit || mem[e] == '\r'
    decreases limit - start
  {
    if start < limit && mem[start] != '\r' { LineEndStops(mem, start + 1, limit); }
  }

  lemma {:induction false} SpanStops(mem: string, start: nat, len: nat, k: nat)
    requires len < |mem|
    requires k < |SpansFrom(mem, start, LineEnd(mem, start, len), len, len)|
    ensures var line := SpansFrom(mem, start, LineEnd(mem, start, len), len, len)[k];
      line.end <= len && (line.end == len || mem[line.end] == '\r')
    decreases k
  {
    LineEndStops(mem, start, len);
    if k > 0 { SpanStops(mem, LineEnd(mem, start, len) + 2, len, k - 1); }
  }

  // A printed list that a carriage return follows can be read, and the first headers of the
  // list come back unchanged and in order.
  lemma ListRoundTrip(fields: seq<Field>, mem: string, len: nat, size: int)
    requires AllSendable(fields) && len + 2 < |mem|
    requires mem[..len] == Join(Printed(fields)) && mem[len] == '\r'
    ensures Readable(mem, len, size)
    ensures Take(ParseAll(Texts(mem, LoopSpans(mem, len))), size) == Take(fields, size)
  {
    var spans := LoopSpans(mem, len);
    ReturnSplits(mem, len);
    PrintedLines(fields);
    forall i | 0 <= i < |spans| ensures Reachable(mem, len, spans[i]) {
      SpanStops(mem, 0, len, i);
      assert TextAt(mem, spans, i) == Texts(mem, spans)[i] == Printed(fields)[i] == Print(fields[i]);
      PrintedLine(fields[i]);
      WellFormedIsReachable(mem, len, spans[i]);
    }
  }

  lemma WellFormedIsReachable(mem: string, len: nat, line: Span)
    requires len + 2 < |mem| && mem[len] == '\r'
    requires line.start <= line.end <= len && WellFormed(mem[line.start..line.end])
    requires line.end == len || mem[line.end] == '\r'
    ensures Reachable(mem, len, line)
  {
    WellFormedIsParsable(mem, line.start, line.end);
    NextIsInside(mem, len, line.end);
  }

  lemma NextIsInside(mem: string, len: nat, end: nat)
    requires len + 2 < |mem| && end <= len
    ensures LineEnd(mem, end + 2, len + 1) < |mem|
  {
  }

  // What the loop leaves in the headers, read as C strings, is the list.
  lemma FilledIsRead(now: seq<HttpHeader>, before: seq<HttpHeader>, fields: seq<Field>, i: nat)
    requires Filled(now, before, fields) && AllSendable(fields) && i < |fields|
    ensures CString(now[i].key) == fields[i].key && CString(now[i].value) == fields[i].value
  {
    StoredIsRead(before[i], fields[i]);
  }

  // The loop on a printed list.
  method ReadPrinted(dst: array<HttpHeader>, dstSize: int, mem: string, len: nat, ghost fields: seq<Field>)
      returns (n: nat)
    requires dstSize <= dst.Length && forall i :: 0 <= i < dstSize ==> dst[i].Valid()
    requires AllSendable(fields) && len + 2 < |mem|
    requires mem[..len] == Join(Printed(fields)) && mem[len] == '\r'
    modifies dst
    ensures n == |Take(fields, dstSize)|
    ensures forall i :: 0 <= i < n ==>
      CString(dst[i].key) == fields[i].key && CString(dst[i].value) == fields[i].value
    ensures forall i :: n <= i < dst.Length ==> dst[i] == old(dst[i])
  {
    ghost var before := dst[..];
    ListRoundTrip(fields, mem, len, dstSize);
    n := StrToHeaders(dst, dstSize, mem, len);
    ghost var taken := Take(fields, dstSize);
    forall i: nat | i < n
      ensures CString(dst[i].key) == fields[i].key && CString(dst[i].value) == fields[i].value
    {
      assert taken[i] == fields[i];
      FilledIsRead(dst[..], before, taken, i);
    }
  }
}
