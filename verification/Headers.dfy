// The header parser and printer: scanning loops over the characters, against HeaderText.

module Headers {
  import opened HeaderText

  // http_header: two buffers of MAX_LENGTH characters holding null-terminated strings.
  datatype HttpHeader = HttpHeader(key: seq<char>, value: seq<char>) {
    predicate Valid() { |key| == MAX_LENGTH && |value| == MAX_LENGTH }
  }

  // The buffer after memcpy of text and a terminating null.
  function Written(buffer: seq<char>, text: string): (b: seq<char>)
    requires |text| < |buffer|
    ensures |b| == |buffer| && b[..|text|] == text && b[|text|] == '\0'
  {
    text + ['\0'] + buffer[|text| + 1..]
  }

  function Stored(h: HttpHeader, f: Field): HttpHeader
    requires h.Valid() && Fits(f)
  {
    HttpHeader(Written(h.key, f.key), Written(h.value, f.value))
  }

  // The string in a buffer: what comes before the first null.
  function CString(buffer: seq<char>): string { buffer[..IndexOf(buffer, '\0')] }

  // Read back as C strings, a stored field without nulls is the field.
  lemma StoredIsRead(h: HttpHeader, f: Field)
    requires h.Valid() && Fits(f) && '\0' !in f.key && '\0' !in f.value
    ensures CString(Stored(h, f).key) == f.key && CString(Stored(h, f).value) == f.value
  {
    IndexOfIs(Stored(h, f).key, '\0', |f.key|);
    IndexOfIs(Stored(h, f).value, '\0', |f.value|);
  }

  // ---- One line ----

  // The scans over spaces, forwards from a position and backwards from before one. Neither is
  // bounded: some character that is not a space has to end it.
  ghost predicate Forward(mem: string, from: nat) {
    exists p :: from <= p < |mem| && mem[p] != ' '
  }

  ghost predicate Backward(mem: string, to: nat) {
    to <= |mem| && exists p :: 0 <= p < to && mem[p] != ' '
  }

  // Where the colon of the line mem[off..to] is, or `to`.
  function ColonAt(mem: string, off: nat, to: nat): (colon: nat)
    requires off <= to <= |mem|
    ensures off <= colon <= to
  {
    off + IndexOf(mem[off..to], ':')
  }

  // Every scan that parsing the line makes ends inside mem.
  ghost predicate Scans(mem: string, off: nat, to: nat) {
    && off <= to <= |mem|
    && var colon := ColonAt(mem, off, to);
       && (colon == to ==> to < |mem|)
       && Forward(mem, off) && Backward(mem, colon)
       && Forward(mem, colon + 1) && Backward(mem, to)
  }

  // A part that the scans leave a length for: it holds more than spaces, or it is empty and has
  // no space on either side.
  ghost predicate Copyable(mem: string, from: nat, to: nat) {
    && from <= to <= |mem|
    && if from == to then 0 < from && to < |mem| && mem[from - 1] != ' ' && mem[to] != ' '
       else Trim(mem[from..to]) != []
  }

  ghost predicate KeyCopyable(mem: string, off: nat, to: nat)
    requires off <= to <= |mem|
  {
    Copyable(mem, off, ColonAt(mem, off, to))
  }

  ghost predicate ValueCopyable(mem: string, off: nat, to: nat)
    requires off <= to <= |mem|
  {
    Copyable(mem, ColonAt(mem, off, to) + 1, to)
  }

  // What the source asks of a line: its scans end, and whatever is copied has a length.
  ghost predicate Parsable(mem: string, off: nat, to: nat) {
    && Scans(mem, off, to)
    && (Fits(Parse(mem[off..to])) ==> KeyCopyable(mem, off, to) && ValueCopyable(mem, off, to))
  }

  // The position of the first colon of the line at off, or len.
  method ScanColon(mem: string, off: nat, len: nat) returns (colon: nat)
    requires off + len <= |mem| && (ColonAt(mem, off, off + len) == off + len ==> off + len < |mem|)
    ensures colon == IndexOf(mem[off..off + len], ':') && off + colon == ColonAt(mem, off, off + len)
  {
    colon := 0;
    ghost var line := mem[off..off + len];
    assert line[..len] == line;
    while mem[off + colon] != ':' && colon < len
      invariant colon <= len && ':' !in line[..colon]
      decreases len - colon
    {
      assert line[..colon + 1] == line[..colon] + [mem[off + colon]];
      colon := colon + 1;
    }
    IndexOfIs(line, ':', colon);
  }

  method SkipForward(mem: string, from: nat) returns (i: nat)
    requires Forward(mem, from)
    ensures from <= i < |mem| && mem[i] != ' ' && Blank(mem[from..i])
  {
    ghost var stop :| from <= stop < |mem| && mem[stop] != ' ';
    i := from;
    while mem[i] == ' '
      invariant from <= i <= stop && Blank(mem[from..i])
      decreases stop - i
    {
      assert mem[from..i + 1] == mem[from..i] + [mem[i]];
      i := i + 1;
    }
  }

  method SkipBackward(mem: string, to: nat) returns (i: nat)
    requires Backward(mem, to)
    ensures i < to && mem[i] != ' ' && Blank(mem[i + 1..to])
  {
    ghost var stop :| 0 <= stop < to && mem[stop] != ' ';
    i := to - 1;
    while mem[i] == ' '
      invariant stop <= i < to && Blank(mem[i + 1..to])
      decreases i
    {
      i := i - 1;
    }
  }

  lemma NonSpace(mem: string, from: nat, to: nat) returns (p: nat)
    requires from <= to <= |mem| && Trim(mem[from..to]) != []
    ensures from <= p < to && mem[p] != ' '
  {
    if Blank(mem[from..to]) { TrimOfBlank(mem[from..to]); }
    var i :| 0 <= i < to - from && mem[from..to][i] != ' ';
    p := from + i;
  }

  lemma NarrowedIsTrimmed(mem: string, from: nat, to: nat, start: nat, last: nat)
    requires from <= start <= last < to <= |mem| && mem[start] != ' ' && mem[last] != ' '
    requires Blank(mem[from..start]) && Blank(mem[last + 1..to])
    ensures mem[start..last + 1] == Trim(mem[from..to]) != []
  {
    var part := mem[from..to];
    SliceOfSlice(mem, from, to, 0, start - from);
    SliceOfSlice(mem, from, to, last + 1 - from, to - from);
    SliceOfSlice(mem, from, to, start - from, last + 1 - from);
    assert part[last + 1 - from..] == part[last + 1 - from..to - from];
    TrimIs(part, start - from, last + 1 - from);
  }

  lemma BlankAt(mem: string, from: nat, to: nat, p: nat)
    requires from <= p < to <= |mem| && Blank(mem[from..to])
    ensures mem[p] == ' '
  {
    assert mem[p] == mem[from..to][p - from];
  }

  // A stretch of spaces ends at the first character that is not one.
  lemma BlankEnds(mem: string, from: nat, to: nat, p: nat)
    requires from <= to <= |mem| && Blank(mem[from..to]) && p < |mem| && mem[p] != ' '
    ensures p < from || to <= p
  {
    if from <= p < to { BlankAt(mem, from, to, p); }
  }

  // Where the scans stop in a part with characters other than spaces.
  lemma WithinPart(mem: string, from: nat, to: nat, start: nat, last: nat)
    requires from <= to <= |mem| && Trim(mem[from..to]) != [] && from <= start < |mem| && last < to
    requires mem[start] != ' ' && mem[last] != ' ' && Blank(mem[from..start]) && Blank(mem[last + 1..to])
    ensures from <= start <= last < to && mem[start..last + 1] == Trim(mem[from..to])
  {
    var p := NonSpace(mem, from, to);
    BlankEnds(mem, from, start, p);
    BlankEnds(mem, last + 1, to, p);
    NarrowedIsTrimmed(mem, from, to, start, last);
  }

  // Where they stop in a part of spaces alone.
  lemma AroundBlank(mem: string, from: nat, to: nat, start: nat, last: nat)
    requires from <= to <= |mem| && Trim(mem[from..to]) == [] && from <= start < |mem| && last < to
    requires mem[start] != ' ' && mem[last] != ' '
    ensures to <= start && last < from
  {
    if start < to { SpaceAt(mem, from, to, start); }
    if from <= last { SpaceAt(mem, from, to, last); }
  }

  lemma SpaceAt(mem: string, from: nat, to: nat, p: nat)
    requires from <= p < to <= |mem| && Trim(mem[from..to]) == []
    ensures mem[p] == ' '
  {
    if mem[p] != ' ' {
      assert mem[from..to][p - from] != ' ';
      TrimOfOther(mem[from..to]);
    }
  }

  // The start of a part after its leading spaces, and the length up to its trailing ones. The
  // length is negative unless the part is copyable, and then it is that of the trimmed text.
  method PartBounds(mem: string, from: nat, to: nat) returns (start: nat, length: int)
    requires Forward(mem, from) && Backward(mem, to)
    ensures length >= 0 <==> Copyable(mem, from, to)
    ensures length >= 0 ==> start + length <= |mem| && mem[start..start + length] == Trim(mem[from..to])
  {
    start := SkipForward(mem, from);
    var last := SkipBackward(mem, to);
    length := last as int - start + 1;
    if from <= to {
      if Trim(mem[from..to]) != [] {
        WithinPart(mem, from, to, start, last);
      } else {
        AroundBlank(mem, from, to, start, last);
        if from == to { EmptyPart(mem, from, start, last); }
      }
    }
  }

  lemma EmptyPart(mem: string, at: nat, start: nat, last: nat)
    requires last < at <= start < |mem| && mem[start] != ' ' && mem[last] != ' '
    requires Blank(mem[at..start]) && Blank(mem[last + 1..at])
    ensures last + 1 - start >= 0 <==> Copyable(mem, at, at)
  {
    if mem[at] != ' ' { BlankEnds(mem, at, start, at); }
    if mem[at - 1] != ' ' { BlankEnds(mem, last + 1, at, at - 1); }
  }

  lemma PartsOfLine(mem: string, off: nat, to: nat)
    requires off <= to <= |mem|
    ensures var line, colon := mem[off..to], ColonAt(mem, off, to);
      && KeyPart(line) == mem[off..colon]
      && (':' in line <==> colon < to) && (colon < to ==> mem[colon] == ':')
      && ValuePart(line) == if colon < to then mem[colon + 1..to] else []
  {
    assert ColonAt(mem, off, to) < to ==> mem[off..to][ColonAt(mem, off, to) - off] == ':';
  }

  lemma PartsAreTrimmed(mem: string, off: nat, to: nat)
    requires off <= to <= |mem|
    ensures var f, colon := Parse(mem[off..to]), ColonAt(mem, off, to);
      f.key == Trim(mem[off..colon]) && (colon < to ==> f.value == Trim(mem[colon + 1..to]))
  {
    PartsOfLine(mem, off, to);
  }

  // The bounds of the key and the value of a line whose colon has been found.
  method PartsBounds(mem: string, off: nat, at: nat, to: nat)
      returns (keyStart: nat, keyLen: int, valStart: nat, valLen: int)
    requires Scans(mem, off, to) && at == ColonAt(mem, off, to)
    ensures (keyLen >= 0 <==> KeyCopyable(mem, off, to)) && (valLen >= 0 <==> ValueCopyable(mem, off, to))
    ensures keyLen >= 0 ==> keyStart + keyLen <= |mem| && mem[keyStart..keyStart + keyLen] == Parse(mem[off..to]).key
    ensures valLen >= 0 ==> valStart + valLen <= |mem| && mem[valStart..valStart + valLen] == Parse(mem[off..to]).value
  {
    PartsAreTrimmed(mem, off, to);
    keyStart, keyLen := PartBounds(mem, off, at);
    valStart, valLen := PartBounds(mem, at + 1, to);
  }

  // The lengths that the source computes for the key and the value. Each is negative exactly
  // when the part is not copyable.
  method Lengths(mem: string, off: nat, len: nat) returns (keyStart: nat, keyLen: int, valStart: nat, valLen: int)
    requires Scans(mem, off, off + len)
    ensures keyLen >= 0 <==> KeyCopyable(mem, off, off + len)
    ensures valLen >= 0 <==> ValueCopyable(mem, off, off + len)
    ensures keyLen >= 0 ==>
      keyStart + keyLen <= |mem| && mem[keyStart..keyStart + keyLen] == Parse(mem[off..off + len]).key
    ensures valLen >= 0 ==>
      valStart + valLen <= |mem| && mem[valStart..valStart + valLen] == Parse(mem[off..off + len]).value
  {
    var colon := ScanColon(mem, off, len);
    keyStart, keyLen, valStart, valLen := PartsBounds(mem, off, off + colon, off + len);
  }

  // Where a part is not copyable there is no text to copy.
  lemma NothingToCopy(mem: string, off: nat, to: nat)
    requires off <= to <= |mem|
    ensures !KeyCopyable(mem, off, to) ==> Parse(mem[off..to]).key == []
    ensures !ValueCopyable(mem, off, to) ==> Parse(mem[off..to]).value == []
  {
    PartsOfLine(mem, off, to);
  }

  method StrToHeader(dst: array<HttpHeader>, at: nat, mem: string, off: nat, len: nat) returns (err: int)
    requires at < dst.Length && dst[at].Valid()
    requires Parsable(mem, off, off + len)
    modifies dst
    ensures dst[..] == old(dst[..])[at := dst[at]]
    ensures var f := Parse(mem[off..off + len]);
      && err == (if |f.key| <= 63 && |f.value| <= 63 then 0 else -1)
      && (err == 0 <==> Fits(f))
      && dst[at] == if Fits(f) then Stored(old(dst[at]), f) else old(dst[at])
  {
    var keyStart, keyLen, valStart, valLen := Lengths(mem, off, len);
    NothingToCopy(mem, off, off + len);
    if keyLen + 1 > MAX_LENGTH || valLen + 1 > MAX_LENGTH {
      return -1;
    }
    var key, value := mem[keyStart..keyStart + keyLen], mem[valStart..valStart + valLen];
    dst[at] := HttpHeader(Written(dst[at].key, key), Written(dst[at].value, value));
    return 0;
  }

  // ---- Which lines can be parsed ----

  // Of a line with a key, and no space after it, the value is copyable exactly when the line
  // is well formed.
  lemma CopyableIffWellFormed(mem: string, off: nat, to: nat)
    requires off <= to < |mem| && mem[to] != ' ' && Trim(KeyPart(mem[off..to])) != []
    ensures KeyCopyable(mem, off, to)
    ensures ValueCopyable(mem, off, to) <==> WellFormed(mem[off..to])
  {
    PartsOfLine(mem, off, to);
  }

  // A line with a key and a value can be parsed whatever follows it.
  lemma FilledIsParsable(mem: string, off: nat, to: nat)
    requires off <= to <= |mem|
    requires var line := mem[off..to];
      ':' in line && Trim(KeyPart(line)) != [] && Trim(ValuePart(line)) != []
    ensures Parsable(mem, off, to)
  {
    var colon := ColonAt(mem, off, to);
    PartsOfLine(mem, off, to);
    var p := NonSpace(mem, off, colon);
    var q := NonSpace(mem, colon + 1, to);
  }

  lemma WellFormedIsParsable(mem: string, off: nat, to: nat)
    requires off <= to < |mem| && mem[to] != ' ' && WellFormed(mem[off..to])
    ensures Parsable(mem, off, to)
  {
    if ValuePart(mem[off..to]) != [] {
      FilledIsParsable(mem, off, to);
    } else {
      CopyableIffWellFormed(mem, off, to);
      PartsOfLine(mem, off, to);
      var p := NonSpace(mem, off, ColonAt(mem, off, to));
    }
  }

  // A line without a colon is refused exactly when its text is too long for a key. Otherwise
  // the length given to the second copy is negative; the source's check does not see it.
  lemma ColonlessLine(mem: string, off: nat, to: nat)
    requires Scans(mem, off, to) && ':' !in mem[off..to]
    ensures !ValueCopyable(mem, off, to)
    ensures Parsable(mem, off, to) <==> |Trim(mem[off..to])| + 1 > MAX_LENGTH
  {
    PartsOfLine(mem, off, to);
  }

  lemma ColonlessExample()
    ensures Scans("abc\0x", 0, 3) && !Parsable("abc\0x", 0, 3)
  {
    var mem := "abc\0x";
    assert mem[0] != ' ' && mem[4] != ' ';
    assert mem[0..3] == "abc";
    PartsOfLine(mem, 0, 3);
    ColonlessLine(mem, 0, 3);
    TrimIsTrimmed("abc");
  }

  method StrLen(buffer: seq<char>) returns (n: nat)
    requires '\0' in buffer
    ensures n == IndexOf(buffer, '\0') < |buffer|
  {
    n := 0;
    ghost var z :| 0 <= z < |buffer| && buffer[z] == '\0';
    while buffer[n] != '\0'
      invariant n <= z && '\0' !in buffer[..n]
      decreases z - n
    {
      n := n + 1;
    }
    IndexOfIs(buffer, '\0', n);
  }

  // s with its characters from `at` on replaced by those of t.
  function Overwritten(s: seq<char>, at: nat, t: seq<char>): seq<char>
    requires at + |t| <= |s|
  {
    s[..at] + t + s[at + |t|..]
  }

  lemma OverwrittenNext(s: seq<char>, t: seq<char>, u: seq<char>, now: seq<char>)
    requires |t| + |u| <= |s| && now == Overwritten(s, 0, t)
    ensures Overwritten(now, |t|, u) == Overwritten(s, 0, t + u)
  {
  }

  // memcpy, or a single store, of the text that follows what has been written.
  method Append(dst: array<char>, at: nat, text: seq<char>, ghost before: seq<char>, ghost done: seq<char>)
    requires at == |done| && at + |text| <= dst.Length == |before| && dst[..] == Overwritten(before, 0, done)
    modifies dst
    ensures dst[..] == Overwritten(before, 0, done + text)
  {
    ghost var now := dst[..];
    forall i | 0 <= i < |text| { dst[at + i] := text[i]; }
    assert dst[..] == Overwritten(now, at, text);
    OverwrittenNext(before, done, text, now);
  }

  lemma InParts(key: string, value: string)
    ensures key + [':'] + [' '] + value + ['\0'] == key + ": " + value + ['\0']
  {
  }

  // The five copies that the printer makes.
  method WriteParts(dst: array<char>, key: string, value: string)
    requires |key| + |value| + 3 <= dst.Length
    modifies dst
    ensures dst[..] == Overwritten(old(dst[..]), 0, key + ": " + value + ['\0'])
  {
    ghost var before := dst[..];
    InParts(key, value);
    ghost var colon := key + [':'];
    ghost var space := colon + [' '];
    ghost var line := space + value;
    assert [] + key == key;
    Append(dst, 0, key, before, []);
    Append(dst, |key|, [':'], before, key);
    Append(dst, |key| + 1, [' '], before, colon);
    Append(dst, |key| + 2, value, before, space);
    Append(dst, |key| + 2 + |value|, ['\0'], before, line);
  }

  // Writes the printed header and a null, or nothing when they do not fit. On success the
  // source returns no value.
  method HeaderToStr(dst: array<char>, header: HttpHeader, maxStrLen: nat) returns (tooLong: bool)
    requires '\0' in header.key && '\0' in header.value && maxStrLen <= dst.Length
    modifies dst
    ensures var text := CString(header.key) + ": " + CString(header.value);
      && (tooLong <==> |text| + 1 > maxStrLen)
      && (tooLong ==> dst[..] == old(dst[..]))
      && (!tooLong ==>
            && dst[..|text|] == text && dst[|text|] == '\0'
            && dst[|text| + 1..] == old(dst[..])[|text| + 1..])
  {
    var keyLen := StrLen(header.key);
    var valLen := StrLen(header.value);
    var total := keyLen + valLen + 3;
    if total > maxStrLen {
      return true;
    }
    ghost var before := dst[..];
    WriteParts(dst, header.key[..keyLen], header.value[..valLen]);
    OverwrittenIs(before, CString(header.key) + ": " + CString(header.value), dst[..]);
    tooLong := false;
  }

  lemma OverwrittenIs(s: seq<char>, text: string, now: seq<char>)
    requires |text| < |s| && now == Overwritten(s, 0, text + ['\0'])
    ensures |now| == |s| && now[..|text|] == text && now[|text|] == '\0' && now[|text| + 1..] == s[|text| + 1..]
  {
  }
}
