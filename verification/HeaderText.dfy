// Header lines as text: what parsing and printing one field line mean, and how a block of
// lines is split. The line format is the field line of section 5 of RFC 9112, with spaces
// as the only optional whitespace.

module HeaderText {
  import opened Sequences

  const MAX_LENGTH: nat := 64

  datatype Field = Field(key: string, value: string)

  // ---- Trimming ----

  function TrimLeft(s: string): string {
    if s != [] && s[0] == ' ' then TrimLeft(s[1..]) else s
  }

  function TrimRight(s: string): string {
    if s != [] && s[|s| - 1] == ' ' then TrimRight(s[..|s| - 1]) else s
  }

  function Trim(s: string): string {
    TrimRight(TrimLeft(s))
  }

  predicate Blank(s: string) {
    forall i :: 0 <= i < |s| ==> s[i] == ' '
  }

  lemma {:induction false} TrimLeftDrops(s: string, n: nat)
    requires n <= |s| && Blank(s[..n]) && (n < |s| ==> s[n] != ' ')
    ensures TrimLeft(s) == s[n..]
    decreases n
  {
    if n > 0 {
      assert s[0] == s[..n][0];
      assert s[1..][..n - 1] == s[..n][1..];
      TrimLeftDrops(s[1..], n - 1);
    }
  }

  lemma {:induction false} TrimRightDrops(s: string, n: nat)
    requires n <= |s| && Blank(s[n..]) && (n > 0 ==> s[n - 1] != ' ')
    ensures TrimRight(s) == s[..n]
    decreases |s| - n
  {
    if n < |s| {
      var t := s[..|s| - 1];
      assert s[|s| - 1] == s[n..][|s| - 1 - n];
      assert forall i :: 0 <= i < |t[n..]| ==> t[n..][i] == s[n..][i];
      TrimRightDrops(t, n);
      assert t[..n] == s[..n];
    }
  }

  // The text between the first and the last non-space characters.
  lemma TrimIs(s: string, first: nat, end: nat)
    requires first < end <= |s| && Blank(s[..first]) && Blank(s[end..])
    requires s[first] != ' ' && s[end - 1] != ' '
    ensures Trim(s) == s[first..end]
  {
    TrimLeftDrops(s, first);
    var t := s[first..];
    assert t[end - first..] == s[end..];
    TrimRightDrops(t, end - first);
    assert t[..end - first] == s[first..end];
  }

  // No space at either end.
  predicate Trimmed(s: string) {
    s != [] ==> s[0] != ' ' && s[|s| - 1] != ' '
  }

  lemma {:induction false} TrimLeftStarts(s: string)
    ensures TrimLeft(s) != [] ==> TrimLeft(s)[0] != ' '
    ensures |TrimLeft(s)| <= |s| && TrimLeft(s) == s[|s| - |TrimLeft(s)|..]
  {
    if s != [] && s[0] == ' ' { TrimLeftStarts(s[1..]); }
  }

  lemma {:induction false} TrimRightEnds(s: string)
    ensures TrimRight(s) != [] ==> TrimRight(s)[|TrimRight(s)| - 1] != ' '
    ensures TrimRight(s) <= s
  {
    if s != [] && s[|s| - 1] == ' ' { TrimRightEnds(s[..|s| - 1]); }
  }

  lemma TrimIsTrimmed(s: string)
    ensures Trimmed(Trim(s)) && |Trim(s)| <= |s|
  {
    TrimLeftStarts(s);
    TrimRightEnds(TrimLeft(s));
  }

  lemma TrimOfBlank(s: string)
    requires Blank(s)
    ensures Trim(s) == []
  {
    TrimLeftDrops(s, |s|);
  }

  lemma {:induction false} TrimLeftOfOther(s: string)
    requires !Blank(s)
    ensures TrimLeft(s) != [] && TrimLeft(s)[0] != ' '
  {
    TrimLeftStarts(s);
    if s[0] == ' ' {
      var i :| 0 <= i < |s| && s[i] != ' ';
      assert s[1..][i - 1] != ' ';
      TrimLeftOfOther(s[1..]);
    }
  }

  lemma {:induction false} TrimRightKeeps(s: string)
    requires s != [] && s[0] != ' '
    ensures TrimRight(s) != []
  {
    if s[|s| - 1] == ' ' { TrimRightKeeps(s[..|s| - 1]); }
  }

  lemma TrimOfOther(s: string)
    requires !Blank(s)
    ensures Trim(s) != []
  {
    TrimLeftOfOther(s);
    TrimRightKeeps(TrimLeft(s));
  }

  lemma TrimOfTrimmed(s: string)
    requires Trimmed(s)
    ensures Trim(s) == s
  {
  }

  lemma SliceOfSlice(s: string, a: nat, b: nat, c: nat, d: nat)
    requires a <= b <= |s| && c <= d <= b - a
    ensures s[a..b][c..d] == s[a + c..a + d]
  {
    assert s[a..b] == s[a..][..b - a];
    assert s[a + c..a + d] == s[a..][c..d];
  }

  // ---- One line ----

  // The first position of c at or after i, or |s|.
  function IndexFrom(s: string, c: char, i: nat): (r: nat)
    requires i <= |s|
    ensures i <= r <= |s|
    decreases |s| - i
  {
    if i == |s| || s[i] == c then i else IndexFrom(s, c, i + 1)
  }

  lemma {:induction false} IndexFromIsFirst(s: string, c: char, i: nat)
    requires i <= |s|
    ensures var r := IndexFrom(s, c, i); (r < |s| ==> s[r] == c) && forall k :: i <= k < r ==> s[k] != c
    decreases |s| - i
  {
    if i < |s| && s[i] != c { IndexFromIsFirst(s, c, i + 1); }
  }

  function IndexOf(s: string, c: char): (r: nat)
    ensures r <= |s| && (r < |s| ==> s[r] == c) && (c in s ==> r < |s|)
  {
    IndexFromIsFirst(s, c, 0);
    IndexFrom(s, c, 0)
  }

  // s from i on.
  function From(s: string, i: nat): string {
    if i <= |s| then s[i..] else []
  }

  function KeyPart(line: string): string { line[..IndexOf(line, ':')] }

  function ValuePart(line: string): string { From(line, IndexOf(line, ':') + 1) }

  // The lines the parser can be given: a colon, a key that is not all spaces, and a value
  // that is empty or not all spaces.
  predicate WellFormed(line: string) {
    ':' in line && Trim(KeyPart(line)) != [] && (ValuePart(line) == [] || Trim(ValuePart(line)) != [])
  }

  // A line is the trimmed text either side of its first colon.
  function Parse(line: string): Field {
    Field(Trim(KeyPart(line)), Trim(ValuePart(line)))
  }

  // A text fits a buffer with its terminating null: up to 63 characters do.
  predicate Fits(f: Field) {
    |f.key| + 1 <= MAX_LENGTH && |f.value| + 1 <= MAX_LENGTH
  }

  function Print(f: Field): string {
    f.key + ": " + f.value
  }

  lemma IndexOfIs(s: string, c: char, i: nat)
    requires i <= |s| && (i < |s| ==> s[i] == c) && c !in s[..i]
    ensures IndexOf(s, c) == i
  {
    IndexFromIsFirst(s, c, 0);
    forall k | 0 <= k < i ensures s[k] != c {
      assert s[..i][k] in s[..i];
    }
  }

  lemma PrintHasColon(f: Field)
    ensures ':' in Print(f) && IndexOf(Print(f), ':') <= |f.key|
  {
    assert Print(f)[|f.key|] == ':';
    IndexFromIsFirst(Print(f), ':', 0);
  }

  // A printed field parses back to itself exactly when its key holds no colon and both
  // texts are trimmed.
  lemma RoundTrip(f: Field)
    ensures ':' in Print(f)
    ensures Parse(Print(f)) == f <==> ':' !in f.key && Trimmed(f.key) && Trimmed(f.value)
  {
    var line := Print(f);
    PrintHasColon(f);
    if ':' !in f.key {
      assert line[..|f.key|] == f.key;
      IndexOfIs(line, ':', |f.key|);
      assert ValuePart(line) == " " + f.value;
      TrimSpaceThen(f.value);
      if Trimmed(f.key) { TrimOfTrimmed(f.key); }
      if Trimmed(f.value) { TrimOfTrimmed(f.value); }
      TrimIsTrimmed(f.key);
      TrimIsTrimmed(f.value);
    } else {
      // The key read back stops at its first colon.
      TrimIsTrimmed(KeyPart(line));
      var i :| 0 <= i < |f.key| && f.key[i] == ':';
      IndexFromIsFirst(line, ':', 0);
      assert line[i] == ':';
      assert |KeyPart(line)| < |f.key|;
    }
  }

  lemma TrimSpaceThen(s: string)
    ensures Trim(" " + s) == Trim(s)
  {
    assert (" " + s)[1..] == s;
  }

  // ---- A block of lines ----

  // Lines end at a carriage return, and the character after it is skipped.
  function LinesFrom(block: string, i: nat): seq<string>
    decreases |block| + 2 - i
  {
    if i >= |block| then []
    else
      var e := IndexFrom(block, '\r', i);
      [block[i..e]] + LinesFrom(block, e + 2)
  }

  function Lines(block: string): seq<string> { LinesFrom(block, 0) }

  // The block in which these lines stand.
  function Join(lines: seq<string>): string {
    if lines == [] then []
    else if |lines| == 1 then lines[0]
    else lines[0] + "\r\n" + Join(lines[1..])
  }

  lemma {:induction false} IndexInTail(s: string, c: char, k: nat, i: nat)
    requires k <= |s| && i <= |s| - k
    ensures IndexFrom(s, c, k + i) == k + IndexFrom(s[k..], c, i)
    decreases |s| - k - i
  {
    if i < |s| - k && s[k + i] != c { IndexInTail(s, c, k, i + 1); }
  }

  lemma LineInTail(s: string, tail: string, k: nat, i: nat)
    requires k <= |s| && tail == s[k..] && i < |tail|
    ensures var e := IndexFrom(tail, '\r', i);
      && LinesFrom(tail, i) == [tail[i..e]] + LinesFrom(tail, e + 2)
      && LinesFrom(s, k + i) == [tail[i..e]] + LinesFrom(s, k + (e + 2))
  {
    IndexInTail(s, '\r', k, i);
    var e := IndexFrom(tail, '\r', i);
    assert s[k + i..k + e] == tail[i..e];
  }

  lemma {:induction false} LinesInTail(s: string, tail: string, k: nat, i: nat)
    requires k <= |s| && tail == s[k..]
    ensures LinesFrom(s, k + i) == LinesFrom(tail, i)
    decreases |tail| + 2 - i
  {
    if i < |tail| {
      LineInTail(s, tail, k, i);
      LinesInTail(s, tail, k, IndexFrom(tail, '\r', i) + 2);
    }
  }

  lemma {:induction false} FirstLine(block: string, first: string)
    requires first <= block && block != [] && '\r' !in first && (|first| < |block| ==> block[|first|] == '\r')
    ensures Lines(block) == [first] + LinesFrom(block, |first| + 2)
  {
    assert block[0..|first|] == block[..|first|] == first;
    IndexOfIs(block, '\r', |first|);
  }

  // Any lines can be got back, empty ones too, if the last is not empty.
  lemma {:induction false} LinesOfJoin(lines: seq<string>)
    requires forall i :: 0 <= i < |lines| ==> '\r' !in lines[i]
    requires lines != [] ==> lines[|lines| - 1] != []
    ensures Lines(Join(lines)) == lines
  {
    if lines != [] {
      var block, first := Join(lines), lines[0];
      FirstLine(block, first);
      if |lines| == 1 {
        assert lines == [first];
      } else {
        assert block[|first| + 2..] == Join(lines[1..]);
        LinesInTail(block, Join(lines[1..]), |first| + 2, 0);
        LinesOfJoin(lines[1..]);
        assert lines == [first] + lines[1..];
      }
    }
  }

  // Parsing a list of lines: the fields that fit, in order.
  function Outcome(line: string): Option<Field> {
    if Fits(Parse(line)) then Some(Parse(line)) else None
  }

  function Outcomes(lines: seq<string>): seq<Option<Field>> {
    seq(|lines|, i requires 0 <= i < |lines| => Outcome(lines[i]))
  }

  function Kept(outcomes: seq<Option<Field>>): seq<Field> {
    if outcomes == [] then []
    else Kept(outcomes[..|outcomes| - 1]) + KeptOne(outcomes[|outcomes| - 1])
  }

  function KeptOne(outcome: Option<Field>): seq<Field> {
    if outcome.Some? then [outcome.value] else []
  }

  function ParseAll(lines: seq<string>): seq<Field> { Kept(Outcomes(lines)) }

  function Take(fields: seq<Field>, n: int): seq<Field> {
    if n <= 0 then [] else if |fields| <= n then fields else fields[..n]
  }

  lemma KeptNext(outcomes: seq<Option<Field>>, k: nat)
    requires k < |outcomes|
    ensures Kept(outcomes[..k + 1]) == Kept(outcomes[..k]) + KeptOne(outcomes[k])
  {
    assert outcomes[..k + 1][..k] == outcomes[..k];
  }

  lemma {:induction false} KeptGrows(outcomes: seq<Option<Field>>, k: nat)
    requires k <= |outcomes|
    ensures Kept(outcomes[..k]) <= Kept(outcomes)
    decreases |outcomes| - k
  {
    if k < |outcomes| {
      KeptNext(outcomes, k);
      KeptGrows(outcomes, k + 1);
    } else {
      assert outcomes[..k] == outcomes;
    }
  }

  lemma {:induction false} AllKept(fields: seq<Field>, outcomes: seq<Option<Field>>)
    requires |outcomes| == |fields| && forall i :: 0 <= i < |fields| ==> outcomes[i] == Some(fields[i])
    ensures Kept(outcomes) == fields
  {
    if fields != [] {
      var n := |fields| - 1;
      AllKept(fields[..n], outcomes[..n]);
      assert fields == fields[..n] + [fields[n]];
    }
  }
}
