/**
 Finding the range of timestamps in an append-only file: the file is read in pieces of any size,
 and annotation lines are put together across pieces.
 */
module AofScan {
  import opened Models

  type Byte = b: int | 0 <= b < 256
  type Bytes = seq<Byte>

  const NEWLINE: Byte := 10
  const TAG: Bytes := [35, 84, 83, 58] // #TS:
  const PLUS: Byte := 43
  const MINUS: Byte := 45
  const ZERO: Byte := 48
  const INT64_MIN := -0x8000_0000_0000_0000
  const INT64_MAX := 0x7fff_ffff_ffff_ffff

  // Parsing one line

  /** The white space a text ends or begins with, in UTF-8. */
  predicate IsSpace(s: Bytes) {
    || (|s| == 1 && (9 <= s[0] <= 13 || s[0] == 32))
    || s == [0xc2, 0x85] || s == [0xc2, 0xa0] || s == [0xe1, 0x9a, 0x80]
    || (|s| == 3 && s[0] == 0xe2 && s[1] == 0x80 && (0x80 <= s[2] <= 0x8a || s[2] in {0xa8, 0xa9, 0xaf}))
    || s == [0xe2, 0x81, 0x9f] || s == [0xe3, 0x80, 0x80]
  }

  function TrimLeft(s: Bytes): (r: Bytes)
    ensures |r| <= |s|
  {
    if |s| >= 1 && IsSpace(s[..1]) then TrimLeft(s[1..])
    else if |s| >= 2 && IsSpace(s[..2]) then TrimLeft(s[2..])
    else if |s| >= 3 && IsSpace(s[..3]) then TrimLeft(s[3..])
    else s
  }

  function TrimRight(s: Bytes): (r: Bytes)
    ensures |r| <= |s|
  {
    if |s| >= 1 && IsSpace(s[|s| - 1..]) then TrimRight(s[..|s| - 1])
    else if |s| >= 2 && IsSpace(s[|s| - 2..]) then TrimRight(s[..|s| - 2])
    else if |s| >= 3 && IsSpace(s[|s| - 3..]) then TrimRight(s[..|s| - 3])
    else s
  }

  function TrimSpace(s: Bytes): Bytes {
    TrimRight(TrimLeft(s))
  }

  predicate IsDigit(b: Byte) {
    ZERO <= b <= ZERO + 9
  }

  function ParseDigits(s: Bytes): Option<nat> {
    if s == [] then Some(0)
    else
      var rest := ParseDigits(s[..|s| - 1]);
      if rest.None? || !IsDigit(s[|s| - 1]) then None else Some(10 * rest.value + (s[|s| - 1] - ZERO))
  }

  /** A decimal number of 64 bits with an optional sign. */
  function ParseInt(s: Bytes): Option<int> {
    if s == [] then None
    else
      var signed := s[0] == PLUS || s[0] == MINUS;
      var digits := if signed then s[1..] else s;
      if digits == [] || ParseDigits(digits).None? then None
      else
        var n: int := ParseDigits(digits).value;
        var v := if s[0] == MINUS then -n else n;
        if INT64_MIN <= v <= INT64_MAX then Some(v) else None
  }

  function ParseAnnotation(line: Bytes): Option<int> {
    var s := TrimSpace(line);
    if !(TAG <= s) then None else ParseInt(TrimSpace(s[4..]))
  }

  // What the server writes

  function Decimal(n: nat): (s: Bytes)
    ensures |s| > 0 && forall i :: 0 <= i < |s| ==> IsDigit(s[i])
  {
    if n < 10 then [ZERO + n] else Decimal(n / 10) + [ZERO + n % 10]
  }

  function FormatInt(v: int): Bytes {
    if v < 0 then [MINUS] + Decimal(-v) else Decimal(v)
  }

  lemma {:induction false} DecimalParses(n: nat)
    ensures ParseDigits(Decimal(n)) == Some(n)
  {
    if n >= 10 {
      DecimalParses(n / 10);
      assert Decimal(n)[..|Decimal(n)| - 1] == Decimal(n / 10);
    } else {
      assert Decimal(n)[..0] == [];
    }
  }

  /** Text that neither begins nor ends with a byte of white space is not trimmed. */
  lemma NotTrimmed(s: Bytes)
    requires s != [] && 32 < s[0] < 128 && 32 < s[|s| - 1] < 128
    ensures TrimSpace(s) == s
  {
  }

  lemma ReturnTrimmed(s: Bytes)
    requires s != [] && 32 < s[0] < 128
    ensures TrimSpace(s + [13]) == TrimSpace(s)
  {
    StartKept(s);
    StartKept(s + [13]);
    assert (s + [13])[|s|..] == [13] && (s + [13])[..|s|] == s;
  }

  lemma StartKept(s: Bytes)
    requires s != [] && 32 < s[0] < 128
    ensures TrimLeft(s) == s
  {
  }

  lemma FormatParses(v: int)
    requires INT64_MIN <= v <= INT64_MAX
    ensures ParseInt(FormatInt(v)) == Some(v)
    ensures FormatInt(v) != [] && 32 < FormatInt(v)[0] < 128 && 32 < FormatInt(v)[|FormatInt(v)| - 1] < 128
  {
    DecimalParses(if v < 0 then -v else v);
    if v < 0 {
      assert FormatInt(v)[1..] == Decimal(-v);
    }
  }

  lemma {:induction false} TrimRightIsPrefix(s: Bytes)
    ensures TrimRight(s) <= s
  {
    if |s| >= 1 && IsSpace(s[|s| - 1..]) {
      TrimRightIsPrefix(s[..|s| - 1]);
    } else if |s| >= 2 && IsSpace(s[|s| - 2..]) {
      TrimRightIsPrefix(s[..|s| - 2]);
    } else if |s| >= 3 && IsSpace(s[|s| - 3..]) {
      TrimRightIsPrefix(s[..|s| - 3]);
    }
  }

  /** A line of the protocol, that is one that begins with something else than the tag or white space, is
      no annotation. */
  lemma OtherLinesIgnored(line: Bytes)
    requires line == [] || 32 < line[0] < 128
    requires !(TAG <= line)
    ensures ParseAnnotation(line) == None
  {
    if line != [] { StartKept(line); }
    TrimRightIsPrefix(line);
  }

  /** An annotation is read back as it was written, with or without a carriage return, for every
      64-bit timestamp. */
  lemma AnnotationRoundTrip(v: int)
    requires INT64_MIN <= v <= INT64_MAX
    ensures ParseAnnotation(TAG + FormatInt(v)) == Some(v)
    ensures ParseAnnotation(TAG + FormatInt(v) + [13]) == Some(v)
  {
    FormatParses(v);
    var s := TAG + FormatInt(v);
    NotTrimmed(s);
    assert s[4..] == FormatInt(v);
    NotTrimmed(FormatInt(v));
    ReturnTrimmed(s);
  }

  // The whole file at once

  /** The position of the first newline, or none. */
  function FirstNewline(s: Bytes): (i: int)
    ensures -1 <= i < |s|
    ensures i >= 0 ==> s[i] == NEWLINE && NEWLINE !in s[..i]
    ensures i < 0 ==> NEWLINE !in s
  {
    if s == [] then -1
    else if s[0] == NEWLINE then 0
    else
      var i := FirstNewline(s[1..]);
      assert i >= 0 ==> s[..i + 1 + 0] == [s[0]] + s[1..][..i];
      if i < 0 then -1 else i + 1
  }

  /** The lines of a text; the last one needs no newline but must not be empty. */
  function Lines(s: Bytes): seq<Bytes>
    decreases |s|
  {
    var i := FirstNewline(s);
    if i >= 0 then [s[..i]] + Lines(s[i + 1..])
    else if s == [] then []
    else [s]
  }

  function Timestamps(lines: seq<Bytes>): seq<int> {
    if lines == [] then []
    else
      var ts := ParseAnnotation(lines[0]);
      if ts.Some? then [ts.value] + Timestamps(lines[1..]) else Timestamps(lines[1..])
  }

  // The running result

  datatype Range = Range(found: bool, minTs: int, maxTs: int)

  const NOTHING := Range(false, 0, 0)

  function Add(r: Range, ts: int): Range {
    Range(true, if r.minTs == 0 || ts < r.minTs then ts else r.minTs, if ts > r.maxTs then ts else r.maxTs)
  }

  function AddAll(r: Range, ts: seq<int>): Range
    decreases |ts|
  {
    if ts == [] then r else AddAll(Add(r, ts[0]), ts[1..])
  }

  function AddLine(r: Range, line: Bytes): Range {
    var ts := ParseAnnotation(line);
    if ts.Some? then Add(r, ts.value) else r
  }

  function Scan(r: Range, s: Bytes): Range {
    AddAll(r, Timestamps(Lines(s)))
  }

  function Concat(chunks: seq<Bytes>): Bytes {
    if chunks == [] then [] else chunks[0] + Concat(chunks[1..])
  }

  lemma FirstNewlineIs(s: Bytes, i: nat)
    requires i < |s| && s[i] == NEWLINE && NEWLINE !in s[..i]
    ensures FirstNewline(s) == i
  {
  }

  /** A complete line at the front is taken on its own, whatever follows. */
  lemma ScanLine(r: Range, data: Bytes, rest: Bytes, i: nat)
    requires i < |data| && data[i] == NEWLINE && NEWLINE !in data[..i]
    ensures Scan(r, data + rest) == Scan(AddLine(r, data[..i]), data[i + 1..] + rest)
  {
    var s := data + rest;
    assert s[..i] == data[..i] && s[i + 1..] == data[i + 1..] + rest;
    FirstNewlineIs(s, i);
    assert Lines(s) == [data[..i]] + Lines(data[i + 1..] + rest);
    assert Lines(s)[1..] == Lines(data[i + 1..] + rest);
  }

  lemma ScanEnd(r: Range, carry: Bytes)
    requires NEWLINE !in carry
    ensures Scan(r, carry) == if carry == [] then r else AddLine(r, carry)
  {
    assert FirstNewline(carry) < 0;
    if carry != [] {
      var lines, ts := [carry], ParseAnnotation(carry);
      assert Lines(carry) == lines && lines[1..] == [];
      assert Timestamps(lines) == if ts.Some? then [ts.value] else [];
      assert ts.Some? ==> AddAll(r, [ts.value]) == AddAll(Add(r, ts.value), [ts.value][1..]) == Add(r, ts.value);
    }
  }

  // The loop over the pieces

  method IndexByte(b: Bytes, c: Byte) returns (i: int)
    ensures -1 <= i < |b|
    ensures i >= 0 ==> b[i] == c && c !in b[..i]
    ensures i < 0 ==> c !in b
  {
    for k := 0 to |b|
      invariant c !in b[..k]
    {
      if b[k] == c {
        return k;
      }
      assert b[..k + 1] == b[..k] + [b[k]];
    }
    assert b[..|b|] == b;
    return -1;
  }

  /** Takes every complete line of a piece and returns what is left of it. */
  method ScanPiece(r0: Range, piece: Bytes, ghost rest: Bytes) returns (r: Range, carry: Bytes)
    ensures NEWLINE !in carry && Scan(r, carry + rest) == Scan(r0, piece + rest)
    ensures (!r0.found ==> r0 == NOTHING) ==> (!r.found ==> r == NOTHING)
  {
    r := r0;
    var data := piece;
    while true
      invariant Scan(r, data + rest) == Scan(r0, piece + rest)
      invariant (!r0.found ==> r0 == NOTHING) ==> (!r.found ==> r == NOTHING)
      decreases |data|
    {
      var i := IndexByte(data, NEWLINE);
      if i < 0 {
        return r, data;
      }
      ScanLine(r, data, rest, i);
      r := AddLine(r, data[..i]);
      data := data[i + 1..];
    }
  }

  /** The result does not depend on how the file was cut into pieces. */
  method ScanTimestamps(chunks: seq<Bytes>) returns (minTs: int, maxTs: int)
    ensures var r := Scan(NOTHING, Concat(chunks)); minTs == r.minTs && maxTs == r.maxTs
  {
    var r, carry := NOTHING, [];
    assert chunks[0..] == chunks && [] + Concat(chunks) == Concat(chunks);
    for i := 0 to |chunks|
      invariant NEWLINE !in carry && (!r.found ==> r == NOTHING)
      invariant Scan(r, carry + Concat(chunks[i..])) == Scan(NOTHING, Concat(chunks))
    {
      NextChunk(carry, chunks, i);
      if |chunks[i]| > 0 {
        r, carry := ScanPiece(r, carry + chunks[i], Concat(chunks[i + 1..]));
      }
    }
    assert chunks[|chunks|..] == [] && carry + [] == carry;
    ScanEnd(r, carry);
    if |carry| > 0 {
      r := AddLine(r, carry);
    }
    if !r.found {
      return 0, 0;
    }
    return r.minTs, r.maxTs;
  }

  lemma NextChunk(carry: Bytes, chunks: seq<Bytes>, i: nat)
    requires i < |chunks|
    ensures carry + Concat(chunks[i..]) == carry + chunks[i] + Concat(chunks[i + 1..])
    ensures chunks[i] == [] ==> carry + Concat(chunks[i..]) == carry + Concat(chunks[i + 1..])
  {
  }

  // What the result means

  ghost predicate IsMin(ts: seq<int>, m: int) {
    m in ts && forall t :: t in ts ==> m <= t
  }

  ghost predicate IsMax(ts: seq<int>, m: int) {
    m in ts && forall t :: t in ts ==> t <= m
  }

  /** What the running minimum and maximum are after any timestamps: zero stands for no minimum yet,
      so a zero is forgotten when a positive one follows. */
  ghost predicate RangeOf(ts: seq<int>, r: Range) {
    && r.found == (ts != [])
    && r.maxTs >= 0 && (r.maxTs in ts || r.maxTs == 0) && (forall t :: t in ts ==> t <= r.maxTs)
    && (r.minTs in ts || (ts == [] && r.minTs == 0))
    && ((exists t :: t in ts && t < 0) ==> r.minTs < 0)
    && (r.minTs < 0 ==> forall t :: t in ts ==> r.minTs <= t)
    && (r.minTs == 0 && ts != [] ==> ts[|ts| - 1] == 0)
    && (ts != [] && ts[|ts| - 1] == 0 ==> r.minTs <= 0)
    && (0 !in ts ==> forall t :: t in ts ==> r.minTs <= t)
  }

  lemma AddKeepsRange(ts: seq<int>, r: Range, t: int)
    requires RangeOf(ts, r)
    ensures RangeOf(ts + [t], Add(r, t))
  {
  }

  lemma {:induction false} AddAllRange(done: seq<int>, r: Range, ts: seq<int>)
    requires RangeOf(done, r)
    ensures RangeOf(done + ts, AddAll(r, ts))
    decreases |ts|
  {
    if ts == [] {
      assert done + ts == done;
    } else {
      AddKeepsRange(done, r, ts[0]);
      AddAllRange(done + [ts[0]], Add(r, ts[0]), ts[1..]);
      assert done + [ts[0]] + ts[1..] == done + ts;
    }
  }

  /** When the scan gives the true range: some timestamp is not negative, and a zero is either
      outdone by a negative one, or absent, or the last. */
  predicate RangeIsTrue(ts: seq<int>) {
    && (exists t :: t in ts && t >= 0)
    && ((exists t :: t in ts && t < 0) || 0 !in ts || ts[|ts| - 1] == 0)
  }

  lemma RangeExact(ts: seq<int>, r: Range)
    requires RangeOf(ts, r) && ts != []
    ensures IsMin(ts, r.minTs) && IsMax(ts, r.maxTs) <==> RangeIsTrue(ts)
  {
  }

  /** A file without annotations gives zeros; otherwise the scan gives the smallest and the largest
      timestamp exactly when RangeIsTrue, and always when all timestamps are positive. */
  lemma ScanExact(s: Bytes)
    ensures var ts, r := Timestamps(Lines(s)), Scan(NOTHING, s);
            && (ts == [] ==> r == NOTHING)
            && (ts != [] ==> (IsMin(ts, r.minTs) && IsMax(ts, r.maxTs) <==> RangeIsTrue(ts)))
            && (ts != [] && (forall t :: t in ts ==> t > 0) ==> IsMin(ts, r.minTs) && IsMax(ts, r.maxTs))
  {
    var ts, r := Timestamps(Lines(s)), Scan(NOTHING, s);
    AddAllRange([], NOTHING, ts);
    assert [] + ts == ts;
    if ts != [] {
      RangeExact(ts, r);
      assert ts[0] in ts;
    }
  }

  /** What the server writes for one timestamp. */
  function AnnotationLine(v: int): Bytes {
    TAG + FormatInt(v) + [NEWLINE]
  }

  lemma NoNewline(v: int)
    ensures NEWLINE !in TAG + FormatInt(v)
  {
  }

  lemma LineFirst(r: Range, line: Bytes, rest: Bytes)
    requires NEWLINE !in line
    ensures Scan(r, line + [NEWLINE] + rest) == Scan(AddLine(r, line), rest)
  {
    var data := line + [NEWLINE];
    assert data[..|line|] == line && data[|line| + 1..] + rest == rest;
    ScanLine(r, data, rest, |line|);
  }

  /** A file that begins with an annotation. */
  lemma AnnotationFirst(r: Range, v: int, rest: Bytes)
    requires INT64_MIN <= v <= INT64_MAX
    ensures Scan(r, AnnotationLine(v) + rest) == Scan(Add(r, v), rest)
  {
    NoNewline(v);
    AnnotationRoundTrip(v);
    LineFirst(r, TAG + FormatInt(v), rest);
  }

  /** A zero is forgotten, and a file of negative timestamps has none for its maximum. */
  lemma RangeCanBeWrong()
    ensures Scan(NOTHING, AnnotationLine(0) + AnnotationLine(5)) == Range(true, 5, 5)
    ensures Scan(NOTHING, AnnotationLine(-3)) == Range(true, -3, 0)
  {
    AnnotationFirst(NOTHING, 0, AnnotationLine(5));
    assert AnnotationLine(5) + [] == AnnotationLine(5);
    AnnotationFirst(Add(NOTHING, 0), 5, []);
    assert AnnotationLine(-3) + [] == AnnotationLine(-3);
    AnnotationFirst(NOTHING, -3, []);
  }
}
