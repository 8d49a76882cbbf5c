/**
 The table-driven CRC-32 that decides which slot a key belongs to, against the bit-at-a-time
 definition of section 8 of RFC 1952.
 */
module Crc32 {
  type Byte = bv8

  /** The 32-bit register. */
  type Word = bv32

  const POLY: bv32 := 0xedb88320

  function Xor(a: Word, b: Word): Word {
    a ^ b
  }

  /** One bit of the polynomial division. */
  function Shift(w: Word): Word {
    if w & 1 == 1 then (w >> 1) ^ POLY else w >> 1
  }

  function Iterate<T>(f: T -> T, x: T, n: nat): T {
    if n == 0 then x else f(Iterate(f, x, n - 1))
  }

  function Not(w: Word): Word {
    !w
  }

  function Mix(w: Word, b: Byte): Word {
    w ^ (b as bv32)
  }

  function Low(w: Word): Word {
    w & 0xff
  }

  function High(w: Word): Word {
    w & 0xffff_ff00
  }

  function Down(w: Word): Word {
    w >> 8
  }

  /** One byte, bit by bit: the register takes in the byte and is shifted eight times. */
  function BitByte(w: Word, b: Byte): Word {
    Iterate(Shift, Mix(w, b), 8)
  }

  function Fold<S, T>(f: (S, T) -> S, s: S, xs: seq<T>): S {
    if xs == [] then s else f(Fold(f, s, xs[..|xs| - 1]), xs[|xs| - 1])
  }

  function BitSerial(w: Word, bytes: seq<Byte>): Word {
    Fold(BitByte, w, bytes)
  }

  /** Continuing a checksum over more bytes: the register is complemented before and after. */
  function Continue(crc: Word, bytes: seq<Byte>): Word {
    Not(BitSerial(Not(crc), bytes))
  }

  /** The CRC-32 of section 8 of RFC 1952. */
  function Crc(bytes: seq<Byte>): Word {
    Continue(0, bytes)
  }

  // Shifting is linear over exclusive or

  lemma HalfXor(a: bv32, b: bv32)
    ensures (a ^ b) >> 1 == (a >> 1) ^ (b >> 1)
    ensures (a ^ b) & 1 == (a & 1) ^ (b & 1)
    ensures (a & 1 == 0 || a & 1 == 1) && (b & 1 == 0 || b & 1 == 1)
  {
  }

  lemma XorMoves(x: bv32, y: bv32, p: bv32)
    ensures (x ^ p) ^ y == (x ^ y) ^ p
    ensures x ^ (y ^ p) == (x ^ y) ^ p
    ensures (x ^ p) ^ (y ^ p) == x ^ y
  {
  }

  lemma ShiftXor(a: Word, b: Word)
    ensures Shift(a ^ b) == Shift(a) ^ Shift(b)
  {
    HalfXor(a, b);
    XorMoves(a >> 1, b >> 1, POLY);
  }

  /** What a function does across an operation, its iterates do too. */
  lemma {:induction false} IterateAcross<T(!new)>(f: T -> T, op: (T, T) -> T, a: T, b: T, n: nat)
    requires forall x, y :: f(op(x, y)) == op(f(x), f(y))
    ensures Iterate(f, op(a, b), n) == op(Iterate(f, a, n), Iterate(f, b, n))
  {
    if n > 0 {
      IterateAcross(f, op, a, b, n - 1);
    }
  }

  lemma ShiftsXor(a: Word, b: Word, n: nat)
    ensures Iterate(Shift, Xor(a, b), n) == Xor(Iterate(Shift, a, n), Iterate(Shift, b, n))
  {
    forall x, y
      ensures Shift(Xor(x, y)) == Xor(Shift(x), Shift(y))
    {
      ShiftXor(x, y);
    }
    IterateAcross(Shift, Xor, a, b, n);
  }

  // Eight shifts only move down what is above the low byte

  lemma ShiftsClear(w: Word)
    requires w & 0xff == 0
    ensures Iterate(Shift, w, 8) == Down(w)
  {
  }

  lemma SplitLow(w: Word, b: Byte)
    ensures var x := Mix(w, b); x == Xor(Low(x), High(x)) && High(x) & 0xff == 0 && Down(High(x)) == Down(w)
  {
  }

  /** One table lookup does the work of eight shifts. */
  lemma ByteByTable(w: Word, b: Byte)
    ensures BitByte(w, b) == Xor(Iterate(Shift, Low(Mix(w, b)), 8), Down(w))
  {
    var x := Mix(w, b);
    SplitLow(w, b);
    ShiftsXor(Low(x), High(x), 8);
    ShiftsClear(High(x));
  }

  /** The shifts of one byte on its own. */
  function Entry(i: nat): Word {
    if i < 256 then Iterate(Shift, i as bv32, 8) else 0
  }

  ghost predicate IsTable(table: seq<Word>) {
    |table| == 256 && Tabulates(Entry, table)
  }

  ghost predicate Tabulates<T>(g: nat -> T, table: seq<T>) {
    forall i: nat :: i < |table| ==> table[i] == g(i)
  }

  lemma TabulatesNext<T>(g: nat -> T, table: seq<T>, i: nat)
    requires i < |table| && Tabulates(g, table[..i]) && table[i] == g(i)
    ensures Tabulates(g, table[..i + 1])
  {
  }

  method TabInit(table: array<Word>)
    requires table.Length == 256
    modifies table
    ensures IsTable(table[..])
  {
    for i := 0 to 256
      invariant Tabulates(Entry, table[..i])
    {
      table[i] := TabEntry(i);
      TabulatesNext(Entry, table[..], i);
      assert table[..][..i + 1] == table[..i + 1];
    }
    assert table[..256] == table[..];
  }

  method TabEntry(i: nat) returns (crc: Word)
    requires i < 256
    ensures crc == Entry(i)
  {
    crc := i as bv32;
    for j := 0 to 8
      invariant crc == Iterate(Shift, i as bv32, j)
    {
      if crc & 1 == 1 {
        crc := (crc >> 1) ^ POLY;
      } else {
        crc := crc >> 1;
      }
    }
  }

  lemma LowIsByte(w: Word)
    ensures 0 <= Low(w) as int < 256 && (Low(w) as int) as bv32 == Low(w)
  {
  }

  lemma ByteEntry(x: Word, i: nat)
    requires i < 256 && i as bv32 == x
    ensures Entry(i) == Iterate(Shift, x, 8)
  {
  }

  lemma TableAt<T>(g: nat -> T, table: seq<T>, i: nat)
    requires Tabulates(g, table) && i < |table|
    ensures table[i] == g(i)
  {
  }

  lemma Lookup(table: seq<Word>, w: Word)
    requires IsTable(table)
    ensures 0 <= Low(w) as int < 256 && table[Low(w) as int] == Iterate(Shift, Low(w), 8)
  {
    LowIsByte(w);
    ByteEntry(Low(w), Low(w) as int);
    TableAt(Entry, table, Low(w) as int);
  }

  method Update(table: array<Word>, start: Word, buf: seq<Byte>) returns (crc: Word)
    requires IsTable(table[..])
    ensures crc == Continue(start, buf)
  {
    crc := Not(start);
    for i := 0 to |buf|
      invariant crc == BitSerial(Not(start), buf[..i])
    {
      FoldNext(BitByte, Not(start), buf, i);
      ByteByTable(crc, buf[i]);
      Lookup(table[..], Mix(crc, buf[i]));
      crc := Xor(table[Low(Mix(crc, buf[i])) as int], Down(crc));
    }
    FoldNext(BitByte, Not(start), buf, |buf|);
    crc := Not(crc);
  }

  method Checksum(table: array<Word>, buf: seq<Byte>) returns (crc: Word)
    requires IsTable(table[..])
    ensures crc == Crc(buf)
  {
    crc := Update(table, 0, buf);
  }

  lemma FoldNext<S, T>(f: (S, T) -> S, s: S, xs: seq<T>, i: nat)
    requires i <= |xs|
    ensures i < |xs| ==> Fold(f, s, xs[..i + 1]) == f(Fold(f, s, xs[..i]), xs[i])
    ensures i == |xs| ==> Fold(f, s, xs[..i]) == Fold(f, s, xs)
  {
    if i < |xs| {
      assert xs[..i + 1][..i] == xs[..i];
    } else {
      assert xs[..i] == xs;
    }
  }

  lemma {:induction false} FoldConcat<S, T>(f: (S, T) -> S, s: S, a: seq<T>, b: seq<T>)
    ensures Fold(f, s, a + b) == Fold(f, Fold(f, s, a), b)
  {
    if b == [] {
      assert a + b == a;
    } else {
      var n := |b| - 1;
      assert (a + b)[..|a| + n] == a + b[..n];
      FoldConcat(f, s, a, b[..n]);
    }
  }

  /** Continuing over one part and then the other is continuing over the whole. */
  lemma ContinueConcat(crc: Word, a: seq<Byte>, b: seq<Byte>)
    ensures Continue(Continue(crc, a), b) == Continue(crc, a + b)
  {
    assert Not(Not(BitSerial(Not(crc), a))) == BitSerial(Not(crc), a);
    FoldConcat(BitByte, Not(crc), a, b);
  }

  // The check value

  lemma EightShifts(w: Word)
    ensures Iterate(Shift, w, 8) == Shift(Shift(Shift(Shift(Shift(Shift(Shift(Shift(w))))))))
  {
    assert forall x: Word :: Iterate(Shift, x, 2) == Shift(Shift(x));
    IterateAdd(Shift, w, 2, 2);
    IterateAdd(Shift, w, 4, 2);
    IterateAdd(Shift, w, 6, 2);
  }

  lemma {:induction false} IterateAdd<T>(f: T -> T, x: T, n: nat, k: nat)
    ensures Iterate(f, x, n + k) == Iterate(f, Iterate(f, x, n), k)
  {
    if k > 0 { IterateAdd(f, x, n, k - 1); }
  }

  /** A fold through known states ends in the last of them. */
  lemma {:induction false} FoldThrough<S, T>(f: (S, T) -> S, states: seq<S>, xs: seq<T>)
    requires |states| == |xs| + 1 && forall i :: 0 <= i < |xs| ==> f(states[i], xs[i]) == states[i + 1]
    ensures Fold(f, states[0], xs) == states[|xs|]
  {
    if xs != [] {
      var n := |xs| - 1;
      FoldThrough(f, states[..n + 1], xs[..n]);
    }
  }

  const DIGITS: seq<Byte> := [0x31, 0x32, 0x33, 0x34, 0x35, 0x36, 0x37, 0x38, 0x39]

  /** The register before the first and after each of the nine digits. */
  const REGISTERS: seq<Word> := [
    0xffff_ffff, 0x7c23_1048, 0xb0ac_bb32, 0x77b7_9c2d, 0x641c_1f5c,
    0x340a_c5e3, 0xf68d_2c9e, 0xaffc_9660, 0x651f_2550, 0x340b_c6d9]

  lemma Registers()
    ensures forall i :: 0 <= i < 9 ==> BitByte(REGISTERS[i], DIGITS[i]) == REGISTERS[i + 1]
  {
    EightShifts(Mix(REGISTERS[0], DIGITS[0]));
    EightShifts(Mix(REGISTERS[1], DIGITS[1]));
    EightShifts(Mix(REGISTERS[2], DIGITS[2]));
    EightShifts(Mix(REGISTERS[3], DIGITS[3]));
    EightShifts(Mix(REGISTERS[4], DIGITS[4]));
    EightShifts(Mix(REGISTERS[5], DIGITS[5]));
    EightShifts(Mix(REGISTERS[6], DIGITS[6]));
    EightShifts(Mix(REGISTERS[7], DIGITS[7]));
    EightShifts(Mix(REGISTERS[8], DIGITS[8]));
    assert BitByte(REGISTERS[0], DIGITS[0]) == REGISTERS[1]
        && BitByte(REGISTERS[1], DIGITS[1]) == REGISTERS[2]
        && BitByte(REGISTERS[2], DIGITS[2]) == REGISTERS[3]
        && BitByte(REGISTERS[3], DIGITS[3]) == REGISTERS[4]
        && BitByte(REGISTERS[4], DIGITS[4]) == REGISTERS[5]
        && BitByte(REGISTERS[5], DIGITS[5]) == REGISTERS[6]
        && BitByte(REGISTERS[6], DIGITS[6]) == REGISTERS[7]
        && BitByte(REGISTERS[7], DIGITS[7]) == REGISTERS[8]
        && BitByte(REGISTERS[8], DIGITS[8]) == REGISTERS[9];
  }

  /** The digits 1 to 9 have the checksum that every CRC-32 has for them. */
  lemma CheckValue()
    ensures Crc(DIGITS) == 0xcbf4_3926
  {
    Registers();
    FoldThrough(BitByte, REGISTERS, DIGITS);
    assert Not(0) == REGISTERS[0] && Not(REGISTERS[9]) == 0xcbf4_3926;
  }
}
