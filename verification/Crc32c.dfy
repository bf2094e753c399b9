/** CRC-32C: the table-driven loop of the runtime, a bit-serial reference
    definition, and what the checksum detects.

    A 32-bit register is its bits, least significant first. The reflected
    algorithm shifts towards bit 0, so one shift drops the head of the sequence.
 */
module Crc32c {

  type Byte = b: int | 0 <= b < 256

  type Word = w: seq<bool> | |w| == 32
    witness [false, false, false, false, false, false, false, false,
     false, false, false, false, false, false, false, false,
     false, false, false, false, false, false, false, false,
     false, false, false, false, false, false, false, false]

  /** 0x82f63b78, the reflected Castagnoli polynomial, bit 0 first. */
  const POLYNOMIAL: Word :=
    [false, false, false, true, true, true, true, false,
     true, true, false, true, true, true, false, false,
     false, true, true, false, true, true, true, true,
     false, true, false, false, false, false, false, true]

  const ZERO: Word :=
    [false, false, false, false, false, false, false, false,
     false, false, false, false, false, false, false, false,
     false, false, false, false, false, false, false, false,
     false, false, false, false, false, false, false, false]

  function Xor(a: Word, b: Word): Word {
    seq(32, i requires 0 <= i < 32 => a[i] != b[i])
  }

  function Not(a: Word): Word {
    seq(32, i requires 0 <= i < 32 => !a[i])
  }

  /** Logical right shift. */
  function Shr(w: Word, n: nat): Word
    requires n <= 32
  {
    w[n..] + seq(n, _ => false)
  }

  /** The low bits of a word, the rest cleared. */
  function Pad(bits: seq<bool>): Word
    requires |bits| <= 32
  {
    bits + seq(32 - |bits|, _ => false)
  }

  /** The `width` low bits of a number, least significant first. */
  function Bits(n: nat, width: nat): (r: seq<bool>)
    ensures |r| == width
  {
    if width == 0 then [] else [n % 2 == 1] + Bits(n / 2, width - 1)
  }

  /** The number a bit sequence denotes. */
  function Value(bits: seq<bool>): nat {
    if bits == [] then 0 else (if bits[0] then 1 else 0) + 2 * Value(bits[1..])
  }

  function Pow2(n: nat): nat {
    if n == 0 then 1 else 2 * Pow2(n - 1)
  }

  lemma {:induction false} ValueOfBits(n: nat, width: nat)
    requires n < Pow2(width)
    ensures Value(Bits(n, width)) == n
  {
    if width > 0 {
      ValueOfBits(n / 2, width - 1);
      assert Bits(n, width)[1..] == Bits(n / 2, width - 1);
    }
  }

  lemma {:induction false} BitsOfValue(bits: seq<bool>)
    ensures Value(bits) < Pow2(|bits|)
    ensures Bits(Value(bits), |bits|) == bits
  {
    if bits != [] {
      BitsOfValue(bits[1..]);
      assert Value(bits) / 2 == Value(bits[1..]);
    }
  }

  // ---- The shift register -------------------------------------------------

  function ShiftOnce(w: Word): Word {
    if w[0] then Xor(Shr(w, 1), POLYNOMIAL) else Shr(w, 1)
  }

  function ShiftTimes(w: Word, n: nat): Word
    decreases n
  {
    if n == 0 then w else ShiftTimes(ShiftOnce(w), n - 1)
  }

  /** The bit-serial definition: one message bit enters the register at a time. */
  function FeedBit(reg: Word, bit: bool): Word {
    if reg[0] != bit then Xor(Shr(reg, 1), POLYNOMIAL) else Shr(reg, 1)
  }

  function Feed(reg: Word, bits: seq<bool>): Word
    decreases |bits|
  {
    if bits == [] then reg else Feed(FeedBit(reg, bits[0]), bits[1..])
  }

  /** The message as a bit string: bytes in order, each least significant bit first. */
  function MessageBits(data: seq<Byte>): (r: seq<bool>)
    ensures |r| == 8 * |data|
  {
    if data == [] then [] else Bits(data[0], 8) + MessageBits(data[1..])
  }

  /** CRC-32C as section 12.1 of RFC 3720 describes it: register preset to
      ones, message bits fed in order, result complemented. `seed` continues an
      earlier checksum. */
  function Reference(data: seq<Byte>, seed: Word := ZERO): Word {
    Not(Feed(Not(seed), MessageBits(data)))
  }

  /** The checksum as a 32-bit number. */
  function Checksum(data: seq<Byte>): nat {
    Value(Reference(data))
  }

  lemma ShiftLinear(a: Word, b: Word)
    ensures ShiftOnce(Xor(a, b)) == Xor(ShiftOnce(a), ShiftOnce(b))
  {
  }

  lemma {:induction false} ShiftTimesLinear(a: Word, b: Word, n: nat)
    ensures ShiftTimes(Xor(a, b), n) == Xor(ShiftTimes(a, n), ShiftTimes(b, n))
    decreases n
  {
    if n > 0 {
      ShiftLinear(a, b);
      ShiftTimesLinear(ShiftOnce(a), ShiftOnce(b), n - 1);
    }
  }

  /** The top bit of the polynomial is set, so a shift remembers the bit it dropped. */
  lemma ShiftInjective(a: Word, b: Word)
    requires ShiftOnce(a) == ShiftOnce(b)
    ensures a == b
  {
    assert ShiftOnce(a)[31] == a[0] && ShiftOnce(b)[31] == b[0];
    forall i | 1 <= i < 32 ensures a[i] == b[i] {
      assert ShiftOnce(a)[i - 1] == (a[i] != (a[0] && POLYNOMIAL[i - 1]));
      assert ShiftOnce(b)[i - 1] == (b[i] != (b[0] && POLYNOMIAL[i - 1]));
    }
  }

  lemma {:induction false} ShiftTimesInjective(a: Word, b: Word, n: nat)
    requires ShiftTimes(a, n) == ShiftTimes(b, n)
    ensures a == b
    decreases n
  {
    if n > 0 {
      ShiftTimesInjective(ShiftOnce(a), ShiftOnce(b), n - 1);
      ShiftInjective(a, b);
    }
  }

  lemma FeedBitIsShift(reg: Word, bits: seq<bool>)
    requires 0 < |bits| <= 32
    ensures ShiftOnce(Xor(reg, Pad(bits))) == Xor(FeedBit(reg, bits[0]), Pad(bits[1..]))
  {
    var x := Xor(reg, Pad(bits));
    assert x[0] == (reg[0] != bits[0]);
    forall i | 0 <= i < 31 ensures Shr(x, 1)[i] == (Shr(reg, 1)[i] != Pad(bits[1..])[i]) {
    }
  }

  /** Feeding up to a word of bits is one exclusive-or followed by shifts. */
  lemma {:induction false} FeedIsShift(reg: Word, bits: seq<bool>)
    requires |bits| <= 32
    ensures Feed(reg, bits) == ShiftTimes(Xor(reg, Pad(bits)), |bits|)
    decreases |bits|
  {
    if bits == [] {
      assert Xor(reg, Pad(bits)) == reg;
    } else {
      FeedBitIsShift(reg, bits);
      FeedIsShift(FeedBit(reg, bits[0]), bits[1..]);
    }
  }

  lemma {:induction false} FeedConcat(reg: Word, a: seq<bool>, b: seq<bool>)
    ensures Feed(reg, a + b) == Feed(Feed(reg, a), b)
    decreases |a|
  {
    if a == [] {
      assert a + b == b;
    } else {
      FeedConcat(FeedBit(reg, a[0]), a[1..], b);
      assert (a + b)[1..] == a[1..] + b;
    }
  }

  lemma {:induction false} FeedInjectiveInRegister(a: Word, b: Word, bits: seq<bool>)
    requires Feed(a, bits) == Feed(b, bits)
    ensures a == b
    decreases |bits|
  {
    if bits != [] {
      FeedInjectiveInRegister(FeedBit(a, bits[0]), FeedBit(b, bits[0]), bits[1..]);
      FeedIsShift(a, [bits[0]]);
      FeedIsShift(b, [bits[0]]);
      XorCancels(a, b, Pad([bits[0]]));
      assert Feed(a, [bits[0]]) == FeedBit(a, bits[0]);
      assert Feed(b, [bits[0]]) == FeedBit(b, bits[0]);
      ShiftTimesInjective(Xor(a, Pad([bits[0]])), Xor(b, Pad([bits[0]])), 1);
    }
  }

  lemma XorCancels(a: Word, b: Word, c: Word)
    ensures Xor(a, c) == Xor(b, c) ==> a == b
    ensures Xor(c, a) == Xor(c, b) ==> a == b
  {
    if Xor(a, c) == Xor(b, c) {
      forall i | 0 <= i < 32 ensures a[i] == b[i] {
        assert Xor(a, c)[i] == Xor(b, c)[i];
      }
    }
    if Xor(c, a) == Xor(c, b) {
      forall i | 0 <= i < 32 ensures a[i] == b[i] {
        assert Xor(c, a)[i] == Xor(c, b)[i];
      }
    }
  }

  /** Up to a word of message bits can be read back from the register. */
  lemma FeedInjectiveInBits(reg: Word, x: seq<bool>, y: seq<bool>)
    requires |x| == |y| <= 32
    requires Feed(reg, x) == Feed(reg, y)
    ensures x == y
  {
    FeedIsShift(reg, x);
    FeedIsShift(reg, y);
    ShiftTimesInjective(Xor(reg, Pad(x)), Xor(reg, Pad(y)), |x|);
    XorCancels(Pad(x), Pad(y), reg);
    assert x == Pad(x)[..|x|] && y == Pad(y)[..|x|];
  }

  /** Two bit strings that differ only inside a window of at most 32 bits leave
      the register in different states, whatever it held before. */
  lemma BurstChangesRegister(reg: Word, before: seq<bool>, x: seq<bool>, y: seq<bool>, after: seq<bool>)
    requires |x| == |y| <= 32
    requires x != y
    ensures Feed(reg, before + x + after) != Feed(reg, before + y + after)
  {
    FeedConcat(reg, before + x, after);
    FeedConcat(reg, before + y, after);
    FeedConcat(reg, before, x);
    FeedConcat(reg, before, y);
    var r := Feed(reg, before);
    if Feed(r, x) == Feed(r, y) {
      FeedInjectiveInBits(r, x, y);
    } else if Feed(Feed(r, x), after) == Feed(Feed(r, y), after) {
      FeedInjectiveInRegister(Feed(r, x), Feed(r, y), after);
    }
  }

  lemma RegroupBits(a: seq<bool>, b: seq<bool>, c: seq<bool>)
    ensures a + b + c == a + (b + c)
  {
  }

  lemma {:induction false} MessageBitsConcat(a: seq<Byte>, b: seq<Byte>)
    ensures MessageBits(a + b) == MessageBits(a) + MessageBits(b)
  {
    if a == [] {
      assert a + b == b;
      assert MessageBits(a) + MessageBits(b) == MessageBits(b);
    } else {
      assert (a + b)[0] == a[0] && (a + b)[1..] == a[1..] + b;
      MessageBitsConcat(a[1..], b);
      RegroupBits(Bits(a[0], 8), MessageBits(a[1..]), MessageBits(b));
    }
  }

  lemma {:induction false} MessageBitsInjective(a: seq<Byte>, b: seq<Byte>)
    requires |a| == |b|
    requires MessageBits(a) == MessageBits(b)
    ensures a == b
  {
    if a != [] {
      assert Bits(a[0], 8) == MessageBits(a)[..8];
      assert Bits(b[0], 8) == MessageBits(b)[..8];
      assert Pow2(8) == 256;
      ValueOfBits(a[0], 8);
      ValueOfBits(b[0], 8);
      assert MessageBits(a[1..]) == MessageBits(a)[8..];
      assert MessageBits(b[1..]) == MessageBits(b)[8..];
      MessageBitsInjective(a[1..], b[1..]);
      assert a == [a[0]] + a[1..] && b == [b[0]] + b[1..];
    }
  }

  /** Every error confined to four consecutive bytes is detected: equal-length
      inputs that differ, and only there, have different checksums. */
  lemma BurstDetected(before: seq<Byte>, x: seq<Byte>, y: seq<Byte>, after: seq<Byte>)
    requires |x| == |y| <= 4
    requires x != y
    ensures Checksum(before + x + after) != Checksum(before + y + after)
  {
    MessageBitsConcat(before + x, after);
    MessageBitsConcat(before, x);
    MessageBitsConcat(before + y, after);
    MessageBitsConcat(before, y);
    if MessageBits(x) == MessageBits(y) {
      MessageBitsInjective(x, y);
    }
    BurstChangesRegister(Not(ZERO), MessageBits(before), MessageBits(x), MessageBits(y), MessageBits(after));
    var a := Feed(Not(ZERO), MessageBits(before + x + after));
    var b := Feed(Not(ZERO), MessageBits(before + y + after));
    if Value(Not(a)) == Value(Not(b)) {
      ComplementInjective(a, b);
    }
  }

  lemma ComplementInjective(a: Word, b: Word)
    requires Value(Not(a)) == Value(Not(b))
    ensures a == b
  {
    BitsOfValue(Not(a));
    BitsOfValue(Not(b));
    forall i | 0 <= i < 32 ensures a[i] == b[i] {
      assert Not(a)[i] == Not(b)[i];
    }
  }

  /** Equal-length inputs that differ in exactly one byte have different checksums. */
  lemma SingleByteDetected(a: seq<Byte>, b: seq<Byte>, k: nat)
    requires |a| == |b| && k < |a|
    requires a[k] != b[k]
    requires a[..k] == b[..k] && a[k + 1..] == b[k + 1..]
    ensures Checksum(a) != Checksum(b)
  {
    assert a == a[..k] + [a[k]] + a[k + 1..];
    assert b == b[..k] + [b[k]] + b[k + 1..];
    assert [a[k]][0] != [b[k]][0];
    BurstDetected(a[..k], [a[k]], [b[k]], a[k + 1..]);
  }

  lemma ChecksumBound(data: seq<Byte>)
    ensures Checksum(data) < 0x1_0000_0000
  {
    BitsOfValue(Reference(data));
    assert Pow2(8) == 256;
    assert Pow2(16) == 256 * Pow2(8);
    assert Pow2(24) == 256 * Pow2(16);
    assert Pow2(32) == 256 * Pow2(24);
  }

  // ---- The table-driven loop ------------------------------------------------

  function ByteWord(b: Byte): Word {
    Pad(Bits(b, 8))
  }

  lemma {:induction false} ShiftOfHighBits(w: Word, n: nat)
    requires n <= 8
    requires forall i :: 0 <= i < n ==> !w[i]
    ensures ShiftTimes(w, n) == Shr(w, n)
    decreases n
  {
    if n > 0 {
      assert ShiftOnce(w) == Shr(w, 1);
      ShiftOfHighBits(Shr(w, 1), n - 1);
      assert Shr(Shr(w, 1), n - 1) == Shr(w, n);
    } else {
      assert Shr(w, 0) == w;
    }
  }

  /** Eight shifts of any register are one table lookup on its low byte. */
  lemma LowByteSplit(w: Word)
    ensures ShiftTimes(w, 8) == Xor(ShiftTimes(Pad(w[..8]), 8), Shr(w, 8))
  {
    var high: Word := seq(8, _ => false) + w[8..];
    assert w == Xor(Pad(w[..8]), high);
    ShiftTimesLinear(Pad(w[..8]), high, 8);
    ShiftOfHighBits(high, 8);
    assert Shr(high, 8) == Shr(w, 8);
  }

  ghost predicate IsTable(t: seq<Word>) {
    |t| == 256 && forall i: Byte :: t[i] == ShiftTimes(ByteWord(i), 8)
  }

  lemma {:induction false} ShiftTimesSnoc(w: Word, n: nat)
    ensures ShiftTimes(w, n + 1) == ShiftOnce(ShiftTimes(w, n))
    decreases n
  {
    if n > 0 {
      ShiftTimesSnoc(ShiftOnce(w), n - 1);
    }
  }

  /** One table entry: eight conditional shifts of the index. */
  method TableEntry(i: Byte) returns (crc: Word)
    ensures crc == ShiftTimes(ByteWord(i), 8)
  {
    crc := ByteWord(i);
    var bit := 0;
    while bit < 8
      invariant 0 <= bit <= 8
      invariant crc == ShiftTimes(ByteWord(i), bit)
    {
      ShiftTimesSnoc(ByteWord(i), bit);
      crc := if crc[0] then Xor(Shr(crc, 1), POLYNOMIAL) else Shr(crc, 1);
      bit := bit + 1;
    }
  }

  /** Fills the 256-entry table. */
  method BuildTable() returns (table: array<Word>)
    ensures fresh(table) && IsTable(table[..])
  {
    table := new Word[256](_ => ZERO);
    var i := 0;
    while i < 256
      invariant 0 <= i <= 256
      invariant forall k: Byte :: k < i ==> table[k] == ShiftTimes(ByteWord(k), 8)
    {
      var crc := TableEntry(i);
      table[i] := crc;
      i := i + 1;
    }
  }

  /** Exclusive-or with a byte leaves the high bits alone. */
  lemma HighBitsStay(crc: Word, b: Byte)
    ensures Shr(Xor(crc, ByteWord(b)), 8) == Shr(crc, 8)
  {
    assert forall i :: 8 <= i < 32 ==> !ByteWord(b)[i];
  }

  /** A table index denotes the bits it was read from. */
  lemma IndexBits(low: seq<bool>)
    requires |low| == 8
    ensures Value(low) < 256 && ByteWord(Value(low)) == Pad(low)
  {
    BitsOfValue(low);
    assert Pow2(8) == 256;
  }

  lemma TableStep(crc: Word, b: Byte, table: seq<Word>)
    requires IsTable(table)
    ensures Value(Xor(crc, ByteWord(b))[..8]) < 256
    ensures Feed(crc, Bits(b, 8))
         == Xor(table[Value(Xor(crc, ByteWord(b))[..8])], Shr(crc, 8))
  {
    var x := Xor(crc, ByteWord(b));
    IndexBits(x[..8]);
    FeedIsShift(crc, Bits(b, 8));
    LowByteSplit(x);
    HighBitsStay(crc, b);
  }

  /** The runtime's loop: complemented seed, one lookup per byte, complemented
      result. It computes the bit-serial checksum. */
  method Compute(data: seq<Byte>, seed: Word) returns (crc: Word)
    ensures crc == Reference(data, seed)
  {
    var table := BuildTable();
    crc := Not(seed);
    var i := 0;
    while i < |data|
      invariant 0 <= i <= |data|
      invariant IsTable(table[..])
      invariant Feed(crc, MessageBits(data[i..])) == Feed(Not(seed), MessageBits(data))
    {
      TableStep(crc, data[i], table[..]);
      FeedConcat(crc, Bits(data[i], 8), MessageBits(data[i + 1..]));
      assert data[i..][1..] == data[i + 1..];
      crc := Xor(table[Value(Xor(crc, ByteWord(data[i]))[..8])], Shr(crc, 8));
      i := i + 1;
    }
    assert data[|data|..] == [];
    crc := Not(crc);
  }

  /** A checksum can be continued from a prefix by passing the prefix checksum as the
      seed, and the checksum of nothing is zero. */
  lemma Continues(a: seq<Byte>, b: seq<Byte>)
    ensures Reference(a + b) == Reference(b, Reference(a))
    ensures Reference([]) == ZERO
  {
    MessageBitsConcat(a, b);
    FeedConcat(Not(ZERO), MessageBits(a), MessageBits(b));
    var r := Feed(Not(ZERO), MessageBits(a));
    assert Not(Not(r)) == r;
    assert Not(Not(ZERO)) == ZERO;
  }
}
