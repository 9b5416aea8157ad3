/** The 16-bit frame check sequence (RFC 1662, Appendix C): the table-driven
    computation, and the bit-serial shift register it is proved to compute. */
module Fcs16 {
  import opened Bytes

  // One row of eight entries for each line of the source's table.
  const FCS_TABLE: seq<seq<bv16>> := [
    [0x0000, 0x1189, 0x2312, 0x329b, 0x4624, 0x57ad, 0x6536, 0x74bf],
    [0x8c48, 0x9dc1, 0xaf5a, 0xbed3, 0xca6c, 0xdbe5, 0xe97e, 0xf8f7],
    [0x1081, 0x0108, 0x3393, 0x221a, 0x56a5, 0x472c, 0x75b7, 0x643e],
    [0x9cc9, 0x8d40, 0xbfdb, 0xae52, 0xdaed, 0xcb64, 0xf9ff, 0xe876],
    [0x2102, 0x308b, 0x0210, 0x1399, 0x6726, 0x76af, 0x4434, 0x55bd],
    [0xad4a, 0xbcc3, 0x8e58, 0x9fd1, 0xeb6e, 0xfae7, 0xc87c, 0xd9f5],
    [0x3183, 0x200a, 0x1291, 0x0318, 0x77a7, 0x662e, 0x54b5, 0x453c],
    [0xbdcb, 0xac42, 0x9ed9, 0x8f50, 0xfbef, 0xea66, 0xd8fd, 0xc974],
    [0x4204, 0x538d, 0x6116, 0x709f, 0x0420, 0x15a9, 0x2732, 0x36bb],
    [0xce4c, 0xdfc5, 0xed5e, 0xfcd7, 0x8868, 0x99e1, 0xab7a, 0xbaf3],
    [0x5285, 0x430c, 0x7197, 0x601e, 0x14a1, 0x0528, 0x37b3, 0x263a],
    [0xdecd, 0xcf44, 0xfddf, 0xec56, 0x98e9, 0x8960, 0xbbfb, 0xaa72],
    [0x6306, 0x728f, 0x4014, 0x519d, 0x2522, 0x34ab, 0x0630, 0x17b9],
    [0xef4e, 0xfec7, 0xcc5c, 0xddd5, 0xa96a, 0xb8e3, 0x8a78, 0x9bf1],
    [0x7387, 0x620e, 0x5095, 0x411c, 0x35a3, 0x242a, 0x16b1, 0x0738],
    [0xffcf, 0xee46, 0xdcdd, 0xcd54, 0xb9eb, 0xa862, 0x9af9, 0x8b70],
    [0x8408, 0x9581, 0xa71a, 0xb693, 0xc22c, 0xd3a5, 0xe13e, 0xf0b7],
    [0x0840, 0x19c9, 0x2b52, 0x3adb, 0x4e64, 0x5fed, 0x6d76, 0x7cff],
    [0x9489, 0x8500, 0xb79b, 0xa612, 0xd2ad, 0xc324, 0xf1bf, 0xe036],
    [0x18c1, 0x0948, 0x3bd3, 0x2a5a, 0x5ee5, 0x4f6c, 0x7df7, 0x6c7e],
    [0xa50a, 0xb483, 0x8618, 0x9791, 0xe32e, 0xf2a7, 0xc03c, 0xd1b5],
    [0x2942, 0x38cb, 0x0a50, 0x1bd9, 0x6f66, 0x7eef, 0x4c74, 0x5dfd],
    [0xb58b, 0xa402, 0x9699, 0x8710, 0xf3af, 0xe226, 0xd0bd, 0xc134],
    [0x39c3, 0x284a, 0x1ad1, 0x0b58, 0x7fe7, 0x6e6e, 0x5cf5, 0x4d7c],
    [0xc60c, 0xd785, 0xe51e, 0xf497, 0x8028, 0x91a1, 0xa33a, 0xb2b3],
    [0x4a44, 0x5bcd, 0x6956, 0x78df, 0x0c60, 0x1de9, 0x2f72, 0x3efb],
    [0xd68d, 0xc704, 0xf59f, 0xe416, 0x90a9, 0x8120, 0xb3bb, 0xa232],
    [0x5ac5, 0x4b4c, 0x79d7, 0x685e, 0x1ce1, 0x0d68, 0x3ff3, 0x2e7a],
    [0xe70e, 0xf687, 0xc41c, 0xd595, 0xa12a, 0xb0a3, 0x8238, 0x93b1],
    [0x6b46, 0x7acf, 0x4854, 0x59dd, 0x2d62, 0x3ceb, 0x0e70, 0x1ff9],
    [0xf78f, 0xe606, 0xd49d, 0xc514, 0xb1ab, 0xa022, 0x92b9, 0x8330],
    [0x7bc7, 0x6a4e, 0x58d5, 0x495c, 0x3de3, 0x2c6a, 0x1ef1, 0x0f78]
  ]

  const CLOSED_RESIDUE: bv16 := 0x0f47
  const INITIAL: bv16 := 0xffff

  function Wide16(b: bv8): bv16 {
    b as bv16
  }

  function Wide32(x: bv16): bv32 {
    x as bv32
  }

  function FcsTable(i: bv8): bv32 {
    FCS_TABLE[(i >> 3) as nat][(i & 7) as nat] as bv32
  }

  function InitFcs16(): bv32 {
    Wide32(INITIAL)
  }

  function AddOneByteToFcs16(fcs: bv32, b: byte): bv32 {
    Mix(UpperByte(fcs), FcsTable(TableIndex(fcs, Octet(b))))
  }

  function UpperByte(fcs: bv32): bv32 {
    (fcs & 0xffff) >> 8
  }

  function TableIndex(fcs: bv32, b: bv8): bv8 {
    ((fcs ^ Wide32(Wide16(b))) & 0xff) as bv8
  }

  function Mix(x: bv32, y: bv32): bv32 {
    x ^ y
  }

  function CloseFcs16(fcs: bv32): bv16 {
    ((fcs ^ 0xffff) & 0xffff) as bv16
  }

  // ---------------------------------------------------------------
  // The reference: a register clocked once for every data bit.

  function Xor(a: bv16, b: bv16): bv16 {
    a ^ b
  }

  function Half(r: bv16): bv16 {
    r >> 1
  }

  predicate Odd(r: bv16) {
    r & 1 == 1
  }

  function Feedback(on: bool): bv16 {
    if on then 0x8408 else 0
  }

  function ShiftBit(r: bv16, bit: bool): bv16 {
    Xor(Half(r), Feedback(Odd(r) != bit))
  }

  function Register(r: bv16, bits: seq<bool>): bv16
    decreases |bits|
  {
    if |bits| == 0 then r else Register(ShiftBit(r, bits[0]), bits[1..])
  }

  /** The lowest `n` bits of a word in the order they are sent, least
      significant first. */
  function WordBits(w: bv16, n: nat): (bits: seq<bool>)
    ensures |bits| == n
    decreases n
  {
    if n == 0 then [] else [Odd(w)] + WordBits(Half(w), n - 1)
  }

  function ByteBits(b: byte): (bits: seq<bool>)
    ensures |bits| == 8
  {
    WordBits(Wide16(Octet(b)), 8)
  }

  function Bits(s: ByteVector): (bits: seq<bool>)
    ensures |bits| == 8 * |s|
  {
    if |s| == 0 then [] else ByteBits(s[0]) + Bits(s[1..])
  }

  /** The register after a byte string, from the initial value. */
  function Fold(s: ByteVector): bv16 {
    Register(INITIAL, Bits(s))
  }

  /** The checksum of a byte string. */
  function Fcs(s: ByteVector): bv16 {
    Xor(Fold(s), 0xffff)
  }

  function Low8(w: bv16): bv8 {
    (w & 0xff) as bv8
  }

  function High8(w: bv16): bv8 {
    (w >> 8) as bv8
  }

  /** The checksum as it is sent: low byte first. */
  function FcsBytes(s: ByteVector): (t: ByteVector)
    ensures |t| == 2
  {
    [Value(Low8(Fcs(s))), Value(High8(Fcs(s)))]
  }

  // ---------------------------------------------------------------
  // The table is eight clocks of the register.

  /** `n` clocks with no data. */
  function Clock(r: bv16, n: nat): bv16
    decreases n
  {
    if n == 0 then r else Clock(ShiftBit(r, false), n - 1)
  }

  lemma TableRows()
    ensures |FCS_TABLE| == 32
    ensures forall r :: 0 <= r < 32 ==> |FCS_TABLE[r]| == 8
  {
  }

  /** One clock with no data, in one piece. */
  function Shift(r: bv16): bv16 {
    if r & 1 == 1 then (r >> 1) ^ 0x8408 else r >> 1
  }

  lemma ShiftIsShiftBit(r: bv16)
    ensures Shift(r) == ShiftBit(r, false)
  {
  }

  function Clock8(r: bv16): bv16 {
    Shift(Shift(Shift(Shift(Shift(Shift(Shift(Shift(r))))))))
  }

  lemma FourClocks(r: bv16, n: nat)
    requires n >= 4
    ensures Clock(r, n) == Clock(Shift(Shift(Shift(Shift(r)))), n - 4)
  {
    hide ShiftBit, Shift;
    var r1 := Shift(r);
    var r2 := Shift(r1);
    ShiftIsShiftBit(r);
    ShiftIsShiftBit(r1);
    assert Clock(r, n) == Clock(r2, n - 2);
    ShiftIsShiftBit(r2);
    ShiftIsShiftBit(Shift(r2));
    assert Clock(r2, n - 2) == Clock(Shift(Shift(r2)), n - 4);
  }

  lemma Clock8IsClock(r: bv16)
    ensures Clock8(r) == Clock(r, 8)
  {
    hide Shift;
    FourClocks(r, 8);
    FourClocks(Shift(Shift(Shift(Shift(r)))), 4);
  }

  lemma TableEntry(i: bv8)
    ensures FcsTable(i) == Wide32(Clock8(Wide16(i)))
  {
    TableRows();
  }

  /** The high byte only shifts down, the low byte selects the table entry. */
  lemma Clock8Splits(x: bv16)
    ensures Clock8(x) == Xor(Wide16(High8(x)), Clock8(Wide16(Low8(x))))
  {
    Clock8Linear(x);
    SplitWord(x);
    hide Shift, Clock8;
  }

  lemma Clock8Linear(x: bv16)
    ensures Clock8(x) == (x >> 8) ^ Clock8(x & 0xff)
  {
  }

  lemma SplitWord(x: bv16)
    ensures Wide16(High8(x)) == x >> 8 && Wide16(Low8(x)) == x & 0xff
  {
  }

  lemma HalfXor(r: bv16, s: bv16)
    ensures Half(Xor(r, s)) == Xor(Half(r), Half(s))
  {
  }

  lemma OddXor(r: bv16, s: bv16)
    ensures Odd(Xor(r, s)) == (Odd(r) != Odd(s))
  {
  }

  lemma XorComm(a: bv16, b: bv16)
    ensures Xor(a, b) == Xor(b, a)
  {
  }

  lemma XorAssoc(a: bv16, b: bv16, c: bv16)
    ensures Xor(Xor(a, b), c) == Xor(a, Xor(b, c))
  {
  }

  /** A data bit may be added to the register before the clock. */
  lemma OneBit(r: bv16, w: bv16)
    ensures Xor(ShiftBit(r, Odd(w)), Half(w)) == ShiftBit(Xor(r, w), false)
  {
    hide Xor, Half, Odd, Feedback;
    var f := Feedback(Odd(r) != Odd(w));
    HalfXor(r, w);
    OddXor(r, w);
    XorAssoc(Half(r), f, Half(w));
    XorComm(f, Half(w));
    XorAssoc(Half(r), Half(w), f);
  }

  function Drop(w: bv16, n: nat): bv16
    decreases n
  {
    if n == 0 then w else Drop(Half(w), n - 1)
  }

  /** Feeding a word bit by bit is folding it into the register first. */
  lemma {:induction false} FeedIsFold(r: bv16, w: bv16, n: nat)
    ensures Xor(Register(r, WordBits(w, n)), Drop(w, n)) == Clock(Xor(r, w), n)
    decreases n
  {
    hide Xor, Half, Odd, ShiftBit;
    if n > 0 {
      OneBit(r, w);
      FeedIsFold(ShiftBit(r, Odd(w)), Half(w), n - 1);
      assert WordBits(w, n)[1..] == WordBits(Half(w), n - 1);
    }
  }

  lemma DropByte(b: bv8)
    ensures Drop(Wide16(b), 8) == 0
  {
    var w := Wide16(b);
    var w4 := Half(Half(Half(Half(w))));
    assert Drop(w, 8) == Drop(w4, 4) by { hide Half; }
    assert Drop(w4, 4) == Half(Half(Half(Half(w4)))) by { hide Half; }
    assert Half(Half(Half(Half(w4)))) == 0 by { hide Drop; }
  }

  lemma XorZero(r: bv16)
    ensures Xor(r, 0) == r
  {
  }

  lemma EightBits(r: bv16, b: byte)
    ensures Register(r, ByteBits(b)) == Clock8(Xor(r, Wide16(Octet(b))))
  {
    hide Xor, Register, WordBits, Drop, Clock, Clock8, Octet, Wide16;
    FeedIsFold(r, Wide16(Octet(b)), 8);
    DropByte(Octet(b));
    XorZero(Register(r, ByteBits(b)));
    Clock8IsClock(Xor(r, Wide16(Octet(b))));
  }

  lemma IndexIsLowByte(r: bv16, b: bv8)
    ensures TableIndex(Wide32(r), b) == Low8(Xor(r, Wide16(b)))
    ensures UpperByte(Wide32(r)) == Wide32(Wide16(High8(Xor(r, Wide16(b)))))
  {
  }

  lemma XorWidens(x: bv16, y: bv16)
    ensures Mix(Wide32(x), Wide32(y)) == Wide32(Xor(x, y))
  {
    assert (x as bv32) ^ (y as bv32) == (x ^ y) as bv32;
  }

  /** One table step is eight clocks of the register, and stays below 2^16. */
  lemma TableStep(r: bv16, b: byte)
    ensures AddOneByteToFcs16(Wide32(r), b) == Wide32(Register(r, ByteBits(b)))
  {
    hide Octet, ByteBits, Register, Clock8, FcsTable, Xor, TableIndex, UpperByte, Mix, Low8, High8, Wide16, Wide32;
    var x := Xor(r, Wide16(Octet(b)));
    EightBits(r, b);
    IndexIsLowByte(r, Octet(b));
    TableEntry(Low8(x));
    Clock8Splits(x);
    XorWidens(Wide16(High8(x)), Clock8(Wide16(Low8(x))));
  }

  // ---------------------------------------------------------------
  // Appending.

  lemma {:induction false} RegisterAppend(r: bv16, a: seq<bool>, b: seq<bool>)
    ensures Register(r, a + b) == Register(Register(r, a), b)
    decreases |a|
  {
    hide ShiftBit;
    if |a| == 0 {
      assert a + b == b;
    } else {
      assert (a + b)[0] == a[0] && (a + b)[1..] == a[1..] + b;
      RegisterAppend(ShiftBit(r, a[0]), a[1..], b);
    }
  }

  lemma {:induction false} BitsAppend(a: ByteVector, b: ByteVector)
    ensures Bits(a + b) == Bits(a) + Bits(b)
  {
    hide ByteBits;
    if |a| == 0 {
      assert a + b == b;
    } else {
      assert (a + b)[0] == a[0] && (a + b)[1..] == a[1..] + b;
      BitsAppend(a[1..], b);
    }
  }

  /** Reading one more byte advances the running value by one table step. */
  lemma FoldAppendByte(s: ByteVector, b: byte)
    ensures Fold(s + [b]) == Register(Fold(s), ByteBits(b))
  {
    assert Bits([b]) == ByteBits(b) by { assert [b][1..] == []; }
    BitsAppend(s, [b]);
    RegisterAppend(INITIAL, Bits(s), Bits([b]));
  }

  lemma FoldOfNothing()
    ensures Fold([]) == INITIAL
  {
  }

  lemma FoldIsRunningValue(s: ByteVector, b: byte)
    ensures Wide32(Fold(s + [b])) == AddOneByteToFcs16(Wide32(Fold(s)), b)
  {
    FoldAppendByte(s, b);
    TableStep(Fold(s), b);
  }

  lemma FoldAppend(a: ByteVector, b: ByteVector)
    ensures Fold(a + b) == Register(Fold(a), Bits(b))
  {
    BitsAppend(a, b);
    RegisterAppend(INITIAL, Bits(a), Bits(b));
  }

  lemma CloseComplements(r: bv16)
    ensures CloseFcs16(Wide32(r)) == Xor(r, 0xffff)
  {
  }

  /** The table-driven loop computes the bit-serial checksum. */
  method ComputeFCS16(data: ByteVector) returns (fcs: bv16)
    ensures fcs == Fcs(data)
  {
    hide AddOneByteToFcs16, Fold, Wide32, CloseFcs16, Xor;
    var running := InitFcs16();
    assert data[..0] == [];
    FoldOfNothing();
    for i := 0 to |data|
      invariant running == Wide32(Fold(data[..i]))
    {
      FoldIsRunningValue(data[..i], data[i]);
      assert data[..i] + [data[i]] == data[..i + 1];
      running := AddOneByteToFcs16(running, data[i]);
    }
    assert data[..|data|] == data;
    CloseComplements(Fold(data));
    fcs := CloseFcs16(running);
  }

  // ---------------------------------------------------------------
  // The residue.

  lemma TwoByteResidueRaw(r: bv16, low: bv8, high: bv8)
    ensures Clock8(Clock8(r ^ (low as bv16)) ^ (high as bv16)) == 0xf0b8
            <==> low == ((r ^ 0xffff) & 0xff) as bv8 && high == ((r ^ 0xffff) >> 8) as bv8
  {
  }

  lemma XorRaw(r: bv16, b: bv8)
    ensures Xor(r, Wide16(b)) == r ^ (b as bv16)
  {
  }

  lemma ComplementBytes(r: bv16)
    ensures Low8(Xor(r, 0xffff)) == ((r ^ 0xffff) & 0xff) as bv8
    ensures High8(Xor(r, 0xffff)) == ((r ^ 0xffff) >> 8) as bv8
  {
  }

  lemma TwoByteResidue(r: bv16, low: bv8, high: bv8)
    ensures Clock8(Xor(Clock8(Xor(r, Wide16(low))), Wide16(high))) == 0xf0b8
            <==> low == Low8(Xor(r, 0xffff)) && high == High8(Xor(r, 0xffff))
  {
    hide *;
    TwoByteResidueRaw(r, low, high);
    XorRaw(r, low);
    XorRaw(Clock8(r ^ (low as bv16)), high);
    ComplementBytes(r);
  }

  lemma ResidueIsF0B8(r: bv16)
    ensures CloseFcs16(Wide32(r)) == CLOSED_RESIDUE <==> r == 0xf0b8
  {
  }

  lemma FoldTwoBytes(p: ByteVector, low: byte, high: byte)
    ensures Fold(p + [low, high])
            == Clock8(Xor(Clock8(Xor(Fold(p), Wide16(Octet(low)))), Wide16(Octet(high))))
  {
    hide Fold, Clock8, Xor, Octet, ByteBits, Register, Wide16;
    assert p + [low, high] == (p + [low]) + [high];
    FoldAppendByte(p, low);
    FoldAppendByte(p + [low], high);
    EightBits(Fold(p), low);
    EightBits(Fold(p + [low]), high);
  }

  /** Whether the running check accepts a body (checksum included). */
  predicate Accepts(body: ByteVector) {
    CloseFcs16(Wide32(Fold(body))) == CLOSED_RESIDUE
  }

  /** A body is accepted exactly when it ends in its own checksum. */
  lemma AcceptsIffChecksum(p: ByteVector, low: byte, high: byte)
    ensures Accepts(p + [low, high]) <==> [low, high] == FcsBytes(p)
  {
    hide Fold, Clock8, Xor, Octet, Value, CloseFcs16, Low8, High8, Wide16, Wide32;
    var f := Fcs(p);
    ResidueIsF0B8(Fold(p + [low, high]));
    FoldTwoBytes(p, low, high);
    TwoByteResidue(Fold(p), Octet(low), Octet(high));
    ValueOfOctet(low);
    ValueOfOctet(high);
    OctetOfValue(Low8(f));
    OctetOfValue(High8(f));
    assert FcsBytes(p)[0] == low && FcsBytes(p)[1] == high <==> [low, high] == FcsBytes(p);
  }

  // ---------------------------------------------------------------
  // Error detection.

  lemma XorOfFeedback(x: bool, y: bool)
    ensures Xor(Feedback(x), Feedback(y)) == Feedback(x != y)
  {
  }

  predicate AtLeast(d: bv16, m: bv16) {
    d >= m
  }

  /** How the difference of two registers moves in one clock. */
  lemma ClockOfDifference(r: bv16, s: bv16, x: bool, y: bool)
    ensures Xor(ShiftBit(r, x), ShiftBit(s, y))
            == Xor(Half(Xor(r, s)), Feedback((Odd(r) != x) != (Odd(s) != y)))
  {
    hide Xor, Half, Odd, Feedback;
    var f, g := Feedback(Odd(r) != x), Feedback(Odd(s) != y);
    HalfXor(r, s);
    XorOfFeedback(Odd(r) != x, Odd(s) != y);
    XorAssoc(Half(r), f, Xor(Half(s), g));
    XorAssoc(f, Half(s), g);
    XorComm(f, Half(s));
    XorAssoc(Half(s), f, g);
    XorAssoc(Half(r), Half(s), Xor(f, g));
  }

  /** A set top bit comes back in at the top, or nothing does. */
  lemma FeedbackKeepsSize(d: bv16, m: bv16, on: bool)
    requires AtLeast(d, m)
    ensures AtLeast(Xor(Half(d), Feedback(on)), Half(m))
  {
    hide Xor, Half, AtLeast;
    HalvesOrdered(d, m);
    FeedbackSetsTop(d, m);
    XorZero(Half(d));
  }

  lemma ClockKeepsSize(r: bv16, s: bv16, m: bv16, x: bool, y: bool)
    requires AtLeast(Xor(r, s), m)
    ensures AtLeast(Xor(ShiftBit(r, x), ShiftBit(s, y)), Half(m))
  {
    hide Xor, Half, Odd, Feedback, ShiftBit, AtLeast;
    ClockOfDifference(r, s, x, y);
    FeedbackKeepsSize(Xor(r, s), m, (Odd(r) != x) != (Odd(s) != y));
  }

  lemma HalvesOrdered(d: bv16, m: bv16)
    requires AtLeast(d, m)
    ensures AtLeast(Half(d), Half(m))
  {
  }

  lemma FeedbackSetsTop(d: bv16, m: bv16)
    ensures AtLeast(Xor(Half(d), 0x8408), Half(m))
  {
  }

  lemma AtLeastNonzero(d: bv16, m: bv16)
    requires AtLeast(d, m) && m != 0
    ensures d != 0
  {
  }

  lemma XorSelf(r: bv16, s: bv16)
    ensures Xor(r, s) == 0 <==> r == s
  {
  }

  /** A register difference of at least `m` survives `n` more clocks. */
  predicate Survives(m: bv16, n: nat)
    decreases n
  {
    if n == 0 then m != 0 else Survives(Half(m), n - 1)
  }

  /** Registers that differ enough stay different, whatever bits follow. */
  lemma {:induction false} Diverged(r: bv16, s: bv16, m: bv16, u: seq<bool>, v: seq<bool>)
    requires |u| == |v| && AtLeast(Xor(r, s), m) && Survives(m, |u|)
    ensures Register(r, u) != Register(s, v)
    decreases |u|
  {
    hide Xor, Half, ShiftBit, AtLeast;
    if |u| == 0 {
      XorSelf(r, s);
      AtLeastNonzero(Xor(r, s), m);
    } else {
      ClockKeepsSize(r, s, m, u[0], v[0]);
      Diverged(ShiftBit(r, u[0]), ShiftBit(s, v[0]), Half(m), u[1..], v[1..]);
    }
  }

  lemma {:induction false} RegisterInjective(r: bv16, s: bv16, bits: seq<bool>)
    requires Register(r, bits) == Register(s, bits)
    ensures r == s
    decreases |bits|
  {
    hide Xor, Half, Odd, Feedback, ShiftBit;
    if |bits| > 0 {
      RegisterInjective(ShiftBit(r, bits[0]), ShiftBit(s, bits[0]), bits[1..]);
      ShiftBitInjective(r, s, bits[0]);
    }
  }

  lemma ShiftBitInjective(r: bv16, s: bv16, bit: bool)
    requires ShiftBit(r, bit) == ShiftBit(s, bit)
    ensures r == s
  {
  }

  lemma HalvesOfTop()
    ensures Half(0x8000) == 0x4000 && Half(0x4000) == 0x2000 && Half(0x2000) == 0x1000 && Half(0x1000) == 0x0800
    ensures Half(0x0800) == 0x0400 && Half(0x0400) == 0x0200 && Half(0x0200) == 0x0100 && Half(0x0100) == 0x0080
    ensures Half(0x0080) == 0x0040 && Half(0x0040) == 0x0020 && Half(0x0020) == 0x0010 && Half(0x0010) == 0x0008
    ensures Half(0x0008) == 0x0004 && Half(0x0004) == 0x0002 && Half(0x0002) == 0x0001
  {
  }

  lemma SurvivesThree(m: bv16, n: nat)
    requires n <= 3 && m != 0 && Half(m) != 0 && Half(Half(m)) != 0 && Half(Half(Half(m))) != 0
    ensures Survives(m, n)
  {
    hide Half;
    if n == 3 {
      assert Survives(Half(m), 2);
    } else if n == 2 {
      assert Survives(Half(m), 1);
    }
  }

  lemma SurvivesFour(m: bv16, n: nat)
    requires n >= 4
    ensures Survives(m, n) == Survives(Half(Half(Half(Half(m)))), n - 4)
  {
    hide Half;
    assert Survives(m, n) == Survives(Half(Half(m)), n - 2);
  }

  lemma SurvivesFifteen(n: nat)
    requires n <= 15
    ensures Survives(0x8000, n)
  {
    hide Half, Survives;
    HalvesOfTop();
    if n <= 3 {
      SurvivesThree(0x8000, n);
    } else if n <= 7 {
      SurvivesFour(0x8000, n);
      SurvivesThree(0x0800, n - 4);
    } else if n <= 11 {
      SurvivesFour(0x8000, n);
      SurvivesFour(0x0800, n - 4);
      SurvivesThree(0x0080, n - 8);
    } else {
      SurvivesFour(0x8000, n);
      SurvivesFour(0x0800, n - 4);
      SurvivesFour(0x0080, n - 8);
      SurvivesThree(0x0008, n - 12);
    }
  }

  lemma UnequalBitsDiverge(r: bv16, x: bool, y: bool)
    requires x != y
    ensures AtLeast(Xor(ShiftBit(r, x), ShiftBit(r, y)), 0x8000)
  {
    ClockOfDifference(r, r, x, y);
    XorSelf(r, r);
    hide ShiftBit, Odd;
  }

  /** Two different strings of at most 16 bits never meet again. */
  lemma {:induction false} WindowDetected(r: bv16, u: seq<bool>, v: seq<bool>)
    requires |u| == |v| <= 16 && Register(r, u) == Register(r, v)
    ensures u == v
    decreases |u|
  {
    hide Xor, ShiftBit, AtLeast, Survives;
    if |u| > 0 {
      if u[0] == v[0] {
        WindowDetected(ShiftBit(r, u[0]), u[1..], v[1..]);
        assert u == [u[0]] + u[1..] && v == [v[0]] + v[1..];
      } else {
        UnequalBitsDiverge(r, u[0], v[0]);
        SurvivesFifteen(|u| - 1);
        Diverged(ShiftBit(r, u[0]), ShiftBit(r, v[0]), 0x8000, u[1..], v[1..]);
        assert false;
      }
    }
  }

  /** Bit strings that agree outside a window of 16 bits starting at `k`. */
  ghost predicate AgreeOutside(u: seq<bool>, v: seq<bool>, k: nat) {
    |u| == |v| && forall i :: 0 <= i < |u| && u[i] != v[i] ==> k <= i < k + 16
  }

  lemma BurstDetectedInBits(r: bv16, u: seq<bool>, v: seq<bool>, k: nat)
    requires AgreeOutside(u, v, k) && Register(r, u) == Register(r, v)
    ensures u == v
  {
    hide Register;
    var lo := if k <= |u| then k else |u|;
    var hi := if k + 16 <= |u| then k + 16 else |u|;
    var u1, u2, v1, v2 := u[lo..], u[hi..], v[lo..], v[hi..];
    assert u[..lo] == v[..lo] && u2 == v2;
    assert u == u[..lo] + (u[lo..hi] + u2) && v == v[..lo] + (v[lo..hi] + v2);
    RegisterAppend(r, u[..lo], u[lo..hi] + u2);
    RegisterAppend(r, v[..lo], v[lo..hi] + v2);
    var x := Register(r, u[..lo]);
    RegisterAppend(x, u[lo..hi], u2);
    RegisterAppend(x, v[lo..hi], v2);
    RegisterInjective(Register(x, u[lo..hi]), Register(x, v[lo..hi]), u2);
    WindowDetected(x, u[lo..hi], v[lo..hi]);
  }

  lemma ByteBitsInjective(a: byte, b: byte)
    requires ByteBits(a) == ByteBits(b)
    ensures a == b
  {
    hide Octet, Value, WordBits, Drop, Wide16;
    DropByte(Octet(a));
    DropByte(Octet(b));
    WordBitsInjective(Wide16(Octet(a)), Wide16(Octet(b)), 8);
    SameOctet(Octet(a), Octet(b));
    ValueOfOctet(a);
    ValueOfOctet(b);
  }

  lemma SameOctet(a: bv8, b: bv8)
    requires Wide16(a) == Wide16(b)
    ensures a == b
  {
  }

  lemma HalfAndOdd(v: bv16, w: bv16)
    requires Half(v) == Half(w) && Odd(v) == Odd(w)
    ensures v == w
  {
  }

  lemma {:induction false} WordBitsInjective(v: bv16, w: bv16, n: nat)
    requires WordBits(v, n) == WordBits(w, n) && Drop(v, n) == Drop(w, n)
    ensures v == w
    decreases n
  {
    hide Half, Odd;
    if n > 0 {
      assert WordBits(v, n)[0] == WordBits(w, n)[0];
      assert WordBits(v, n)[1..] == WordBits(Half(v), n - 1) && WordBits(w, n)[1..] == WordBits(Half(w), n - 1);
      WordBitsInjective(Half(v), Half(w), n - 1);
      HalfAndOdd(v, w);
    }
  }

  lemma {:induction false} BitsInjective(f: ByteVector, g: ByteVector)
    requires Bits(f) == Bits(g)
    ensures f == g
  {
    hide ByteBits;
    if |f| > 0 {
      assert ByteBits(f[0]) == Bits(f)[..8] && ByteBits(g[0]) == Bits(g)[..8];
      assert Bits(f[1..]) == Bits(f)[8..] && Bits(g[1..]) == Bits(g)[8..];
      ByteBitsInjective(f[0], g[0]);
      BitsInjective(f[1..], g[1..]);
      assert f == [f[0]] + f[1..] && g == [g[0]] + g[1..];
    }
  }

  /** Bodies of any length that differ only inside a burst of at most 16
      consecutive bits: at most one is accepted. */
  lemma BurstDetected(f: ByteVector, g: ByteVector, k: nat)
    requires AgreeOutside(Bits(f), Bits(g), k)
    requires Accepts(f) && Accepts(g)
    ensures f == g
  {
    ResidueIsF0B8(Fold(f));
    ResidueIsF0B8(Fold(g));
    BurstDetectedInBits(INITIAL, Bits(f), Bits(g), k);
    BitsInjective(f, g);
  }

  /** The burst may be any two adjacent bytes. */
  lemma TwoByteWindowIsBurst(a: ByteVector, x: ByteVector, y: ByteVector, c: ByteVector)
    requires |x| == |y| <= 2
    ensures AgreeOutside(Bits(a + x + c), Bits(a + y + c), 8 * |a|)
  {
    hide Bits;
    BitsAppend(a + x, c);
    BitsAppend(a + y, c);
    BitsAppend(a, x);
    BitsAppend(a, y);
  }

  // ---------------------------------------------------------------
  // The check value.

  lemma FoldStep(s: ByteVector, b: byte, x: bv8, r: bv16, t: bv16)
    requires Fold(s) == r && Octet(b) == x && Clock8(Xor(r, Wide16(x))) == t
    ensures Fold(s + [b]) == t
  {
    hide Fold, Octet, Clock8, Xor, Wide16, Register, ByteBits;
    FoldAppendByte(s, b);
    EightBits(r, b);
  }

  lemma CheckSteps()
    ensures Octet(0x31) == 0x31 && Clock8(Xor(0xffff, Wide16(0x31))) == 0x2f8d
    ensures Octet(0x32) == 0x32 && Clock8(Xor(0x2f8d, Wide16(0x32))) == 0x4d53
    ensures Octet(0x33) == 0x33 && Clock8(Xor(0x4d53, Wide16(0x33))) == 0x634b
    ensures Octet(0x34) == 0x34 && Clock8(Xor(0x634b, Wide16(0x34))) == 0x8b13
    ensures Octet(0x35) == 0x35 && Clock8(Xor(0x8b13, Wide16(0x35))) == 0x44bf
    ensures Octet(0x36) == 0x36 && Clock8(Xor(0x44bf, Wide16(0x36))) == 0x198d
    ensures Octet(0x37) == 0x37 && Clock8(Xor(0x198d, Wide16(0x37))) == 0x1ac8
    ensures Octet(0x38) == 0x38 && Clock8(Xor(0x1ac8, Wide16(0x38))) == 0xf795
    ensures Octet(0x39) == 0x39 && Clock8(Xor(0xf795, Wide16(0x39))) == 0x6f91
  {
  }

  /** The digits 1 to 9 in ASCII have the check value of this checksum, 0x906E. */
  lemma CheckValue()
    ensures Fcs([0x31, 0x32, 0x33, 0x34, 0x35, 0x36, 0x37, 0x38, 0x39]) == 0x906e
  {
    CheckSteps();
    hide Fold, Octet, Clock8, Wide16;
    FoldOfNothing();
    FoldStep([], 0x31, 0x31, 0xffff, 0x2f8d);
    assert [] + [0x31] == [0x31];
    FoldStep([0x31], 0x32, 0x32, 0x2f8d, 0x4d53);
    assert [0x31] + [0x32] == [0x31, 0x32];
    FoldStep([0x31, 0x32], 0x33, 0x33, 0x4d53, 0x634b);
    assert [0x31, 0x32] + [0x33] == [0x31, 0x32, 0x33];
    FoldStep([0x31, 0x32, 0x33], 0x34, 0x34, 0x634b, 0x8b13);
    assert [0x31, 0x32, 0x33] + [0x34] == [0x31, 0x32, 0x33, 0x34];
    FoldStep([0x31, 0x32, 0x33, 0x34], 0x35, 0x35, 0x8b13, 0x44bf);
    assert [0x31, 0x32, 0x33, 0x34] + [0x35] == [0x31, 0x32, 0x33, 0x34, 0x35];
    FoldStep([0x31, 0x32, 0x33, 0x34, 0x35], 0x36, 0x36, 0x44bf, 0x198d);
    assert [0x31, 0x32, 0x33, 0x34, 0x35] + [0x36] == [0x31, 0x32, 0x33, 0x34, 0x35, 0x36];
    FoldStep([0x31, 0x32, 0x33, 0x34, 0x35, 0x36], 0x37, 0x37, 0x198d, 0x1ac8);
    assert [0x31, 0x32, 0x33, 0x34, 0x35, 0x36] + [0x37] == [0x31, 0x32, 0x33, 0x34, 0x35, 0x36, 0x37];
    FoldStep([0x31, 0x32, 0x33, 0x34, 0x35, 0x36, 0x37], 0x38, 0x38, 0x1ac8, 0xf795);
    assert [0x31, 0x32, 0x33, 0x34, 0x35, 0x36, 0x37] + [0x38] == [0x31, 0x32, 0x33, 0x34, 0x35, 0x36, 0x37, 0x38];
    FoldStep([0x31, 0x32, 0x33, 0x34, 0x35, 0x36, 0x37, 0x38], 0x39, 0x39, 0xf795, 0x6f91);
    assert [0x31, 0x32, 0x33, 0x34, 0x35, 0x36, 0x37, 0x38] + [0x39] == [0x31, 0x32, 0x33, 0x34, 0x35, 0x36, 0x37, 0x38, 0x39];
  }
}
