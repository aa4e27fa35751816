/**
 The table-driven CRC-32 of the firmware, down to polynomial long division. The
 table is the one the script generates, a table step is eight shift-register
 steps, and the register after a message is the remainder of the message, its
 first 32 bits inverted and 32 zero bits appended, divided by
 x^32 + 0x04C11DB7 over the two-element field.
 */
module Crc32 {

  const POLY: bv32 := 0x04C11DB7
  const INIT: bv32 := 0xFFFF_FFFF

  // ---------------------------------------------------------------- the constant table, in rows of sixteen

  function Row0(j: bv32): bv32 {
    if j == 0 then 0x00000000 else if j == 1 then 0x04c11db7 else if j == 2 then 0x09823b6e else if j == 3 then 0x0d4326d9 else
    if j == 4 then 0x130476dc else if j == 5 then 0x17c56b6b else if j == 6 then 0x1a864db2 else if j == 7 then 0x1e475005 else
    if j == 8 then 0x2608edb8 else if j == 9 then 0x22c9f00f else if j == 10 then 0x2f8ad6d6 else if j == 11 then 0x2b4bcb61 else
    if j == 12 then 0x350c9b64 else if j == 13 then 0x31cd86d3 else if j == 14 then 0x3c8ea00a else 0x384fbdbd
  }

  function Row1(j: bv32): bv32 {
    if j == 0 then 0x4c11db70 else if j == 1 then 0x48d0c6c7 else if j == 2 then 0x4593e01e else if j == 3 then 0x4152fda9 else
    if j == 4 then 0x5f15adac else if j == 5 then 0x5bd4b01b else if j == 6 then 0x569796c2 else if j == 7 then 0x52568b75 else
    if j == 8 then 0x6a1936c8 else if j == 9 then 0x6ed82b7f else if j == 10 then 0x639b0da6 else if j == 11 then 0x675a1011 else
    if j == 12 then 0x791d4014 else if j == 13 then 0x7ddc5da3 else if j == 14 then 0x709f7b7a else 0x745e66cd
  }

  function Row2(j: bv32): bv32 {
    if j == 0 then 0x9823b6e0 else if j == 1 then 0x9ce2ab57 else if j == 2 then 0x91a18d8e else if j == 3 then 0x95609039 else
    if j == 4 then 0x8b27c03c else if j == 5 then 0x8fe6dd8b else if j == 6 then 0x82a5fb52 else if j == 7 then 0x8664e6e5 else
    if j == 8 then 0xbe2b5b58 else if j == 9 then 0xbaea46ef else if j == 10 then 0xb7a96036 else if j == 11 then 0xb3687d81 else
    if j == 12 then 0xad2f2d84 else if j == 13 then 0xa9ee3033 else if j == 14 then 0xa4ad16ea else 0xa06c0b5d
  }

  function Row3(j: bv32): bv32 {
    if j == 0 then 0xd4326d90 else if j == 1 then 0xd0f37027 else if j == 2 then 0xddb056fe else if j == 3 then 0xd9714b49 else
    if j == 4 then 0xc7361b4c else if j == 5 then 0xc3f706fb else if j == 6 then 0xceb42022 else if j == 7 then 0xca753d95 else
    if j == 8 then 0xf23a8028 else if j == 9 then 0xf6fb9d9f else if j == 10 then 0xfbb8bb46 else if j == 11 then 0xff79a6f1 else
    if j == 12 then 0xe13ef6f4 else if j == 13 then 0xe5ffeb43 else if j == 14 then 0xe8bccd9a else 0xec7dd02d
  }

  function Row4(j: bv32): bv32 {
    if j == 0 then 0x34867077 else if j == 1 then 0x30476dc0 else if j == 2 then 0x3d044b19 else if j == 3 then 0x39c556ae else
    if j == 4 then 0x278206ab else if j == 5 then 0x23431b1c else if j == 6 then 0x2e003dc5 else if j == 7 then 0x2ac12072 else
    if j == 8 then 0x128e9dcf else if j == 9 then 0x164f8078 else if j == 10 then 0x1b0ca6a1 else if j == 11 then 0x1fcdbb16 else
    if j == 12 then 0x018aeb13 else if j == 13 then 0x054bf6a4 else if j == 14 then 0x0808d07d else 0x0cc9cdca
  }

  function Row5(j: bv32): bv32 {
    if j == 0 then 0x7897ab07 else if j == 1 then 0x7c56b6b0 else if j == 2 then 0x71159069 else if j == 3 then 0x75d48dde else
    if j == 4 then 0x6b93dddb else if j == 5 then 0x6f52c06c else if j == 6 then 0x6211e6b5 else if j == 7 then 0x66d0fb02 else
    if j == 8 then 0x5e9f46bf else if j == 9 then 0x5a5e5b08 else if j == 10 then 0x571d7dd1 else if j == 11 then 0x53dc6066 else
    if j == 12 then 0x4d9b3063 else if j == 13 then 0x495a2dd4 else if j == 14 then 0x44190b0d else 0x40d816ba
  }

  function Row6(j: bv32): bv32 {
    if j == 0 then 0xaca5c697 else if j == 1 then 0xa864db20 else if j == 2 then 0xa527fdf9 else if j == 3 then 0xa1e6e04e else
    if j == 4 then 0xbfa1b04b else if j == 5 then 0xbb60adfc else if j == 6 then 0xb6238b25 else if j == 7 then 0xb2e29692 else
    if j == 8 then 0x8aad2b2f else if j == 9 then 0x8e6c3698 else if j == 10 then 0x832f1041 else if j == 11 then 0x87ee0df6 else
    if j == 12 then 0x99a95df3 else if j == 13 then 0x9d684044 else if j == 14 then 0x902b669d else 0x94ea7b2a
  }

  function Row7(j: bv32): bv32 {
    if j == 0 then 0xe0b41de7 else if j == 1 then 0xe4750050 else if j == 2 then 0xe9362689 else if j == 3 then 0xedf73b3e else
    if j == 4 then 0xf3b06b3b else if j == 5 then 0xf771768c else if j == 6 then 0xfa325055 else if j == 7 then 0xfef34de2 else
    if j == 8 then 0xc6bcf05f else if j == 9 then 0xc27dede8 else if j == 10 then 0xcf3ecb31 else if j == 11 then 0xcbffd686 else
    if j == 12 then 0xd5b88683 else if j == 13 then 0xd1799b34 else if j == 14 then 0xdc3abded else 0xd8fba05a
  }

  function Row8(j: bv32): bv32 {
    if j == 0 then 0x690ce0ee else if j == 1 then 0x6dcdfd59 else if j == 2 then 0x608edb80 else if j == 3 then 0x644fc637 else
    if j == 4 then 0x7a089632 else if j == 5 then 0x7ec98b85 else if j == 6 then 0x738aad5c else if j == 7 then 0x774bb0eb else
    if j == 8 then 0x4f040d56 else if j == 9 then 0x4bc510e1 else if j == 10 then 0x46863638 else if j == 11 then 0x42472b8f else
    if j == 12 then 0x5c007b8a else if j == 13 then 0x58c1663d else if j == 14 then 0x558240e4 else 0x51435d53
  }

  function Row9(j: bv32): bv32 {
    if j == 0 then 0x251d3b9e else if j == 1 then 0x21dc2629 else if j == 2 then 0x2c9f00f0 else if j == 3 then 0x285e1d47 else
    if j == 4 then 0x36194d42 else if j == 5 then 0x32d850f5 else if j == 6 then 0x3f9b762c else if j == 7 then 0x3b5a6b9b else
    if j == 8 then 0x0315d626 else if j == 9 then 0x07d4cb91 else if j == 10 then 0x0a97ed48 else if j == 11 then 0x0e56f0ff else
    if j == 12 then 0x1011a0fa else if j == 13 then 0x14d0bd4d else if j == 14 then 0x19939b94 else 0x1d528623
  }

  function RowA(j: bv32): bv32 {
    if j == 0 then 0xf12f560e else if j == 1 then 0xf5ee4bb9 else if j == 2 then 0xf8ad6d60 else if j == 3 then 0xfc6c70d7 else
    if j == 4 then 0xe22b20d2 else if j == 5 then 0xe6ea3d65 else if j == 6 then 0xeba91bbc else if j == 7 then 0xef68060b else
    if j == 8 then 0xd727bbb6 else if j == 9 then 0xd3e6a601 else if j == 10 then 0xdea580d8 else if j == 11 then 0xda649d6f else
    if j == 12 then 0xc423cd6a else if j == 13 then 0xc0e2d0dd else if j == 14 then 0xcda1f604 else 0xc960ebb3
  }

  function RowB(j: bv32): bv32 {
    if j == 0 then 0xbd3e8d7e else if j == 1 then 0xb9ff90c9 else if j == 2 then 0xb4bcb610 else if j == 3 then 0xb07daba7 else
    if j == 4 then 0xae3afba2 else if j == 5 then 0xaafbe615 else if j == 6 then 0xa7b8c0cc else if j == 7 then 0xa379dd7b else
    if j == 8 then 0x9b3660c6 else if j == 9 then 0x9ff77d71 else if j == 10 then 0x92b45ba8 else if j == 11 then 0x9675461f else
    if j == 12 then 0x8832161a else if j == 13 then 0x8cf30bad else if j == 14 then 0x81b02d74 else 0x857130c3
  }

  function RowC(j: bv32): bv32 {
    if j == 0 then 0x5d8a9099 else if j == 1 then 0x594b8d2e else if j == 2 then 0x5408abf7 else if j == 3 then 0x50c9b640 else
    if j == 4 then 0x4e8ee645 else if j == 5 then 0x4a4ffbf2 else if j == 6 then 0x470cdd2b else if j == 7 then 0x43cdc09c else
    if j == 8 then 0x7b827d21 else if j == 9 then 0x7f436096 else if j == 10 then 0x7200464f else if j == 11 then 0x76c15bf8 else
    if j == 12 then 0x68860bfd else if j == 13 then 0x6c47164a else if j == 14 then 0x61043093 else 0x65c52d24
  }

  function RowD(j: bv32): bv32 {
    if j == 0 then 0x119b4be9 else if j == 1 then 0x155a565e else if j == 2 then 0x18197087 else if j == 3 then 0x1cd86d30 else
    if j == 4 then 0x029f3d35 else if j == 5 then 0x065e2082 else if j == 6 then 0x0b1d065b else if j == 7 then 0x0fdc1bec else
    if j == 8 then 0x3793a651 else if j == 9 then 0x3352bbe6 else if j == 10 then 0x3e119d3f else if j == 11 then 0x3ad08088 else
    if j == 12 then 0x2497d08d else if j == 13 then 0x2056cd3a else if j == 14 then 0x2d15ebe3 else 0x29d4f654
  }

  function RowE(j: bv32): bv32 {
    if j == 0 then 0xc5a92679 else if j == 1 then 0xc1683bce else if j == 2 then 0xcc2b1d17 else if j == 3 then 0xc8ea00a0 else
    if j == 4 then 0xd6ad50a5 else if j == 5 then 0xd26c4d12 else if j == 6 then 0xdf2f6bcb else if j == 7 then 0xdbee767c else
    if j == 8 then 0xe3a1cbc1 else if j == 9 then 0xe760d676 else if j == 10 then 0xea23f0af else if j == 11 then 0xeee2ed18 else
    if j == 12 then 0xf0a5bd1d else if j == 13 then 0xf464a0aa else if j == 14 then 0xf9278673 else 0xfde69bc4
  }

  function RowF(j: bv32): bv32 {
    if j == 0 then 0x89b8fd09 else if j == 1 then 0x8d79e0be else if j == 2 then 0x803ac667 else if j == 3 then 0x84fbdbd0 else
    if j == 4 then 0x9abc8bd5 else if j == 5 then 0x9e7d9662 else if j == 6 then 0x933eb0bb else if j == 7 then 0x97ffad0c else
    if j == 8 then 0xafb010b1 else if j == 9 then 0xab710d06 else if j == 10 then 0xa6322bdf else if j == 11 then 0xa2f33668 else
    if j == 12 then 0xbcb4666d else if j == 13 then 0xb8757bda else if j == 14 then 0xb5365d03 else 0xb1f740b4
  }

  /** `crc32_ieee_table`. */
  function Table(i: bv32): bv32 {
    var j := i & 15;
    match i >> 4
    case 0 => Row0(j)
    case 1 => Row1(j)
    case 2 => Row2(j)
    case 3 => Row3(j)
    case 4 => Row4(j)
    case 5 => Row5(j)
    case 6 => Row6(j)
    case 7 => Row7(j)
    case 8 => Row8(j)
    case 9 => Row9(j)
    case 10 => RowA(j)
    case 11 => RowB(j)
    case 12 => RowC(j)
    case 13 => RowD(j)
    case 14 => RowE(j)
    case _ => RowF(j)
  }

  // ---------------------------------------------------------------- the table is eight register steps

  predicate Top(c: bv32) {
    c & 0x8000_0000 != 0
  }

  function Left(c: bv32): bv32 {
    c << 1
  }

  function Xor(a: bv32, b: bv32): bv32 {
    a ^ b
  }

  /** One step of the shift register. */
  function Shift(c: bv32): bv32 {
    if Top(c) then Xor(Left(c), POLY) else Left(c)
  }

  function Shifts(n: nat, c: bv32): bv32 {
    if n == 0 then c else Shifts(n - 1, Shift(c))
  }

  function Shift8(c: bv32): bv32 {
    Shift(Shift(Shift(Shift(Shift(Shift(Shift(Shift(c))))))))
  }

  lemma EightShifts(c: bv32)
    ensures Shifts(8, c) == Shift8(c)
  {
    var c2 := Shift(Shift(c));
    assert Shifts(8, c) == Shifts(7, Shift(c)) == Shifts(6, c2);
    var c4 := Shift(Shift(c2));
    assert Shifts(6, c2) == Shifts(5, Shift(c2)) == Shifts(4, c4);
    var c6 := Shift(Shift(c4));
    assert Shifts(4, c4) == Shifts(3, Shift(c4)) == Shifts(2, c6);
    assert Shifts(2, c6) == Shifts(1, Shift(c6)) == Shifts(0, Shift(Shift(c6)));
  }

  lemma TableIsShift8(i: bv32)
    requires i < 256
    ensures Table(i) == Shift8(i << 24)
  {
    hide Table, Shift8;
    if i < 64 {
      Quarter0(i);
    } else if i < 128 {
      Quarter1(i);
    } else if i < 192 {
      Quarter2(i);
    } else {
      Quarter3(i);
    }
  }

  lemma Quarter0(i: bv32)
    requires i < 64
    ensures Table(i) == Shift8(i << 24)
  {
  }

  lemma Quarter1(i: bv32)
    requires 64 <= i < 128
    ensures Table(i) == Shift8(i << 24)
  {
  }

  lemma Quarter2(i: bv32)
    requires 128 <= i < 192
    ensures Table(i) == Shift8(i << 24)
  {
  }

  lemma Quarter3(i: bv32)
    requires 192 <= i < 256
    ensures Table(i) == Shift8(i << 24)
  {
  }

  lemma XorTop(a: bv32, b: bv32)
    ensures Top(Xor(a, b)) == (Top(a) != Top(b)) && Left(Xor(a, b)) == Xor(Left(a), Left(b))
  {
    hide Left, Top, Xor;
    TopOfXor(a, b);
    LeftOfXor(a, b);
  }

  lemma TopOfXor(a: bv32, b: bv32)
    ensures Top(Xor(a, b)) == (Top(a) != Top(b))
  {
    assert ((a ^ b) & 0x8000_0000 != 0) == ((a & 0x8000_0000 != 0) != (b & 0x8000_0000 != 0));
  }

  lemma LeftOfXor(a: bv32, b: bv32)
    ensures Left(Xor(a, b)) == Xor(Left(a), Left(b))
  {
    assert (a ^ b) << 1 == (a << 1) ^ (b << 1);
  }

  lemma XorCancels(x: bv32, y: bv32, p: bv32)
    ensures Xor(Xor(x, p), Xor(y, p)) == Xor(x, y)
  {
    assert (x ^ p) ^ (y ^ p) == x ^ y;
  }

  lemma XorCommutes(x: bv32, y: bv32)
    ensures Xor(x, y) == Xor(y, x)
  {
  }

  lemma XorSwaps(x: bv32, y: bv32, p: bv32)
    ensures Xor(Xor(x, p), y) == Xor(Xor(x, y), p)
  {
    hide Xor;
    XorAssociates(x, p, y);
    XorCommutes(p, y);
    XorAssociates(x, y, p);
  }

  lemma XorAssociates(x: bv32, y: bv32, p: bv32)
    ensures Xor(x, Xor(y, p)) == Xor(Xor(x, y), p)
  {
    assert x ^ (y ^ p) == (x ^ y) ^ p;
  }

  lemma ShiftLinear(a: bv32, b: bv32)
    ensures Shift(Xor(a, b)) == Xor(Shift(a), Shift(b))
  {
    hide Top, Left, Xor;
    XorTop(a, b);
    XorCancels(Left(a), Left(b), POLY);
    XorSwaps(Left(a), Left(b), POLY);
    XorAssociates(Left(a), Left(b), POLY);
  }

  lemma {:induction false} ShiftsLinear(n: nat, a: bv32, b: bv32)
    ensures Shifts(n, Xor(a, b)) == Xor(Shifts(n, a), Shifts(n, b))
  {
    hide Shift, Xor;
    if n > 0 {
      ShiftLinear(a, b);
      ShiftsLinear(n - 1, Shift(a), Shift(b));
    }
  }

  // ---------------------------------------------------------------- a table step is eight register steps

  function Left8(c: bv32): bv32 {
    c << 8
  }

  /** The table index. */
  function Index(crc: bv32, b: bv8): bv32 {
    ((crc >> 24) ^ b as bv32) & 0xff
  }

  /** A byte at the top of the register. */
  function AtTop(b: bv32): bv32 {
    b << 24
  }

  function Low(crc: bv32): bv32 {
    crc & 0x00ff_ffff
  }

  /** One table step, as `crc32_ieee_u8` takes it. */
  function Step(crc: bv32, b: bv8): bv32 {
    Left8(crc) ^ Table(Index(crc, b))
  }

  /** The low 24 bits only move up in eight steps. */
  lemma LowBitsMove(y: bv32)
    requires y & 0xff00_0000 == 0
    ensures Shift8(y) == Left8(y)
  {
  }

  lemma HighAndLow(hi: bv32, y: bv32)
    requires y & 0xff00_0000 == 0
    ensures Shift8(Xor(hi, y)) == Xor(Shift8(hi), Left8(y))
  {
    hide Shift, Shift8, Xor, Left8;
    LowBitsMove(y);
    EightShifts(hi);
    EightShifts(y);
    EightShifts(Xor(hi, y));
    ShiftsLinear(8, hi, y);
  }

  lemma Halves(crc: bv32, b: bv8)
    ensures Index(crc, b) < 256 && Low(crc) & 0xff00_0000 == 0 && Left8(crc) == Left8(Low(crc))
  {
  }

  /** The top byte alone. */
  function High(crc: bv32): bv32 {
    crc & 0xff00_0000
  }

  lemma HighXorLow(crc: bv32)
    ensures crc == Xor(High(crc), Low(crc))
  {
  }

  lemma IndexAtTop(crc: bv32, b: bv8)
    ensures AtTop(Index(crc, b)) == Xor(High(crc), AtTop(b as bv32))
  {
  }

  lemma HalvesXor(crc: bv32, b: bv8)
    ensures Xor(crc, AtTop(b as bv32)) == Xor(AtTop(Index(crc, b)), Low(crc))
  {
    hide Xor, AtTop, Index, Low, High;
    HighXorLow(crc);
    IndexAtTop(crc, b);
    XorSwaps(High(crc), AtTop(b as bv32), Low(crc));
  }

  lemma StepIs(crc: bv32, b: bv8)
    ensures Step(crc, b) == Xor(Table(Index(crc, b)), Left8(crc))
  {
    hide Table, Index, Left8;
  }

  lemma StepIsShift8(crc: bv32, b: bv8)
    ensures Step(crc, b) == Shift8(Xor(crc, AtTop(b as bv32)))
  {
    hide Table, Shift8, Xor, Index, Low, Left8, Step;
    StepIs(crc, b);
    Halves(crc, b);
    HalvesXor(crc, b);
    TableIsShift8(Index(crc, b));
    HighAndLow(AtTop(Index(crc, b)), Low(crc));
  }

  // ---------------------------------------------------------------- one bit at a time

  /** The `n` top bits of a word, most significant first. */
  function Unpack(w: bv32, n: nat): (bits: seq<bool>)
    ensures |bits| == n
    decreases n
  {
    if n == 0 then [] else [Top(w)] + Unpack(Left(w), n - 1)
  }

  function Lefts(n: nat, w: bv32): bv32 {
    if n == 0 then w else Lefts(n - 1, Left(w))
  }

  function TopWord(bit: bool): bv32 {
    if bit then 0x8000_0000 else 0
  }

  /** The shift register fed with message bits. */
  function Feed(crc: bv32, bits: seq<bool>): bv32
    decreases |bits|
  {
    if bits == [] then crc else Feed(Shift(Xor(crc, TopWord(bits[0]))), bits[1..])
  }

  lemma TopAndRest(w: bv32)
    ensures w == Xor(TopWord(Top(w)), w & 0x7fff_ffff) && Shift(w & 0x7fff_ffff) == Left(w)
  {
  }

  lemma PeelTop(crc: bv32, w: bv32)
    ensures Shift(Xor(crc, w)) == Xor(Shift(Xor(crc, TopWord(Top(w)))), Left(w))
  {
    var t, rest := TopWord(Top(w)), w & 0x7fff_ffff;
    hide Xor, Shift, Left, Top;
    TopAndRest(w);
    XorAssociates(crc, t, rest);
    ShiftLinear(Xor(crc, t), rest);
  }

  lemma XorZero(crc: bv32)
    ensures Xor(crc, 0) == crc
  {
  }

  /** Feeding the top bits of a word is adding the word to the register and shifting. */
  lemma {:induction false} FeedTop(n: nat, crc: bv32, w: bv32)
    requires Lefts(n, w) == 0
    ensures Feed(crc, Unpack(w, n)) == Shifts(n, Xor(crc, w))
    decreases n
  {
    hide Xor, Shift, Left, Top;
    if n == 0 {
      XorZero(crc);
    } else {
      PeelTop(crc, w);
      var next := Shift(Xor(crc, TopWord(Top(w))));
      FeedTop(n - 1, next, Left(w));
      var bits := Unpack(w, n);
      assert bits[0] == Top(w) && bits[1..] == Unpack(Left(w), n - 1);
    }
  }

  lemma EightLefts(w: bv32)
    ensures Lefts(8, w) == Left8(w)
  {
    var w2 := Left(Left(w));
    assert Lefts(8, w) == Lefts(7, Left(w)) == Lefts(6, w2);
    var w4 := Left(Left(w2));
    assert Lefts(6, w2) == Lefts(5, Left(w2)) == Lefts(4, w4);
    var w6 := Left(Left(w4));
    assert Lefts(4, w4) == Lefts(3, Left(w4)) == Lefts(2, w6);
    assert Lefts(2, w6) == Lefts(1, Left(w6)) == Lefts(0, Left(Left(w6)));
  }

  function ByteBits(b: bv8): (bits: seq<bool>)
    ensures |bits| == 8
  {
    Unpack(AtTop(b as bv32), 8)
  }

  lemma ByteGone(b: bv8)
    ensures Left8(AtTop(b as bv32)) == 0
  {
  }

  /** A table step is the register fed with the byte, most significant bit first. */
  lemma StepIsFeed(crc: bv32, b: bv8)
    ensures Step(crc, b) == Feed(crc, ByteBits(b))
  {
    hide Step, Shift8, Xor, AtTop, Left8;
    var w := AtTop(b as bv32);
    ByteGone(b);
    EightLefts(w);
    FeedTop(8, crc, w);
    EightShifts(Xor(crc, w));
    StepIsShift8(crc, b);
  }

  // ---------------------------------------------------------------- polynomial division

  /** Polynomials over the two-element field, as coefficients from the highest power down; `b` added to the front of `a`. */
  function AddFront(a: seq<bool>, b: seq<bool>): seq<bool>
    requires |b| <= |a|
  {
    seq(|a|, i requires 0 <= i < |a| => if i < |b| then a[i] != b[i] else a[i])
  }

  /** Long division by x^32 + POLY: the remainder, 32 coefficients. */
  function Remainder(dividend: seq<bool>): seq<bool>
    requires |dividend| >= 32
    decreases |dividend|
  {
    if |dividend| == 32 then dividend
    else
      var rest := dividend[1..];
      Remainder(if dividend[0] then AddFront(rest, Unpack(POLY, 32)) else rest)
  }

  function Zeros(n: nat): seq<bool> {
    seq(n, _ => false)
  }

  function Ones(n: nat): seq<bool> {
    seq(n, _ => true)
  }

  lemma {:induction false} UnpackXor(a: bv32, b: bv32, n: nat, i: nat)
    requires i < n
    ensures Unpack(Xor(a, b), n)[i] == (Unpack(a, n)[i] != Unpack(b, n)[i])
    decreases n
  {
    hide Xor, Left, Top;
    XorTop(a, b);
    if i > 0 {
      UnpackXor(Left(a), Left(b), n - 1, i - 1);
    }
  }

  lemma {:induction false} UnpackSplit(w: bv32, m: nat, n: nat)
    ensures Unpack(w, m + n) == Unpack(w, m) + Unpack(Lefts(m, w), n)
    decreases m
  {
    hide Left, Top;
    if m > 0 {
      UnpackSplit(Left(w), m - 1, n);
    }
  }

  lemma {:induction false} LeftsSplit(w: bv32, m: nat, n: nat)
    ensures Lefts(m + n, w) == Lefts(n, Lefts(m, w))
    decreases m
  {
    hide Left;
    if m > 0 {
      LeftsSplit(Left(w), m - 1, n);
    }
  }

  lemma FourBytes(w: bv32)
    ensures Left8(Left8(Left8(Left8(w)))) == 0
  {
  }

  lemma AllGone(w: bv32)
    ensures Lefts(32, w) == 0
  {
    hide Left, Left8;
    var w1 := Left8(w);
    var w2 := Left8(w1);
    var w3 := Left8(w2);
    EightLefts(w);
    LeftsSplit(w, 8, 24);
    EightLefts(w1);
    LeftsSplit(w1, 8, 16);
    EightLefts(w2);
    LeftsSplit(w2, 8, 8);
    EightLefts(w3);
    FourBytes(w);
  }

  lemma TopOfZero()
    ensures !Top(0)
  {
  }

  /** Shifting the register left drops its first bit and appends a zero. */
  lemma LeftBits(w: bv32)
    ensures Unpack(w, 32)[0] == Top(w) && Unpack(Left(w), 32) == Unpack(w, 32)[1..] + [false]
  {
    hide Left, Top;
    AllGone(w);
    TopOfZero();
    assert Lefts(32, w) == Lefts(31, Left(w));
    UnpackSplit(Left(w), 31, 1);
    var z := Lefts(31, Left(w));
    assert Unpack(z, 1) == [Top(z)] + Unpack(Left(z), 0);
  }

  /** One bit into the register is one step of the division. */
  lemma FeedBit(crc: bv32, bit: bool)
    ensures Shift(Xor(crc, TopWord(bit))) == if Top(crc) != bit then Xor(Left(crc), POLY) else Left(crc)
  {
    var t := TopWord(bit);
    assert Top(t) == bit && Left(t) == 0;
    hide Top, Left, Xor, TopWord;
    XorTop(crc, t);
    XorZero(Left(crc));
  }

  /** The register `crc` with `m` still to come stands for the dividend `m` times x^32, `crc` added at its front. */
  function Dividend(crc: bv32, m: seq<bool>): seq<bool> {
    AddFront(m + Zeros(32), Unpack(crc, 32))
  }

  lemma DropFirst(crc: bv32, m: seq<bool>)
    requires m != []
    ensures Dividend(crc, m)[0] == (Top(crc) != m[0])
    ensures Dividend(crc, m)[1..] == Dividend(Left(crc), m[1..])
  {
    hide Left, Top;
    LeftBits(crc);
    var a, b := Dividend(crc, m)[1..], Dividend(Left(crc), m[1..]);
    var u := Unpack(Left(crc), 32);
    forall i | 0 <= i < |a|
      ensures a[i] == b[i]
    {
      assert (m + Zeros(32))[i + 1] == (m[1..] + Zeros(32))[i];
    }
  }

  lemma AddGenerator(crc: bv32, m: seq<bool>)
    ensures AddFront(Dividend(crc, m), Unpack(POLY, 32)) == Dividend(Xor(crc, POLY), m)
  {
    hide Xor;
    forall i | 0 <= i < 32
      ensures Unpack(Xor(crc, POLY), 32)[i] == (Unpack(crc, 32)[i] != Unpack(POLY, 32)[i])
    {
      UnpackXor(crc, POLY, 32, i);
    }
  }

  lemma {:induction false} FeedDivides(crc: bv32, m: seq<bool>)
    ensures Remainder(Dividend(crc, m)) == Unpack(Feed(crc, m), 32)
    decreases |m|
  {
    hide Shift, Xor, Left, Top, TopWord;
    if m == [] {
      assert Dividend(crc, m) == Unpack(crc, 32);
    } else {
      FeedBit(crc, m[0]);
      DropFirst(crc, m);
      AddGenerator(Left(crc), m[1..]);
      FeedDivides(Shift(Xor(crc, TopWord(m[0]))), m[1..]);
    }
  }

  lemma OnesByte(w: bv32)
    requires w & 0xff00_0000 == 0xff00_0000
    ensures Unpack(w, 8) == Ones(8)
  {
    var w1 := Left(w);
    var w2 := Left(w1);
    var w3 := Left(w2);
    var w4 := Left(w3);
    var w5 := Left(w4);
    var w6 := Left(w5);
    var w7 := Left(w6);
    assert Top(w) && Top(w1) && Top(w2) && Top(w3) && Top(w4) && Top(w5) && Top(w6) && Top(w7);
    hide Left, Top;
    assert Unpack(w, 8) == [true] + Unpack(w1, 7) == [true, true] + Unpack(w2, 6);
    assert Unpack(w2, 6) == [true] + Unpack(w3, 5) == [true, true] + Unpack(w4, 4);
    assert Unpack(w4, 4) == [true] + Unpack(w5, 3) == [true, true] + Unpack(w6, 2);
    assert Unpack(w6, 2) == [true] + Unpack(w7, 1) == [true, true] + Unpack(Left(w7), 0);
  }

  lemma InitBits()
    ensures Unpack(INIT, 32) == Ones(32)
  {
    var w1, w2, w3 := Left8(INIT), Left8(Left8(INIT)), Left8(Left8(Left8(INIT)));
    assert w1 == 0xffff_ff00 && w2 == 0xffff_0000 && w3 == 0xff00_0000;
    EightLefts(INIT);
    EightLefts(w1);
    EightLefts(w2);
    UnpackSplit(INIT, 8, 24);
    UnpackSplit(w1, 8, 16);
    UnpackSplit(w2, 8, 8);
    OnesByte(INIT);
    OnesByte(w1);
    OnesByte(w2);
    OnesByte(w3);
  }

  // ---------------------------------------------------------------- messages

  function MessageBits(bytes: seq<bv8>): seq<bool> {
    if bytes == [] then [] else MessageBits(bytes[..|bytes| - 1]) + ByteBits(bytes[|bytes| - 1])
  }

  /** The register after a message, byte by byte. */
  function Crc(bytes: seq<bv8>): bv32 {
    if bytes == [] then INIT else Step(Crc(bytes[..|bytes| - 1]), bytes[|bytes| - 1])
  }

  lemma {:induction false} FeedAppend(crc: bv32, a: seq<bool>, b: seq<bool>)
    ensures Feed(crc, a + b) == Feed(Feed(crc, a), b)
    decreases |a|
  {
    hide Shift, Xor, TopWord;
    if a == [] {
      assert a + b == b;
    } else {
      assert (a + b)[1..] == a[1..] + b;
      FeedAppend(Shift(Xor(crc, TopWord(a[0]))), a[1..], b);
    }
  }

  lemma {:induction false} CrcIsFeed(bytes: seq<bv8>)
    ensures Crc(bytes) == Feed(INIT, MessageBits(bytes))
  {
    hide Step, ByteBits;
    if bytes != [] {
      var init, b := bytes[..|bytes| - 1], bytes[|bytes| - 1];
      CrcIsFeed(init);
      FeedAppend(INIT, MessageBits(init), ByteBits(b));
      StepIsFeed(Crc(init), b);
    }
  }

  /**
   The CRC of every message is the remainder of the polynomial division of the
   message, 32 zero coefficients appended and the first 32 inverted.
   */
  lemma CrcIsRemainder(bytes: seq<bv8>)
    ensures Unpack(Crc(bytes), 32) == Remainder(AddFront(MessageBits(bytes) + Zeros(32), Ones(32)))
  {
    InitBits();
    CrcIsFeed(bytes);
    FeedDivides(INIT, MessageBits(bytes));
  }

  /** `crc32_ieee_u8`. */
  method CrcU8(buf: array<bv8>) returns (crc: bv32)
    ensures crc == Crc(buf[..])
  {
    crc := INIT;
    var i := 0;
    hide Step;
    while i < buf.Length
      invariant 0 <= i <= buf.Length && crc == Crc(buf[..i])
    {
      assert buf[..i + 1][..i] == buf[..i];
      crc := Step(crc, buf[i]);
      i := i + 1;
    }
    assert buf[..buf.Length] == buf[..];
  }

  // ---------------------------------------------------------------- words

  /** `int_to_bytes`: most significant byte first. */
  function IntToBytes(w: bv32): (bytes: seq<bv8>)
    ensures |bytes| == 4
  {
    [(w >> 24) as bv8, ((w >> 16) & 0xff) as bv8, ((w >> 8) & 0xff) as bv8, (w & 0xff) as bv8]
  }

  function WordBytes(words: seq<bv32>): seq<bv8> {
    if words == [] then [] else WordBytes(words[..|words| - 1]) + IntToBytes(words[|words| - 1])
  }

  lemma Snoc(bytes: seq<bv8>, b: bv8)
    ensures Crc(bytes + [b]) == Step(Crc(bytes), b)
  {
    hide Step;
    assert (bytes + [b])[..|bytes|] == bytes;
  }

  lemma FourSteps(bytes: seq<bv8>, four: seq<bv8>)
    requires |four| == 4
    ensures Crc(bytes + four) == Step(Step(Step(Step(Crc(bytes), four[0]), four[1]), four[2]), four[3])
  {
    hide Step;
    var b1 := bytes + [four[0]];
    var b2 := b1 + [four[1]];
    var b3 := b2 + [four[2]];
    assert bytes + four == b3 + [four[3]];
    Snoc(bytes, four[0]);
    Snoc(b1, four[1]);
    Snoc(b2, four[2]);
    Snoc(b3, four[3]);
  }

  /** The step as `crc32_ieee_u32` writes it: the word is shifted but not masked before the index is. */
  function WordStep(crc: bv32, shifted: bv32): bv32 {
    (crc << 8) ^ Table(((crc >> 24) ^ shifted) & 0xff)
  }

  lemma MaskedIndex(crc: bv32, shifted: bv32)
    ensures WordStep(crc, shifted) == Step(crc, (shifted & 0xff) as bv8)
  {
    assert ((crc >> 24) ^ shifted) & 0xff == ((crc >> 24) ^ ((shifted & 0xff) as bv8) as bv32) & 0xff;
    hide Table;
  }

  /** `crc32_ieee_u32`: the CRC of the words' bytes, most significant first. */
  method CrcU32(buf: array<bv32>) returns (crc: bv32)
    ensures crc == Crc(WordBytes(buf[..]))
  {
    crc := INIT;
    var i := 0;
    hide Step, WordStep, IntToBytes;
    while i < buf.Length
      invariant 0 <= i <= buf.Length && crc == Crc(WordBytes(buf[..i]))
    {
      assert buf[..i + 1][..i] == buf[..i];
      var w := buf[i];
      FourSteps(WordBytes(buf[..i]), IntToBytes(w));
      WordSteps(crc, w);
      crc := WordStep(crc, w >> 24);
      crc := WordStep(crc, w >> 16);
      crc := WordStep(crc, w >> 8);
      crc := WordStep(crc, w >> 0);
      i := i + 1;
    }
    assert buf[..buf.Length] == buf[..];
  }

  lemma WordSteps(crc: bv32, w: bv32)
    ensures var b := IntToBytes(w);
      WordStep(WordStep(WordStep(WordStep(crc, w >> 24), w >> 16), w >> 8), w >> 0) ==
      Step(Step(Step(Step(crc, b[0]), b[1]), b[2]), b[3])
  {
    assert (w >> 24) & 0xff == w >> 24 && w >> 0 == w;
    hide Step, WordStep;
    MaskedIndex(crc, w >> 24);
    var c1 := WordStep(crc, w >> 24);
    MaskedIndex(c1, w >> 16);
    var c2 := WordStep(c1, w >> 16);
    MaskedIndex(c2, w >> 8);
    var c3 := WordStep(c2, w >> 8);
    MaskedIndex(c3, w >> 0);
  }

  // ---------------------------------------------------------------- the generator script

  /** The accumulator of `gen_table` is not cut to 32 bits until the end; 40 are enough for a byte and eight shifts. */
  function WideShift(c: bv40): bv40 {
    if c & 0x8000_0000 != 0 then (c << 1) ^ 0x04C1_1DB7 else c << 1
  }

  function Low32(c: bv40): bv32 {
    (c & 0xffff_ffff) as bv32
  }

  lemma WideTop(c: bv40)
    ensures (c & 0x8000_0000 != 0) == Top(Low32(c))
  {
  }

  lemma WideLeft(c: bv40)
    ensures Low32(c << 1) == Left(Low32(c))
  {
    assert ((c << 1) & 0xffff_ffff) as bv32 == ((c & 0xffff_ffff) as bv32) << 1;
  }

  lemma WideXor(c: bv40)
    ensures Low32(c ^ 0x04C1_1DB7) == Xor(Low32(c), POLY)
  {
    assert ((c ^ 0x04C1_1DB7) & 0xffff_ffff) as bv32 == ((c & 0xffff_ffff) as bv32) ^ 0x04C1_1DB7;
  }

  lemma WideIsShift(c: bv40)
    ensures Low32(WideShift(c)) == Shift(Low32(c))
  {
    hide Low32, Left, Xor, Top;
    WideTop(c);
    WideLeft(c);
    WideXor(c << 1);
  }

  lemma WideStart(i: bv32)
    requires i < 256
    ensures Low32((i as bv40) << 24) == AtTop(i)
  {
  }

  lemma {:induction false} ShiftsSnoc(n: nat, c: bv32)
    ensures Shifts(n + 1, c) == Shift(Shifts(n, c))
    decreases n
  {
    hide Shift;
    if n > 0 {
      ShiftsSnoc(n - 1, Shift(c));
    }
  }

  /** The inner loop of `gen_table`. */
  method GenEntry(i: bv32) returns (entry: bv32)
    requires i < 256
    ensures entry == Table(i)
  {
    var c := (i as bv40) << 24;
    WideStart(i);
    hide Table, Shift, Shift8, Low32, WideShift, AtTop;
    var n := 0;
    while n < 8
      invariant 0 <= n <= 8 && Low32(c) == Shifts(n, AtTop(i))
    {
      WideIsShift(c);
      ShiftsSnoc(n, AtTop(i));
      c := WideShift(c);
      n := n + 1;
    }
    EightShifts(AtTop(i));
    TableEntry(i);
    entry := Low32(c);
  }

  lemma TableEntry(i: bv32)
    requires i < 256
    ensures Table(i) == Shift8(AtTop(i))
  {
    TableIsShift8(i);
    hide Table, Shift8;
  }

  /** `gen_table`: the script generates the table of the firmware. */
  method GenTable() returns (table: seq<bv32>)
    ensures |table| == 256 && forall i: nat :: i < 256 ==> table[i] == Table(i as bv32)
  {
    table := [];
    hide Table;
    while |table| < 256
      invariant |table| <= 256
      invariant forall i: nat :: i < |table| ==> table[i] == Table(i as bv32)
    {
      var i := |table| as bv32;
      var entry := GenEntry(i);
      table := table + [entry];
    }
  }
}