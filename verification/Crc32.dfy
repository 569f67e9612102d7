/** The table-driven CRC-32 of src/core/crc32.h against the bit-by-bit one of section 8 of RFC 1952. */
module Crc32 {

  const POLYNOMIAL: bv32 := 0xedb88320

  function Xor(x: bv32, y: bv32): bv32 { x ^ y }

  function Down(x: bv32): bv32 { x >> 8 }

  function LowByte(x: bv32): (l: bv32)
    ensures l < 256
  {
    x & 0xff
  }

  function Wide(b: bv8): bv32 { b as bv32 }

  /** One bit of the reflected division. */
  function Bit(c: bv32): bv32 { if c & 1 == 1 then (c >> 1) ^ POLYNOMIAL else c >> 1 }

  /** Eight of them. */
  function Byte(c: bv32): bv32 { Bit(Bit(Bit(Bit(Bit(Bit(Bit(Bit(c)))))))) }

  /** The bit-by-bit state after some bytes, from state c. */
  function Bitwise(c: bv32, bytes: seq<bv8>): bv32
    decreases |bytes|
  {
    if bytes == [] then c else Bitwise(Byte(Xor(c, Wide(bytes[0]))), bytes[1..])
  }

  /** The table, in rows of eight. */
  function TableRow(r: nat): (row: seq<bv32>)
    requires r < 32
    ensures |row| == 8
  {
    match r
    case 0 => [0x00000000, 0x77073096, 0xee0e612c, 0x990951ba, 0x076dc419, 0x706af48f, 0xe963a535, 0x9e6495a3]
    case 1 => [0x0edb8832, 0x79dcb8a4, 0xe0d5e91e, 0x97d2d988, 0x09b64c2b, 0x7eb17cbd, 0xe7b82d07, 0x90bf1d91]
    case 2 => [0x1db71064, 0x6ab020f2, 0xf3b97148, 0x84be41de, 0x1adad47d, 0x6ddde4eb, 0xf4d4b551, 0x83d385c7]
    case 3 => [0x136c9856, 0x646ba8c0, 0xfd62f97a, 0x8a65c9ec, 0x14015c4f, 0x63066cd9, 0xfa0f3d63, 0x8d080df5]
    case 4 => [0x3b6e20c8, 0x4c69105e, 0xd56041e4, 0xa2677172, 0x3c03e4d1, 0x4b04d447, 0xd20d85fd, 0xa50ab56b]
    case 5 => [0x35b5a8fa, 0x42b2986c, 0xdbbbc9d6, 0xacbcf940, 0x32d86ce3, 0x45df5c75, 0xdcd60dcf, 0xabd13d59]
    case 6 => [0x26d930ac, 0x51de003a, 0xc8d75180, 0xbfd06116, 0x21b4f4b5, 0x56b3c423, 0xcfba9599, 0xb8bda50f]
    case 7 => [0x2802b89e, 0x5f058808, 0xc60cd9b2, 0xb10be924, 0x2f6f7c87, 0x58684c11, 0xc1611dab, 0xb6662d3d]
    case 8 => [0x76dc4190, 0x01db7106, 0x98d220bc, 0xefd5102a, 0x71b18589, 0x06b6b51f, 0x9fbfe4a5, 0xe8b8d433]
    case 9 => [0x7807c9a2, 0x0f00f934, 0x9609a88e, 0xe10e9818, 0x7f6a0dbb, 0x086d3d2d, 0x91646c97, 0xe6635c01]
    case 10 => [0x6b6b51f4, 0x1c6c6162, 0x856530d8, 0xf262004e, 0x6c0695ed, 0x1b01a57b, 0x8208f4c1, 0xf50fc457]
    case 11 => [0x65b0d9c6, 0x12b7e950, 0x8bbeb8ea, 0xfcb9887c, 0x62dd1ddf, 0x15da2d49, 0x8cd37cf3, 0xfbd44c65]
    case 12 => [0x4db26158, 0x3ab551ce, 0xa3bc0074, 0xd4bb30e2, 0x4adfa541, 0x3dd895d7, 0xa4d1c46d, 0xd3d6f4fb]
    case 13 => [0x4369e96a, 0x346ed9fc, 0xad678846, 0xda60b8d0, 0x44042d73, 0x33031de5, 0xaa0a4c5f, 0xdd0d7cc9]
    case 14 => [0x5005713c, 0x270241aa, 0xbe0b1010, 0xc90c2086, 0x5768b525, 0x206f85b3, 0xb966d409, 0xce61e49f]
    case 15 => [0x5edef90e, 0x29d9c998, 0xb0d09822, 0xc7d7a8b4, 0x59b33d17, 0x2eb40d81, 0xb7bd5c3b, 0xc0ba6cad]
    case 16 => [0xedb88320, 0x9abfb3b6, 0x03b6e20c, 0x74b1d29a, 0xead54739, 0x9dd277af, 0x04db2615, 0x73dc1683]
    case 17 => [0xe3630b12, 0x94643b84, 0x0d6d6a3e, 0x7a6a5aa8, 0xe40ecf0b, 0x9309ff9d, 0x0a00ae27, 0x7d079eb1]
    case 18 => [0xf00f9344, 0x8708a3d2, 0x1e01f268, 0x6906c2fe, 0xf762575d, 0x806567cb, 0x196c3671, 0x6e6b06e7]
    case 19 => [0xfed41b76, 0x89d32be0, 0x10da7a5a, 0x67dd4acc, 0xf9b9df6f, 0x8ebeeff9, 0x17b7be43, 0x60b08ed5]
    case 20 => [0xd6d6a3e8, 0xa1d1937e, 0x38d8c2c4, 0x4fdff252, 0xd1bb67f1, 0xa6bc5767, 0x3fb506dd, 0x48b2364b]
    case 21 => [0xd80d2bda, 0xaf0a1b4c, 0x36034af6, 0x41047a60, 0xdf60efc3, 0xa867df55, 0x316e8eef, 0x4669be79]
    case 22 => [0xcb61b38c, 0xbc66831a, 0x256fd2a0, 0x5268e236, 0xcc0c7795, 0xbb0b4703, 0x220216b9, 0x5505262f]
    case 23 => [0xc5ba3bbe, 0xb2bd0b28, 0x2bb45a92, 0x5cb36a04, 0xc2d7ffa7, 0xb5d0cf31, 0x2cd99e8b, 0x5bdeae1d]
    case 24 => [0x9b64c2b0, 0xec63f226, 0x756aa39c, 0x026d930a, 0x9c0906a9, 0xeb0e363f, 0x72076785, 0x05005713]
    case 25 => [0x95bf4a82, 0xe2b87a14, 0x7bb12bae, 0x0cb61b38, 0x92d28e9b, 0xe5d5be0d, 0x7cdcefb7, 0x0bdbdf21]
    case 26 => [0x86d3d2d4, 0xf1d4e242, 0x68ddb3f8, 0x1fda836e, 0x81be16cd, 0xf6b9265b, 0x6fb077e1, 0x18b74777]
    case 27 => [0x88085ae6, 0xff0f6a70, 0x66063bca, 0x11010b5c, 0x8f659eff, 0xf862ae69, 0x616bffd3, 0x166ccf45]
    case 28 => [0xa00ae278, 0xd70dd2ee, 0x4e048354, 0x3903b3c2, 0xa7672661, 0xd06016f7, 0x4969474d, 0x3e6e77db]
    case 29 => [0xaed16a4a, 0xd9d65adc, 0x40df0b66, 0x37d83bf0, 0xa9bcae53, 0xdebb9ec5, 0x47b2cf7f, 0x30b5ffe9]
    case 30 => [0xbdbdf21c, 0xcabac28a, 0x53b39330, 0x24b4a3a6, 0xbad03605, 0xcdd70693, 0x54de5729, 0x23d967bf]
    case _ => [0xb3667a2e, 0xc4614ab8, 0x5d681b02, 0x2a6f2b94, 0xb40bbe37, 0xc30c8ea1, 0x5a05df1b, 0x2d02ef8d]
  }

  function Row(n: bv32): seq<bv32> {
    [Byte(n), Byte(n | 1), Byte(n | 2), Byte(n | 3), Byte(n | 4), Byte(n | 5), Byte(n | 6), Byte(n | 7)]
  }

  lemma Rows0()
    ensures TableRow(0) == Row(0) && TableRow(1) == Row(8)
  {
  }

  lemma Rows2()
    ensures TableRow(2) == Row(16) && TableRow(3) == Row(24)
  {
  }

  lemma Rows4()
    ensures TableRow(4) == Row(32) && TableRow(5) == Row(40)
  {
  }

  lemma Rows6()
    ensures TableRow(6) == Row(48) && TableRow(7) == Row(56)
  {
  }

  lemma Rows8()
    ensures TableRow(8) == Row(64) && TableRow(9) == Row(72)
  {
  }

  lemma Rows10()
    ensures TableRow(10) == Row(80) && TableRow(11) == Row(88)
  {
  }

  lemma Rows12()
    ensures TableRow(12) == Row(96) && TableRow(13) == Row(104)
  {
  }

  lemma Rows14()
    ensures TableRow(14) == Row(112) && TableRow(15) == Row(120)
  {
  }

  lemma Rows16()
    ensures TableRow(16) == Row(128) && TableRow(17) == Row(136)
  {
  }

  lemma Rows18()
    ensures TableRow(18) == Row(144) && TableRow(19) == Row(152)
  {
  }

  lemma Rows20()
    ensures TableRow(20) == Row(160) && TableRow(21) == Row(168)
  {
  }

  lemma Rows22()
    ensures TableRow(22) == Row(176) && TableRow(23) == Row(184)
  {
  }

  lemma Rows24()
    ensures TableRow(24) == Row(192) && TableRow(25) == Row(200)
  {
  }

  lemma Rows26()
    ensures TableRow(26) == Row(208) && TableRow(27) == Row(216)
  {
  }

  lemma Rows28()
    ensures TableRow(28) == Row(224) && TableRow(29) == Row(232)
  {
  }

  lemma Rows30()
    ensures TableRow(30) == Row(240) && TableRow(31) == Row(248)
  {
  }

  lemma RowsFrom0(y: bv32)
    requires 0 <= y < 8
    ensures y as nat < 32 && TableRow(y as nat) == Row(y << 3)
  {
    Rows0();
    Rows2();
    Rows4();
    Rows6();
    if y == 0 { assert y as nat == 0 && y << 3 == 0; }
    else if y == 1 { assert y as nat == 1 && y << 3 == 8; }
    else if y == 2 { assert y as nat == 2 && y << 3 == 16; }
    else if y == 3 { assert y as nat == 3 && y << 3 == 24; }
    else if y == 4 { assert y as nat == 4 && y << 3 == 32; }
    else if y == 5 { assert y as nat == 5 && y << 3 == 40; }
    else if y == 6 { assert y as nat == 6 && y << 3 == 48; }
    else if y == 7 { assert y as nat == 7 && y << 3 == 56; }
  }

  lemma RowsFrom8(y: bv32)
    requires 8 <= y < 16
    ensures y as nat < 32 && TableRow(y as nat) == Row(y << 3)
  {
    Rows8();
    Rows10();
    Rows12();
    Rows14();
    if y == 8 { assert y as nat == 8 && y << 3 == 64; }
    else if y == 9 { assert y as nat == 9 && y << 3 == 72; }
    else if y == 10 { assert y as nat == 10 && y << 3 == 80; }
    else if y == 11 { assert y as nat == 11 && y << 3 == 88; }
    else if y == 12 { assert y as nat == 12 && y << 3 == 96; }
    else if y == 13 { assert y as nat == 13 && y << 3 == 104; }
    else if y == 14 { assert y as nat == 14 && y << 3 == 112; }
    else if y == 15 { assert y as nat == 15 && y << 3 == 120; }
  }

  lemma RowsFrom16(y: bv32)
    requires 16 <= y < 24
    ensures y as nat < 32 && TableRow(y as nat) == Row(y << 3)
  {
    Rows16();
    Rows18();
    Rows20();
    Rows22();
    if y == 16 { assert y as nat == 16 && y << 3 == 128; }
    else if y == 17 { assert y as nat == 17 && y << 3 == 136; }
    else if y == 18 { assert y as nat == 18 && y << 3 == 144; }
    else if y == 19 { assert y as nat == 19 && y << 3 == 152; }
    else if y == 20 { assert y as nat == 20 && y << 3 == 160; }
    else if y == 21 { assert y as nat == 21 && y << 3 == 168; }
    else if y == 22 { assert y as nat == 22 && y << 3 == 176; }
    else if y == 23 { assert y as nat == 23 && y << 3 == 184; }
  }

  lemma RowsFrom24(y: bv32)
    requires 24 <= y < 32
    ensures y as nat < 32 && TableRow(y as nat) == Row(y << 3)
  {
    Rows24();
    Rows26();
    Rows28();
    Rows30();
    if y == 24 { assert y as nat == 24 && y << 3 == 192; }
    else if y == 25 { assert y as nat == 25 && y << 3 == 200; }
    else if y == 26 { assert y as nat == 26 && y << 3 == 208; }
    else if y == 27 { assert y as nat == 27 && y << 3 == 216; }
    else if y == 28 { assert y as nat == 28 && y << 3 == 224; }
    else if y == 29 { assert y as nat == 29 && y << 3 == 232; }
    else if y == 30 { assert y as nat == 30 && y << 3 == 240; }
    else if y == 31 { assert y as nat == 31 && y << 3 == 248; }
  }

  lemma RowOf(y: bv32)
    requires y < 32
    ensures y as nat < 32 && TableRow(y as nat) == Row(y << 3)
  {
    if y < 8 { RowsFrom0(y); } else if y < 16 { RowsFrom8(y); } else if y < 24 { RowsFrom16(y); } else { RowsFrom24(y); }
  }

  lemma ColumnOf(n: bv32, k: bv32)
    requires k < 8
    ensures k as nat < 8 && Row(n)[k as nat] == Byte(n | k)
  {
    assert n | 0 == n;
    if k == 0 { assert k as nat == 0; } else if k == 1 { assert k as nat == 1; } else if k == 2 { assert k as nat == 2; }
    else if k == 3 { assert k as nat == 3; } else if k == 4 { assert k as nat == 4; } else if k == 5 { assert k as nat == 5; }
    else if k == 6 { assert k as nat == 6; } else { assert k as nat == 7; }
  }

  lemma Split(x: bv32)
    requires x < 256
    ensures x >> 3 < 32 && x & 7 < 8 && ((x >> 3) << 3) | (x & 7) == x
  {
  }

  /** kCrcTable[x]. */
  function Table(x: bv32): bv32
    requires x < 256
  {
    RowOf(x >> 3);
    ColumnOf(0, x & 7);
    TableRow((x >> 3) as nat)[(x & 7) as nat]
  }

  /** Each of the 256 constants is what eight bit steps make of its index. */
  lemma TableIsByte(x: bv32)
    requires x < 256
    ensures Table(x) == Byte(x)
  {
    Split(x);
    RowOf(x >> 3);
    ColumnOf((x >> 3) << 3, x & 7);
  }

  // ----- The table-driven step

  predicate Even(x: bv32) { x & 1 == 0 }

  predicate HighOnly(x: bv32) { x & 0xff == 0 }

  function Half(x: bv32): bv32 { x >> 1 }

  predicate Odd(x: bv32) { x & 1 == 1 }

  lemma BitOf(c: bv32)
    ensures Bit(c) == if Odd(c) then Xor(Half(c), POLYNOMIAL) else Half(c)
  {
  }

  lemma HalfOfXor(h: bv32, l: bv32)
    ensures Half(Xor(h, l)) == Xor(Half(h), Half(l))
  {
  }

  lemma OddOfXor(h: bv32, l: bv32)
    requires Even(h)
    ensures Odd(Xor(h, l)) == Odd(l)
  {
  }

  lemma XorAssociates(x: bv32, y: bv32, z: bv32)
    ensures Xor(Xor(x, y), z) == Xor(x, Xor(y, z))
  {
  }

  /** A part without its lowest bit passes through a bit step by itself. */
  lemma HighBit(h: bv32, l: bv32)
    requires Even(h)
    ensures Bit(Xor(h, l)) == Xor(Half(h), Bit(l))
  {
    BitOf(l);
    BitOf(Xor(h, l));
    HalfOfXor(h, l);
    OddOfXor(h, l);
    XorAssociates(Half(h), Half(l), POLYNOMIAL);
  }

  lemma HighBits(h: bv32, l: bv32, h1: bv32, h2: bv32, h3: bv32, h4: bv32)
    requires Even(h) && h1 == Half(h) && Even(h1) && h2 == Half(h1) && Even(h2) && h3 == Half(h2) && Even(h3) && h4 == Half(h3)
    ensures Bit(Bit(Bit(Bit(Xor(h, l))))) == Xor(h4, Bit(Bit(Bit(Bit(l)))))
  {
    HighBit(h, l);
    HighBit(h1, Bit(l));
    HighBit(h2, Bit(Bit(l)));
    HighBit(h3, Bit(Bit(Bit(l))));
  }

  /** The lowest bit of h and the bits of h / 2 that the mask m covers are clear. */
  lemma LowClear(h: bv32, m: bv32)
    requires m & 1 == 1 && h & m == 0
    ensures Even(h) && Half(h) & (m >> 1) == 0
  {
  }

  lemma HalfEight(h: bv32)
    ensures Half(Half(Half(Half(Half(Half(Half(Half(h)))))))) == Down(h)
  {
  }

  /** A part without its lowest byte passes through eight of them. */
  lemma HighByte(h: bv32, l: bv32)
    requires HighOnly(h)
    ensures Byte(Xor(h, l)) == Xor(Down(h), Byte(l))
  {
    var h1 := Half(h);
    var h2 := Half(h1);
    var h3 := Half(h2);
    var h4 := Half(h3);
    var h5 := Half(h4);
    var h6 := Half(h5);
    var h7 := Half(h6);
    LowClear(h, 0xff);
    LowClear(h1, 0x7f);
    LowClear(h2, 0x3f);
    LowClear(h3, 0x1f);
    LowClear(h4, 0xf);
    LowClear(h5, 0x7);
    LowClear(h6, 0x3);
    LowClear(h7, 0x1);
    HighBits(h, l, h1, h2, h3, h4);
    HighBits(h4, Bit(Bit(Bit(Bit(l)))), h5, h6, h7, Half(h7));
    HalfEight(h);
  }

  function HighPart(z: bv32): bv32 { z & 0xffff_ff00 }

  lemma Halves(z: bv32)
    ensures Xor(HighPart(z), LowByte(z)) == z && HighOnly(HighPart(z)) && Down(HighPart(z)) == Down(z)
  {
  }

  lemma DownIgnoresByte(c: bv32, b: bv8)
    ensures Down(Xor(c, Wide(b))) == Down(c)
  {
  }

  /** The template recursion of the source: the state after the first n bytes. */
  function Crc(bytes: seq<bv8>, n: nat): bv32
    requires n <= |bytes|
  {
    if n == 0 then 0xffff_ffff
    else Xor(Down(Crc(bytes, n - 1)), Table(LowByte(Xor(Crc(bytes, n - 1), Wide(bytes[n - 1])))))
  }

  /** COMPILE_TIME_CRC32_STR. */
  function CompileTimeCrc32(bytes: seq<bv8>): bv32 { Xor(Crc(bytes, |bytes|), 0xffff_ffff) }

  lemma TableStep(c: bv32, b: bv8)
    ensures Xor(Down(c), Table(LowByte(Xor(c, Wide(b))))) == Byte(Xor(c, Wide(b)))
  {
    var z := Xor(c, Wide(b));
    Halves(z);
    DownIgnoresByte(c, b);
    TableIsByte(LowByte(z));
    HighByte(HighPart(z), LowByte(z));
  }

  lemma {:induction false} BitwiseSnoc(c: bv32, bytes: seq<bv8>, b: bv8)
    ensures Bitwise(c, bytes + [b]) == Byte(Xor(Bitwise(c, bytes), Wide(b)))
    decreases |bytes|
  {
    if bytes == [] {
      assert [b][1..] == [] && bytes + [b] == [b];
    } else {
      BitwiseSnoc(Byte(Xor(c, Wide(bytes[0]))), bytes[1..], b);
      assert (bytes + [b])[1..] == bytes[1..] + [b];
    }
  }

  lemma CrcStep(bytes: seq<bv8>, n: nat)
    requires 0 < n <= |bytes|
    ensures Crc(bytes, n) == Byte(Xor(Crc(bytes, n - 1), Wide(bytes[n - 1])))
  {
    TableStep(Crc(bytes, n - 1), bytes[n - 1]);
  }

  lemma CrcStart(bytes: seq<bv8>, start: bv32)
    requires start == 0xffff_ffff
    ensures Crc(bytes, 0) == Bitwise(start, bytes[..0])
  {
  }

  lemma BitwisePrefix(c: bv32, bytes: seq<bv8>, n: nat)
    requires 0 < n <= |bytes|
    ensures Bitwise(c, bytes[..n]) == Byte(Xor(Bitwise(c, bytes[..n - 1]), Wide(bytes[n - 1])))
  {
    BitwiseSnoc(c, bytes[..n - 1], bytes[n - 1]);
    assert bytes[..n] == bytes[..n - 1] + [bytes[n - 1]];
  }

  /** For every byte string the table-driven state is the bit-by-bit one. */
  lemma {:induction false} CrcIsBitwise(bytes: seq<bv8>, n: nat, start: bv32)
    requires n <= |bytes| && start == 0xffff_ffff
    ensures Crc(bytes, n) == Bitwise(start, bytes[..n])
  {
    if n == 0 {
      CrcStart(bytes, start);
    } else {
      CrcIsBitwise(bytes, n - 1, start);
      CrcStep(bytes, n);
      BitwisePrefix(start, bytes, n);
    }
  }

  // ----- Detecting short bursts

  lemma BitInjective(x: bv32, y: bv32)
    requires Bit(x) == Bit(y)
    ensures x == y
  {
  }

  lemma BitsInjective(x: bv32, y: bv32)
    requires Bit(Bit(x)) == Bit(Bit(y))
    ensures x == y
  {
    BitInjective(Bit(x), Bit(y));
    BitInjective(x, y);
  }

  lemma ByteInjective(x: bv32, y: bv32)
    requires Byte(x) == Byte(y)
    ensures x == y
  {
    BitsInjective(Bit(Bit(Bit(Bit(Bit(Bit(x)))))), Bit(Bit(Bit(Bit(Bit(Bit(y)))))));
    BitsInjective(Bit(Bit(Bit(Bit(x)))), Bit(Bit(Bit(Bit(y)))));
    BitsInjective(Bit(Bit(x)), Bit(Bit(y)));
    BitsInjective(x, y);
  }

  lemma XorInjective(x: bv32, y: bv32, b: bv32)
    requires Xor(x, b) == Xor(y, b)
    ensures x == y
  {
  }

  /** Equal bytes do not make different states equal. */
  lemma {:induction false} SuffixInjective(x: bv32, y: bv32, bytes: seq<bv8>)
    requires Bitwise(x, bytes) == Bitwise(y, bytes)
    ensures x == y
    decreases |bytes|
  {
    if bytes != [] {
      var b := Wide(bytes[0]);
      SuffixInjective(Byte(Xor(x, b)), Byte(Xor(y, b)), bytes[1..]);
      ByteInjective(Xor(x, b), Xor(y, b));
      XorInjective(x, y, b);
    }
  }

  function Up(w: bv32): bv32 { w << 8 }

  /** w fits in the given number of bytes. */
  predicate Fits1(w: bv32) { w < 0x100 }
  predicate Fits2(w: bv32) { w < 0x1_0000 }
  predicate Fits3(w: bv32) { w < 0x100_0000 }

  lemma UpDown(w: bv32)
    requires Fits3(w)
    ensures HighOnly(Up(w)) && Down(Up(w)) == w
  {
  }

  lemma XorSwaps(x: bv32, y: bv32)
    ensures Xor(x, y) == Xor(y, x)
  {
  }

  /** Later bytes can be put into the state before a step instead of after it. */
  lemma Ahead(x: bv32, w: bv32)
    requires Fits3(w)
    ensures Xor(Byte(x), w) == Byte(Xor(x, Up(w)))
  {
    UpDown(w);
    HighByte(Up(w), x);
    XorSwaps(Up(w), x);
    XorSwaps(w, Byte(x));
  }

  /** Byte b with the later ones, w, above it. */
  function Packed(b: bv8, w: bv32): bv32 { Xor(Wide(b), Up(w)) }

  lemma PackedFits(b: bv8, w: bv32)
    ensures Fits1(Wide(b))
    ensures Fits1(w) ==> Fits2(Packed(b, w))
    ensures Fits2(w) ==> Fits3(Packed(b, w))
  {
  }

  lemma Unpacked(a: bv8, v: bv32, b: bv8, w: bv32)
    requires Fits3(v) && Fits3(w) && Packed(a, v) == Packed(b, w)
    ensures a == b && v == w
  {
  }

  lemma WideFits(w: bv32)
    ensures Fits1(w) ==> Fits2(w)
    ensures Fits2(w) ==> Fits3(w)
  {
  }

  /** A step whose byte has later ones waiting above it. */
  lemma StepAhead(x: bv32, b: bv8, w: bv32)
    requires Fits2(w)
    ensures Xor(Xor(Byte(x), Wide(b)), Up(w)) == Byte(Xor(x, Up(Packed(b, w))))
  {
    PackedFits(b, w);
    XorAssociates(Byte(x), Wide(b), Up(w));
    Ahead(x, Packed(b, w));
  }

  function Word(b0: bv8, b1: bv8, b2: bv8, b3: bv8): bv32 {
    Packed(b0, Packed(b1, Packed(b2, Wide(b3))))
  }

  lemma FourSteps(c: bv32, b0: bv8, b1: bv8, b2: bv8, b3: bv8)
    ensures Byte(Xor(Byte(Xor(Byte(Xor(Byte(Xor(c, Wide(b0))), Wide(b1))), Wide(b2))), Wide(b3)))
            == Byte(Byte(Byte(Byte(Xor(c, Word(b0, b1, b2, b3))))))
  {
    var w3 := Wide(b3);
    var w2 := Packed(b2, w3);
    var w1 := Packed(b1, w2);
    PackedFits(b3, w3);
    PackedFits(b2, w3);
    PackedFits(b1, w2);
    WideFits(w3);
    var x0 := Xor(c, Wide(b0));
    var x1 := Xor(Byte(x0), Wide(b1));
    var x2 := Xor(Byte(x1), Wide(b2));
    Ahead(x2, w3);
    StepAhead(x1, b2, w3);
    StepAhead(x0, b1, w2);
    XorAssociates(c, Wide(b0), Up(w1));
  }

  lemma FourBitwise(c: bv32, a: seq<bv8>, c1: bv32, c2: bv32, c3: bv32)
    requires |a| == 4 && c1 == Byte(Xor(c, Wide(a[0]))) && c2 == Byte(Xor(c1, Wide(a[1]))) && c3 == Byte(Xor(c2, Wide(a[2])))
    ensures Bitwise(c, a) == Byte(Xor(c3, Wide(a[3])))
  {
    BitwisePrefix(c, a, 1);
    BitwisePrefix(c, a, 2);
    BitwisePrefix(c, a, 3);
    BitwisePrefix(c, a, 4);
    assert a[..4] == a;
  }

  lemma FourBytes(c: bv32, a: seq<bv8>)
    requires |a| == 4
    ensures Bitwise(c, a) == Byte(Byte(Byte(Byte(Xor(c, Word(a[0], a[1], a[2], a[3]))))))
  {
    FourSteps(c, a[0], a[1], a[2], a[3]);
    var c1 := Byte(Xor(c, Wide(a[0])));
    var c2 := Byte(Xor(c1, Wide(a[1])));
    FourBitwise(c, a, c1, c2, Byte(Xor(c2, Wide(a[2]))));
  }

  lemma WordInjective(c: bv32, a: seq<bv8>, b: seq<bv8>)
    requires |a| == |b| == 4 && Xor(c, Word(a[0], a[1], a[2], a[3])) == Xor(c, Word(b[0], b[1], b[2], b[3]))
    ensures a == b
  {
    XorSwaps(c, Word(a[0], a[1], a[2], a[3]));
    XorSwaps(c, Word(b[0], b[1], b[2], b[3]));
    XorInjective(Word(a[0], a[1], a[2], a[3]), Word(b[0], b[1], b[2], b[3]), c);
    var v3, w3 := Wide(a[3]), Wide(b[3]);
    var v2, w2 := Packed(a[2], v3), Packed(b[2], w3);
    var v1, w1 := Packed(a[1], v2), Packed(b[1], w2);
    PackedFits(a[3], v3);
    PackedFits(b[3], w3);
    PackedFits(a[2], v3);
    PackedFits(b[2], w3);
    PackedFits(a[1], v2);
    PackedFits(b[1], w2);
    WideFits(v3);
    WideFits(w3);
    WideFits(v2);
    WideFits(w2);
    Unpacked(a[0], v1, b[0], w1);
    Unpacked(a[1], v2, b[1], w2);
    Unpacked(a[2], v3, b[2], w3);
    SameByte(a[3], b[3]);
  }

  lemma SameByte(a: bv8, b: bv8)
    requires Wide(a) == Wide(b)
    ensures a == b
  {
  }

  /** Four bytes after equal states are determined by the state they lead to. */
  lemma FourInjective(c: bv32, a: seq<bv8>, b: seq<bv8>)
    requires |a| == |b| == 4 && Bitwise(c, a) == Bitwise(c, b)
    ensures a == b
  {
    FourBytes(c, a);
    FourBytes(c, b);
    var x, y := Xor(c, Word(a[0], a[1], a[2], a[3])), Xor(c, Word(b[0], b[1], b[2], b[3]));
    ByteInjective(Byte(Byte(Byte(x))), Byte(Byte(Byte(y))));
    ByteInjective(Byte(Byte(x)), Byte(Byte(y)));
    ByteInjective(Byte(x), Byte(y));
    ByteInjective(x, y);
    WordInjective(c, a, b);
  }

  lemma {:induction false} BitwiseJoin(c: bv32, a: seq<bv8>, b: seq<bv8>)
    ensures Bitwise(c, a + b) == Bitwise(Bitwise(c, a), b)
    decreases |a|
  {
    if a == [] {
      assert a + b == b;
    } else {
      BitwiseJoin(Byte(Xor(c, Wide(a[0]))), a[1..], b);
      assert (a + b)[1..] == a[1..] + b;
    }
  }

  /** Two strings of the same length that differ, and only within four consecutive bytes, get different values. */
  lemma BurstDetected(prefix: seq<bv8>, a: seq<bv8>, b: seq<bv8>, suffix: seq<bv8>)
    requires |a| == |b| <= 4 && a != b
    ensures CompileTimeCrc32(prefix + a + suffix) != CompileTimeCrc32(prefix + b + suffix)
  {
    var s, t := prefix + a + suffix, prefix + b + suffix;
    var start: bv32 := 0xffff_ffff;
    if CompileTimeCrc32(s) == CompileTimeCrc32(t) {
      XorInjective(Crc(s, |s|), Crc(t, |t|), start);
      CrcIsBitwise(s, |s|, start);
      CrcIsBitwise(t, |t|, start);
      assert s[..|s|] == s && t[..|t|] == t;
      EqualStates(start, prefix, a, b, suffix);
    }
  }

  /** Shorter bursts are filled up with equal bytes. */
  lemma EqualStates(c: bv32, prefix: seq<bv8>, a: seq<bv8>, b: seq<bv8>, suffix: seq<bv8>)
    requires |a| == |b| <= 4 && Bitwise(c, prefix + a + suffix) == Bitwise(c, prefix + b + suffix)
    ensures a == b
  {
    var d := Bitwise(c, prefix);
    BitwiseJoin(c, prefix + a, suffix);
    BitwiseJoin(c, prefix, a);
    BitwiseJoin(c, prefix + b, suffix);
    BitwiseJoin(c, prefix, b);
    SuffixInjective(Bitwise(d, a), Bitwise(d, b), suffix);
    var zeros := seq(4 - |a|, _ => 0 as bv8);
    BitwiseJoin(d, a, zeros);
    BitwiseJoin(d, b, zeros);
    FourInjective(d, a + zeros, b + zeros);
    assert a == (a + zeros)[..|a|] && b == (b + zeros)[..|a|];
  }
}
