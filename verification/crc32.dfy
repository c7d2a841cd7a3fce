/** CRC-32/MPEG-2, the checksum of ISO/IEC 13818-1 Annex A that the boot image carries:
    generator polynomial 0x04C11DB7, initial register 0xFFFFFFFF, bytes fed most
    significant bit first, no reflection of the result and no final exclusive-or.

    The definition here is the bit-serial shift register; the table-driven
    implementation of the `crc` crate is not part of this model. */
module Crc32Mpeg2 {
  import opened ByteOrder

  const POLY: bv32 := 0x04C1_1DB7
  const INIT: bv32 := 0xFFFF_FFFF

  /** One shift of the register: the bit shifted out of the top decides whether the
      polynomial is subtracted. */
  function ShiftBit(reg: bv32): bv32
  {
    if reg & 0x8000_0000 != 0 then (reg << 1) ^ POLY else reg << 1
  }

  /** `n` shifts of the register. */
  function ShiftBits(reg: bv32, n: nat): bv32
    decreases n
  {
    if n == 0 then reg else ShiftBits(ShiftBit(reg), n - 1)
  }

  /** Feeding one byte: its eight bits enter the top of the register, most significant
      bit first. */
  function UpdateByte(reg: bv32, b: bv8): bv32
  {
    ShiftBits(reg ^ ((b as bv32) << 24), 8)
  }

  /** Feeding the bytes `data` in order, starting from the register `reg`. */
  function Update(reg: bv32, data: seq<bv8>): bv32
    decreases |data|
  {
    if data == [] then reg else Update(UpdateByte(reg, data[0]), data[1..])
  }

  /** The CRC-32/MPEG-2 of `data`. */
  function Checksum(data: seq<bv8>): bv32
  {
    Update(INIT, data)
  }

  /** Feeding data in two parts, as an incremental digest does, gives what feeding it at
      once gives. */
  lemma {:induction false} UpdateAppend(reg: bv32, a: seq<bv8>, b: seq<bv8>)
    ensures Update(reg, a + b) == Update(Update(reg, a), b)
    decreases |a|
  {
    if a == [] {
      assert a + b == b;
    } else {
      assert (a + b)[0] == a[0];
      assert (a + b)[1..] == a[1..] + b;
      UpdateAppend(UpdateByte(reg, a[0]), a[1..], b);
    }
  }

  /** The top `n` bits of a word. */
  function TopBits(n: nat): bv32
    requires n <= 8
  {
    if n == 0 then 0 else (TopBits(n - 1) >> 1) | 0x8000_0000
  }

  /** `x` shifted left `n` times. */
  function ShiftLeft(x: bv32, n: nat): bv32
    decreases n
  {
    if n == 0 then x else ShiftLeft(x << 1, n - 1)
  }

  lemma TopBitsTop(n: nat)
    requires 0 < n <= 8
    ensures TopBits(n) & 0x8000_0000 == 0x8000_0000
  {
  }

  lemma ShiftTopClear(x: bv32, n: nat)
    requires 0 < n <= 8
    requires x & TopBits(n) == 0
    ensures (x << 1) & TopBits(n - 1) == 0
  {
    var h := TopBits(n - 1);
    assert x & (h >> 1) == 0;
  }

  /** Shifting a register whose top `n` bits are clear never subtracts the polynomial. */
  lemma {:induction false} ShiftBitsTopClear(x: bv32, n: nat)
    requires n <= 8
    requires x & TopBits(n) == 0
    ensures ShiftBits(x, n) == ShiftLeft(x, n)
    decreases n
  {
    if n > 0 {
      TopBitsTop(n);
      assert ShiftBit(x) == x << 1;
      ShiftTopClear(x, n);
      ShiftBitsTopClear(x << 1, n - 1);
    }
  }

  lemma ShiftLeftEight(x: bv32)
    ensures ShiftLeft(x, 8) == x << 8
  {
    assert ShiftLeft(x, 8) == ShiftLeft(x << 1, 7) == ShiftLeft(x << 2, 6) == ShiftLeft(x << 3, 5) == ShiftLeft(x << 4, 4);
    assert ShiftLeft(x << 4, 4) == ShiftLeft(x << 5, 3) == ShiftLeft(x << 6, 2) == ShiftLeft(x << 7, 1) == x << 8;
  }

  /** Feeding the register its own top byte clears that byte and shifts it out. */
  lemma FeedOwnTopByte(r: bv32)
    ensures UpdateByte(r, (r >> 24) as bv8) == r << 8
  {
    var x := r ^ ((((r >> 24) as bv8) as bv32) << 24);
    assert x == r & 0x00FF_FFFF;
    assert TopBits(8) == 0xFF00_0000;
    ShiftBitsTopClear(x, 8);
    ShiftLeftEight(x);
  }

  /** Feeding a register its own top byte, then `rest`. */
  lemma FeedOwnTopByteThen(reg: bv32, rest: seq<bv8>)
    ensures Update(reg, [(reg >> 24) as bv8] + rest) == Update(reg << 8, rest)
  {
    assert ([(reg >> 24) as bv8] + rest)[1..] == rest;
    FeedOwnTopByte(reg);
  }

  /** Feeding a register its own value, most significant byte first, leaves zero. */
  lemma FeedOwnValue(r: bv32)
    ensures Update(r, ToBeBytes(r)) == 0
  {
    var r1 := r << 8;
    var r2 := r1 << 8;
    var r3 := r2 << 8;
    BeBytesAreTopBytes(r);
    var t0, t1, t2, t3 := (r >> 24) as bv8, (r1 >> 24) as bv8, (r2 >> 24) as bv8, (r3 >> 24) as bv8;
    assert ToBeBytes(r) == [t0] + ([t1] + ([t2] + ([t3] + [])));
    FeedOwnTopByteThen(r, [t1] + ([t2] + ([t3] + [])));
    FeedOwnTopByteThen(r1, [t2] + ([t3] + []));
    FeedOwnTopByteThen(r2, [t3] + []);
    FeedOwnTopByteThen(r3, []);
    ShiftedOut(r);
  }

  lemma ShiftedOut(r: bv32)
    ensures (((r << 8) << 8) << 8) << 8 == 0
  {
  }

  /** The residue property of a CRC without final exclusive-or: data followed by its own
      checksum, most significant byte first, checks to zero. */
  lemma AppendedChecksumLeavesZero(data: seq<bv8>)
    ensures Checksum(data + ToBeBytes(Checksum(data))) == 0
  {
    UpdateAppend(INIT, data, ToBeBytes(Checksum(data)));
    FeedOwnValue(Checksum(data));
  }

  /** One byte of a run from position `i`. */
  lemma UpdateFrom(reg: bv32, data: seq<bv8>, i: nat)
    requires i < |data|
    ensures Update(reg, data[i..]) == Update(UpdateByte(reg, data[i]), data[i + 1..])
  {
    assert data[i..][1..] == data[i + 1..];
  }

  /** The ASCII digits "123456789", on which CRC catalogue check values are defined. */
  const CHECK_INPUT: seq<bv8> := [0x31, 0x32, 0x33, 0x34, 0x35, 0x36, 0x37, 0x38, 0x39]

  lemma CheckFirstThird()
    ensures Update(0xFFFF_FFFF, CHECK_INPUT[0..]) == Update(0xD952_F164, CHECK_INPUT[3..])
  {
    assert Update(0xFFFF_FFFF, CHECK_INPUT[0..]) == Update(0x9EFB_CF93, CHECK_INPUT[1..]) by {
      UpdateFrom(0xFFFF_FFFF, CHECK_INPUT, 0);
      assert UpdateByte(0xFFFF_FFFF, 0x31) == 0x9EFB_CF93;
    }
    assert Update(0x9EFB_CF93, CHECK_INPUT[1..]) == Update(0x3FEC_5E6A, CHECK_INPUT[2..]) by {
      UpdateFrom(0x9EFB_CF93, CHECK_INPUT, 1);
      assert UpdateByte(0x9EFB_CF93, 0x32) == 0x3FEC_5E6A;
    }
    assert Update(0x3FEC_5E6A, CHECK_INPUT[2..]) == Update(0xD952_F164, CHECK_INPUT[3..]) by {
      UpdateFrom(0x3FEC_5E6A, CHECK_INPUT, 2);
      assert UpdateByte(0x3FEC_5E6A, 0x33) == 0xD952_F164;
    }
  }

  lemma CheckSecondThird()
    ensures Update(0xD952_F164, CHECK_INPUT[3..]) == Update(0xD8F0_6C8F, CHECK_INPUT[6..])
  {
    assert Update(0xD952_F164, CHECK_INPUT[3..]) == Update(0xA695_C4AA, CHECK_INPUT[4..]) by {
      UpdateFrom(0xD952_F164, CHECK_INPUT, 3);
      assert UpdateByte(0xD952_F164, 0x34) == 0xA695_C4AA;
    }
    assert Update(0xA695_C4AA, CHECK_INPUT[4..]) == Update(0xBD9A_B747, CHECK_INPUT[5..]) by {
      UpdateFrom(0xA695_C4AA, CHECK_INPUT, 4);
      assert UpdateByte(0xA695_C4AA, 0x35) == 0xBD9A_B747;
    }
    assert Update(0xBD9A_B747, CHECK_INPUT[5..]) == Update(0xD8F0_6C8F, CHECK_INPUT[6..]) by {
      UpdateFrom(0xBD9A_B747, CHECK_INPUT, 5);
      assert UpdateByte(0xBD9A_B747, 0x36) == 0xD8F0_6C8F;
    }
  }

  lemma CheckLastThird()
    ensures Update(0xD8F0_6C8F, CHECK_INPUT[6..]) == Update(0x0376_E6E7, CHECK_INPUT[9..])
  {
    assert Update(0xD8F0_6C8F, CHECK_INPUT[6..]) == Update(0x0D8A_14C4, CHECK_INPUT[7..]) by {
      UpdateFrom(0xD8F0_6C8F, CHECK_INPUT, 6);
      assert UpdateByte(0xD8F0_6C8F, 0x37) == 0x0D8A_14C4;
    }
    assert Update(0x0D8A_14C4, CHECK_INPUT[7..]) == Update(0x49E3_C2FB, CHECK_INPUT[8..]) by {
      UpdateFrom(0x0D8A_14C4, CHECK_INPUT, 7);
      assert UpdateByte(0x0D8A_14C4, 0x38) == 0x49E3_C2FB;
    }
    assert Update(0x49E3_C2FB, CHECK_INPUT[8..]) == Update(0x0376_E6E7, CHECK_INPUT[9..]) by {
      UpdateFrom(0x49E3_C2FB, CHECK_INPUT, 8);
      assert UpdateByte(0x49E3_C2FB, 0x39) == 0x0376_E6E7;
    }
  }

  /** CRC-32/MPEG-2's catalogue check value: the checksum of the ASCII digits "123456789". */
  lemma CheckValue()
    ensures Checksum(CHECK_INPUT) == 0x0376_E6E7
  {
    assert CHECK_INPUT[0..] == CHECK_INPUT;
    CheckFirstThird();
    CheckSecondThird();
    CheckLastThird();
    assert CHECK_INPUT[9..] == [];
  }
}
