/** The table-driven CRC-32 of src/crc32.cpp against the bit-by-bit reflected division of
    section 8 of RFC 1952. */
module Crc32 {

  const Polynomial: bv32 := 0xEDB88320
  const Start: bv32 := 0xFFFFFFFF

  // ---------------------------------------------------------------- the definition

  /** One bit: shift right, and subtract the polynomial when a one falls out. */
  function Bit(x: bv32): bv32 {
    if x & 1 == 1 then (x >> 1) ^ Polynomial else x >> 1
  }

  function Iterate(f: bv32 -> bv32, x: bv32, n: nat): bv32
    decreases n
  {
    if n == 0 then x else Iterate(f, f(x), n - 1)
  }

  function Bits8(x: bv32): bv32 {
    Iterate(Bit, x, 8)
  }

  function Xor(x: bv32, y: bv32): bv32 {
    x ^ y
  }

  function Wide(b: bv8): bv32 {
    b as bv32
  }

  /** One byte: into the low end, then eight bits. */
  function Step(c: bv32, b: bv8): bv32 {
    Bits8(Xor(c, Wide(b)))
  }

  function FoldWith(f: (bv32, bv8) -> bv32, c: bv32, data: seq<bv8>): bv32 {
    if data == [] then c else f(FoldWith(f, c, data[..|data|-1]), data[|data|-1])
  }

  /** Byte after byte from state `c`. */
  function Fold(c: bv32, data: seq<bv8>): bv32 {
    FoldWith(Step, c, data)
  }

  /** The CRC of a byte string. */
  function Crc(data: seq<bv8>): bv32 {
    Xor(Fold(Start, data), 0xFFFFFFFF)
  }

  // ---------------------------------------------------------------- algebra

  lemma ShiftXor(x: bv32, y: bv32)
    ensures (x ^ y) >> 1 == (x >> 1) ^ (y >> 1)
  {
  }

  lemma XorAssociative(x: bv32, y: bv32, z: bv32)
    ensures x ^ (y ^ z) == (x ^ y) ^ z
  {
  }

  lemma LowBit(h: bv32, l: bv32)
    requires h & 1 == 0
    ensures (h ^ l) & 1 == l & 1
  {
  }

  /** A one that has not reached the low end is only shifted. */
  lemma BitHigh(h: bv32, l: bv32)
    requires h & 1 == 0
    ensures Bit(h ^ l) == (h >> 1) ^ Bit(l)
  {
    LowBit(h, l);
    if l & 1 == 1 {
      BitOdd(h ^ l);
      BitOdd(l);
      ShiftXor(h, l);
      XorAssociative(h >> 1, l >> 1, Polynomial);
    } else {
      BitEven(l);
      BitEven(h ^ l);
      ShiftXor(h, l);
    }
  }

  lemma BitOdd(x: bv32)
    requires x & 1 == 1
    ensures Bit(x) == (x >> 1) ^ Polynomial
  {
  }

  lemma BitEven(x: bv32)
    requires x & 1 != 1
    ensures Bit(x) == x >> 1
  {
  }

  function Shifted(h: bv32, n: nat): bv32
    decreases n
  {
    if n == 0 then h else Shifted(h >> 1, n - 1)
  }

  predicate LowZeros(h: bv32, n: nat)
    decreases n
  {
    n == 0 || (h & 1 == 0 && LowZeros(h >> 1, n - 1))
  }

  /** Iterating a step that only shifts the ones above the low end only shifts them. */
  lemma {:induction false} IterateHigh(f: bv32 -> bv32, g: (bv32, bv32) -> bv32, h: bv32, l: bv32, n: nat)
    requires LowZeros(h, n)
    requires forall h: bv32, l: bv32 :: h & 1 == 0 ==> f(g(h, l)) == g(h >> 1, f(l))
    ensures Iterate(f, g(h, l), n) == g(Shifted(h, n), Iterate(f, l, n))
    decreases n
  {
    if n > 0 {
      assert f(g(h, l)) == g(h >> 1, f(l));
      IterateHigh(f, g, h >> 1, f(l), n - 1);
    }
  }

  lemma Bits8High(h: bv32, l: bv32)
    requires LowZeros(h, 8)
    ensures Bits8(Xor(h, l)) == Xor(Shifted(h, 8), Bits8(l))
  {
    forall h: bv32, l: bv32 | h & 1 == 0 ensures Bit(Xor(h, l)) == Xor(h >> 1, Bit(l)) {
      BitHigh(h, l);
    }
    IterateHigh(Bit, Xor, h, l, 8);
  }

  lemma Shifted8(h: bv32)
    requires h & 0xFF == 0
    ensures LowZeros(h, 8) && Shifted(h, 8) == h >> 8
  {
    Shifts(h);
    assert LowZeros(h >> 7, 1) && Shifted(h >> 7, 1) == h >> 8;
    assert LowZeros(h >> 6, 2) && Shifted(h >> 6, 2) == h >> 8;
    assert LowZeros(h >> 5, 3) && Shifted(h >> 5, 3) == h >> 8;
    assert LowZeros(h >> 4, 4) && Shifted(h >> 4, 4) == h >> 8;
    assert LowZeros(h >> 3, 5) && Shifted(h >> 3, 5) == h >> 8;
    assert LowZeros(h >> 2, 6) && Shifted(h >> 2, 6) == h >> 8;
    assert LowZeros(h >> 1, 7) && Shifted(h >> 1, 7) == h >> 8;
  }

  lemma Shifts(h: bv32)
    requires h & 0xFF == 0
    ensures h & 1 == 0 && (h >> 1) & 1 == 0 && (h >> 2) & 1 == 0 && (h >> 3) & 1 == 0
    ensures (h >> 4) & 1 == 0 && (h >> 5) & 1 == 0 && (h >> 6) & 1 == 0 && (h >> 7) & 1 == 0
    ensures (h >> 1) >> 1 == h >> 2 && (h >> 2) >> 1 == h >> 3 && (h >> 3) >> 1 == h >> 4 && (h >> 4) >> 1 == h >> 5
    ensures (h >> 5) >> 1 == h >> 6 && (h >> 6) >> 1 == h >> 7 && (h >> 7) >> 1 == h >> 8
  {
  }

  lemma HalvesOf(x: bv32)
    ensures x == (x & 0xFFFFFF00) ^ (x & 0xFF)
    ensures (x & 0xFFFFFF00) & 0xFF == 0 && (x & 0xFFFFFF00) >> 8 == x >> 8
  {
  }

  /** Only the low byte needs the division: the rest is shifted. */
  lemma Bits8Split(x: bv32)
    ensures Bits8(x) == Xor(x >> 8, Bits8(x & 0xFF))
  {
    HalvesOf(x);
    Shifted8(x & 0xFFFFFF00);
    Bits8High(x & 0xFFFFFF00, x & 0xFF);
    assert Xor(x & 0xFFFFFF00, x & 0xFF) == x;
  }

  /** A bit step can be undone: the polynomial has its top bit set. */
  function Unbit(y: bv32): bv32 {
    if y & 0x80000000 != 0 then ((y ^ Polynomial) << 1) | 1 else y << 1
  }

  lemma BitInverse(x: bv32)
    ensures Unbit(Bit(x)) == x
  {
  }

  lemma {:induction false} IterateInjective(f: bv32 -> bv32, g: bv32 -> bv32, x: bv32, y: bv32, n: nat)
    requires forall x: bv32 :: g(f(x)) == x
    requires Iterate(f, x, n) == Iterate(f, y, n)
    ensures x == y
    decreases n
  {
    if n > 0 {
      IterateInjective(f, g, f(x), f(y), n - 1);
      assert g(f(x)) == x && g(f(y)) == y;
    }
  }

  lemma Bits8Injective(x: bv32, y: bv32)
    requires Bits8(x) == Bits8(y)
    ensures x == y
  {
    forall x: bv32 ensures Unbit(Bit(x)) == x {
      BitInverse(x);
    }
    IterateInjective(Bit, Unbit, x, y, 8);
  }

  // ---------------------------------------------------------------- the table

  lemma Bits8Unrolled(x: bv32)
    ensures Bits8(x) == Bit(Bit(Bit(Bit(Bit(Bit(Bit(Bit(x))))))))
  {
    assert Iterate(Bit, x, 8) == Iterate(Bit, Bit(Bit(x)), 6);
    assert Iterate(Bit, Bit(Bit(x)), 6) == Iterate(Bit, Bit(Bit(Bit(Bit(x)))), 4);
  }

  /** One entry of the table. */
  lemma Entry(i: bv32, t: bv32)
    requires Bit(Bit(Bit(Bit(Bit(Bit(Bit(Bit(i)))))))) == t
    ensures Bits8(i) == t
  {
    Bits8Unrolled(i);
  }

  function Row0(i: bv32): bv32 {
    if i < 0x04 then (if i == 0x00 then 0x00000000 else if i == 0x01 then 0x77073096 else if i == 0x02 then 0xEE0E612C else 0x990951BA)
    else if i < 0x08 then (if i == 0x04 then 0x076DC419 else if i == 0x05 then 0x706AF48F else if i == 0x06 then 0xE963A535 else 0x9E6495A3)
    else if i < 0x0C then (if i == 0x08 then 0x0EDB8832 else if i == 0x09 then 0x79DCB8A4 else if i == 0x0A then 0xE0D5E91E else 0x97D2D988)
    else (if i == 0x0C then 0x09B64C2B else if i == 0x0D then 0x7EB17CBD else if i == 0x0E then 0xE7B82D07 else 0x90BF1D91)
  }

  function Row1(i: bv32): bv32 {
    if i < 0x14 then (if i == 0x10 then 0x1DB71064 else if i == 0x11 then 0x6AB020F2 else if i == 0x12 then 0xF3B97148 else 0x84BE41DE)
    else if i < 0x18 then (if i == 0x14 then 0x1ADAD47D else if i == 0x15 then 0x6DDDE4EB else if i == 0x16 then 0xF4D4B551 else 0x83D385C7)
    else if i < 0x1C then (if i == 0x18 then 0x136C9856 else if i == 0x19 then 0x646BA8C0 else if i == 0x1A then 0xFD62F97A else 0x8A65C9EC)
    else (if i == 0x1C then 0x14015C4F else if i == 0x1D then 0x63066CD9 else if i == 0x1E then 0xFA0F3D63 else 0x8D080DF5)
  }

  function Row2(i: bv32): bv32 {
    if i < 0x24 then (if i == 0x20 then 0x3B6E20C8 else if i == 0x21 then 0x4C69105E else if i == 0x22 then 0xD56041E4 else 0xA2677172)
    else if i < 0x28 then (if i == 0x24 then 0x3C03E4D1 else if i == 0x25 then 0x4B04D447 else if i == 0x26 then 0xD20D85FD else 0xA50AB56B)
    else if i < 0x2C then (if i == 0x28 then 0x35B5A8FA else if i == 0x29 then 0x42B2986C else if i == 0x2A then 0xDBBBC9D6 else 0xACBCF940)
    else (if i == 0x2C then 0x32D86CE3 else if i == 0x2D then 0x45DF5C75 else if i == 0x2E then 0xDCD60DCF else 0xABD13D59)
  }

  function Row3(i: bv32): bv32 {
    if i < 0x34 then (if i == 0x30 then 0x26D930AC else if i == 0x31 then 0x51DE003A else if i == 0x32 then 0xC8D75180 else 0xBFD06116)
    else if i < 0x38 then (if i == 0x34 then 0x21B4F4B5 else if i == 0x35 then 0x56B3C423 else if i == 0x36 then 0xCFBA9599 else 0xB8BDA50F)
    else if i < 0x3C then (if i == 0x38 then 0x2802B89E else if i == 0x39 then 0x5F058808 else if i == 0x3A then 0xC60CD9B2 else 0xB10BE924)
    else (if i == 0x3C then 0x2F6F7C87 else if i == 0x3D then 0x58684C11 else if i == 0x3E then 0xC1611DAB else 0xB6662D3D)
  }

  function Row4(i: bv32): bv32 {
    if i < 0x44 then (if i == 0x40 then 0x76DC4190 else if i == 0x41 then 0x01DB7106 else if i == 0x42 then 0x98D220BC else 0xEFD5102A)
    else if i < 0x48 then (if i == 0x44 then 0x71B18589 else if i == 0x45 then 0x06B6B51F else if i == 0x46 then 0x9FBFE4A5 else 0xE8B8D433)
    else if i < 0x4C then (if i == 0x48 then 0x7807C9A2 else if i == 0x49 then 0x0F00F934 else if i == 0x4A then 0x9609A88E else 0xE10E9818)
    else (if i == 0x4C then 0x7F6A0DBB else if i == 0x4D then 0x086D3D2D else if i == 0x4E then 0x91646C97 else 0xE6635C01)
  }

  function Row5(i: bv32): bv32 {
    if i < 0x54 then (if i == 0x50 then 0x6B6B51F4 else if i == 0x51 then 0x1C6C6162 else if i == 0x52 then 0x856530D8 else 0xF262004E)
    else if i < 0x58 then (if i == 0x54 then 0x6C0695ED else if i == 0x55 then 0x1B01A57B else if i == 0x56 then 0x8208F4C1 else 0xF50FC457)
    else if i < 0x5C then (if i == 0x58 then 0x65B0D9C6 else if i == 0x59 then 0x12B7E950 else if i == 0x5A then 0x8BBEB8EA else 0xFCB9887C)
    else (if i == 0x5C then 0x62DD1DDF else if i == 0x5D then 0x15DA2D49 else if i == 0x5E then 0x8CD37CF3 else 0xFBD44C65)
  }

  function Row6(i: bv32): bv32 {
    if i < 0x64 then (if i == 0x60 then 0x4DB26158 else if i == 0x61 then 0x3AB551CE else if i == 0x62 then 0xA3BC0074 else 0xD4BB30E2)
    else if i < 0x68 then (if i == 0x64 then 0x4ADFA541 else if i == 0x65 then 0x3DD895D7 else if i == 0x66 then 0xA4D1C46D else 0xD3D6F4FB)
    else if i < 0x6C then (if i == 0x68 then 0x4369E96A else if i == 0x69 then 0x346ED9FC else if i == 0x6A then 0xAD678846 else 0xDA60B8D0)
    else (if i == 0x6C then 0x44042D73 else if i == 0x6D then 0x33031DE5 else if i == 0x6E then 0xAA0A4C5F else 0xDD0D7CC9)
  }

  function Row7(i: bv32): bv32 {
    if i < 0x74 then (if i == 0x70 then 0x5005713C else if i == 0x71 then 0x270241AA else if i == 0x72 then 0xBE0B1010 else 0xC90C2086)
    else if i < 0x78 then (if i == 0x74 then 0x5768B525 else if i == 0x75 then 0x206F85B3 else if i == 0x76 then 0xB966D409 else 0xCE61E49F)
    else if i < 0x7C then (if i == 0x78 then 0x5EDEF90E else if i == 0x79 then 0x29D9C998 else if i == 0x7A then 0xB0D09822 else 0xC7D7A8B4)
    else (if i == 0x7C then 0x59B33D17 else if i == 0x7D then 0x2EB40D81 else if i == 0x7E then 0xB7BD5C3B else 0xC0BA6CAD)
  }

  function Row8(i: bv32): bv32 {
    if i < 0x84 then (if i == 0x80 then 0xEDB88320 else if i == 0x81 then 0x9ABFB3B6 else if i == 0x82 then 0x03B6E20C else 0x74B1D29A)
    else if i < 0x88 then (if i == 0x84 then 0xEAD54739 else if i == 0x85 then 0x9DD277AF else if i == 0x86 then 0x04DB2615 else 0x73DC1683)
    else if i < 0x8C then (if i == 0x88 then 0xE3630B12 else if i == 0x89 then 0x94643B84 else if i == 0x8A then 0x0D6D6A3E else 0x7A6A5AA8)
    else (if i == 0x8C then 0xE40ECF0B else if i == 0x8D then 0x9309FF9D else if i == 0x8E then 0x0A00AE27 else 0x7D079EB1)
  }

  function Row9(i: bv32): bv32 {
    if i < 0x94 then (if i == 0x90 then 0xF00F9344 else if i == 0x91 then 0x8708A3D2 else if i == 0x92 then 0x1E01F268 else 0x6906C2FE)
    else if i < 0x98 then (if i == 0x94 then 0xF762575D else if i == 0x95 then 0x806567CB else if i == 0x96 then 0x196C3671 else 0x6E6B06E7)
    else if i < 0x9C then (if i == 0x98 then 0xFED41B76 else if i == 0x99 then 0x89D32BE0 else if i == 0x9A then 0x10DA7A5A else 0x67DD4ACC)
    else (if i == 0x9C then 0xF9B9DF6F else if i == 0x9D then 0x8EBEEFF9 else if i == 0x9E then 0x17B7BE43 else 0x60B08ED5)
  }

  function RowA(i: bv32): bv32 {
    if i < 0xA4 then (if i == 0xA0 then 0xD6D6A3E8 else if i == 0xA1 then 0xA1D1937E else if i == 0xA2 then 0x38D8C2C4 else 0x4FDFF252)
    else if i < 0xA8 then (if i == 0xA4 then 0xD1BB67F1 else if i == 0xA5 then 0xA6BC5767 else if i == 0xA6 then 0x3FB506DD else 0x48B2364B)
    else if i < 0xAC then (if i == 0xA8 then 0xD80D2BDA else if i == 0xA9 then 0xAF0A1B4C else if i == 0xAA then 0x36034AF6 else 0x41047A60)
    else (if i == 0xAC then 0xDF60EFC3 else if i == 0xAD then 0xA867DF55 else if i == 0xAE then 0x316E8EEF else 0x4669BE79)
  }

  function RowB(i: bv32): bv32 {
    if i < 0xB4 then (if i == 0xB0 then 0xCB61B38C else if i == 0xB1 then 0xBC66831A else if i == 0xB2 then 0x256FD2A0 else 0x5268E236)
    else if i < 0xB8 then (if i == 0xB4 then 0xCC0C7795 else if i == 0xB5 then 0xBB0B4703 else if i == 0xB6 then 0x220216B9 else 0x5505262F)
    else if i < 0xBC then (if i == 0xB8 then 0xC5BA3BBE else if i == 0xB9 then 0xB2BD0B28 else if i == 0xBA then 0x2BB45A92 else 0x5CB36A04)
    else (if i == 0xBC then 0xC2D7FFA7 else if i == 0xBD then 0xB5D0CF31 else if i == 0xBE then 0x2CD99E8B else 0x5BDEAE1D)
  }

  function RowC(i: bv32): bv32 {
    if i < 0xC4 then (if i == 0xC0 then 0x9B64C2B0 else if i == 0xC1 then 0xEC63F226 else if i == 0xC2 then 0x756AA39C else 0x026D930A)
    else if i < 0xC8 then (if i == 0xC4 then 0x9C0906A9 else if i == 0xC5 then 0xEB0E363F else if i == 0xC6 then 0x72076785 else 0x05005713)
    else if i < 0xCC then (if i == 0xC8 then 0x95BF4A82 else if i == 0xC9 then 0xE2B87A14 else if i == 0xCA then 0x7BB12BAE else 0x0CB61B38)
    else (if i == 0xCC then 0x92D28E9B else if i == 0xCD then 0xE5D5BE0D else if i == 0xCE then 0x7CDCEFB7 else 0x0BDBDF21)
  }

  function RowD(i: bv32): bv32 {
    if i < 0xD4 then (if i == 0xD0 then 0x86D3D2D4 else if i == 0xD1 then 0xF1D4E242 else if i == 0xD2 then 0x68DDB3F8 else 0x1FDA836E)
    else if i < 0xD8 then (if i == 0xD4 then 0x81BE16CD else if i == 0xD5 then 0xF6B9265B else if i == 0xD6 then 0x6FB077E1 else 0x18B74777)
    else if i < 0xDC then (if i == 0xD8 then 0x88085AE6 else if i == 0xD9 then 0xFF0F6A70 else if i == 0xDA then 0x66063BCA else 0x11010B5C)
    else (if i == 0xDC then 0x8F659EFF else if i == 0xDD then 0xF862AE69 else if i == 0xDE then 0x616BFFD3 else 0x166CCF45)
  }

  function RowE(i: bv32): bv32 {
    if i < 0xE4 then (if i == 0xE0 then 0xA00AE278 else if i == 0xE1 then 0xD70DD2EE else if i == 0xE2 then 0x4E048354 else 0x3903B3C2)
    else if i < 0xE8 then (if i == 0xE4 then 0xA7672661 else if i == 0xE5 then 0xD06016F7 else if i == 0xE6 then 0x4969474D else 0x3E6E77DB)
    else if i < 0xEC then (if i == 0xE8 then 0xAED16A4A else if i == 0xE9 then 0xD9D65ADC else if i == 0xEA then 0x40DF0B66 else 0x37D83BF0)
    else (if i == 0xEC then 0xA9BCAE53 else if i == 0xED then 0xDEBB9EC5 else if i == 0xEE then 0x47B2CF7F else 0x30B5FFE9)
  }

  function RowF(i: bv32): bv32 {
    if i < 0xF4 then (if i == 0xF0 then 0xBDBDF21C else if i == 0xF1 then 0xCABAC28A else if i == 0xF2 then 0x53B39330 else 0x24B4A3A6)
    else if i < 0xF8 then (if i == 0xF4 then 0xBAD03605 else if i == 0xF5 then 0xCDD70693 else if i == 0xF6 then 0x54DE5729 else 0x23D967BF)
    else if i < 0xFC then (if i == 0xF8 then 0xB3667A2E else if i == 0xF9 then 0xC4614AB8 else if i == 0xFA then 0x5D681B02 else 0x2A6F2B94)
    else (if i == 0xFC then 0xB40BBE37 else if i == 0xFD then 0xC30C8EA1 else if i == 0xFE then 0x5A05DF1B else 0x2D02EF8D)
  }

  /** `_table`. */
  function Table(i: bv32): bv32 {
    if i < 0x80 then
      if i < 0x40 then
        if i < 0x20 then
          if i < 0x10 then
            Row0(i)
          else
            Row1(i)
        else
          if i < 0x30 then
            Row2(i)
          else
            Row3(i)
      else
        if i < 0x60 then
          if i < 0x50 then
            Row4(i)
          else
            Row5(i)
        else
          if i < 0x70 then
            Row6(i)
          else
            Row7(i)
    else
      if i < 0xC0 then
        if i < 0xA0 then
          if i < 0x90 then
            Row8(i)
          else
            Row9(i)
        else
          if i < 0xB0 then
            RowA(i)
          else
            RowB(i)
      else
        if i < 0xE0 then
          if i < 0xD0 then
            RowC(i)
          else
            RowD(i)
        else
          if i < 0xF0 then
            RowE(i)
          else
            RowF(i)
  }

  lemma Row0Right(i: bv32)
    requires i < 0x10
    ensures Row0(i) == Bits8(i)
  {
    Entry(0x00, 0x00000000); Entry(0x01, 0x77073096); Entry(0x02, 0xEE0E612C); Entry(0x03, 0x990951BA);
    Entry(0x04, 0x076DC419); Entry(0x05, 0x706AF48F); Entry(0x06, 0xE963A535); Entry(0x07, 0x9E6495A3);
    Entry(0x08, 0x0EDB8832); Entry(0x09, 0x79DCB8A4); Entry(0x0A, 0xE0D5E91E); Entry(0x0B, 0x97D2D988);
    Entry(0x0C, 0x09B64C2B); Entry(0x0D, 0x7EB17CBD); Entry(0x0E, 0xE7B82D07); Entry(0x0F, 0x90BF1D91);
  }

  lemma Row1Right(i: bv32)
    requires 0x10 <= i < 0x20
    ensures Row1(i) == Bits8(i)
  {
    Entry(0x10, 0x1DB71064); Entry(0x11, 0x6AB020F2); Entry(0x12, 0xF3B97148); Entry(0x13, 0x84BE41DE);
    Entry(0x14, 0x1ADAD47D); Entry(0x15, 0x6DDDE4EB); Entry(0x16, 0xF4D4B551); Entry(0x17, 0x83D385C7);
    Entry(0x18, 0x136C9856); Entry(0x19, 0x646BA8C0); Entry(0x1A, 0xFD62F97A); Entry(0x1B, 0x8A65C9EC);
    Entry(0x1C, 0x14015C4F); Entry(0x1D, 0x63066CD9); Entry(0x1E, 0xFA0F3D63); Entry(0x1F, 0x8D080DF5);
  }

  lemma Row2Right(i: bv32)
    requires 0x20 <= i < 0x30
    ensures Row2(i) == Bits8(i)
  {
    Entry(0x20, 0x3B6E20C8); Entry(0x21, 0x4C69105E); Entry(0x22, 0xD56041E4); Entry(0x23, 0xA2677172);
    Entry(0x24, 0x3C03E4D1); Entry(0x25, 0x4B04D447); Entry(0x26, 0xD20D85FD); Entry(0x27, 0xA50AB56B);
    Entry(0x28, 0x35B5A8FA); Entry(0x29, 0x42B2986C); Entry(0x2A, 0xDBBBC9D6); Entry(0x2B, 0xACBCF940);
    Entry(0x2C, 0x32D86CE3); Entry(0x2D, 0x45DF5C75); Entry(0x2E, 0xDCD60DCF); Entry(0x2F, 0xABD13D59);
  }

  lemma Row3Right(i: bv32)
    requires 0x30 <= i < 0x40
    ensures Row3(i) == Bits8(i)
  {
    Entry(0x30, 0x26D930AC); Entry(0x31, 0x51DE003A); Entry(0x32, 0xC8D75180); Entry(0x33, 0xBFD06116);
    Entry(0x34, 0x21B4F4B5); Entry(0x35, 0x56B3C423); Entry(0x36, 0xCFBA9599); Entry(0x37, 0xB8BDA50F);
    Entry(0x38, 0x2802B89E); Entry(0x39, 0x5F058808); Entry(0x3A, 0xC60CD9B2); Entry(0x3B, 0xB10BE924);
    Entry(0x3C, 0x2F6F7C87); Entry(0x3D, 0x58684C11); Entry(0x3E, 0xC1611DAB); Entry(0x3F, 0xB6662D3D);
  }

  lemma Row4Right(i: bv32)
    requires 0x40 <= i < 0x50
    ensures Row4(i) == Bits8(i)
  {
    Entry(0x40, 0x76DC4190); Entry(0x41, 0x01DB7106); Entry(0x42, 0x98D220BC); Entry(0x43, 0xEFD5102A);
    Entry(0x44, 0x71B18589); Entry(0x45, 0x06B6B51F); Entry(0x46, 0x9FBFE4A5); Entry(0x47, 0xE8B8D433);
    Entry(0x48, 0x7807C9A2); Entry(0x49, 0x0F00F934); Entry(0x4A, 0x9609A88E); Entry(0x4B, 0xE10E9818);
    Entry(0x4C, 0x7F6A0DBB); Entry(0x4D, 0x086D3D2D); Entry(0x4E, 0x91646C97); Entry(0x4F, 0xE6635C01);
  }

  lemma Row5Right(i: bv32)
    requires 0x50 <= i < 0x60
    ensures Row5(i) == Bits8(i)
  {
    Entry(0x50, 0x6B6B51F4); Entry(0x51, 0x1C6C6162); Entry(0x52, 0x856530D8); Entry(0x53, 0xF262004E);
    Entry(0x54, 0x6C0695ED); Entry(0x55, 0x1B01A57B); Entry(0x56, 0x8208F4C1); Entry(0x57, 0xF50FC457);
    Entry(0x58, 0x65B0D9C6); Entry(0x59, 0x12B7E950); Entry(0x5A, 0x8BBEB8EA); Entry(0x5B, 0xFCB9887C);
    Entry(0x5C, 0x62DD1DDF); Entry(0x5D, 0x15DA2D49); Entry(0x5E, 0x8CD37CF3); Entry(0x5F, 0xFBD44C65);
  }

  lemma Row6Right(i: bv32)
    requires 0x60 <= i < 0x70
    ensures Row6(i) == Bits8(i)
  {
    Entry(0x60, 0x4DB26158); Entry(0x61, 0x3AB551CE); Entry(0x62, 0xA3BC0074); Entry(0x63, 0xD4BB30E2);
    Entry(0x64, 0x4ADFA541); Entry(0x65, 0x3DD895D7); Entry(0x66, 0xA4D1C46D); Entry(0x67, 0xD3D6F4FB);
    Entry(0x68, 0x4369E96A); Entry(0x69, 0x346ED9FC); Entry(0x6A, 0xAD678846); Entry(0x6B, 0xDA60B8D0);
    Entry(0x6C, 0x44042D73); Entry(0x6D, 0x33031DE5); Entry(0x6E, 0xAA0A4C5F); Entry(0x6F, 0xDD0D7CC9);
  }

  lemma Row7Right(i: bv32)
    requires 0x70 <= i < 0x80
    ensures Row7(i) == Bits8(i)
  {
    Entry(0x70, 0x5005713C); Entry(0x71, 0x270241AA); Entry(0x72, 0xBE0B1010); Entry(0x73, 0xC90C2086);
    Entry(0x74, 0x5768B525); Entry(0x75, 0x206F85B3); Entry(0x76, 0xB966D409); Entry(0x77, 0xCE61E49F);
    Entry(0x78, 0x5EDEF90E); Entry(0x79, 0x29D9C998); Entry(0x7A, 0xB0D09822); Entry(0x7B, 0xC7D7A8B4);
    Entry(0x7C, 0x59B33D17); Entry(0x7D, 0x2EB40D81); Entry(0x7E, 0xB7BD5C3B); Entry(0x7F, 0xC0BA6CAD);
  }

  lemma Row8Right(i: bv32)
    requires 0x80 <= i < 0x90
    ensures Row8(i) == Bits8(i)
  {
    Entry(0x80, 0xEDB88320); Entry(0x81, 0x9ABFB3B6); Entry(0x82, 0x03B6E20C); Entry(0x83, 0x74B1D29A);
    Entry(0x84, 0xEAD54739); Entry(0x85, 0x9DD277AF); Entry(0x86, 0x04DB2615); Entry(0x87, 0x73DC1683);
    Entry(0x88, 0xE3630B12); Entry(0x89, 0x94643B84); Entry(0x8A, 0x0D6D6A3E); Entry(0x8B, 0x7A6A5AA8);
    Entry(0x8C, 0xE40ECF0B); Entry(0x8D, 0x9309FF9D); Entry(0x8E, 0x0A00AE27); Entry(0x8F, 0x7D079EB1);
  }

  lemma Row9Right(i: bv32)
    requires 0x90 <= i < 0xA0
    ensures Row9(i) == Bits8(i)
  {
    Entry(0x90, 0xF00F9344); Entry(0x91, 0x8708A3D2); Entry(0x92, 0x1E01F268); Entry(0x93, 0x6906C2FE);
    Entry(0x94, 0xF762575D); Entry(0x95, 0x806567CB); Entry(0x96, 0x196C3671); Entry(0x97, 0x6E6B06E7);
    Entry(0x98, 0xFED41B76); Entry(0x99, 0x89D32BE0); Entry(0x9A, 0x10DA7A5A); Entry(0x9B, 0x67DD4ACC);
    Entry(0x9C, 0xF9B9DF6F); Entry(0x9D, 0x8EBEEFF9); Entry(0x9E, 0x17B7BE43); Entry(0x9F, 0x60B08ED5);
  }

  lemma RowARight(i: bv32)
    requires 0xA0 <= i < 0xB0
    ensures RowA(i) == Bits8(i)
  {
    Entry(0xA0, 0xD6D6A3E8); Entry(0xA1, 0xA1D1937E); Entry(0xA2, 0x38D8C2C4); Entry(0xA3, 0x4FDFF252);
    Entry(0xA4, 0xD1BB67F1); Entry(0xA5, 0xA6BC5767); Entry(0xA6, 0x3FB506DD); Entry(0xA7, 0x48B2364B);
    Entry(0xA8, 0xD80D2BDA); Entry(0xA9, 0xAF0A1B4C); Entry(0xAA, 0x36034AF6); Entry(0xAB, 0x41047A60);
    Entry(0xAC, 0xDF60EFC3); Entry(0xAD, 0xA867DF55); Entry(0xAE, 0x316E8EEF); Entry(0xAF, 0x4669BE79);
  }

  lemma RowBRight(i: bv32)
    requires 0xB0 <= i < 0xC0
    ensures RowB(i) == Bits8(i)
  {
    Entry(0xB0, 0xCB61B38C); Entry(0xB1, 0xBC66831A); Entry(0xB2, 0x256FD2A0); Entry(0xB3, 0x5268E236);
    Entry(0xB4, 0xCC0C7795); Entry(0xB5, 0xBB0B4703); Entry(0xB6, 0x220216B9); Entry(0xB7, 0x5505262F);
    Entry(0xB8, 0xC5BA3BBE); Entry(0xB9, 0xB2BD0B28); Entry(0xBA, 0x2BB45A92); Entry(0xBB, 0x5CB36A04);
    Entry(0xBC, 0xC2D7FFA7); Entry(0xBD, 0xB5D0CF31); Entry(0xBE, 0x2CD99E8B); Entry(0xBF, 0x5BDEAE1D);
  }

  lemma RowCRight(i: bv32)
    requires 0xC0 <= i < 0xD0
    ensures RowC(i) == Bits8(i)
  {
    Entry(0xC0, 0x9B64C2B0); Entry(0xC1, 0xEC63F226); Entry(0xC2, 0x756AA39C); Entry(0xC3, 0x026D930A);
    Entry(0xC4, 0x9C0906A9); Entry(0xC5, 0xEB0E363F); Entry(0xC6, 0x72076785); Entry(0xC7, 0x05005713);
    Entry(0xC8, 0x95BF4A82); Entry(0xC9, 0xE2B87A14); Entry(0xCA, 0x7BB12BAE); Entry(0xCB, 0x0CB61B38);
    Entry(0xCC, 0x92D28E9B); Entry(0xCD, 0xE5D5BE0D); Entry(0xCE, 0x7CDCEFB7); Entry(0xCF, 0x0BDBDF21);
  }

  lemma RowDRight(i: bv32)
    requires 0xD0 <= i < 0xE0
    ensures RowD(i) == Bits8(i)
  {
    Entry(0xD0, 0x86D3D2D4); Entry(0xD1, 0xF1D4E242); Entry(0xD2, 0x68DDB3F8); Entry(0xD3, 0x1FDA836E);
    Entry(0xD4, 0x81BE16CD); Entry(0xD5, 0xF6B9265B); Entry(0xD6, 0x6FB077E1); Entry(0xD7, 0x18B74777);
    Entry(0xD8, 0x88085AE6); Entry(0xD9, 0xFF0F6A70); Entry(0xDA, 0x66063BCA); Entry(0xDB, 0x11010B5C);
    Entry(0xDC, 0x8F659EFF); Entry(0xDD, 0xF862AE69); Entry(0xDE, 0x616BFFD3); Entry(0xDF, 0x166CCF45);
  }

  lemma RowERight(i: bv32)
    requires 0xE0 <= i < 0xF0
    ensures RowE(i) == Bits8(i)
  {
    Entry(0xE0, 0xA00AE278); Entry(0xE1, 0xD70DD2EE); Entry(0xE2, 0x4E048354); Entry(0xE3, 0x3903B3C2);
    Entry(0xE4, 0xA7672661); Entry(0xE5, 0xD06016F7); Entry(0xE6, 0x4969474D); Entry(0xE7, 0x3E6E77DB);
    Entry(0xE8, 0xAED16A4A); Entry(0xE9, 0xD9D65ADC); Entry(0xEA, 0x40DF0B66); Entry(0xEB, 0x37D83BF0);
    Entry(0xEC, 0xA9BCAE53); Entry(0xED, 0xDEBB9EC5); Entry(0xEE, 0x47B2CF7F); Entry(0xEF, 0x30B5FFE9);
  }

  lemma RowFRight(i: bv32)
    requires 0xF0 <= i <= 0xFF
    ensures RowF(i) == Bits8(i)
  {
    Entry(0xF0, 0xBDBDF21C); Entry(0xF1, 0xCABAC28A); Entry(0xF2, 0x53B39330); Entry(0xF3, 0x24B4A3A6);
    Entry(0xF4, 0xBAD03605); Entry(0xF5, 0xCDD70693); Entry(0xF6, 0x54DE5729); Entry(0xF7, 0x23D967BF);
    Entry(0xF8, 0xB3667A2E); Entry(0xF9, 0xC4614AB8); Entry(0xFA, 0x5D681B02); Entry(0xFB, 0x2A6F2B94);
    Entry(0xFC, 0xB40BBE37); Entry(0xFD, 0xC30C8EA1); Entry(0xFE, 0x5A05DF1B); Entry(0xFF, 0x2D02EF8D);
  }

  /** Every entry of the table is eight bit steps on its index. */
  lemma TableRight(i: bv32)
    requires i <= 0xFF
    ensures Table(i) == Bits8(i)
  {
    if i < 0x80 {
      if i < 0x40 {
        if i < 0x20 {
          if i < 0x10 {
            Row0Right(i);
          } else {
            Row1Right(i);
          }
        } else {
          if i < 0x30 {
            Row2Right(i);
          } else {
            Row3Right(i);
          }
        }
      } else {
        if i < 0x60 {
          if i < 0x50 {
            Row4Right(i);
          } else {
            Row5Right(i);
          }
        } else {
          if i < 0x70 {
            Row6Right(i);
          } else {
            Row7Right(i);
          }
        }
      }
    } else {
      if i < 0xC0 {
        if i < 0xA0 {
          if i < 0x90 {
            Row8Right(i);
          } else {
            Row9Right(i);
          }
        } else {
          if i < 0xB0 {
            RowARight(i);
          } else {
            RowBRight(i);
          }
        }
      } else {
        if i < 0xE0 {
          if i < 0xD0 {
            RowCRight(i);
          } else {
            RowDRight(i);
          }
        } else {
          if i < 0xF0 {
            RowERight(i);
          } else {
            RowFRight(i);
          }
        }
      }
    }
  }

  lemma LowByte(c: bv32, b: bv8)
    ensures Xor(c, Wide(b)) >> 8 == c >> 8 && Xor(c, Wide(b)) & 0xFF == Xor(Wide(b), c & 0xFF)
    ensures Xor(Wide(b), c & 0xFF) <= 0xFF
  {
  }

  /** One byte by the table. */
  function Advance(c: bv32, b: bv8): bv32 {
    Xor(c >> 8, Table(Xor(Wide(b), c & 0xFF)))
  }

  /** The table step is the eight bit steps. */
  lemma TableStep(c: bv32, b: bv8)
    ensures Advance(c, b) == Step(c, b)
  {
    LowByte(c, b);
    Bits8Split(Xor(c, Wide(b)));
    TableRight(Xor(Wide(b), c & 0xFF));
  }

  lemma FoldNext(c: bv32, data: seq<bv8>, i: nat)
    requires i < |data|
    ensures Fold(c, data[..i+1]) == Step(Fold(c, data[..i]), data[i])
  {
    assert data[..i+1][..i] == data[..i];
  }

  // ---------------------------------------------------------------- the class

  class Sum {
    var crc: bv32

    constructor ()
      ensures crc == 0xFFFFFFFF
    {
      crc := Start;
    }

    /** `update`: a size below one does nothing. */
    method Update(data: seq<bv8>, size: int)
      requires size <= |data|
      modifies this
      ensures crc == Fold(old(crc), if size < 0 then [] else data[..size])
    {
      var i := 0;
      assert data[..0] == [];
      while i < size
        invariant 0 <= i && (i <= size || i == 0)
        invariant crc == Fold(old(crc), data[..i])
      {
        TableStep(crc, data[i]);
        FoldNext(old(crc), data, i);
        crc := Advance(crc, data[i]);
        i := i + 1;
      }
    }

    method Value() returns (v: bv32)
      ensures v == Xor(crc, 0xFFFFFFFF)
    {
      v := !crc;
    }

    method Reset()
      modifies this
      ensures crc == 0xFFFFFFFF
    {
      crc := Start;
    }
  }

  lemma FoldPush(f: (bv32, bv8) -> bv32, c: bv32, data: seq<bv8>, b: bv8)
    ensures FoldWith(f, c, data + [b]) == f(FoldWith(f, c, data), b)
  {
    assert (data + [b])[..|data|] == data;
  }

  // ---------------------------------------------------------------- laws

  lemma {:induction false} FoldWithConcat(f: (bv32, bv8) -> bv32, c: bv32, a: seq<bv8>, b: seq<bv8>)
    ensures FoldWith(f, c, a + b) == FoldWith(f, FoldWith(f, c, a), b)
  {
    if b == [] {
      assert a + b == a;
    } else {
      FoldWithConcat(f, c, a, b[..|b|-1]);
      assert (a + b)[..|a + b|-1] == a + b[..|b|-1];
    }
  }

  /** Feeding two pieces is feeding their concatenation. */
  lemma FoldConcat(c: bv32, a: seq<bv8>, b: seq<bv8>)
    ensures Fold(c, a + b) == Fold(Fold(c, a), b)
  {
    FoldWithConcat(Step, c, a, b);
  }

  function Joined(chunks: seq<seq<bv8>>): seq<bv8> {
    if chunks == [] then [] else Joined(chunks[..|chunks|-1]) + chunks[|chunks|-1]
  }

  /** However a string is cut into `update` calls, the value is the CRC of the whole. */
  method Chunked(chunks: seq<seq<bv8>>) returns (v: bv32)
    ensures v == Crc(Joined(chunks))
  {
    var sum := new Sum();
    for i := 0 to |chunks|
      invariant sum.crc == Fold(Start, Joined(chunks[..i]))
    {
      FoldConcat(Start, Joined(chunks[..i]), chunks[i]);
      assert chunks[..i+1][..i] == chunks[..i];
      assert chunks[i][..|chunks[i]|] == chunks[i];
      sum.Update(chunks[i], |chunks[i]|);
    }
    assert chunks[..|chunks|] == chunks;
    v := sum.Value();
  }

  lemma XorCancel(x: bv32, y: bv32, z: bv32)
    requires Xor(x, z) == Xor(y, z)
    ensures x == y
  {
    assert (x ^ z) ^ z == x && (y ^ z) ^ z == y;
  }

  lemma XorCancelLeft(z: bv32, x: bv32, y: bv32)
    requires Xor(z, x) == Xor(z, y)
    ensures x == y
  {
    assert z ^ (z ^ x) == x && z ^ (z ^ y) == y;
  }

  lemma WideInjective(a: bv8, b: bv8)
    requires Wide(a) == Wide(b)
    ensures a == b
  {
  }

  /** One byte step loses nothing: neither of the state nor of the byte. */
  lemma StepInjectiveState(c: bv32, d: bv32, b: bv8)
    requires Step(c, b) == Step(d, b)
    ensures c == d
  {
    Bits8Injective(Xor(c, Wide(b)), Xor(d, Wide(b)));
    XorCancel(c, d, Wide(b));
  }

  lemma StepInjectiveByte(c: bv32, a: bv8, b: bv8)
    requires Step(c, a) == Step(c, b)
    ensures a == b
  {
    Bits8Injective(Xor(c, Wide(a)), Xor(c, Wide(b)));
    XorCancelLeft(c, Wide(a), Wide(b));
    WideInjective(a, b);
  }

  ghost predicate Lossless(f: (bv32, bv8) -> bv32) {
    forall c: bv32, d: bv32, a: bv8, b: bv8 :: f(c, a) == f(d, b) ==> (a == b ==> c == d) && (c == d ==> a == b)
  }

  /** The state after a string determines the state before it. */
  lemma {:induction false} FoldLossless(f: (bv32, bv8) -> bv32, c: bv32, d: bv32, data: seq<bv8>)
    requires Lossless(f) && FoldWith(f, c, data) == FoldWith(f, d, data)
    ensures c == d
  {
    if data != [] {
      var u, b := data[..|data|-1], data[|data|-1];
      assert f(FoldWith(f, c, u), b) == f(FoldWith(f, d, u), b);
      FoldLossless(f, c, d, u);
    }
  }

  lemma OneByte(f: (bv32, bv8) -> bv32, c: bv32, pre: seq<bv8>, a: bv8, b: bv8, post: seq<bv8>)
    requires Lossless(f) && FoldWith(f, c, pre + [a] + post) == FoldWith(f, c, pre + [b] + post)
    ensures a == b
  {
    FoldWithConcat(f, c, pre + [a], post);
    FoldWithConcat(f, c, pre + [b], post);
    FoldLossless(f, FoldWith(f, c, pre + [a]), FoldWith(f, c, pre + [b]), post);
    FoldPush(f, c, pre, a);
    FoldPush(f, c, pre, b);
    assert f(FoldWith(f, c, pre), a) == f(FoldWith(f, c, pre), b);
  }

  lemma StepLossless()
    ensures Lossless(Step)
  {
    forall c: bv32, d: bv32, a: bv8, b: bv8 | Step(c, a) == Step(d, b) ensures (a == b ==> c == d) && (c == d ==> a == b) {
      if a == b {
        StepInjectiveState(c, d, a);
      }
      if c == d {
        StepInjectiveByte(c, a, b);
      }
    }
  }

  lemma CrcFold(s: seq<bv8>, t: seq<bv8>)
    requires Crc(s) == Crc(t)
    ensures FoldWith(Step, Start, s) == FoldWith(Step, Start, t)
  {
    XorCancel(Fold(Start, s), Fold(Start, t), 0xFFFFFFFF);
  }

  /** Two strings of the same length that differ in exactly one byte never share a value. */
  lemma OneByteDetected(pre: seq<bv8>, a: bv8, b: bv8, post: seq<bv8>)
    requires a != b
    ensures Crc(pre + [a] + post) != Crc(pre + [b] + post)
  {
    if Crc(pre + [a] + post) == Crc(pre + [b] + post) {
      CrcFold(pre + [a] + post, pre + [b] + post);
      StepLossless();
      OneByte(Step, Start, pre, a, b, post);
    }
  }

  // ---------------------------------------------------------------- bursts

  lemma XorRearranged(s: bv32, w: bv32, b: bv32)
    ensures Xor(s, Xor(w, b)) == Xor(w, Xor(s, b)) && Xor(s, w) == Xor(w, s)
  {
  }

  lemma ShiftBack(w: bv32)
    requires w <= 0xFFFFFF
    ensures (w << 8) & 0xFF == 0 && (w << 8) >> 8 == w
  {
  }

  /** A byte below a word. */
  function Pack(w: bv32, b: bv8): bv32 {
    Xor(w << 8, Wide(b))
  }

  function Upper(x: bv32): bv32 {
    x >> 8
  }

  function Lower(x: bv32): bv32 {
    x & 0xFF
  }

  lemma PackParts(w: bv32, b: bv8)
    requires w <= 0xFFFFFF
    ensures Upper(Pack(w, b)) == w && Lower(Pack(w, b)) == Wide(b)
  {
  }

  lemma PackInjective(v: bv32, a: bv8, w: bv32, b: bv8)
    requires v <= 0xFFFFFF && w <= 0xFFFFFF && Pack(v, a) == Pack(w, b)
    ensures v == w && a == b
  {
    PackParts(v, a);
    PackParts(w, b);
    WideInjective(a, b);
  }

  lemma PackSmall(w: bv32, b: bv8)
    requires w <= 0xFFFF
    ensures Pack(w, b) <= 0xFFFFFF && (w <= 0xFF ==> Pack(w, b) <= 0xFFFF) && Wide(b) <= 0xFF
  {
  }

  /** Eight bit steps take one byte off a word that is waiting above it. */
  lemma TakeByte(s: bv32, w: bv32, b: bv8)
    requires w <= 0xFFFFFF
    ensures Bits8(Xor(s, Pack(w, b))) == Xor(Step(s, b), w)
  {
    XorRearranged(s, w << 8, Wide(b));
    ShiftBack(w);
    Shifted8(w << 8);
    Bits8High(w << 8, Xor(s, Wide(b)));
    XorRearranged(w, Step(s, b), 0);
  }

  /** Steps `f` that each take the lowest byte off a packed word: four of them on the word of four bytes
      are four steps `g` on the bytes. */
  lemma TakeFour(f: bv32 -> bv32, g: (bv32, bv8) -> bv32, x: (bv32, bv32) -> bv32, p: (bv32, bv8) -> bv32, w: bv8 -> bv32,
                 c: bv32, b0: bv8, b1: bv8, b2: bv8, b3: bv8)
    requires f(x(c, p(p(p(w(b3), b2), b1), b0))) == x(g(c, b0), p(p(w(b3), b2), b1))
    requires f(x(g(c, b0), p(p(w(b3), b2), b1))) == x(g(g(c, b0), b1), p(w(b3), b2))
    requires f(x(g(g(c, b0), b1), p(w(b3), b2))) == x(g(g(g(c, b0), b1), b2), w(b3))
    requires f(x(g(g(g(c, b0), b1), b2), w(b3))) == g(g(g(g(c, b0), b1), b2), b3)
    ensures Iterate(f, x(c, p(p(p(w(b3), b2), b1), b0)), 4) == FoldWith(g, c, [b0, b1, b2, b3])
  {
    var b := [b0, b1, b2, b3];
    assert b[..3] == [b0, b1, b2] && b[..3][..2] == [b0, b1] && b[..3][..2][..1] == [b0] && [b0][..0] == [];
    assert FoldWith(g, c, [b0]) == g(c, b0);
    assert FoldWith(g, c, [b0, b1]) == g(g(c, b0), b1);
    assert FoldWith(g, c, [b0, b1, b2]) == g(g(g(c, b0), b1), b2);
    var y := x(c, p(p(p(w(b3), b2), b1), b0));
    assert Iterate(f, y, 4) == Iterate(f, f(f(y)), 2);
  }

  function Word(b0: bv8, b1: bv8, b2: bv8, b3: bv8): bv32 {
    Pack(Pack(Pack(Wide(b3), b2), b1), b0)
  }

  /** Four byte steps are thirty-two bit steps on the state with the word mixed in. */
  lemma FoldWord(c: bv32, b0: bv8, b1: bv8, b2: bv8, b3: bv8)
    ensures Iterate(Bits8, Xor(c, Word(b0, b1, b2, b3)), 4) == Fold(c, [b0, b1, b2, b3])
  {
    PackSmall(0, b3);
    PackSmall(Wide(b3), b2);
    PackSmall(Pack(Wide(b3), b2), b1);
    TakeByte(c, Pack(Pack(Wide(b3), b2), b1), b0);
    TakeByte(Step(c, b0), Pack(Wide(b3), b2), b1);
    TakeByte(Step(Step(c, b0), b1), Wide(b3), b2);
    TakeFour(Bits8, Step, Xor, Pack, Wide, c, b0, b1, b2, b3);
  }

  lemma WordInjective(a0: bv8, a1: bv8, a2: bv8, a3: bv8, b0: bv8, b1: bv8, b2: bv8, b3: bv8)
    requires Word(a0, a1, a2, a3) == Word(b0, b1, b2, b3)
    ensures a0 == b0 && a1 == b1 && a2 == b2 && a3 == b3
  {
    PackSmall(0, a3);
    PackSmall(Wide(a3), a2);
    PackSmall(Pack(Wide(a3), a2), a1);
    PackSmall(0, b3);
    PackSmall(Wide(b3), b2);
    PackSmall(Pack(Wide(b3), b2), b1);
    PackInjective(Pack(Pack(Wide(a3), a2), a1), a0, Pack(Pack(Wide(b3), b2), b1), b0);
    PackInjective(Pack(Wide(a3), a2), a1, Pack(Wide(b3), b2), b1);
    PackInjective(Wide(a3), a2, Wide(b3), b2);
    WideInjective(a3, b3);
  }

  lemma IterateBits8Injective(x: bv32, y: bv32)
    requires Iterate(Bits8, x, 4) == Iterate(Bits8, y, 4)
    ensures x == y
  {
    forall x: bv32, y: bv32 | Bits8(x) == Bits8(y) ensures x == y {
      Bits8Injective(x, y);
    }
    IterateOneToOne(Bits8, x, y, 4);
  }

  lemma {:induction false} IterateOneToOne(f: bv32 -> bv32, x: bv32, y: bv32, n: nat)
    requires forall x: bv32, y: bv32 :: f(x) == f(y) ==> x == y
    requires Iterate(f, x, n) == Iterate(f, y, n)
    ensures x == y
    decreases n
  {
    if n > 0 {
      IterateOneToOne(f, f(x), f(y), n - 1);
    }
  }

  /** So the state after four bytes determines the bytes. */
  lemma FourBytes(c: bv32, a: seq<bv8>, b: seq<bv8>)
    requires |a| == |b| == 4 && Fold(c, a) == Fold(c, b)
    ensures a == b
  {
    assert a == [a[0], a[1], a[2], a[3]] && b == [b[0], b[1], b[2], b[3]];
    FoldWord(c, a[0], a[1], a[2], a[3]);
    FoldWord(c, b[0], b[1], b[2], b[3]);
    var x, y := Word(a[0], a[1], a[2], a[3]), Word(b[0], b[1], b[2], b[3]);
    IterateBits8Injective(Xor(c, x), Xor(c, y));
    XorCancelLeft(c, x, y);
    WordInjective(a[0], a[1], a[2], a[3], b[0], b[1], b[2], b[3]);
  }

  function Zeros(n: nat): (z: seq<bv8>)
    ensures |z| == n
  {
    seq(n, _ => 0)
  }

  lemma ShortBurst(c: bv32, a: seq<bv8>, b: seq<bv8>)
    requires |a| == |b| <= 4 && Fold(c, a) == Fold(c, b)
    ensures a == b
  {
    var z := Zeros(4 - |a|);
    FoldConcat(c, a, z);
    FoldConcat(c, b, z);
    FourBytes(c, a + z, b + z);
    assert a == (a + z)[..|a|] && b == (b + z)[..|b|];
  }

  /** Two strings of the same length whose differences lie within four consecutive bytes never
      share a value: no error burst of up to 32 bits goes undetected. */
  lemma BurstDetected(pre: seq<bv8>, a: seq<bv8>, b: seq<bv8>, post: seq<bv8>)
    requires |a| == |b| <= 4 && a != b
    ensures Crc(pre + a + post) != Crc(pre + b + post)
  {
    if Crc(pre + a + post) == Crc(pre + b + post) {
      CrcFold(pre + a + post, pre + b + post);
      FoldConcat(Start, pre + a, post);
      FoldConcat(Start, pre + b, post);
      StepLossless();
      FoldLossless(Step, Fold(Start, pre + a), Fold(Start, pre + b), post);
      FoldConcat(Start, pre, a);
      FoldConcat(Start, pre, b);
      ShortBurst(Fold(Start, pre), a, b);
    }
  }

  // ---------------------------------------------------------------- a known value

  /** The text "123456789". */
  const Digits: seq<bv8> := [0x31, 0x32, 0x33, 0x34, 0x35, 0x36, 0x37, 0x38, 0x39]

  lemma StepIs(c: bv32, b: bv8, x: bv32, d: bv32)
    requires Xor(c, Wide(b)) == x && Bit(Bit(Bit(Bit(Bit(Bit(Bit(Bit(x)))))))) == d
    ensures Step(c, b) == d
  {
    Bits8Unrolled(x);
  }

  lemma FirstSteps()
    ensures Step(0xFFFFFFFF, 0x31) == 0x7C231048 && Step(0x7C231048, 0x32) == 0xB0ACBB32 && Step(0xB0ACBB32, 0x33) == 0x77B79C2D
  {
    StepIs(0xFFFFFFFF, 0x31, 0xFFFFFFCE, 0x7C231048);
    StepIs(0x7C231048, 0x32, 0x7C23107A, 0xB0ACBB32);
    StepIs(0xB0ACBB32, 0x33, 0xB0ACBB01, 0x77B79C2D);
  }

  lemma SecondSteps()
    ensures Step(0x77B79C2D, 0x34) == 0x641C1F5C && Step(0x641C1F5C, 0x35) == 0x340AC5E3 && Step(0x340AC5E3, 0x36) == 0xF68D2C9E
  {
    StepIs(0x77B79C2D, 0x34, 0x77B79C19, 0x641C1F5C);
    StepIs(0x641C1F5C, 0x35, 0x641C1F69, 0x340AC5E3);
    StepIs(0x340AC5E3, 0x36, 0x340AC5D5, 0xF68D2C9E);
  }

  lemma ThirdSteps()
    ensures Step(0xF68D2C9E, 0x37) == 0xAFFC9660 && Step(0xAFFC9660, 0x38) == 0x651F2550 && Step(0x651F2550, 0x39) == 0x340BC6D9
  {
    StepIs(0xF68D2C9E, 0x37, 0xF68D2CA9, 0xAFFC9660);
    StepIs(0xAFFC9660, 0x38, 0xAFFC9658, 0x651F2550);
    StepIs(0x651F2550, 0x39, 0x651F2569, 0x340BC6D9);
  }

  lemma ThreeSteps(f: (bv32, bv8) -> bv32, c: bv32, b0: bv8, b1: bv8, b2: bv8)
    ensures FoldWith(f, c, [b0, b1, b2]) == f(f(f(c, b0), b1), b2)
  {
    FoldPush(f, c, [], b0);
    FoldPush(f, c, [b0], b1);
    FoldPush(f, c, [b0, b1], b2);
    assert [] + [b0] == [b0] && [b0] + [b1] == [b0, b1] && [b0, b1] + [b2] == [b0, b1, b2];
  }

  /** The state after nine bytes, from the states after three and six. */
  lemma NineSteps(f: (bv32, bv8) -> bv32, c: bv32, b: seq<bv8>)
    requires |b| == 9
    ensures FoldWith(f, c, b) == f(f(f(f(f(f(f(f(f(c, b[0]), b[1]), b[2]), b[3]), b[4]), b[5]), b[6]), b[7]), b[8])
  {
    var x, y, z := [b[0], b[1], b[2]], [b[3], b[4], b[5]], [b[6], b[7], b[8]];
    assert b == (x + y) + z;
    FoldWithConcat(f, c, x + y, z);
    FoldWithConcat(f, c, x, y);
    ThreeSteps(f, c, b[0], b[1], b[2]);
    ThreeSteps(f, FoldWith(f, c, x), b[3], b[4], b[5]);
    ThreeSteps(f, FoldWith(f, c, x + y), b[6], b[7], b[8]);
  }

  /** The check value of this CRC: that of the nine digits is 0xCBF43926, and that of the empty string 0. */
  lemma CheckValue()
    ensures Crc(Digits) == 0xCBF43926 && Crc([]) == 0
  {
    NineSteps(Step, 0xFFFFFFFF, Digits);
    FirstSteps();
    SecondSteps();
    ThirdSteps();
    assert Fold(0xFFFFFFFF, Digits) == 0x340BC6D9;
  }
}
