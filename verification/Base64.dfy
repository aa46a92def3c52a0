/** The bit-accumulator Base64 codec of src/base64.cpp against the 24-bit groups of section 4 of
    RFC 4648. The accumulator is a 32-bit unsigned word: shifting it left loses its top bits. */
module Base64 {

  type Byte = x: int | 0 <= x < 256

  const Word: nat := 0x1_0000_0000

  // ---------------------------------------------------------------- tables

  /** `b64_table`, sixteen entries to a row. */
  function TableRow(r: nat): (s: string)
    requires r < 4
    ensures |s| == 16
  {
    if r == 0 then "ABCDEFGHIJKLMNOP" else if r == 1 then "QRSTUVWXYZabcdef"
    else if r == 2 then "ghijklmnopqrstuv" else "wxyz0123456789+/"
  }

  /** `b64_table_r`, sixteen entries to a row; 64 marks characters outside the alphabet. */
  function ReverseRow(r: nat): (s: seq<nat>)
    requires r < 8
    ensures |s| == 16
  {
    if r < 2 then [64, 64, 64, 64, 64, 64, 64, 64, 64, 64, 64, 64, 64, 64, 64, 64]
    else if r == 2 then [64, 64, 64, 64, 64, 64, 64, 64, 64, 64, 64, 62, 64, 64, 64, 63]
    else if r == 3 then [52, 53, 54, 55, 56, 57, 58, 59, 60, 61, 64, 64, 64, 64, 64, 64]
    else if r == 4 then [64, 0, 1, 2, 3, 4, 5, 6, 7, 8, 9, 10, 11, 12, 13, 14]
    else if r == 5 then [15, 16, 17, 18, 19, 20, 21, 22, 23, 24, 25, 64, 64, 64, 64, 64]
    else if r == 6 then [64, 26, 27, 28, 29, 30, 31, 32, 33, 34, 35, 36, 37, 38, 39, 40]
    else [41, 42, 43, 44, 45, 46, 47, 48, 49, 50, 51, 64, 64, 64, 64, 64]
  }

  /** The character of a value, by the ranges of the alphabet. */
  function Alphabet(v: nat): char
    requires v < 64
  {
    if v < 26 then ('A' as int + v) as char
    else if v < 52 then ('a' as int + v - 26) as char
    else if v < 62 then ('0' as int + v - 52) as char
    else if v == 62 then '+' else '/'
  }

  /** The value of a character, or 64. */
  function Reverse(c: char): (v: nat)
    ensures v <= 64
  {
    if 'A' <= c <= 'Z' then c as int - 'A' as int
    else if 'a' <= c <= 'z' then c as int - 'a' as int + 26
    else if '0' <= c <= '9' then c as int - '0' as int + 52
    else if c == '+' then 62 else if c == '/' then 63 else 64
  }

  /** The ranges are the table, entry by entry. */
  lemma AlphabetTable(v: nat)
    requires v < 64
    ensures Alphabet(v) == TableRow(v / 16)[v % 16]
  {
    if v < 16 {
      assert v / 16 == 0 && v % 16 == v;
    } else if v < 32 {
      assert v / 16 == 1 && v % 16 == v - 16;
    } else if v < 48 {
      assert v / 16 == 2 && v % 16 == v - 32;
    } else {
      assert v / 16 == 3 && v % 16 == v - 48;
    }
  }

  lemma ReverseTableLow(n: nat)
    requires n < 64
    ensures Reverse(n as char) == ReverseRow(n / 16)[n % 16]
  {
    if n < 32 {
      assert n / 16 < 2;
    } else if n < 48 {
      assert n / 16 == 2 && n % 16 == n - 32;
    } else {
      assert n / 16 == 3 && n % 16 == n - 48;
    }
  }

  lemma ReverseTableUpper(n: nat)
    requires 64 <= n < 96
    ensures Reverse(n as char) == ReverseRow(n / 16)[n % 16]
  {
    if n < 80 {
      assert n / 16 == 4 && n % 16 == n - 64;
    } else {
      assert n / 16 == 5 && n % 16 == n - 80;
    }
  }

  lemma ReverseTableLower(n: nat)
    requires 96 <= n < 128
    ensures Reverse(n as char) == ReverseRow(n / 16)[n % 16]
  {
    if n < 112 {
      assert n / 16 == 6 && n % 16 == n - 96;
    } else {
      assert n / 16 == 7 && n % 16 == n - 112;
    }
  }

  /** The same for the reverse table, at every index inside it. */
  lemma ReverseTable(c: char)
    requires c < 128 as char
    ensures Reverse(c) == ReverseRow(c as int / 16)[c as int % 16]
  {
    var n := c as int;
    if n < 64 {
      ReverseTableLow(n);
    } else if n < 96 {
      ReverseTableUpper(n);
    } else {
      ReverseTableLower(n);
    }
  }

  predicate Skipped(c: char) {
    c == ' ' || '\t' <= c <= '\r' || c == '='
  }

  /** What the decoder passes over: white space as `isspace` has it, and padding. */
  lemma SkippedExactly(c: char)
    ensures Skipped(c) <==> c in {' ', 9 as char, 10 as char, 11 as char, 12 as char, 13 as char, '='}
  {
  }

  /** The reverse table undoes the table, and no alphabet character is skipped. */
  lemma TablesInverse(v: nat)
    requires v < 64
    ensures Alphabet(v) < 128 as char && Reverse(Alphabet(v)) == v && !Skipped(Alphabet(v))
  {
  }

  // ---------------------------------------------------------------- the definition

  /** Byte `i`, with zeros added on the right. */
  function ByteAt(s: seq<Byte>, i: nat): Byte {
    if i < |s| then s[i] else 0
  }

  /** Input group `g`: three bytes as one 24-bit number. */
  function Group(s: seq<Byte>, g: nat): nat {
    ByteAt(s, 3 * g) * 0x10000 + ByteAt(s, 3 * g + 1) * 0x100 + ByteAt(s, 3 * g + 2)
  }

  /** Digit `j` of a group, the most significant six bits first. */
  function Digit(n: nat, j: nat): (d: nat)
    requires j < 4
    ensures d < 64
  {
    (if j == 0 then n / 0x40000 else if j == 1 then n / 0x1000 else if j == 2 then n / 0x40 else n) % 64
  }

  function Sextet(s: seq<Byte>, k: nat): (d: nat)
    ensures d < 64
  {
    Digit(Group(s, k / 4), k % 4)
  }

  /** Characters before the padding: two for one final byte, three for two. */
  function Sextets(n: nat): nat {
    (8 * n + 5) / 6
  }

  function EncodedLength(n: nat): nat {
    (n + 2) / 3 * 4
  }

  /** The encoding of section 4 of RFC 4648. */
  function Rfc4648(s: seq<Byte>): (t: string)
    ensures |t| == EncodedLength(|s|)
  {
    seq(EncodedLength(|s|), k requires 0 <= k < EncodedLength(|s|) => if k < Sextets(|s|) then Alphabet(Sextet(s, k)) else '=')
  }

  lemma MulMono(a: nat, b: nat, d: nat)
    requires a <= b
    ensures a * d <= b * d
  {
  }

  lemma DivIs(n: nat, d: nat, q: nat, r: nat)
    requires 0 < d && n == q * d + r && r < d
    ensures n / d == q && n % d == r
  {
    var e := n / d;
    assert e * d <= n < e * d + d;
    if e < q {
      MulMono(e + 1, q, d);
      assert false;
    } else if e > q {
      MulMono(q + 1, e, d);
      assert false;
    }
  }

  /** The four digits of three bytes, spelled out. */
  lemma DigitsOf(a: Byte, b: Byte, c: Byte)
    ensures var n := a * 0x10000 + b * 0x100 + c;
            && Digit(n, 0) == a / 4 && Digit(n, 1) == a % 4 * 16 + b / 16
            && Digit(n, 2) == b % 16 * 4 + c / 64 && Digit(n, 3) == c % 64
  {
    var n := a * 0x10000 + b * 0x100 + c;
    var a1, a0, b1, b0, c1, c0 := a / 4, a % 4, b / 16, b % 16, c / 64, c % 64;
    DivIs(n, 0x40000, a1, a0 * 0x10000 + b * 0x100 + c);
    var n1 := a1 * 64 + a0 * 16 + b1;
    DivIs(n, 0x1000, n1, b0 * 0x100 + c);
    DivIs(n1, 64, a1, a0 * 16 + b1);
    var n2 := n1 * 64 + b0 * 4 + c1;
    DivIs(n, 0x40, n2, c0);
    DivIs(n2, 64, n1, b0 * 4 + c1);
  }

  /** The characters of group `g`, spelled out: four for three bytes, and fewer with padding for the last one
      or two bytes. */
  ghost predicate GroupText(s: seq<Byte>, t: string, g: nat) {
    && 4 * g + 4 <= |t| && 3 * g < |s|
    && t[4 * g] == Alphabet(s[3 * g] / 4)
    && if 3 * g + 2 < |s| then
         && t[4 * g + 1] == Alphabet(s[3 * g] % 4 * 16 + s[3 * g + 1] / 16)
         && t[4 * g + 2] == Alphabet(s[3 * g + 1] % 16 * 4 + s[3 * g + 2] / 64)
         && t[4 * g + 3] == Alphabet(s[3 * g + 2] % 64)
       else if 3 * g + 1 < |s| then
         && t[4 * g + 1] == Alphabet(s[3 * g] % 4 * 16 + s[3 * g + 1] / 16)
         && t[4 * g + 2] == Alphabet(s[3 * g + 1] % 16 * 4) && t[4 * g + 3] == '='
       else
         t[4 * g + 1] == Alphabet(s[3 * g] % 4 * 16) && t[4 * g + 2] == '=' && t[4 * g + 3] == '='
  }

  /** Four characters for every three bytes begun, group by group. */
  lemma Rfc4648Groups(s: seq<Byte>, g: nat)
    requires 3 * g < |s|
    ensures |Rfc4648(s)| == 4 * ((|s| + 2) / 3) && GroupText(s, Rfc4648(s), g)
  {
    RoomFor(|s|, g);
    if 3 * g + 2 < |s| {
      FullGroup(s, g);
    } else if 3 * g + 1 < |s| {
      TwoBytes(s, g);
    } else {
      OneByte(s, g);
    }
  }

  lemma FullGroup(s: seq<Byte>, g: nat)
    requires 3 * g + 2 < |s| && 4 * g + 4 <= EncodedLength(|s|)
    ensures GroupText(s, Rfc4648(s), g)
  {
    RoomFor(|s|, g);
    GroupValues(s, g);
    GroupDigit(s, g, 0);
    GroupDigit(s, g, 1);
    GroupDigit(s, g, 2);
    GroupDigit(s, g, 3);
  }

  lemma TwoBytes(s: seq<Byte>, g: nat)
    requires 3 * g + 2 == |s| && 4 * g + 4 <= EncodedLength(|s|)
    ensures GroupText(s, Rfc4648(s), g)
  {
    var t, n := Rfc4648(s), Group(s, g);
    RoomFor(|s|, g);
    GroupDigit(s, g, 0);
    GroupDigit(s, g, 1);
    GroupDigit(s, g, 2);
    GroupDigit(s, g, 3);
    assert t[4 * g + 2] == Alphabet(Digit(n, 2)) && t[4 * g + 3] == '=';
    GroupValues(s, g);
  }

  lemma OneByte(s: seq<Byte>, g: nat)
    requires 3 * g + 1 == |s| && 4 * g + 4 <= EncodedLength(|s|)
    ensures GroupText(s, Rfc4648(s), g)
  {
    RoomFor(|s|, g);
    GroupValues(s, g);
    GroupDigit(s, g, 0);
    GroupDigit(s, g, 1);
    GroupDigit(s, g, 2);
    GroupDigit(s, g, 3);
  }

  /** The digits of a group by its bytes, missing ones being zero. */
  lemma GroupValues(s: seq<Byte>, g: nat)
    ensures var n, a, b, c := Group(s, g), ByteAt(s, 3 * g), ByteAt(s, 3 * g + 1), ByteAt(s, 3 * g + 2);
            && Digit(n, 0) == a / 4 && Digit(n, 1) == a % 4 * 16 + b / 16
            && Digit(n, 2) == b % 16 * 4 + c / 64 && Digit(n, 3) == c % 64
  {
    DigitsOf(ByteAt(s, 3 * g), ByteAt(s, 3 * g + 1), ByteAt(s, 3 * g + 2));
  }

  lemma RoomFor(n: nat, g: nat)
    requires 3 * g < n
    ensures 4 * g + 4 <= EncodedLength(n)
    ensures Sextets(n) > 4 * g + 1 && (3 * g + 1 < n ==> Sextets(n) > 4 * g + 2) && (3 * g + 2 < n ==> Sextets(n) > 4 * g + 3)
    ensures (3 * g + 1 >= n ==> Sextets(n) <= 4 * g + 2) && (3 * g + 2 >= n ==> Sextets(n) <= 4 * g + 3)
  {
  }

  lemma GroupDigit(s: seq<Byte>, g: nat, j: nat)
    requires j < 4 && 4 * g + 4 <= EncodedLength(|s|)
    ensures Rfc4648(s)[4 * g + j] == if 4 * g + j < Sextets(|s|) then Alphabet(Digit(Group(s, g), j)) else '='
  {
    var k := 4 * g + j;
    assert k / 4 == g && k % 4 == j;
  }

  // ---------------------------------------------------------------- encoding

  function Power2(n: nat): (p: nat)
    ensures p > 0
  {
    if n == 0 then 1 else 2 * Power2(n - 1)
  }

  lemma Powers()
    ensures Power2(0) == 1 && Power2(2) == 4 && Power2(4) == 16 && Power2(6) == 64
  {
    assert Power2(2) == 2 * Power2(1) && Power2(3) == 2 * Power2(2) && Power2(4) == 2 * Power2(3);
    assert Power2(5) == 2 * Power2(4) && Power2(6) == 2 * Power2(5);
  }

  /** `(accumulator << 8) | byte` on 32 bits. */
  function ShiftIn(acc: nat, b: Byte): nat {
    acc * 256 % Word + b
  }

  /** `(accumulator >> bits) & 0x3f`. */
  function LowSix(acc: nat, bits: nat): (d: nat)
    ensures d < 64
  {
    acc / Power2(bits) % 64
  }

  /** After `i` bytes: how many bits wait in the accumulator, and what they are. */
  ghost predicate Waiting(s: seq<Byte>, i: nat, acc: nat, bits: int)
    requires i <= |s|
  {
    acc < Word && bits == 2 * (i % 3) && (i % 3 == 1 ==> acc % 4 == s[i-1] % 4) && (i % 3 == 2 ==> acc % 16 == s[i-1] % 16)
  }

  /** The digit written when `bits` bits wait after byte `i` went in. */
  lemma EmitDigit(s: seq<Byte>, i: nat, acc0: nat, bits: nat)
    requires i < |s| && Waiting(s, i, acc0, 2 * (i % 3))
    requires bits == 2 || bits == 4 || bits == 6 || bits == 0
    requires if bits == 0 then i % 3 == 2 else bits == 2 + 2 * (i % 3)
    ensures LowSix(ShiftIn(acc0, s[i]), bits) == Sextet(s, i / 3 * 4 + i % 3 + (if bits == 0 then 1 else 0))
  {
    Powers();
    var g := i / 3;
    var acc, b := ShiftIn(acc0, s[i]), s[i];
    ShiftTail(acc0, b);
    var k := g * 4 + i % 3 + (if bits == 0 then 1 else 0);
    assert k / 4 == g && k % 4 == i % 3 + (if bits == 0 then 1 else 0);
    DigitsOf(ByteAt(s, 3 * g), ByteAt(s, 3 * g + 1), ByteAt(s, 3 * g + 2));
    assert i == 3 * g + i % 3;
  }

  lemma LowBits(acc: nat)
    ensures acc % 0x100_0000 % 4 == acc % 4 && acc % 0x100_0000 % 16 == acc % 16
  {
    var h, low := acc / 0x100_0000, acc % 0x100_0000;
    DivIs(acc, 4, h * 0x40_0000 + low / 4, low % 4);
    DivIs(acc, 16, h * 0x10_0000 + low / 16, low % 16);
  }

  /** The low bits of the accumulator survive the shift. */
  lemma ShiftTail(acc: nat, b: Byte)
    requires acc < Word
    ensures ShiftIn(acc, b) < Word
    ensures ShiftIn(acc, b) / 4 % 64 == b / 4
    ensures ShiftIn(acc, b) / 16 % 64 == acc % 4 * 16 + b / 16
    ensures ShiftIn(acc, b) / 64 % 64 == acc % 16 * 4 + b / 64
    ensures ShiftIn(acc, b) % 64 == b % 64
    ensures ShiftIn(acc, b) % 4 == b % 4 && ShiftIn(acc, b) % 16 == b % 16
  {
    var x, low := ShiftIn(acc, b), acc % 0x100_0000;
    DivIs(acc * 256, Word, acc / 0x100_0000, low * 256);
    assert x == low * 256 + b;
    var b1, b0, l1, l0, m1, m0 := b / 16, b % 16, low / 4, low % 4, low / 16, low % 16;
    DivIs(x, 4, low * 64 + b / 4, b % 4);
    DivIs(low * 64 + b / 4, 64, low, b / 4);
    DivIs(x, 16, low * 16 + b1, b0);
    DivIs(low * 16 + b1, 64, l1, l0 * 16 + b1);
    DivIs(x, 64, low * 4 + b / 64, b % 64);
    DivIs(low * 4 + b / 64, 64, m1, m0 * 4 + b / 64);
    LowBits(acc);
  }

  /** The first `n` characters are right and the rest is still padding. */
  ghost predicate Written(s: seq<Byte>, t: string, n: nat) {
    && n <= |t| == EncodedLength(|s|)
    && (forall k :: 0 <= k < n ==> t[k] == Alphabet(Sextet(s, k)))
    && (forall k :: n <= k < |t| ==> t[k] == '=')
  }

  /** The last digit, from the bits that are left over. */
  lemma LastDigit(s: seq<Byte>, acc: nat)
    requires Waiting(s, |s|, acc, 2 * (|s| % 3)) && |s| % 3 != 0
    ensures acc * Power2(6 - 2 * (|s| % 3)) % Word % 64 == Sextet(s, |s| / 3 * 4 + |s| % 3)
    ensures |s| / 3 * 4 + |s| % 3 < EncodedLength(|s|)
  {
    Powers();
    var g, k := |s| / 3, |s| / 3 * 4 + |s| % 3;
    assert k / 4 == g && k % 4 == |s| % 3;
    DigitsOf(ByteAt(s, 3 * g), ByteAt(s, 3 * g + 1), ByteAt(s, 3 * g + 2));
    var h, x := acc * Power2(6 - 2 * (|s| % 3)) / Word, acc * Power2(6 - 2 * (|s| % 3)) % Word;
    if |s| % 3 == 1 {
      LeftOver(acc, 16, 4);
    } else {
      LeftOver(acc, 4, 16);
    }
  }

  lemma LeftOver(acc: nat, p: nat, q: nat)
    requires (p == 16 && q == 4) || (p == 4 && q == 16)
    ensures acc * p % Word % 64 == acc % q * p
  {
    var x := acc * p;
    var h, low := x / Word, x % Word;
    assert x == h * Word + low;
    DivIs(x, 64, h * 0x400_0000 + low / 64, low % 64);
    DivIs(x, 64, acc / q, acc % q * p);
  }

  lemma WrittenAll(s: seq<Byte>, t: string)
    requires Written(s, t, Sextets(|s|))
    ensures t == Rfc4648(s)
  {
  }

  /** The states of the inner loop while byte `i` is written out. */
  ghost predicate Emitting(i: nat, bits: int, outpos: int) {
    var first := i / 3 * 4 + i % 3;
    || (bits == 8 + 2 * (i % 3) && outpos == first)
    || (bits == 2 + 2 * (i % 3) && outpos == first + 1)
    || (bits == 0 && i % 3 == 2 && outpos == first + 2)
  }

  lemma EmitStep(s: seq<Byte>, i: nat, acc0: nat, bits: nat, outpos: nat, t: string)
    requires i < |s| && Waiting(s, i, acc0, 2 * (i % 3)) && Emitting(i, bits, outpos) && bits >= 6 && Written(s, t, outpos)
    ensures outpos < |t| && Emitting(i, bits - 6, outpos + 1)
    ensures Written(s, t[outpos := Alphabet(LowSix(ShiftIn(acc0, s[i]), bits - 6))], outpos + 1)
  {
    EmitDigit(s, i, acc0, bits - 6);
    assert i / 3 + 1 <= (|s| + 2) / 3;
  }

  lemma NextByte(s: seq<Byte>, i: nat, acc0: nat, bits: int, outpos: int)
    requires i < |s| && Waiting(s, i, acc0, 2 * (i % 3)) && Emitting(i, bits, outpos) && bits < 6
    ensures outpos == (i + 1) / 3 * 4 + (i + 1) % 3 && Waiting(s, i + 1, ShiftIn(acc0, s[i]), bits)
  {
    ShiftTail(acc0, s[i]);
  }

  /** `base64_encode`. */
  method Encode(s: seq<Byte>) returns (t: string)
    ensures |s| > 1024968 ==> t == ""
    ensures |s| <= 1024968 ==> t == Rfc4648(s)
  {
    if |s| > 1024968 {
      return "";
    }
    t := seq(EncodedLength(|s|), _ => '=');
    var outpos: nat, bits, acc: nat := 0, 0, 0;
    var i := 0;
    while i < |s|
      invariant i <= |s| && outpos == i / 3 * 4 + i % 3
      invariant Waiting(s, i, acc, bits) && Written(s, t, outpos)
    {
      ghost var acc0 := acc;
      acc := ShiftIn(acc, s[i]);
      bits := bits + 8;
      ShiftTail(acc0, s[i]);
      while bits >= 6
        invariant Emitting(i, bits, outpos) && Written(s, t, outpos)
      {
        EmitStep(s, i, acc0, bits, outpos, t);
        bits := bits - 6;
        t := t[outpos := Alphabet(LowSix(acc, bits))];
        outpos := outpos + 1;
      }
      NextByte(s, i, acc0, bits, outpos);
      i := i + 1;
    }
    if bits > 0 {
      LastDigit(s, acc);
      acc := acc * Power2(6 - bits) % Word;
      t := t[outpos := Alphabet(acc % 64)];
      outpos := outpos + 1;
    }
    assert outpos == Sextets(|s|);
    WrittenAll(s, t);
  }

  // ---------------------------------------------------------------- decoding

  /** The table indices that `base64_decode` forms are inside the table. */
  predicate Ascii(t: string) {
    forall i :: 0 <= i < |t| ==> Skipped(t[i]) || t[i] < 128 as char
  }

  /** The values of the characters that are not skipped. */
  function Values(t: string): seq<nat>
    requires Ascii(t)
  {
    if t == [] then [] else Values(t[..|t|-1]) + (if Skipped(t[|t|-1]) then [] else [Reverse(t[|t|-1])])
  }

  ghost predicate Valid(v: seq<nat>) {
    forall k :: 0 <= k < |v| ==> v[k] < 64
  }

  function ValueAt(v: seq<nat>, k: nat): nat {
    if k < |v| then v[k] else 0
  }

  /** Four values as one 24-bit number. */
  function Quad(v: seq<nat>, g: nat): nat {
    ValueAt(v, 4 * g) * 0x40000 + ValueAt(v, 4 * g + 1) * 0x1000 + ValueAt(v, 4 * g + 2) * 0x40 + ValueAt(v, 4 * g + 3)
  }

  /** Byte `m` of the number sequence: byte `m % 3` of its group, the highest first. */
  function ByteOf(v: seq<nat>, m: nat): Byte {
    var n := Quad(v, m / 3);
    (if m % 3 == 0 then n / 0x10000 else if m % 3 == 1 then n / 0x100 else n) % 256
  }

  function Decoded(v: seq<nat>): (s: seq<Byte>)
    ensures |s| == 6 * |v| / 8
  {
    seq(6 * |v| / 8, m requires 0 <= m => ByteOf(v, m))
  }

  lemma BytesOf(a: nat, b: nat, c: nat, d: nat)
    requires a < 64 && b < 64 && c < 64 && d < 64
    ensures var n := a * 0x40000 + b * 0x1000 + c * 0x40 + d;
            n / 0x10000 % 256 == a * 4 + b / 16 && n / 0x100 % 256 == b % 16 * 16 + c / 4 && n % 256 == c % 4 * 64 + d
  {
    var n := a * 0x40000 + b * 0x1000 + c * 0x40 + d;
    var b1, b0, c1, c0 := b / 16, b % 16, c / 4, c % 4;
    DivIs(n, 0x10000, a * 4 + b1, b0 * 0x1000 + c * 0x40 + d);
    var n1 := (a * 4 + b1) * 256 + b0 * 16 + c1;
    DivIs(n, 0x100, n1, c0 * 64 + d);
    DivIs(n1, 256, a * 4 + b1, b0 * 16 + c1);
  }

  /** `(accumulator << 6) | value` on 32 bits. The value 64, for a character outside the alphabet, falls on
      the lowest bit of the previous value. */
  function JoinSix(acc: nat, v: nat): nat {
    var x := acc * 64 % Word;
    if v < 64 then x + v else if acc % 2 == 1 then x else x + 64
  }

  /** For such a character the join sets bit 6 and leaves every other bit as the shift made it. */
  lemma JoinOutside(acc: nat)
    ensures var x, y := JoinSix(acc, 64), acc * 64 % Word;
            x % 64 == 0 && x / 64 % 2 == 1 && x / 128 == y / 128 && y % 64 == 0
  {
    var low := acc % 0x400_0000;
    DivIs(acc * 64, Word, acc / 0x400_0000, low * 64);
    var y, h := low * 64, low / 2;
    var x := h * 128 + 64;
    DivIs(x, 64, h * 2 + 1, 0);
    DivIs(x, 128, h, 64);
    DivIs(y, 64, low, 0);
    DivIs(y, 128, h, low % 2 * 64);
    DivIs(acc, 2, acc / 0x400_0000 * 0x200_0000 + h, low % 2);
  }

  /** `(accumulator >> bits) & 0xff`. */
  function LowEight(acc: nat, bits: nat): Byte {
    acc / Power2(bits) % 256
  }

  /** After `n` values: how many bits wait, and what they are. */
  ghost predicate Pending(v: seq<nat>, n: nat, acc: nat, bits: int)
    requires n <= |v|
  {
    && bits == (if n % 4 == 0 then 0 else 8 - 2 * (n % 4))
    && (n % 4 == 1 ==> acc % 64 == v[n-1])
    && (n % 4 == 2 ==> acc % 16 == v[n-1] % 16)
    && (n % 4 == 3 ==> acc % 4 == v[n-1] % 4)
  }

  lemma JoinTail(acc: nat, v: nat)
    requires v < 64
    ensures var x := JoinSix(acc, v);
            && x % 64 == v && x % 16 == v % 16 && x % 4 == v % 4
            && LowEight(x, 4) == acc % 64 * 4 + v / 16 && LowEight(x, 2) == acc % 16 * 16 + v / 4 && LowEight(x, 0) == acc % 4 * 64 + v
  {
    Powers();
    var x, low := JoinSix(acc, v), acc % 0x400_0000;
    DivIs(acc * 64, Word, acc / 0x400_0000, low * 64);
    assert x == low * 64 + v;
    DivIs(x, 64, low, v);
    DivIs(x, 16, low * 4 + v / 16, v % 16);
    DivIs(x, 4, low * 16 + v / 4, v % 4);
    DivIs(low * 4 + v / 16, 256, low / 64, low % 64 * 4 + v / 16);
    DivIs(low * 16 + v / 4, 256, low / 16, low % 16 * 16 + v / 4);
    DivIs(x, 256, low / 4, low % 4 * 64 + v);
    var h := acc / 0x400_0000;
    DivIs(acc, 64, h * 0x10_0000 + low / 64, low % 64);
    DivIs(acc, 16, h * 0x40_0000 + low / 16, low % 16);
    DivIs(acc, 4, h * 0x100_0000 + low / 4, low % 4);
  }

  /** One more value: the bits that wait are right. */
  lemma JoinPending(v: seq<nat>, n: nat, acc: nat)
    requires n < |v| && Valid(v)
    ensures Pending(v, n + 1, JoinSix(acc, v[n]), BitsAfter(n + 1))
  {
    JoinTail(acc, v[n]);
  }

  /** One more value: the byte that it completes is right. */
  lemma JoinByte(v: seq<nat>, n: nat, acc: nat, bits: int)
    requires n < |v| && n % 4 != 0 && Valid(v) && Pending(v, n, acc, bits)
    ensures bits >= 2 && LowEight(JoinSix(acc, v[n]), bits - 2) == ByteOf(v, n / 4 * 3 + n % 4 - 1)
  {
    JoinTail(acc, v[n]);
    var g, m := n / 4, n / 4 * 3 + n % 4 - 1;
    QuadBytes(v, m);
    if n % 4 == 1 {
      assert m / 3 == g && m % 3 == 0 && n == 4 * g + 1;
    } else if n % 4 == 2 {
      assert m / 3 == g && m % 3 == 1 && n == 4 * g + 2;
    } else {
      assert m / 3 == g && m % 3 == 2 && n == 4 * g + 3;
    }
  }

  lemma QuadBytes(v: seq<nat>, m: nat)
    requires Valid(v)
    ensures var g := m / 3;
            ByteOf(v, m) == if m % 3 == 0 then ValueAt(v, 4 * g) * 4 + ValueAt(v, 4 * g + 1) / 16
                            else if m % 3 == 1 then ValueAt(v, 4 * g + 1) % 16 * 16 + ValueAt(v, 4 * g + 2) / 4
                            else ValueAt(v, 4 * g + 2) % 4 * 64 + ValueAt(v, 4 * g + 3)
  {
    var g := m / 3;
    BytesOf(ValueAt(v, 4 * g), ValueAt(v, 4 * g + 1), ValueAt(v, 4 * g + 2), ValueAt(v, 4 * g + 3));
  }

  /** Values of a prefix are a prefix of the values. */
  lemma {:induction false} ValuesPrefix(t: string, i: nat)
    requires Ascii(t) && i <= |t|
    ensures Values(t[..i]) <= Values(t)
  {
    if i < |t| {
      ValuesPrefix(t[..|t|-1], i);
      assert t[..|t|-1][..i] == t[..i];
    } else {
      assert t[..i] == t;
    }
  }

  /** How many bytes are out after `n` values. */
  function Filled(n: nat): nat {
    n / 4 * 3 + (if n % 4 == 0 then 0 else n % 4 - 1)
  }

  function BitsAfter(n: nat): nat {
    if n % 4 == 0 then 0 else 8 - 2 * (n % 4)
  }

  lemma FilledStep(n: nat, total: nat)
    requires n < total
    ensures n % 4 == 0 ==> Filled(n + 1) == Filled(n) && BitsAfter(n + 1) == BitsAfter(n) + 6 == 6
    ensures n % 4 != 0 ==> Filled(n + 1) == Filled(n) + 1 && BitsAfter(n + 1) == BitsAfter(n) - 2
    ensures n % 4 != 0 ==> Filled(n) == n / 4 * 3 + n % 4 - 1 && Filled(n) < 6 * total / 8
  {
  }

  lemma FilledAll(n: nat)
    ensures Filled(n) == 6 * n / 8
  {
  }

  /** The next character of a text is the next value of it, or is skipped. */
  lemma ValuesNext(t: string, i: nat)
    requires Ascii(t) && i < |t|
    ensures var n := |Values(t[..i])|;
            if Skipped(t[i]) then |Values(t[..i+1])| == n
            else |Values(t[..i+1])| == n + 1 <= |Values(t)| && Values(t)[n] == Reverse(t[i])
  {
    ValuesPrefix(t, i + 1);
    assert t[..i+1] == t[..i] + [t[i]];
    assert (t[..i] + [t[i]])[..i] == t[..i];
  }

  /** One more value, in the terms of the loop. */
  lemma DecodeStep(v: seq<nat>, n: nat, acc: nat, bits: nat, index: nat)
    requires n < |v| && index == Filled(n) && bits == BitsAfter(n) && (Valid(v) ==> Pending(v, n, acc, bits))
    ensures Valid(v) ==> Pending(v, n + 1, JoinSix(acc, v[n]), BitsAfter(n + 1))
    ensures if bits + 6 < 8 then Filled(n + 1) == index && BitsAfter(n + 1) == bits + 6
            else && Filled(n + 1) == index + 1 && BitsAfter(n + 1) == bits - 2 && index < 6 * |v| / 8
                 && (Valid(v) ==> LowEight(JoinSix(acc, v[n]), bits - 2) == ByteOf(v, index))
  {
    FilledStep(n, |v|);
    if Valid(v) {
      JoinPending(v, n, acc);
      if n % 4 != 0 {
        JoinByte(v, n, acc, bits);
      }
    }
  }

  /** The first `n` bytes are those of the values. */
  ghost predicate Agrees(v: seq<nat>, s: seq<Byte>, n: nat) {
    n <= |s| && forall k :: 0 <= k < n ==> s[k] == ByteOf(v, k)
  }

  lemma AgreesAll(v: seq<nat>, s: seq<Byte>)
    requires 6 * |v| / 8 <= |s| && Agrees(v, s, 6 * |v| / 8)
    ensures s[..6 * |v| / 8] == Decoded(v)
  {
  }

  /** `buffer[index] = b`. */
  method Store(buffer: array<Byte>, index: nat, b: Byte, ghost v: seq<nat>)
    requires index < buffer.Length
    modifies buffer
    ensures Agrees(v, old(buffer[..]), index) && b == ByteOf(v, index) ==> Agrees(v, buffer[..], index + 1)
    ensures forall k :: 0 <= k < buffer.Length && k != index ==> buffer[k] == old(buffer[k])
  {
    buffer[index] := b;
  }

  /** `base64_decode`. The length of the buffer is never looked at, so the caller must supply
      enough room for all the values. */
  method Decode(t: string, buffer: array<Byte>) returns (index: nat)
    requires Ascii(t) && 6 * |Values(t)| / 8 <= buffer.Length
    modifies buffer
    ensures index == 6 * |Values(t)| / 8
    ensures Valid(Values(t)) ==> buffer[..index] == Decoded(Values(t))
    ensures forall k :: index <= k < buffer.Length ==> buffer[k] == old(buffer[k])
  {
    index := 0;
    var bits, acc: nat := 0, 0;
    ghost var v := Values(t);
    ghost var n := 0;
    for i := 0 to |t|
      invariant n == |Values(t[..i])| && n <= |v| && index == Filled(n) && bits == BitsAfter(n)
      invariant Valid(v) ==> Pending(v, n, acc, bits)
      invariant Valid(v) ==> Agrees(v, buffer[..], index)
      invariant forall k :: index <= k < buffer.Length ==> buffer[k] == old(buffer[k])
    {
      var c := t[i];
      ValuesNext(t, i);
      if !Skipped(c) {
        DecodeStep(v, n, acc, bits, index);
        acc := JoinSix(acc, Reverse(c));
        bits := bits + 6;
        if bits >= 8 {
          bits := bits - 8;
          Store(buffer, index, LowEight(acc, bits), v);
          index := index + 1;
        }
        n := n + 1;
      }
    }
    assert t[..|t|] == t;
    FilledAll(n);
    if Valid(v) {
      AgreesAll(v, buffer[..]);
    }
  }

  // ---------------------------------------------------------------- round trip

  predicate Space(c: char) {
    c == ' ' || '\t' <= c <= '\r'
  }

  /** The text without its white space. */
  function Squeezed(t: string): string {
    if t == [] then [] else Squeezed(t[..|t|-1]) + (if Space(t[|t|-1]) then [] else [t[|t|-1]])
  }

  /** White space does not change the values. */
  lemma {:induction false} ValuesSqueezed(t: string)
    requires Ascii(Squeezed(t))
    ensures Ascii(t) && Values(t) == Values(Squeezed(t))
  {
    if t != [] {
      var u, c := t[..|t|-1], t[|t|-1];
      if Space(c) {
        assert Squeezed(t) == Squeezed(u);
        ValuesSqueezed(u);
      } else {
        assert Squeezed(t)[..|Squeezed(t)|-1] == Squeezed(u);
        assert Squeezed(t)[|Squeezed(t)|-1] == c;
        ValuesSqueezed(u);
      }
      forall i | 0 <= i < |t| ensures Skipped(t[i]) || t[i] < 128 as char {
        assert i < |u| ==> t[i] == u[i];
      }
    }
  }

  /** Character `k` stands for sextet `k`, or is padding. */
  ghost predicate Stands(w: seq<nat>, c: char, k: nat) {
    if k < |w| then c < 128 as char && !Skipped(c) && Reverse(c) == w[k] else c == '='
  }

  function AllSextets(s: seq<Byte>): (w: seq<nat>)
    ensures SextetsOf(s, w, Sextets(|s|))
  {
    seq(Sextets(|s|), k requires 0 <= k => Sextet(s, k))
  }

  lemma EncodingChar(s: seq<Byte>, k: nat)
    requires k < EncodedLength(|s|)
    ensures Stands(AllSextets(s), Rfc4648(s)[k], k)
  {
    if k < Sextets(|s|) {
      TablesInverse(Sextet(s, k));
    }
  }

  lemma ValuesPush(t: string, c: char)
    requires Ascii(t) && (Skipped(c) || c < 128 as char)
    ensures Ascii(t + [c]) && Values(t + [c]) == Values(t) + (if Skipped(c) then [] else [Reverse(c)])
  {
    assert (t + [c])[..|t|] == t;
  }

  /** These are the first `n` sextets of `s`. */
  ghost predicate SextetsOf(s: seq<Byte>, v: seq<nat>, n: nat) {
    |v| == n && forall k :: 0 <= k < n ==> v[k] == Sextet(s, k)
  }

  /** The values of an encoding are its sextets: padding adds none. */
  lemma {:induction false} ValuesOfEncoding(w: seq<nat>, t: string)
    requires forall k :: 0 <= k < |t| ==> Stands(w, t[k], k)
    ensures Ascii(t) && Values(t) == w[..Least(|t|, |w|)]
  {
    if t != [] {
      var u, c := t[..|t|-1], t[|t|-1];
      ValuesOfEncoding(w, u);
      assert Stands(w, c, |t| - 1);
      assert t == u + [c];
      ValuesPush(u, c);
    }
  }

  function Least(a: nat, b: nat): nat {
    if a < b then a else b
  }

  /** Past the last sextet the padded group has only zero digits. */
  lemma SextetPadding(s: seq<Byte>, k: nat)
    requires Sextets(|s|) <= k < EncodedLength(|s|)
    ensures Sextet(s, k) == 0
  {
    var g := k / 4;
    DigitsOf(ByteAt(s, 3 * g), ByteAt(s, 3 * g + 1), ByteAt(s, 3 * g + 2));
    assert k == 4 * g + k % 4;
  }

  lemma DecodedByte(s: seq<Byte>, v: seq<nat>, m: nat)
    requires m < |s| && SextetsOf(s, v, Sextets(|s|))
    ensures ByteOf(v, m) == s[m]
  {
    var g := m / 3;
    assert m == 3 * g + m % 3 && 4 * g + 4 <= EncodedLength(|s|);
    QuadBack(s, v, g);
    if m % 3 == 0 {
      assert s[m] == ByteAt(s, 3 * g);
    } else if m % 3 == 1 {
      assert s[m] == ByteAt(s, 3 * g + 1);
    } else {
      assert s[m] == ByteAt(s, 3 * g + 2);
    }
  }

  lemma QuadBack(s: seq<Byte>, v: seq<nat>, g: nat)
    requires SextetsOf(s, v, Sextets(|s|)) && 4 * g + 4 <= EncodedLength(|s|)
    ensures var n := Quad(v, g);
            n / 0x10000 % 256 == ByteAt(s, 3 * g) && n / 0x100 % 256 == ByteAt(s, 3 * g + 1) && n % 256 == ByteAt(s, 3 * g + 2)
  {
    DigitBack(s, v, g, 0);
    DigitBack(s, v, g, 1);
    DigitBack(s, v, g, 2);
    DigitBack(s, v, g, 3);
    var a, b, c := ByteAt(s, 3 * g), ByteAt(s, 3 * g + 1), ByteAt(s, 3 * g + 2);
    Rejoin(a, b, c);
    BytesOf(a / 4, a % 4 * 16 + b / 16, b % 16 * 4 + c / 64, c % 64);
  }

  /** Value `j` of group `g`, spelled out. */
  lemma DigitBack(s: seq<Byte>, v: seq<nat>, g: nat, j: nat)
    requires SextetsOf(s, v, Sextets(|s|)) && j < 4 && 4 * g + 4 <= EncodedLength(|s|)
    ensures j == 0 ==> ValueAt(v, 4 * g) == ByteAt(s, 3 * g) / 4
    ensures j == 1 ==> ValueAt(v, 4 * g + 1) == ByteAt(s, 3 * g) % 4 * 16 + ByteAt(s, 3 * g + 1) / 16
    ensures j == 2 ==> ValueAt(v, 4 * g + 2) == ByteAt(s, 3 * g + 1) % 16 * 4 + ByteAt(s, 3 * g + 2) / 64
    ensures j == 3 ==> ValueAt(v, 4 * g + 3) == ByteAt(s, 3 * g + 2) % 64
  {
    var k := 4 * g + j;
    assert k / 4 == g && k % 4 == j;
    ValueSextet(s, v, k);
    DigitsOf(ByteAt(s, 3 * g), ByteAt(s, 3 * g + 1), ByteAt(s, 3 * g + 2));
  }

  lemma ValueSextet(s: seq<Byte>, v: seq<nat>, k: nat)
    requires SextetsOf(s, v, Sextets(|s|)) && k < EncodedLength(|s|)
    ensures ValueAt(v, k) == Sextet(s, k)
  {
    if k >= Sextets(|s|) {
      SextetPadding(s, k);
    }
  }

  lemma Rejoin(a: Byte, b: Byte, c: Byte)
    ensures a / 4 * 4 + (a % 4 * 16 + b / 16) / 16 == a
    ensures (a % 4 * 16 + b / 16) % 16 * 16 + (b % 16 * 4 + c / 64) / 4 == b
    ensures (b % 16 * 4 + c / 64) % 4 * 64 + c % 64 == c
  {
    DivIs(a % 4 * 16 + b / 16, 16, a % 4, b / 16);
    DivIs(b % 16 * 4 + c / 64, 4, b % 16, c / 64);
  }

  lemma Lengths(n: nat)
    ensures Sextets(n) <= EncodedLength(n) && 6 * Sextets(n) / 8 == n
  {
  }

  lemma EncodingValues(s: seq<Byte>)
    ensures Ascii(Rfc4648(s)) && SextetsOf(s, Values(Rfc4648(s)), Sextets(|s|))
  {
    var w, t := AllSextets(s), Rfc4648(s);
    forall k | 0 <= k < |t| ensures Stands(w, t[k], k) {
      EncodingChar(s, k);
    }
    ValuesOfEncoding(w, t);
    Lengths(|s|);
    assert w[..|w|] == w;
  }

  lemma DecodedSextets(s: seq<Byte>, v: seq<nat>)
    requires SextetsOf(s, v, Sextets(|s|))
    ensures Valid(v) && Decoded(v) == s
  {
    Lengths(|s|);
    forall m | 0 <= m < |s| ensures Decoded(v)[m] == s[m] {
      DecodedByte(s, v, m);
    }
  }

  /** Decoding an encoding, with white space inserted anywhere, gives back the bytes. */
  lemma RoundTrip(s: seq<Byte>, t: string)
    requires Squeezed(t) == Rfc4648(s)
    ensures Ascii(t) && Valid(Values(t)) && Decoded(Values(t)) == s
  {
    EncodingValues(s);
    ValuesSqueezed(t);
    DecodedSextets(s, Values(t));
  }

  /** So no two byte strings have the same encoding. */
  lemma EncodingInjective(a: seq<Byte>, b: seq<Byte>, t: string)
    requires Squeezed(t) == Rfc4648(a) == Rfc4648(b)
    ensures a == b
  {
    RoundTrip(a, t);
    RoundTrip(b, t);
  }

  /** Decoding into an array what was sent as the encoding of `s`, with white space inserted anywhere. */
  method Receive(t: string, ghost s: seq<Byte>) returns (r: seq<Byte>)
    requires Squeezed(t) == Rfc4648(s)
    ensures r == s
  {
    RoundTrip(s, t);
    var buffer := new Byte[6 * |Values(t)| / 8];
    var n := Decode(t, buffer);
    r := buffer[..n];
  }

  lemma {:induction false} SqueezedPlain(t: string)
    requires forall i :: 0 <= i < |t| ==> !Space(t[i])
    ensures Squeezed(t) == t
  {
    if t != [] {
      SqueezedPlain(t[..|t|-1]);
      assert t == t[..|t|-1] + [t[|t|-1]];
    }
  }

  /** `base64_encode` followed by `base64_decode` is the identity up to the length that the encoder takes. */
  method Transmit(s: seq<Byte>) returns (r: seq<Byte>)
    requires |s| <= 1024968
    ensures r == s
  {
    var t := Encode(s);
    forall i | 0 <= i < |t| ensures !Space(t[i]) {
      EncodingChar(s, i);
    }
    SqueezedPlain(t);
    r := Receive(t, s);
  }
}
