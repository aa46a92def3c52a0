/** The log record codec of src/log/record.cpp over the byte buffer, and src/log/serialize_formatter.cpp.
    Strings are fixed arrays holding a terminated C string; only the string is transmitted. */
module Records {
  import Int32
  import Blocks
  type Byte = Blocks.Byte

  datatype Option<T> = None | Some(value: T)

  // ---------------------------------------------------------------- integers as bytes

  function Power256(n: nat): (p: nat)
    ensures p > 0
  {
    if n == 0 then 1 else 256 * Power256(n - 1)
  }

  /** The `n` low bytes of `v`, lowest first. */
  function Le(v: nat, n: nat): (s: seq<Byte>)
    ensures |s| == n
  {
    if n == 0 then [] else [v % 256] + Le(v / 256, n - 1)
  }

  function FromLe(s: seq<Byte>): nat {
    if s == [] then 0 else s[0] + 256 * FromLe(s[1..])
  }

  lemma {:induction false} LeRoundTrip(v: nat, n: nat)
    requires v < Power256(n)
    ensures FromLe(Le(v, n)) == v
  {
    if n > 0 {
      LeRoundTrip(v / 256, n - 1);
      assert Le(v, n)[1..] == Le(v / 256, n - 1);
    }
  }

  const Two63: int := 0x8000_0000_0000_0000
  const Two64: int := 0x1_0000_0000_0000_0000

  /** Two's complement of a 64-bit tick count. */
  function Unsigned64(t: int): nat
    requires -Two63 <= t < Two63
  {
    if t < 0 then t + Two64 else t
  }

  function Signed64(u: nat): int {
    if u < Two63 then u else u - Two64
  }

  lemma Powers()
    ensures Power256(2) == 0x1_0000 && Power256(4) == 0x1_0000_0000 && Power256(8) == Two64
  {
    assert Power256(2) == 256 * Power256(1) && Power256(3) == 256 * Power256(2) && Power256(4) == 256 * Power256(3);
    assert Power256(5) == 256 * Power256(4) && Power256(6) == 256 * Power256(5) && Power256(7) == 256 * Power256(6);
    assert Power256(8) == 256 * Power256(7);
  }

  // ---------------------------------------------------------------- C strings

  /** The bytes before the first terminator. */
  function CStr(a: seq<Byte>): (s: seq<Byte>)
    ensures s <= a && 0 !in s && (|s| < |a| ==> a[|s|] == 0)
  {
    if a == [] || a[0] == 0 then [] else [a[0]] + CStr(a[1..])
  }

  /** A string and its terminator determine the C string, whatever follows. */
  lemma {:induction false} CStrOf(s: seq<Byte>, rest: seq<Byte>)
    requires 0 !in s
    ensures CStr(s + [0] + rest) == s
  {
    var a := s + [0] + rest;
    if s != [] {
      CStrOf(s[1..], rest);
      assert a[1..] == s[1..] + [0] + rest;
      assert a[0] == s[0] && s[0] in s;
    }
  }

  // ---------------------------------------------------------------- records

  datatype Record = Record(
    tick: int, kind: nat, line: nat, tid: nat,
    tag: seq<Byte>, file: seq<Byte>, func: seq<Byte>, message: seq<Byte>)

  predicate Shaped(r: Record) {
    |r.tag| == 32 && |r.file| == 256 && |r.func| == 256 && |r.message| == 2048
  }

  /** A record in memory: fields in their ranges, strings terminated within their arrays. */
  predicate WellFormed(r: Record) {
    && Shaped(r) && -Two63 <= r.tick < Two63 && r.kind < Power256(4) && r.line < Power256(4) && r.tid < Power256(8)
    && |CStr(r.tag)| < 32 && |CStr(r.file)| < 256 && |CStr(r.func)| < 256 && |CStr(r.message)| < 2048
  }

  /** Equal as records: array bytes after the terminators do not matter. */
  predicate Same(a: Record, b: Record) {
    && a.tick == b.tick && a.kind == b.kind && a.line == b.line && a.tid == b.tid
    && CStr(a.tag) == CStr(b.tag) && CStr(a.file) == CStr(b.file) && CStr(a.func) == CStr(b.func) && CStr(a.message) == CStr(b.message)
  }

  function Header(r: Record): seq<Byte>
    requires WellFormed(r)
  {
    Le(Unsigned64(r.tick), 8) + Le(r.kind, 4) + Le(r.line, 4) + Le(r.tid, 8)
  }

  function Field(a: seq<Byte>): seq<Byte> {
    Le(|CStr(a)|, 2) + CStr(a)
  }

  /** What `operator<<` emits. */
  function Encode(r: Record): (s: seq<Byte>)
    requires WellFormed(r)
    ensures |s| <= 2620
  {
    Header(r) + Field(r.tag) + Field(r.file) + Field(r.func) + Field(r.message)
  }

  // ---------------------------------------------------------------- layout

  /** Two, four or eight bytes as a number, the lowest byte first. */
  function Number2(s: seq<Byte>, at: nat): nat
    requires at + 2 <= |s|
  {
    s[at] as int + 0x100 * (s[at + 1] as int)
  }

  function Number4(s: seq<Byte>, at: nat): nat
    requires at + 4 <= |s|
  {
    Number2(s, at) + 0x1_0000 * Number2(s, at + 2)
  }

  function Number8(s: seq<Byte>, at: nat): nat
    requires at + 8 <= |s|
  {
    Number4(s, at) + 0x1_0000_0000 * Number4(s, at + 4)
  }

  lemma FromLeTwo(s: seq<Byte>)
    requires |s| == 2
    ensures FromLe(s) == Number2(s, 0)
  {
    assert s[1..][1..] == [] && s[1..][0] == s[1];
    assert FromLe(s[1..]) == s[1];
  }

  lemma {:induction false} FromLeConcat(a: seq<Byte>, b: seq<Byte>)
    ensures FromLe(a + b) == FromLe(a) + Power256(|a|) * FromLe(b)
  {
    if a == [] {
      assert a + b == b;
    } else {
      FromLeConcat(a[1..], b);
      assert (a + b)[1..] == a[1..] + b;
      Distribute(Power256(|a| - 1), FromLe(b));
    }
  }

  lemma Distribute(p: nat, x: nat)
    ensures 256 * (p * x) == 256 * p * x
  {
  }

  lemma FromLeFour(s: seq<Byte>)
    requires |s| == 4
    ensures FromLe(s) == Number4(s, 0)
  {
    Powers();
    assert s == s[..2] + s[2..];
    FromLeConcat(s[..2], s[2..]);
    FromLeTwo(s[..2]);
    FromLeTwo(s[2..]);
  }

  lemma FromLeEight(s: seq<Byte>)
    requires |s| == 8
    ensures FromLe(s) == Number8(s, 0)
  {
    Powers();
    assert s == s[..4] + s[4..];
    FromLeConcat(s[..4], s[4..]);
    FromLeFour(s[..4]);
    FromLeFour(s[4..]);
  }

  lemma LeTwo(v: nat, s: seq<Byte>, at: nat)
    requires v < 0x1_0000 && at + 2 <= |s| && s[at..at + 2] == Le(v, 2)
    ensures Number2(s, at) == v
  {
    Powers();
    LeRoundTrip(v, 2);
    FromLeTwo(s[at..at + 2]);
  }

  lemma LeFour(v: nat, s: seq<Byte>, at: nat)
    requires v < 0x1_0000_0000 && at + 4 <= |s| && s[at..at + 4] == Le(v, 4)
    ensures Number4(s, at) == v
  {
    Powers();
    LeRoundTrip(v, 4);
    FromLeFour(s[at..at + 4]);
  }

  lemma LeEight(v: nat, s: seq<Byte>, at: nat)
    requires v < Two64 && at + 8 <= |s| && s[at..at + 8] == Le(v, 8)
    ensures Number8(s, at) == v
  {
    Powers();
    LeRoundTrip(v, 8);
    FromLeEight(s[at..at + 8]);
  }

  /** A string of the record at offset `at`: two bytes of length, then its bytes. */
  ghost predicate TextAt(s: seq<Byte>, at: nat, text: seq<Byte>) {
    at + 2 + |text| <= |s| && Number2(s, at) == |text| && s[at + 2..at + 2 + |text|] == text
  }

  lemma FieldText(s: seq<Byte>, a: seq<Byte>, n: nat)
    requires |CStr(a)| < 0x1_0000 && n + |Field(a)| <= |s| && s[n..n + |Field(a)|] == Field(a)
    ensures TextAt(s, n, CStr(a))
  {
    var f := s[n..n + |Field(a)|];
    assert s[n..n + 2] == f[..2] && f[..2] == Le(|CStr(a)|, 2);
    LeTwo(|CStr(a)|, s, n);
    assert s[n + 2..n + 2 + |CStr(a)|] == f[2..] && f[2..] == CStr(a);
  }

  /** The layout of an encoded record: the tick in bytes 0 to 7, the type in 8 to 11, the line in 12 to 15 and
      the thread in 16 to 23, lowest bytes first; from byte 24 on tag, file, function and message, each with
      its length. */
  lemma Layout(r: Record)
    requires WellFormed(r)
    ensures |Encode(r)| >= 24 && Number8(Encode(r), 0) == (if r.tick >= 0 then r.tick else r.tick + Two64)
    ensures Number4(Encode(r), 8) == r.kind && Number4(Encode(r), 12) == r.line && Number8(Encode(r), 16) == r.tid
    ensures TextsAt(Encode(r), 24, CStr(r.tag), CStr(r.file), CStr(r.func), CStr(r.message))
  {
    LayoutHeader(r);
    LayoutTexts(r);
  }

  lemma LayoutHeader(r: Record)
    requires WellFormed(r)
    ensures var s := Encode(r);
            && |s| >= 24 && Number8(s, 0) == Unsigned64(r.tick)
            && Number4(s, 8) == r.kind && Number4(s, 12) == r.line && Number8(s, 16) == r.tid
  {
    var s := Encode(r);
    Powers();
    HeaderSlices(r);
    LeEight(Unsigned64(r.tick), s, 0);
    LeFour(r.kind, s, 8);
    LeFour(r.line, s, 12);
    LeEight(r.tid, s, 16);
  }

  lemma HeaderSlices(r: Record)
    requires WellFormed(r)
    ensures var s := Encode(r);
            && |s| >= 24 && s[0..8] == Le(Unsigned64(r.tick), 8) && s[8..12] == Le(r.kind, 4)
            && s[12..16] == Le(r.line, 4) && s[16..24] == Le(r.tid, 8)
  {
    var s, h := Encode(r), Header(r);
    assert s[..24] == h;
    assert s[0..8] == h[0..8] && s[8..12] == h[8..12] && s[12..16] == h[12..16] && s[16..24] == h[16..24];
  }

  /** A part of a sequence, by what is before and after it. */
  lemma PartAt(pre: seq<Byte>, f: seq<Byte>, post: seq<Byte>, s: seq<Byte>)
    requires s == pre + f + post
    ensures |s| == |pre| + |f| + |post| && s[|pre|..|pre| + |f|] == f
  {
  }

  lemma TextPart(pre: seq<Byte>, a: seq<Byte>, post: seq<Byte>, s: seq<Byte>)
    requires s == pre + Field(a) + post && |CStr(a)| < 0x1_0000
    ensures TextAt(s, |pre|, CStr(a))
  {
    PartAt(pre, Field(a), post, s);
    FieldText(s, a, |pre|);
  }

  /** Four strings one after the other from offset `n` to the end. */
  ghost predicate TextsAt(s: seq<Byte>, n: nat, t: seq<Byte>, f: seq<Byte>, g: seq<Byte>, m: seq<Byte>) {
    var a := n + 2 + |t|;
    var b := a + 2 + |f|;
    var c := b + 2 + |g|;
    && |s| == c + 2 + |m|
    && TextAt(s, n, t) && TextAt(s, a, f) && TextAt(s, b, g) && TextAt(s, c, m)
  }

  lemma LayoutTexts(r: Record)
    requires WellFormed(r)
    ensures TextsAt(Encode(r), 24, CStr(r.tag), CStr(r.file), CStr(r.func), CStr(r.message))
  {
    HeaderLength(r);
    Texts(Header(r), r.tag, r.file, r.func, r.message);
  }

  lemma HeaderLength(r: Record)
    requires WellFormed(r)
    ensures |Header(r)| == 24
  {
  }

  lemma Texts(h: seq<Byte>, t: seq<Byte>, f: seq<Byte>, g: seq<Byte>, m: seq<Byte>)
    requires |CStr(t)| < 0x1_0000 && |CStr(f)| < 0x1_0000 && |CStr(g)| < 0x1_0000 && |CStr(m)| < 0x1_0000
    ensures TextsAt(h + Field(t) + Field(f) + Field(g) + Field(m), |h|, CStr(t), CStr(f), CStr(g), CStr(m))
  {
    var s := h + Field(t) + Field(f) + Field(g) + Field(m);
    Regrouped(h, Field(t), Field(f), Field(g), Field(m));
    TextParts(h, t, f, g, m, s);
    Lengths(h, t, f, g, m);
    TextsJoin(s, |h|, CStr(t), CStr(f), CStr(g), CStr(m),
              |h + Field(t)|, |h + Field(t) + Field(f)|, |h + Field(t) + Field(f) + Field(g)|);
  }

  lemma Lengths(h: seq<Byte>, t: seq<Byte>, f: seq<Byte>, g: seq<Byte>, m: seq<Byte>)
    ensures |h + Field(t)| == |h| + 2 + |CStr(t)|
    ensures |h + Field(t) + Field(f)| == |h| + 2 + |CStr(t)| + 2 + |CStr(f)|
    ensures |h + Field(t) + Field(f) + Field(g)| == |h| + 2 + |CStr(t)| + 2 + |CStr(f)| + 2 + |CStr(g)|
    ensures |h + Field(t) + Field(f) + Field(g) + Field(m)| == |h| + 2 + |CStr(t)| + 2 + |CStr(f)| + 2 + |CStr(g)| + 2 + |CStr(m)|
  {
  }

  lemma TextsJoin(s: seq<Byte>, n: nat, t: seq<Byte>, f: seq<Byte>, g: seq<Byte>, m: seq<Byte>, a: nat, b: nat, c: nat)
    requires a == n + 2 + |t| && b == a + 2 + |f| && c == b + 2 + |g| && |s| == c + 2 + |m|
    requires TextAt(s, n, t) && TextAt(s, a, f) && TextAt(s, b, g) && TextAt(s, c, m)
    ensures TextsAt(s, n, t, f, g, m)
  {
  }

  lemma TextParts(h: seq<Byte>, t: seq<Byte>, f: seq<Byte>, g: seq<Byte>, m: seq<Byte>, s: seq<Byte>)
    requires |CStr(t)| < 0x1_0000 && |CStr(f)| < 0x1_0000 && |CStr(g)| < 0x1_0000 && |CStr(m)| < 0x1_0000
    requires s == h + Field(t) + (Field(f) + Field(g) + Field(m)) == h + Field(t) + Field(f) + (Field(g) + Field(m))
    requires s == h + Field(t) + Field(f) + Field(g) + Field(m) == h + Field(t) + Field(f) + Field(g) + Field(m) + []
    ensures TextAt(s, |h|, CStr(t)) && TextAt(s, |h + Field(t)|, CStr(f))
    ensures TextAt(s, |h + Field(t) + Field(f)|, CStr(g)) && TextAt(s, |h + Field(t) + Field(f) + Field(g)|, CStr(m))
  {
    TextPart(h, t, Field(f) + Field(g) + Field(m), s);
    TextPart(h + Field(t), f, Field(g) + Field(m), s);
    TextPart(h + Field(t) + Field(f), g, Field(m), s);
    TextPart(h + Field(t) + Field(f) + Field(g), m, [], s);
  }

  lemma Regrouped(h: seq<Byte>, t: seq<Byte>, f: seq<Byte>, g: seq<Byte>, m: seq<Byte>)
    ensures h + t + (f + g + m) == h + t + f + g + m && h + t + f + (g + m) == h + t + f + g + m && h + t + f + g + m + [] == h + t + f + g + m
  {
  }

  // ---------------------------------------------------------------- parsing

  /** A length-prefixed string, read into an array that held `a`: `None` where the original would read past the
      data or write past the array. */
  function ParseField(s: seq<Byte>, a: seq<Byte>): (r: Option<(seq<Byte>, seq<Byte>)>)
    ensures r.Some? ==> |r.value.0| == |a| && |CStr(r.value.0)| < |a|
  {
    if |s| < 2 then None
    else
      var n := FromLe(s[..2]);
      if n >= 0x8000 || n >= |a| || |s| < 2 + n then None
      else Some((Filled(a, s[2..2 + n]), s[2 + n..]))
  }

  function Filled(a: seq<Byte>, text: seq<Byte>): (r: seq<Byte>)
    requires |text| < |a|
    ensures |r| == |a| && |CStr(r)| < |a|
  {
    var r := text + [0] + a[|text| + 1..];
    assert r[|text|] == 0;
    r
  }

  function ParseHeader(s: seq<Byte>, old': Record): Record
    requires |s| >= 24
  {
    old'.(tick := Signed64(FromLe(s[..8])), kind := FromLe(s[8..12]), line := FromLe(s[12..16]), tid := FromLe(s[16..24]))
  }

  /** `operator>>` into a record that held `old'`, with the bytes it leaves. */
  function Parse(s: seq<Byte>, old': Record): Option<(Record, seq<Byte>)> {
    if |s| < 24 then None
    else
      var tag := ParseField(s[24..], old'.tag);
      if tag.None? then None
      else
        var file := ParseField(tag.value.1, old'.file);
        if file.None? then None
        else
          var func := ParseField(file.value.1, old'.func);
          if func.None? then None
          else
            var message := ParseField(func.value.1, old'.message);
            if message.None? then None
            else Some((ParseHeader(s, old').(tag := tag.value.0, file := file.value.0, func := func.value.0, message := message.value.0),
                       message.value.1))
  }

  /** A field comes back as the same string, and the bytes after it are left. */
  lemma FieldRoundTrip(src: seq<Byte>, a: seq<Byte>, rest: seq<Byte>)
    requires |CStr(src)| < |a| <= 2048
    ensures var p := ParseField(Field(src) + rest, a); p.Some? && CStr(p.value.0) == CStr(src) && p.value.1 == rest
  {
    var s, text := Field(src) + rest, CStr(src);
    Powers();
    LeRoundTrip(|text|, 2);
    assert s[..2] == Le(|text|, 2);
    assert s[2..2 + |text|] == text;
    assert s[2 + |text|..] == rest;
    CStrOf(text, a[|text| + 1..]);
  }

  lemma HeaderRoundTrip(r: Record, old': Record, rest: seq<Byte>)
    requires WellFormed(r)
    ensures |Header(r)| == 24
    ensures var p := ParseHeader(Header(r) + rest, old'); p.tick == r.tick && p.kind == r.kind && p.line == r.line && p.tid == r.tid
  {
    var s := Header(r) + rest;
    Powers();
    LeRoundTrip(Unsigned64(r.tick), 8);
    LeRoundTrip(r.kind, 4);
    LeRoundTrip(r.line, 4);
    LeRoundTrip(r.tid, 8);
    assert s[..8] == Le(Unsigned64(r.tick), 8);
    assert s[8..12] == Le(r.kind, 4);
    assert s[12..16] == Le(r.line, 4);
    assert s[16..24] == Le(r.tid, 8);
  }

  lemma Regroup(a: seq<Byte>, b: seq<Byte>, c: seq<Byte>, d: seq<Byte>, e: seq<Byte>, rest: seq<Byte>)
    ensures a + b + c + d + e + rest == a + (b + (c + (d + (e + rest))))
  {
  }

  /** Decoding an encoded record gives an equal one and leaves the following bytes untouched, whatever the
      target record held before. */
  lemma RoundTrip(r: Record, old': Record, rest: seq<Byte>)
    requires WellFormed(r) && Shaped(old')
    ensures var p := Parse(Encode(r) + rest, old'); p.Some? && Same(p.value.0, r) && p.value.1 == rest
  {
    var s4 := Field(r.message) + rest;
    var s3 := Field(r.func) + s4;
    var s2 := Field(r.file) + s3;
    var s1 := Field(r.tag) + s2;
    var s := Encode(r) + rest;
    Regroup(Header(r), Field(r.tag), Field(r.file), Field(r.func), Field(r.message), rest);
    HeaderRoundTrip(r, old', s1);
    assert s[24..] == s1;
    FieldRoundTrip(r.tag, old'.tag, s2);
    FieldRoundTrip(r.file, old'.file, s3);
    FieldRoundTrip(r.func, old'.func, s4);
    FieldRoundTrip(r.message, old'.message, rest);
    Assemble(s, old', ParseField(s1, old'.tag).value, ParseField(s2, old'.file).value,
             ParseField(s3, old'.func).value, ParseField(s4, old'.message).value);
  }

  /** Two records with the same encoding, followed by anything, are the same record. */
  lemma EncodeInjective(a: Record, b: Record, restA: seq<Byte>, restB: seq<Byte>)
    requires WellFormed(a) && WellFormed(b) && Encode(a) + restA == Encode(b) + restB
    ensures Same(a, b) && restA == restB
  {
    RoundTrip(a, a, restA);
    RoundTrip(b, a, restB);
  }

  // ---------------------------------------------------------------- on a buffer

  function Content(m: Blocks.Memory, k: nat): seq<Byte>
    reads m
  {
    if k in m.buffers then Blocks.ContentOf(m.blocks, m.buffers[k]) else []
  }

  function Space(m: Blocks.Memory, k: nat): int
    reads m
  {
    if k in m.buffers then Blocks.CapacityOf(m.blocks, m.buffers[k].block) - m.buffers[k].write else 0
  }

  function Capacity(m: Blocks.Memory, k: nat): nat
    reads m
  {
    if k in m.buffers then Blocks.CapacityOf(m.blocks, m.buffers[k].block) else 0
  }

  /** A buffer whose capacity is safe for cursor moves. */
  ghost predicate Usable(m: Blocks.Memory, k: nat)
    reads m
  {
    m.Valid() && k in m.buffers && Blocks.CapacityOf(m.blocks, m.buffers[k].block) < Int32.Limit
  }

  /** What fits of `s` into `space` bytes. */
  function Fit(s: seq<Byte>, space: int): seq<Byte> {
    if space < 0 then [] else if |s| <= space then s else s[..space]
  }

  /** `s` has been appended to a buffer, as far as it fits. */
  predicate Emitted(content: seq<Byte>, space: int, content': seq<Byte>, space': int, s: seq<Byte>) {
    content' == content + Fit(s, space) && space' == space - |Fit(s, space)|
  }

  lemma FitAgain(s: seq<Byte>, t: seq<Byte>, space: int)
    ensures Fit(s, space) + Fit(t, space - |Fit(s, space)|) == Fit(s + t, space)
  {
  }

  lemma EmittedTwice(c: seq<Byte>, n: int, c1: seq<Byte>, n1: int, c2: seq<Byte>, n2: int, s: seq<Byte>, t: seq<Byte>)
    requires Emitted(c, n, c1, n1, s) && Emitted(c1, n1, c2, n2, t)
    ensures Emitted(c, n, c2, n2, s + t)
  {
    FitAgain(s, t, n);
    assert c + Fit(s, n) + Fit(t, n1) == c + (Fit(s, n) + Fit(t, n1));
  }

  /** `buf << obj`: the bytes of an object, as far as they fit. */
  method Emit(m: Blocks.Memory, k: nat, s: seq<Byte>)
    requires Usable(m, k)
    modifies m`blocks, m`buffers
    ensures Usable(m, k) && Emitted(old(Content(m, k)), old(Space(m, k)), Content(m, k), Space(m, k), s)
    ensures Capacity(m, k) == old(Capacity(m, k))
  {
    var _ := m.Write(k, s);
  }

  /** A string with its length. */
  method EmitField(m: Blocks.Memory, k: nat, a: seq<Byte>)
    requires Usable(m, k)
    modifies m`blocks, m`buffers
    ensures Usable(m, k) && Emitted(old(Content(m, k)), old(Space(m, k)), Content(m, k), Space(m, k), Field(a))
    ensures Capacity(m, k) == old(Capacity(m, k))
  {
    Emit(m, k, Le(|CStr(a)|, 2));
    ghost var c, n := Content(m, k), Space(m, k);
    Emit(m, k, CStr(a));
    EmittedTwice(old(Content(m, k)), old(Space(m, k)), c, n, Content(m, k), Space(m, k), Le(|CStr(a)|, 2), CStr(a));
  }

  method EmitHeader(m: Blocks.Memory, k: nat, r: Record)
    requires Usable(m, k) && WellFormed(r)
    modifies m`blocks, m`buffers
    ensures Usable(m, k) && Emitted(old(Content(m, k)), old(Space(m, k)), Content(m, k), Space(m, k), Header(r))
    ensures Capacity(m, k) == old(Capacity(m, k))
  {
    ghost var c, n := Content(m, k), Space(m, k);
    ghost var s1, s2 := Le(Unsigned64(r.tick), 8) + Le(r.kind, 4), Le(Unsigned64(r.tick), 8) + Le(r.kind, 4) + Le(r.line, 4);
    Emit(m, k, Le(Unsigned64(r.tick), 8));
    ghost var c1, n1 := Content(m, k), Space(m, k);
    Emit(m, k, Le(r.kind, 4));
    ghost var c2, n2 := Content(m, k), Space(m, k);
    EmittedTwice(c, n, c1, n1, c2, n2, Le(Unsigned64(r.tick), 8), Le(r.kind, 4));
    Emit(m, k, Le(r.line, 4));
    ghost var c3, n3 := Content(m, k), Space(m, k);
    EmittedTwice(c, n, c2, n2, c3, n3, s1, Le(r.line, 4));
    Emit(m, k, Le(r.tid, 8));
    EmittedTwice(c, n, c3, n3, Content(m, k), Space(m, k), s2, Le(r.tid, 8));
  }

  /** `operator<<`: the encoding, or the prefix of it that fits. */
  method WriteRecord(m: Blocks.Memory, k: nat, r: Record)
    requires Usable(m, k) && WellFormed(r)
    modifies m`blocks, m`buffers
    ensures Usable(m, k) && Emitted(old(Content(m, k)), old(Space(m, k)), Content(m, k), Space(m, k), Encode(r))
    ensures Capacity(m, k) == old(Capacity(m, k))
  {
    ghost var c, n := Content(m, k), Space(m, k);
    EmitHeader(m, k, r);
    ghost var c1, n1 := Content(m, k), Space(m, k);
    EmitField(m, k, r.tag);
    ghost var c2, n2 := Content(m, k), Space(m, k);
    EmittedTwice(c, n, c1, n1, c2, n2, Header(r), Field(r.tag));
    EmitField(m, k, r.file);
    ghost var c3, n3 := Content(m, k), Space(m, k);
    EmittedTwice(c, n, c2, n2, c3, n3, Header(r) + Field(r.tag), Field(r.file));
    EmitField(m, k, r.func);
    ghost var c4, n4 := Content(m, k), Space(m, k);
    EmittedTwice(c, n, c3, n3, c4, n4, Header(r) + Field(r.tag) + Field(r.file), Field(r.func));
    EmitField(m, k, r.message);
    EmittedTwice(c, n, c4, n4, Content(m, k), Space(m, k), Header(r) + Field(r.tag) + Field(r.file) + Field(r.func), Field(r.message));
  }

  /** `serialize_formatter::format`: after `reserve(8192)` a buffer that was cleared always has
      room for the whole record. */
  method Format(m: Blocks.Memory, k: nat, r: Record)
    requires m.Quiet() && Usable(m, k) && WellFormed(r)
    modifies m
    ensures Usable(m, k) && Capacity(m, k) >= 8192
    ensures old(m.buffers[k].read) == 0 && old(m.buffers[k].write) == 0 ==> Content(m, k) == Encode(r)
  {
    m.Reserve(k, 8192);
    ghost var c, n := Content(m, k), Space(m, k);
    WriteRecord(m, k, r);
    if old(m.buffers[k].read) == 0 && old(m.buffers[k].write) == 0 {
      assert c == [] && n >= 8192;
    }
  }

  // ---------------------------------------------------------------- reading back

  /** `buf >> obj` where the buffer has the bytes. */
  method Consume(m: Blocks.Memory, k: nat, n: nat) returns (s: seq<Byte>)
    requires Usable(m, k) && n <= |Content(m, k)|
    modifies m`buffers
    ensures Usable(m, k) && s == old(Content(m, k))[..n] && Content(m, k) == old(Content(m, k))[n..]
  {
    Blocks.ContentLength(m.Now(), m.nextBlock, k);
    s := m.Read(k, n);
    assert (s + Content(m, k))[..n] == s && (s + Content(m, k))[n..] == Content(m, k);
  }

  method ReadField(m: Blocks.Memory, k: nat, a: seq<Byte>) returns (a': seq<Byte>)
    requires Usable(m, k) && ParseField(Content(m, k), a).Some?
    modifies m`buffers
    ensures Usable(m, k) && ParseField(old(Content(m, k)), a) == Some((a', Content(m, k)))
  {
    ghost var s := Content(m, k);
    var prefix := Consume(m, k, 2);
    var n := FromLe(prefix);
    var text := Consume(m, k, n);
    assert text == s[2..2 + n] && Content(m, k) == s[2 + n..];
    a' := text + [0] + a[n + 1..];
  }

  /** `operator>>`, wherever it stays inside the data and the arrays. */
  method ReadRecord(m: Blocks.Memory, k: nat, old': Record) returns (r: Record)
    requires Usable(m, k) && Parse(Content(m, k), old').Some?
    modifies m`buffers
    ensures Usable(m, k) && Parse(old(Content(m, k)), old') == Some((r, Content(m, k)))
  {
    ghost var s := Content(m, k);
    var header := Consume(m, k, 24);
    HeaderOnly(s, old');
    r := ParseHeader(header, old');
    var tag := ReadField(m, k, old'.tag);
    ghost var s2 := Content(m, k);
    var file := ReadField(m, k, old'.file);
    ghost var s3 := Content(m, k);
    var func := ReadField(m, k, old'.func);
    ghost var s4 := Content(m, k);
    var message := ReadField(m, k, old'.message);
    Assemble(s, old', (tag, s2), (file, s3), (func, s4), (message, Content(m, k)));
    r := r.(tag := tag, file := file, func := func, message := message);
  }

  lemma HeaderOnly(s: seq<Byte>, old': Record)
    requires |s| >= 24
    ensures ParseHeader(s[..24], old') == ParseHeader(s, old')
  {
    var h := s[..24];
    assert h[..8] == s[..8] && h[8..12] == s[8..12] && h[12..16] == s[12..16] && h[16..24] == s[16..24];
  }

  lemma Assemble(s: seq<Byte>, old': Record, tag: (seq<Byte>, seq<Byte>), file: (seq<Byte>, seq<Byte>),
                 func: (seq<Byte>, seq<Byte>), message: (seq<Byte>, seq<Byte>))
    requires |s| >= 24 && ParseField(s[24..], old'.tag) == Some(tag) && ParseField(tag.1, old'.file) == Some(file)
    requires ParseField(file.1, old'.func) == Some(func) && ParseField(func.1, old'.message) == Some(message)
    ensures Parse(s, old') == Some((ParseHeader(s, old').(tag := tag.0, file := file.0, func := func.0, message := message.0), message.1))
  {
  }

  /** A record formatted into a cleared buffer and read back is the same record, and the buffer is empty again. */
  method Transmit(m: Blocks.Memory, k: nat, r: Record, into: Record) returns (out: Record)
    requires m.Quiet() && Usable(m, k) && WellFormed(r) && Shaped(into)
    modifies m
    ensures Usable(m, k) && Same(out, r) && Content(m, k) == []
  {
    m.Clear(k);
    Format(m, k, r);
    RoundTrip(r, into, []);
    assert Encode(r) + [] == Encode(r);
    out := ReadRecord(m, k, into);
  }
}
