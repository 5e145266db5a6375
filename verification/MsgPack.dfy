/** The part of the MessagePack specification ("Formats" section) that DELILA
    uses: the int, float, bin and array families. A value may be written in any
    format that can hold it, so an encoding is a value together with the chosen
    format. `Decode*` is the complete decoder of each family; the lemmas say
    that it accepts exactly the encodings. */
module MsgPack {
  import opened Bytes

  // ---- Integers ----

  datatype IntFmt = PosFix | NegFix | U8 | U16 | U32 | U64 | I8 | I16 | I32 | I64

  datatype RawNum = RawNum(fmt: IntFmt, v: int)

  predicate Holds(n: RawNum) {
    match n.fmt
    case PosFix => 0 <= n.v < 0x80
    case NegFix => -32 <= n.v < 0
    case U8 => 0 <= n.v < 0x100
    case U16 => 0 <= n.v < 0x1_0000
    case U32 => 0 <= n.v < 0x1_0000_0000
    case U64 => 0 <= n.v < 0x1_0000_0000_0000_0000
    case I8 => -0x80 <= n.v < 0x80
    case I16 => -0x8000 <= n.v < 0x8000
    case I32 => -0x8000_0000 <= n.v < 0x8000_0000
    case I64 => -0x8000_0000_0000_0000 <= n.v < 0x8000_0000_0000_0000
  }

  /** An integer written in a format that holds it. */
  type Num = n: RawNum | Holds(n) witness RawNum(PosFix, 0)

  function EncNum(n: Num): (s: seq<byte>)
    ensures 1 <= |s|
  {
    match n.fmt
    case PosFix => [n.v]
    case NegFix => [n.v + 0x100]
    case U8 => [0xcc] + [n.v]
    case U16 => [0xcd] + Be16(n.v)
    case U32 => [0xce] + Be32(n.v)
    case U64 => [0xcf] + Be64(n.v)
    case I8 => [0xd0] + [Wrap(n.v, 0x100)]
    case I16 => [0xd1] + Be16(Wrap(n.v, 0x1_0000))
    case I32 => [0xd2] + Be32(Wrap(n.v, 0x1_0000_0000))
    case I64 => [0xd3] + Be64(Wrap(n.v, 0x1_0000_0000_0000_0000))
  }

  /** The shortest format that holds an unsigned value, as the serializer writes it. */
  function Compact(v: u64): (n: Num) {
    if v < 0x80 then RawNum(PosFix, v)
    else if v < 0x100 then RawNum(U8, v)
    else if v < 0x1_0000 then RawNum(U16, v)
    else if v < 0x1_0000_0000 then RawNum(U32, v)
    else RawNum(U64, v)
  }

  /** The same for a signed 16-bit value: unsigned formats for what is not negative. */
  function CompactI16(v: int): (n: Num)
    requires -0x8000 <= v < 0x8000
  {
    if v >= 0 then Compact(v)
    else if v >= -32 then RawNum(NegFix, v)
    else if v >= -0x80 then RawNum(I8, v)
    else RawNum(I16, v)
  }

  /** The integer at `p`, in any format, and the offset behind it. */
  function DecodeNum(d: seq<byte>, p: nat): (r: Option<(Num, nat)>) {
    if p >= |d| then None
    else
      var b: int := d[p];
      if b < 0x80 then Some((RawNum(PosFix, b), p + 1))
      else if b >= 0xe0 then Some((RawNum(NegFix, b - 0x100), p + 1))
      else if b == 0xcc && p + 2 <= |d| then Some((RawNum(U8, d[p + 1]), p + 2))
      else if b == 0xcd && p + 3 <= |d| then Some((RawNum(U16, GetBe16(d, p + 1)), p + 3))
      else if b == 0xce && p + 5 <= |d| then Some((RawNum(U32, GetBe32(d, p + 1)), p + 5))
      else if b == 0xcf && p + 9 <= |d| then Some((RawNum(U64, GetBe64(d, p + 1)), p + 9))
      else if b == 0xd0 && p + 2 <= |d| then Some((RawNum(I8, Unwrap(d[p + 1], 0x100)), p + 2))
      else if b == 0xd1 && p + 3 <= |d| then Some((RawNum(I16, Unwrap(GetBe16(d, p + 1), 0x1_0000)), p + 3))
      else if b == 0xd2 && p + 5 <= |d| then Some((RawNum(I32, Unwrap(GetBe32(d, p + 1), 0x1_0000_0000)), p + 5))
      else if b == 0xd3 && p + 9 <= |d| then
        Some((RawNum(I64, Unwrap(GetBe64(d, p + 1), 0x1_0000_0000_0000_0000)), p + 9))
      else None
  }

  lemma TagAt(d: seq<byte>, p: nat, tag: byte, body: seq<byte>)
    ensures At(d, p, [tag] + body) <==> p < |d| && d[p] == tag && At(d, p + 1, body)
  {
    AtAppend(d, p, [tag], body);
  }

  lemma NumCompleteUnsigned(d: seq<byte>, p: nat, n: Num)
    requires At(d, p, EncNum(n)) && n.fmt in {U8, U16, U32, U64}
    ensures DecodeNum(d, p) == Some((n, p + |EncNum(n)|))
  {
    match n.fmt
    case U8 => TagAt(d, p, 0xcc, [n.v]);
    case U16 => TagAt(d, p, 0xcd, Be16(n.v)); Be16At(d, p + 1, n.v);
    case U32 => TagAt(d, p, 0xce, Be32(n.v)); Be32At(d, p + 1, n.v);
    case U64 => TagAt(d, p, 0xcf, Be64(n.v)); Be64At(d, p + 1, n.v);
  }

  lemma NumCompleteSigned(d: seq<byte>, p: nat, n: Num)
    requires At(d, p, EncNum(n)) && n.fmt in {I8, I16, I32, I64}
    ensures DecodeNum(d, p) == Some((n, p + |EncNum(n)|))
  {
    match n.fmt
    case I8 => TagAt(d, p, 0xd0, [Wrap(n.v, 0x100)]);
    case I16 => TagAt(d, p, 0xd1, Be16(Wrap(n.v, 0x1_0000))); Be16At(d, p + 1, Wrap(n.v, 0x1_0000));
    case I32 => TagAt(d, p, 0xd2, Be32(Wrap(n.v, 0x1_0000_0000))); Be32At(d, p + 1, Wrap(n.v, 0x1_0000_0000));
    case I64 =>
      TagAt(d, p, 0xd3, Be64(Wrap(n.v, 0x1_0000_0000_0000_0000)));
      Be64At(d, p + 1, Wrap(n.v, 0x1_0000_0000_0000_0000));
  }

  lemma NumComplete(d: seq<byte>, p: nat, n: Num)
    requires At(d, p, EncNum(n))
    ensures DecodeNum(d, p) == Some((n, p + |EncNum(n)|))
  {
    match n.fmt
    case PosFix =>
    case NegFix =>
    case U8 | U16 | U32 | U64 => NumCompleteUnsigned(d, p, n);
    case I8 | I16 | I32 | I64 => NumCompleteSigned(d, p, n);
  }

  lemma NumSoundUnsigned(d: seq<byte>, p: nat)
    requires DecodeNum(d, p).Some? && DecodeNum(d, p).value.0.fmt in {U8, U16, U32, U64}
    ensures var (n, q) := DecodeNum(d, p).value; At(d, p, EncNum(n)) && q == p + |EncNum(n)|
  {
    hide GetBe16, GetBe32, GetBe64;
    var n := DecodeNum(d, p).value.0;
    match n.fmt
    case U8 => TagAt(d, p, 0xcc, [n.v]);
    case U16 => TagAt(d, p, 0xcd, Be16(n.v)); Be16At(d, p + 1, n.v);
    case U32 => TagAt(d, p, 0xce, Be32(n.v)); Be32At(d, p + 1, n.v);
    case U64 => TagAt(d, p, 0xcf, Be64(n.v)); Be64At(d, p + 1, n.v);
  }

  lemma NumSoundSigned(d: seq<byte>, p: nat)
    requires DecodeNum(d, p).Some? && DecodeNum(d, p).value.0.fmt in {I8, I16, I32, I64}
    ensures var (n, q) := DecodeNum(d, p).value; At(d, p, EncNum(n)) && q == p + |EncNum(n)|
  {
    hide GetBe16, GetBe32, GetBe64, Wrap, Unwrap;
    var n := DecodeNum(d, p).value.0;
    match n.fmt
    case I8 =>
      WrapUnwrap(d[p + 1], 0x100);
      TagAt(d, p, 0xd0, [Wrap(n.v, 0x100)]);
    case I16 =>
      var u := GetBe16(d, p + 1);
      WrapUnwrap(u, 0x1_0000);
      TagAt(d, p, 0xd1, Be16(u));
      Be16At(d, p + 1, u);
    case I32 =>
      var u := GetBe32(d, p + 1);
      WrapUnwrap(u, 0x1_0000_0000);
      TagAt(d, p, 0xd2, Be32(u));
      Be32At(d, p + 1, u);
    case I64 =>
      var u := GetBe64(d, p + 1);
      WrapUnwrap(u, 0x1_0000_0000_0000_0000);
      TagAt(d, p, 0xd3, Be64(u));
      Be64At(d, p + 1, u);
  }

  lemma NumSound(d: seq<byte>, p: nat)
    requires DecodeNum(d, p).Some?
    ensures var (n, q) := DecodeNum(d, p).value; At(d, p, EncNum(n)) && q == p + |EncNum(n)|
  {
    match DecodeNum(d, p).value.0.fmt
    case PosFix =>
    case NegFix =>
    case U8 | U16 | U32 | U64 => NumSoundUnsigned(d, p);
    case I8 | I16 | I32 | I64 => NumSoundSigned(d, p);
  }

  /** The decoder accepts exactly the encodings, whatever the format. */
  lemma NumExact(d: seq<byte>, p: nat, n: Num, q: nat)
    ensures DecodeNum(d, p) == Some((n, q)) <==> At(d, p, EncNum(n)) && q == p + |EncNum(n)|
  {
    if At(d, p, EncNum(n)) { NumComplete(d, p, n); }
    if DecodeNum(d, p).Some? { NumSound(d, p); }
  }

  // ---- Floats, kept as their IEEE 754 bit patterns ----

  datatype RawFloat = F32(bits: nat) | F64(bits: nat)

  type Float = f: RawFloat |
    (f.F32? ==> f.bits < 0x1_0000_0000) && (f.F64? ==> f.bits < 0x1_0000_0000_0000_0000)
    witness F32(0)

  function EncFloat(f: Float): (s: seq<byte>)
    ensures 1 <= |s|
  {
    match f
    case F32(bits) => [0xca] + Be32(bits)
    case F64(bits) => [0xcb] + Be64(bits)
  }

  function DecodeFloat(d: seq<byte>, p: nat): (r: Option<(Float, nat)>) {
    if p + 5 <= |d| && d[p] == 0xca then Some((F32(GetBe32(d, p + 1)), p + 5))
    else if p + 9 <= |d| && d[p] == 0xcb then Some((F64(GetBe64(d, p + 1)), p + 9))
    else None
  }

  lemma FloatExact(d: seq<byte>, p: nat, f: Float, q: nat)
    ensures DecodeFloat(d, p) == Some((f, q)) <==> At(d, p, EncFloat(f)) && q == p + |EncFloat(f)|
  {
    match f
    case F32(bits) => TagAt(d, p, 0xca, Be32(bits)); Be32At(d, p + 1, bits);
    case F64(bits) => TagAt(d, p, 0xcb, Be64(bits)); Be64At(d, p + 1, bits);
  }

  lemma FloatSound(d: seq<byte>, p: nat)
    requires DecodeFloat(d, p).Some?
    ensures var (f, q) := DecodeFloat(d, p).value; At(d, p, EncFloat(f)) && q == p + |EncFloat(f)|
  {
    var (f, q) := DecodeFloat(d, p).value;
    FloatExact(d, p, f, q);
  }

  // ---- Array headers ----

  datatype ArrFmt = FixArr | Arr16 | Arr32

  datatype RawHdr = RawHdr(fmt: ArrFmt, count: nat)

  predicate HoldsCount(h: RawHdr) {
    match h.fmt
    case FixArr => h.count < 0x10
    case Arr16 => h.count < 0x1_0000
    case Arr32 => h.count < 0x1_0000_0000
  }

  type Hdr = h: RawHdr | HoldsCount(h) witness RawHdr(FixArr, 0)

  function EncHdr(h: Hdr): (s: seq<byte>)
    ensures 1 <= |s|
  {
    match h.fmt
    case FixArr => [0x90 + h.count]
    case Arr16 => [0xdc] + Be16(h.count)
    case Arr32 => [0xdd] + Be32(h.count)
  }

  function DecodeHdr(d: seq<byte>, p: nat): (r: Option<(Hdr, nat)>) {
    if p >= |d| then None
    else
      var b: int := d[p];
      if 0x90 <= b < 0xa0 then Some((RawHdr(FixArr, b - 0x90), p + 1))
      else if b == 0xdc && p + 3 <= |d| then Some((RawHdr(Arr16, GetBe16(d, p + 1)), p + 3))
      else if b == 0xdd && p + 5 <= |d| then Some((RawHdr(Arr32, GetBe32(d, p + 1)), p + 5))
      else None
  }

  lemma HdrExact(d: seq<byte>, p: nat, h: Hdr, q: nat)
    ensures DecodeHdr(d, p) == Some((h, q)) <==> At(d, p, EncHdr(h)) && q == p + |EncHdr(h)|
  {
    match h.fmt
    case FixArr =>
    case Arr16 => TagAt(d, p, 0xdc, Be16(h.count)); Be16At(d, p + 1, h.count);
    case Arr32 => TagAt(d, p, 0xdd, Be32(h.count)); Be32At(d, p + 1, h.count);
  }

  // ---- Binary strings ----

  datatype BinFmt = Bin8 | Bin16 | Bin32

  datatype RawBin = RawBin(fmt: BinFmt, data: seq<byte>)

  predicate HoldsBin(b: RawBin) {
    match b.fmt
    case Bin8 => |b.data| < 0x100
    case Bin16 => |b.data| < 0x1_0000
    case Bin32 => |b.data| < 0x1_0000_0000
  }

  type Bin = b: RawBin | HoldsBin(b) witness RawBin(Bin8, [])

  function EncBinHead(fmt: BinFmt, n: nat): (s: seq<byte>)
    requires n < (match fmt case Bin8 => 0x100 case Bin16 => 0x1_0000 case Bin32 => 0x1_0000_0000)
    ensures 2 <= |s|
  {
    match fmt
    case Bin8 => [0xc4] + [n]
    case Bin16 => [0xc5] + Be16(n)
    case Bin32 => [0xc6] + Be32(n)
  }

  function EncBin(b: Bin): (s: seq<byte>)
    ensures 1 <= |s|
  {
    EncBinHead(b.fmt, |b.data|) + b.data
  }

  /** Format tag and length of a binary string: (format, length, offset of the data). */
  function BinHead(d: seq<byte>, p: nat): (r: Option<(BinFmt, nat, nat)>)
    ensures r.Some? ==> p < r.value.2 <= |d|
    ensures r.Some? ==>
      r.value.1 < (match r.value.0 case Bin8 => 0x100 case Bin16 => 0x1_0000 case Bin32 => 0x1_0000_0000)
  {
    if p >= |d| then None
    else if d[p] == 0xc4 && p + 2 <= |d| then Some((Bin8, d[p + 1], p + 2))
    else if d[p] == 0xc5 && p + 3 <= |d| then Some((Bin16, GetBe16(d, p + 1), p + 3))
    else if d[p] == 0xc6 && p + 5 <= |d| then Some((Bin32, GetBe32(d, p + 1), p + 5))
    else None
  }

  function DecodeBin(d: seq<byte>, p: nat): (r: Option<(Bin, nat)>) {
    var (fmt, n, at) :- BinHead(d, p);
    if at + n > |d| then None
    else
      assert BinHead(d, p).Some?;
      Some((RawBin(fmt, d[at..at + n]), at + n))
  }

  lemma BinHeadExact(d: seq<byte>, p: nat, fmt: BinFmt, n: nat, at: nat)
    requires n < (match fmt case Bin8 => 0x100 case Bin16 => 0x1_0000 case Bin32 => 0x1_0000_0000)
    ensures BinHead(d, p) == Some((fmt, n, at)) <==>
            At(d, p, EncBinHead(fmt, n)) && at == p + |EncBinHead(fmt, n)|
  {
    match fmt
    case Bin8 => TagAt(d, p, 0xc4, [n]);
    case Bin16 => TagAt(d, p, 0xc5, Be16(n)); Be16At(d, p + 1, n);
    case Bin32 => TagAt(d, p, 0xc6, Be32(n)); Be32At(d, p + 1, n);
  }

  lemma BinComplete(d: seq<byte>, p: nat, b: Bin)
    requires At(d, p, EncBin(b))
    ensures DecodeBin(d, p) == Some((b, p + |EncBin(b)|))
  {
    hide EncBinHead, BinHead;
    var head := EncBinHead(b.fmt, |b.data|);
    AtAppend(d, p, head, b.data);
    BinHeadExact(d, p, b.fmt, |b.data|, p + |head|);
  }

  lemma BinSound(d: seq<byte>, p: nat)
    requires DecodeBin(d, p).Some?
    ensures var (b, q) := DecodeBin(d, p).value; At(d, p, EncBin(b)) && q == p + |EncBin(b)|
  {
    var (fmt, n, at) := BinHead(d, p).value;
    BinHeadExact(d, p, fmt, n, at);
    AtAppend(d, p, EncBinHead(fmt, n), d[at..at + n]);
  }

  lemma BinTag(d: seq<byte>, p: nat)
    requires DecodeBin(d, p).Some?
    ensures p < |d| && d[p] in {0xc4, 0xc5, 0xc6}
  {
  }

  lemma HdrTag(d: seq<byte>, p: nat)
    requires DecodeHdr(d, p).Some?
    ensures p < |d| && d[p] !in {0xc4, 0xc5, 0xc6}
  {
  }

  lemma BinExact(d: seq<byte>, p: nat, b: Bin, q: nat)
    ensures DecodeBin(d, p) == Some((b, q)) <==> At(d, p, EncBin(b)) && q == p + |EncBin(b)|
  {
    if At(d, p, EncBin(b)) { BinComplete(d, p, b); }
    if DecodeBin(d, p).Some? { BinSound(d, p); }
  }
}
