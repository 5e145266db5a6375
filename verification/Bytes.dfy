/** Byte strings, fixed-width integers and positions inside a buffer.
    Every wire format below is stated with `At`: "this encoding stands in the
    buffer at this offset". */
module Bytes {

  type byte = x: int | 0 <= x < 0x100
  type u16 = x: int | 0 <= x < 0x1_0000
  type u32 = x: int | 0 <= x < 0x1_0000_0000
  type u64 = x: int | 0 <= x < 0x1_0000_0000_0000_0000

  datatype Option<+T> = None | Some(value: T) {
    predicate IsFailure() { None? }
    function PropagateFailure<U>(): Option<U> requires None? { None }
    function Extract(): T requires Some? { value }
  }

  lemma Assoc<T>(a: seq<T>, b: seq<T>, c: seq<T>)
    ensures (a + b) + c == a + (b + c)
  {
  }

  /** The bytes of an ASCII text. */
  function Ascii(s: string): (r: seq<byte>)
    ensures |r| == |s|
  {
    seq(|s|, i requires 0 <= i < |s| => s[i] as int % 0x80)
  }

  /** `s` stands in `d` at offset `p`. */
  predicate At(d: seq<byte>, p: nat, s: seq<byte>) {
    p + |s| <= |d| && d[p..p + |s|] == s
  }

  lemma AtAppend(d: seq<byte>, p: nat, a: seq<byte>, b: seq<byte>)
    ensures At(d, p, a + b) <==> At(d, p, a) && At(d, p + |a|, b)
  {
    if At(d, p, a + b) {
      assert d[p..p + |a|] == d[p..p + |a + b|][..|a|] == a;
      assert d[p + |a|..p + |a| + |b|] == d[p..p + |a + b|][|a|..] == b;
    }
    if At(d, p, a) && At(d, p + |a|, b) {
      assert d[p..p + |a + b|] == d[p..p + |a|] + d[p + |a|..p + |a| + |b|];
    }
  }

  /** The same bytes seen in a longer buffer. */
  lemma AtFrame(pre: seq<byte>, s: seq<byte>, post: seq<byte>)
    ensures At(pre + s + post, |pre|, s)
  {
  }

  // ---- Big-endian integers (MessagePack) ----

  function Be16(v: nat): (s: seq<byte>)
    requires v < 0x1_0000
  {
    [v / 0x100, v % 0x100]
  }

  function Be32(v: nat): (s: seq<byte>)
    requires v < 0x1_0000_0000
  {
    Be16(v / 0x1_0000) + Be16(v % 0x1_0000)
  }

  function Be64(v: nat): (s: seq<byte>)
    requires v < 0x1_0000_0000_0000_0000
  {
    Be32(v / 0x1_0000_0000) + Be32(v % 0x1_0000_0000)
  }

  function GetBe16(d: seq<byte>, p: nat): (v: nat)
    requires p + 2 <= |d|
    ensures v < 0x1_0000
  {
    (d[p] as int) * 0x100 + (d[p + 1] as int)
  }

  function GetBe32(d: seq<byte>, p: nat): (v: nat)
    requires p + 4 <= |d|
    ensures v < 0x1_0000_0000
  {
    GetBe16(d, p) * 0x1_0000 + GetBe16(d, p + 2)
  }

  function GetBe64(d: seq<byte>, p: nat): (v: nat)
    requires p + 8 <= |d|
    ensures v < 0x1_0000_0000_0000_0000
  {
    GetBe32(d, p) * 0x1_0000_0000 + GetBe32(d, p + 4)
  }

  lemma Be16At(d: seq<byte>, p: nat, v: nat)
    requires v < 0x1_0000
    ensures At(d, p, Be16(v)) <==> p + 2 <= |d| && GetBe16(d, p) == v
  {
    if p + 2 <= |d| {
      assert d[p..p + 2] == [d[p], d[p + 1]];
    }
  }

  lemma Be32At(d: seq<byte>, p: nat, v: nat)
    requires v < 0x1_0000_0000
    ensures At(d, p, Be32(v)) <==> p + 4 <= |d| && GetBe32(d, p) == v
  {
    AtAppend(d, p, Be16(v / 0x1_0000), Be16(v % 0x1_0000));
    Be16At(d, p, v / 0x1_0000);
    Be16At(d, p + 2, v % 0x1_0000);
  }

  lemma Be64At(d: seq<byte>, p: nat, v: nat)
    requires v < 0x1_0000_0000_0000_0000
    ensures At(d, p, Be64(v)) <==> p + 8 <= |d| && GetBe64(d, p) == v
  {
    AtAppend(d, p, Be32(v / 0x1_0000_0000), Be32(v % 0x1_0000_0000));
    Be32At(d, p, v / 0x1_0000_0000);
    Be32At(d, p + 4, v % 0x1_0000_0000);
  }

  // ---- Little-endian integers (block lengths, DIG1 words, dump records) ----

  function Le16(v: nat): (s: seq<byte>)
    requires v < 0x1_0000
  {
    [v % 0x100, v / 0x100]
  }

  function Le32(v: nat): (s: seq<byte>)
    requires v < 0x1_0000_0000
  {
    Le16(v % 0x1_0000) + Le16(v / 0x1_0000)
  }

  function Le64(v: nat): (s: seq<byte>)
    requires v < 0x1_0000_0000_0000_0000
  {
    Le32(v % 0x1_0000_0000) + Le32(v / 0x1_0000_0000)
  }

  function GetLe16(d: seq<byte>, p: nat): (v: nat)
    requires p + 2 <= |d|
    ensures v < 0x1_0000
  {
    (d[p] as int) + (d[p + 1] as int) * 0x100
  }

  function GetLe32(d: seq<byte>, p: nat): (v: nat)
    requires p + 4 <= |d|
    ensures v < 0x1_0000_0000
  {
    GetLe16(d, p) + GetLe16(d, p + 2) * 0x1_0000
  }

  function GetLe64(d: seq<byte>, p: nat): (v: nat)
    requires p + 8 <= |d|
    ensures v < 0x1_0000_0000_0000_0000
  {
    GetLe32(d, p) + GetLe32(d, p + 4) * 0x1_0000_0000
  }

  lemma Le16At(d: seq<byte>, p: nat, v: nat)
    requires v < 0x1_0000
    ensures At(d, p, Le16(v)) <==> p + 2 <= |d| && GetLe16(d, p) == v
  {
    if p + 2 <= |d| {
      assert d[p..p + 2] == [d[p], d[p + 1]];
    }
  }

  lemma Le32At(d: seq<byte>, p: nat, v: nat)
    requires v < 0x1_0000_0000
    ensures At(d, p, Le32(v)) <==> p + 4 <= |d| && GetLe32(d, p) == v
  {
    AtAppend(d, p, Le16(v % 0x1_0000), Le16(v / 0x1_0000));
    Le16At(d, p, v % 0x1_0000);
    Le16At(d, p + 2, v / 0x1_0000);
  }

  lemma Le64At(d: seq<byte>, p: nat, v: nat)
    requires v < 0x1_0000_0000_0000_0000
    ensures At(d, p, Le64(v)) <==> p + 8 <= |d| && GetLe64(d, p) == v
  {
    AtAppend(d, p, Le32(v % 0x1_0000_0000), Le32(v / 0x1_0000_0000));
    Le32At(d, p, v % 0x1_0000_0000);
    Le32At(d, p + 4, v / 0x1_0000_0000);
  }

  // ---- Two's complement ----

  /** The unsigned representative of a signed value modulo `m`. */
  function Wrap(v: int, m: nat): (u: nat)
    requires 0 < m && 0 <= v + m && v < m
    ensures u < m
  {
    if v < 0 then v + m else v
  }

  /** The signed value whose representative is `u`. */
  function Unwrap(u: nat, m: nat): (v: int)
    requires u < m
  {
    if 2 * u >= m then u - m else u
  }

  lemma WrapUnwrap(u: nat, m: nat)
    requires u < m
    ensures 0 <= Unwrap(u, m) + m && Unwrap(u, m) < m && Wrap(Unwrap(u, m), m) == u
  {
  }
}
