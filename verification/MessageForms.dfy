/** The complete message decoder, against which the header fast path is stated,
    takes exactly the encodings of messages: each header, name and number in any
    MessagePack format that holds it. */
module MessageForms {
  import opened Bytes
  import opened MsgPack
  import opened MessageHeader

  datatype MapFmt = FixMap | Map16 | Map32

  datatype StrFmt = FixStr | Str8 | Str16 | Str32

  /** How a message is written: one choice for each of its parts. */
  datatype Forms = Forms(map_: MapFmt, str: StrFmt, arr: ArrFmt, nums: seq<Num>)

  function KeyOf(m: Message): (key: seq<byte>)
    ensures |key| < 0x20
  {
    match m
    case Data(_, _, _, _) => DATA
    case EndOfStream(_, _) => END_OF_STREAM
    case Heartbeat(_, _, _) => HEARTBEAT
  }

  function CountOf(m: Message): (n: nat) { if m.Data? then 4 else if m.EndOfStream? then 2 else 3 }

  function ValuesOf(m: Message): (vs: seq<nat>) {
    match m
    case Data(id, sequence, ts, _) => [id, sequence, ts]
    case EndOfStream(id, run) => [id, run]
    case Heartbeat(id, ts, counter) => [id, ts, counter]
  }

  /** What follows the numbers: the events of a batch. */
  function TailOf(m: Message): (s: seq<byte>) { if m.Data? then m.payload else [] }

  predicate FormsOk(f: Forms, m: Message) {
    && HoldsCount(RawHdr(f.arr, CountOf(m)))
    && |f.nums| == |ValuesOf(m)| && forall i :: 0 <= i < |f.nums| ==> f.nums[i].v == ValuesOf(m)[i]
  }

  function EncMap(f: MapFmt): (s: seq<byte>) {
    match f
    case FixMap => [0x81]
    case Map16 => [0xde] + Be16(1)
    case Map32 => [0xdf] + Be32(1)
  }

  function StrTag(f: StrFmt, n: nat): (s: seq<byte>)
    requires n < 0x20
  {
    match f
    case FixStr => [0xa0 + n]
    case Str8 => [0xd9, n]
    case Str16 => [0xda] + Be16(n)
    case Str32 => [0xdb] + Be32(n)
  }

  function EncValues(ns: seq<Num>): (s: seq<byte>) {
    if ns == [] then [] else EncNum(ns[0]) + EncValues(ns[1..])
  }

  function EncAs(m: Message, f: Forms): (s: seq<byte>)
    requires FormsOk(f, m)
  {
    EncMap(f.map_) + (StrTag(f.str, |KeyOf(m)|) + (KeyOf(m) +
      (EncHdr(RawHdr(f.arr, CountOf(m))) + (EncValues(f.nums) + TailOf(m)))))
  }

  /** `d` is the message written in the formats `f`; behind a message without events
      anything may follow. */
  predicate Encodes(d: seq<byte>, m: Message, f: Forms) {
    && FormsOk(f, m) && At(d, 0, EncAs(m, f))
    && (m.Data? ==> |d| == |EncAs(m, f)|)
  }

  // ---- The parts ----

  lemma MapComplete(d: seq<byte>, f: MapFmt)
    requires At(d, 0, EncMap(f))
    ensures OneEntryMap(d) == Some(|EncMap(f)|)
  {
    TagByte(d, 0, EncMap(f));
    match f
    case FixMap =>
    case Map16 => AtAppend(d, 0, [0xde], Be16(1)); Be16At(d, 1, 1);
    case Map32 => AtAppend(d, 0, [0xdf], Be32(1)); Be32At(d, 1, 1);
  }

  lemma TagByte(d: seq<byte>, p: nat, s: seq<byte>)
    requires s != [] && At(d, p, s)
    ensures p < |d| && d[p] == s[0]
  {
    assert d[p..p + |s|][0] == s[0];
  }

  lemma OneByte(d: seq<byte>, p: nat)
    requires p < |d|
    ensures At(d, p, [d[p]])
  {
  }

  lemma MapSound(d: seq<byte>) returns (f: MapFmt)
    requires OneEntryMap(d).Some?
    ensures At(d, 0, EncMap(f)) && OneEntryMap(d) == Some(|EncMap(f)|)
  {
    OneByte(d, 0);
    if d[0] == 0x81 {
      f := FixMap;
    } else if |d| >= 3 && d[0] == 0xde && GetBe16(d, 1) == 1 {
      f := Map16;
      AtAppend(d, 0, [0xde], Be16(1));
      Be16Back(d, 1);
    } else {
      f := Map32;
      AtAppend(d, 0, [0xdf], Be32(1));
      Be32Back(d, 1);
    }
  }

  lemma Be16Back(d: seq<byte>, p: nat)
    requires p + 2 <= |d|
    ensures At(d, p, Be16(GetBe16(d, p)))
  {
    Be16At(d, p, GetBe16(d, p));
  }

  lemma Be32Back(d: seq<byte>, p: nat)
    requires p + 4 <= |d|
    ensures At(d, p, Be32(GetBe32(d, p)))
  {
    Be32At(d, p, GetBe32(d, p));
  }

  lemma StrComplete(d: seq<byte>, p: nat, f: StrFmt, n: nat)
    requires n < 0x20 && At(d, p, StrTag(f, n))
    ensures StrHead(d, p) == Some((n, p + |StrTag(f, n)|))
  {
    TagByte(d, p, StrTag(f, n));
    match f
    case FixStr =>
    case Str8 => assert d[p..p + 2][1] == n;
    case Str16 => AtAppend(d, p, [0xda], Be16(n)); Be16At(d, p + 1, n);
    case Str32 => AtAppend(d, p, [0xdb], Be32(n)); Be32At(d, p + 1, n);
  }

  lemma StrSound(d: seq<byte>, p: nat) returns (f: StrFmt)
    requires StrHead(d, p).Some? && StrHead(d, p).value.0 < 0x20
    ensures var (n, q) := StrHead(d, p).value; At(d, p, StrTag(f, n)) && q == p + |StrTag(f, n)|
  {
    var n := StrHead(d, p).value.0;
    OneByte(d, p);
    if 0xa0 <= d[p] <= 0xbf {
      f := FixStr;
    } else if d[p] == 0xd9 && p + 2 <= |d| {
      f := Str8;
      assert d[p..p + 2] == [0xd9, n];
    } else if d[p] == 0xda && p + 3 <= |d| {
      f := Str16;
      Be16Back(d, p + 1);
      AtAppend(d, p, [0xda], Be16(n));
    } else {
      f := Str32;
      Be32Back(d, p + 1);
      AtAppend(d, p, [0xdb], Be32(n));
    }
  }

  lemma UintComplete(d: seq<byte>, p: nat, n: Num, limit: nat)
    requires At(d, p, EncNum(n)) && 0 <= n.v < limit
    ensures UintField(d, p, limit) == Some((n.v as nat, p + |EncNum(n)|))
  {
    hide DecodeNum, EncNum;
    NumExact(d, p, n, p + |EncNum(n)|);
  }

  lemma UintSound(d: seq<byte>, p: nat, limit: nat) returns (n: Num)
    requires UintField(d, p, limit).Some?
    ensures At(d, p, EncNum(n)) && n.v == UintField(d, p, limit).value.0
    ensures UintField(d, p, limit).value.1 == p + |EncNum(n)|
  {
    hide DecodeNum, EncNum;
    n := DecodeNum(d, p).value.0;
    NumExact(d, p, n, DecodeNum(d, p).value.1);
  }

  // ---- The whole message ----

  lemma ValuesTwo(a: Num, b: Num)
    ensures EncValues([a, b]) == EncNum(a) + EncNum(b)
  {
    hide EncNum;
    assert [a, b][1..] == [b] && [b][1..] == [];
    assert EncValues([b]) == EncNum(b) + [];
    assert EncValues([a, b]) == EncNum(a) + EncValues([b]);
  }

  lemma ValuesThree(a: Num, b: Num, c: Num)
    ensures EncValues([a, b, c]) == EncNum(a) + (EncNum(b) + EncNum(c))
  {
    hide EncNum;
    assert [a, b, c][1..] == [b, c];
    ValuesTwo(b, c);
  }

  /** The numbers and what follows them stand at `p`. */
  predicate FieldsAt(d: seq<byte>, p: nat, m: Message, f: Forms)
    requires FormsOk(f, m)
  {
    && At(d, p, EncHdr(RawHdr(f.arr, CountOf(m))))
    && At(d, p + |EncHdr(RawHdr(f.arr, CountOf(m)))|, EncValues(f.nums))
    && At(d, p + |EncHdr(RawHdr(f.arr, CountOf(m)))| + |EncValues(f.nums)|, TailOf(m))
    && (m.Data? ==> |d| == p + |EncHdr(RawHdr(f.arr, CountOf(m)))| + |EncValues(f.nums)| + |m.payload|)
  }

  lemma ThreeAt(d: seq<byte>, p: nat, a: Num, b: Num, c: Num)
    ensures At(d, p, EncValues([a, b, c])) <==>
            At(d, p, EncNum(a)) && At(d, p + |EncNum(a)|, EncNum(b)) && At(d, p + |EncNum(a)| + |EncNum(b)|, EncNum(c))
    ensures |EncValues([a, b, c])| == |EncNum(a)| + |EncNum(b)| + |EncNum(c)|
  {
    hide EncNum, EncValues;
    ValuesThree(a, b, c);
    AtAppend(d, p, EncNum(a), EncNum(b) + EncNum(c));
    AtAppend(d, p + |EncNum(a)|, EncNum(b), EncNum(c));
  }

  lemma TwoAt(d: seq<byte>, p: nat, a: Num, b: Num)
    ensures At(d, p, EncValues([a, b])) <==> At(d, p, EncNum(a)) && At(d, p + |EncNum(a)|, EncNum(b))
    ensures |EncValues([a, b])| == |EncNum(a)| + |EncNum(b)|
  {
    hide EncNum, EncValues;
    ValuesTwo(a, b);
    AtAppend(d, p, EncNum(a), EncNum(b));
  }

  /** Two numbers decode, each within the limit of its field. */
  lemma TwoComplete(d: seq<byte>, p: nat, a: Num, b: Num, limit: nat)
    requires At(d, p, EncValues([a, b])) && 0 <= a.v < MAX32 && 0 <= b.v < limit
    ensures UintField(d, p, MAX32) == Some((a.v as nat, p + |EncNum(a)|))
    ensures UintField(d, p + |EncNum(a)|, limit) == Some((b.v as nat, p + |EncValues([a, b])|))
  {
    hide EncNum, UintField, EncValues, At;
    TwoAt(d, p, a, b);
    UintComplete(d, p, a, MAX32);
    UintComplete(d, p + |EncNum(a)|, b, limit);
  }

  lemma ThreeComplete(d: seq<byte>, p: nat, a: Num, b: Num, c: Num)
    requires At(d, p, EncValues([a, b, c])) && 0 <= a.v < MAX32 && 0 <= b.v < MAX64 && 0 <= c.v < MAX64
    ensures var p2, p3 := p + |EncNum(a)|, p + |EncNum(a)| + |EncNum(b)|;
            && UintField(d, p, MAX32) == Some((a.v as nat, p2))
            && UintField(d, p2, MAX64) == Some((b.v as nat, p3))
            && UintField(d, p3, MAX64) == Some((c.v as nat, p + |EncValues([a, b, c])|))
  {
    hide EncNum, UintField, EncValues, At;
    ThreeAt(d, p, a, b, c);
    UintComplete(d, p, a, MAX32);
    UintComplete(d, p + |EncNum(a)|, b, MAX64);
    UintComplete(d, p + |EncNum(a)| + |EncNum(b)|, c, MAX64);
  }

  lemma FieldsComplete(d: seq<byte>, p: nat, m: Message, f: Forms)
    requires FormsOk(f, m) && FieldsAt(d, p, m, f)
    ensures DecodeFields(d, KeyOf(m), p) == Some(m)
  {
    hide EncNum, EncHdr, DecodeHdr, UintField, EncValues, HoldsCount, At;
    var h := RawHdr(f.arr, CountOf(m));
    var p1 := p + |EncHdr(h)|;
    HdrExact(d, p, h, p1);
    var a, b := f.nums[0], f.nums[1];
    if m.EndOfStream? {
      assert f.nums == [a, b];
      TwoComplete(d, p1, a, b, MAX32);
    } else {
      var c := f.nums[2];
      assert f.nums == [a, b, c];
      ThreeComplete(d, p1, a, b, c);
      if m.Data? { TailAt(d, p1 + |EncValues(f.nums)|, m.payload); }
    }
  }

  lemma TailAt(d: seq<byte>, p: nat, s: seq<byte>)
    requires At(d, p, s) && |d| == p + |s|
    ensures d[p..] == s
  {
  }

  lemma TailBack(d: seq<byte>, p: nat)
    requires p <= |d|
    ensures At(d, p, d[p..]) && At(d, p, [])
  {
  }

  lemma FieldsSound(d: seq<byte>, key: seq<byte>, p: nat) returns (m: Message, arr: ArrFmt, nums: seq<Num>)
    requires DecodeFields(d, key, p).Some?
    ensures m == DecodeFields(d, key, p).value && key == KeyOf(m)
    ensures forall x, y :: FormsOk(Forms(x, y, arr, nums), m) && FieldsAt(d, p, m, Forms(x, y, arr, nums))
  {
    hide EncNum, EncHdr, DecodeHdr, UintField, EncValues, HoldsCount;
    m := DecodeFields(d, key, p).value;
    var (h, p1) := DecodeHdr(d, p).value;
    HdrExact(d, p, h, p1);
    arr := h.fmt;
    assert h == RawHdr(arr, CountOf(m));
    var a := UintSound(d, p1, MAX32);
    var p2 := p1 + |EncNum(a)|;
    if m.EndOfStream? {
      var b := UintSound(d, p2, MAX32);
      nums := [a, b];
      TwoAt(d, p1, a, b);
      TailBack(d, p2 + |EncNum(b)|);
    } else {
      var b := UintSound(d, p2, MAX64);
      var p3 := p2 + |EncNum(b)|;
      var c := UintSound(d, p3, MAX64);
      nums := [a, b, c];
      ThreeAt(d, p1, a, b, c);
      TailBack(d, p3 + |EncNum(c)|);
    }
  }

  /** The parts of an encoded message, one behind another. */
  lemma PartsAt(d: seq<byte>, m: Message, f: Forms)
    requires FormsOk(f, m)
    ensures var p0, p1 := |EncMap(f.map_)|, |EncMap(f.map_)| + |StrTag(f.str, |KeyOf(m)|)|;
            Encodes(d, m, f) <==>
              && At(d, 0, EncMap(f.map_)) && At(d, p0, StrTag(f.str, |KeyOf(m)|)) && At(d, p1, KeyOf(m))
              && FieldsAt(d, p1 + |KeyOf(m)|, m, f)
  {
    hide EncMap, StrTag, EncHdr, EncValues, At, KeyOf, TailOf;
    var map_, tag, key := EncMap(f.map_), StrTag(f.str, |KeyOf(m)|), KeyOf(m);
    var hdr, values, tail := EncHdr(RawHdr(f.arr, CountOf(m))), EncValues(f.nums), TailOf(m);
    AtAppend(d, 0, map_, tag + (key + (hdr + (values + tail))));
    AtAppend(d, |map_|, tag, key + (hdr + (values + tail)));
    AtAppend(d, |map_| + |tag|, key, hdr + (values + tail));
    AtAppend(d, |map_| + |tag| + |key|, hdr, values + tail);
    AtAppend(d, |map_| + |tag| + |key| + |hdr|, values, tail);
    assert m.Data? ==> tail == m.payload by { BatchTail(m); }
  }

  lemma BatchTail(m: Message)
    ensures m.Data? ==> TailOf(m) == m.payload
  {
  }

  lemma DecodeComplete(d: seq<byte>, m: Message, f: Forms)
    requires Encodes(d, m, f)
    ensures DecodeMessage(d) == Some(m)
  {
    hide EncMap, StrTag, OneEntryMap, StrHead, DecodeFields, FieldsAt, KeyOf;
    PartsAt(d, m, f);
    MapComplete(d, f.map_);
    StrComplete(d, |EncMap(f.map_)|, f.str, |KeyOf(m)|);
    FieldsComplete(d, |EncMap(f.map_)| + |StrTag(f.str, |KeyOf(m)|)| + |KeyOf(m)|, m, f);
  }

  lemma DecodeSound(d: seq<byte>) returns (f: Forms)
    requires DecodeMessage(d).Some?
    ensures Encodes(d, DecodeMessage(d).value, f)
  {
    hide EncMap, StrTag, OneEntryMap, StrHead, DecodeFields, FieldsAt, KeyOf, FormsOk, Encodes;
    var (key, base) := VariantKey(d).value;
    var m, arr, nums := FieldsSound(d, key, base);
    var map_ := MapSound(d);
    var p0 := |EncMap(map_)|;
    var n := StrHead(d, p0).value.0;
    assert n == |key|;
    var str := StrSound(d, p0);
    f := Forms(map_, str, arr, nums);
    assert FormsOk(f, m) && FieldsAt(d, base, m, f);
    PartsAt(d, m, f);
  }

  /** Main result: on every byte string the complete decoder gives a message exactly
      when the bytes are that message, written in some formats. */
  lemma DecodesExactly(d: seq<byte>, m: Message)
    ensures DecodeMessage(d) == Some(m) <==> exists f :: Encodes(d, m, f)
  {
    hide DecodeMessage, Encodes;
    if DecodeMessage(d) == Some(m) {
      var f := DecodeSound(d);
    }
    if f :| Encodes(d, m, f) {
      DecodeComplete(d, m, f);
    }
  }
}
