/** `src/common/mod.rs`: the header fast path that the forwarding components
    use instead of deserializing a whole `Message`. */
module MessageHeader {
  import opened Bytes
  import opened MsgPack

  /** `payload` is the encoded events array of a data batch, kept as bytes. */
  datatype Message =
    | Data(sourceId: u32, sequenceNumber: u64, timestamp: u64, payload: seq<byte>)
    | EndOfStream(sourceId: u32, runNumber: u32)
    | Heartbeat(sourceId: u32, timestamp: u64, counter: u64)

  datatype Header =
    | DataHeader(sourceId: nat, sequenceNumber: nat)
    | EosHeader(sourceId: nat)
    | HeartbeatHeader(sourceId: nat)

  const DATA: seq<byte> := [0x44, 0x61, 0x74, 0x61]
  const END_OF_STREAM: seq<byte> := [0x45, 0x6e, 0x64, 0x4f, 0x66, 0x53, 0x74, 0x72, 0x65, 0x61, 0x6d]
  const HEARTBEAT: seq<byte> := [0x48, 0x65, 0x61, 0x72, 0x74, 0x62, 0x65, 0x61, 0x74]

  /** The serializer names a variant as it is declared. */
  lemma VariantNames()
    ensures DATA == Ascii("Data") && END_OF_STREAM == Ascii("EndOfStream") && HEARTBEAT == Ascii("Heartbeat")
  {
  }

  // ---- What the serializer writes ----

  /** A one-entry map whose key names the variant. */
  function Tagged(key: seq<byte>, value: seq<byte>): (r: seq<byte>)
    requires |key| < 0x20
  {
    [0x81] + ([0xa0 + |key|] + (key + value))
  }

  function EncMessage(m: Message): (r: seq<byte>) {
    match m
    case Data(id, sequence, ts, payload) =>
      Tagged(DATA, EncHdr(RawHdr(FixArr, 4)) +
        (EncNum(Compact(id)) + (EncNum(Compact(sequence)) + (EncNum(Compact(ts)) + payload))))
    case EndOfStream(id, run) =>
      Tagged(END_OF_STREAM, EncHdr(RawHdr(FixArr, 2)) + (EncNum(Compact(id)) + EncNum(Compact(run))))
    case Heartbeat(id, ts, counter) =>
      Tagged(HEARTBEAT, EncHdr(RawHdr(FixArr, 3)) +
        (EncNum(Compact(id)) + (EncNum(Compact(ts)) + EncNum(Compact(counter)))))
  }

  function HeaderOf(m: Message): (h: Header) {
    match m
    case Data(id, sequence, _, _) => DataHeader(id, sequence)
    case EndOfStream(id, _) => EosHeader(id)
    case Heartbeat(id, _, _) => HeartbeatHeader(id)
  }

  // ---- The fast path ----

  /** `parse_u32` / `parse_u64`: the value at the front of a slice and the
      advanced cursor. Only the latter takes the nine-byte form. */
  function ParseUnsigned(bytes: seq<byte>, pos: nat, wide: bool): (r: Option<(nat, nat)>)
    ensures r.Some? ==> pos < r.value.1 <= pos + |bytes|
  {
    if |bytes| == 0 then None
    else
      var b: int := bytes[0];
      if b <= 0x7f then Some((b, pos + 1))
      else if b == 0xcc && |bytes| >= 2 then Some((bytes[1], pos + 2))
      else if b == 0xcd && |bytes| >= 3 then Some((GetBe16(bytes, 1), pos + 3))
      else if b == 0xce && |bytes| >= 5 then Some((GetBe32(bytes, 1), pos + 5))
      else if wide && b == 0xcf && |bytes| >= 9 then Some((GetBe64(bytes, 1), pos + 9))
      else None
  }

  function ParseDataHeader(bytes: seq<byte>): (r: Option<Header>) {
    if |bytes| == 0 then None
    else
      var b: int := bytes[0];
      var start :-
        if 0x90 <= b <= 0x9f then Some(1)
        else if b == 0xdc && |bytes| >= 3 then Some(3)
        else if b == 0xdd && |bytes| >= 5 then Some(5)
        else None;
      var (sourceId, pos) :- ParseUnsigned(bytes[start..], start, false);
      var (sequenceNumber, _) :- ParseUnsigned(bytes[pos..], pos, true);
      Some(DataHeader(sourceId, sequenceNumber))
  }

  function ParseEosHeader(bytes: seq<byte>): (r: Option<Header>) {
    if |bytes| == 0 || !(0x90 <= bytes[0] <= 0x9f) then None
    else
      var (sourceId, _) :- ParseUnsigned(bytes[1..], 1, false);
      Some(EosHeader(sourceId))
  }

  function ParseHeartbeatHeader(bytes: seq<byte>): (r: Option<Header>) {
    if |bytes| == 0 || !(0x90 <= bytes[0] <= 0x9f) then None
    else
      var (sourceId, _) :- ParseUnsigned(bytes[1..], 1, false);
      Some(HeartbeatHeader(sourceId))
  }

  function Parse(bytes: seq<byte>): (r: Option<Header>) {
    if |bytes| == 0 then None
    else if bytes[0] != 0x81 then None
    else if |bytes| < 3 then None
    else if !(0xa0 <= bytes[1] <= 0xbf) then None
    else
      var keyLen := bytes[1] as int - 0xa0;
      if |bytes| < 2 + keyLen then None
      else
        var key := bytes[2..2 + keyLen];
        var value := bytes[2 + keyLen..];
        if key == DATA then ParseDataHeader(value)
        else if key == END_OF_STREAM then ParseEosHeader(value)
        else if key == HEARTBEAT then ParseHeartbeatHeader(value)
        else None
  }

  // ---- The fast path against the complete decoder ----

  /** An unsigned integer at `p`, in any format the field's type can come in. */
  function Field(d: seq<byte>, p: nat, wide: bool): (r: Option<(nat, nat)>) {
    var (n, q) :- DecodeNum(d, p);
    if n.fmt in {PosFix, U8, U16, U32} || (wide && n.fmt == U64) then Some((n.v, q)) else None
  }

  /** The leading fields as a MessagePack decoder finds them, in the formats that
      the fast path takes and without regard to the length of the array. */
  function FullHeader(d: seq<byte>): (r: Option<Header>) {
    if At(d, 0, Tagged(DATA, [])) then
      var (h, p1) :- DecodeHdr(d, 6);
      var (id, p2) :- Field(d, p1, false);
      var (sequence, p3) :- Field(d, p2, true);
      Some(DataHeader(id, sequence))
    else if At(d, 0, Tagged(END_OF_STREAM, [])) then
      var (h, p1) :- DecodeHdr(d, 13);
      if h.fmt != FixArr then None
      else
        var (id, p2) :- Field(d, p1, false);
        Some(EosHeader(id))
    else if At(d, 0, Tagged(HEARTBEAT, [])) then
      var (h, p1) :- DecodeHdr(d, 11);
      if h.fmt != FixArr then None
      else
        var (id, p2) :- Field(d, p1, false);
        Some(HeartbeatHeader(id))
    else None
  }

  lemma FieldOfSlice(d: seq<byte>, base: nat, p: nat, wide: bool)
    requires base + p <= |d|
    ensures Field(d, base + p, wide) ==
      match ParseUnsigned(d[base..][p..], p, wide)
      case None => None
      case Some((v, q)) => Some((v, base + q))
  {
    hide GetBe64, GetBe32;
    var s := d[base..][p..];
    assert forall i :: 0 <= i < |s| ==> s[i] == d[base + p + i];
    if |s| >= 5 {
      assert s[1..5] == d[base + p + 1..base + p + 5];
      Be32Slice(d, base + p + 1, s, 1);
    }
    if |s| >= 9 {
      assert s[1..9] == d[base + p + 1..base + p + 9];
      Be64Slice(d, base + p + 1, s, 1);
    }
  }

  lemma Be32Slice(d: seq<byte>, p: nat, s: seq<byte>, q: nat)
    requires p + 4 <= |d| && q + 4 <= |s| && s[q..q + 4] == d[p..p + 4]
    ensures GetBe32(d, p) == GetBe32(s, q)
  {
    var x, y := s[q..q + 4], d[p..p + 4];
    assert s[q] == x[0] && s[q + 1] == x[1] && s[q + 2] == x[2] && s[q + 3] == x[3];
    assert d[p] == y[0] && d[p + 1] == y[1] && d[p + 2] == y[2] && d[p + 3] == y[3];
  }

  lemma Be64Slice(d: seq<byte>, p: nat, s: seq<byte>, q: nat)
    requires p + 8 <= |d| && q + 8 <= |s| && s[q..q + 8] == d[p..p + 8]
    ensures GetBe64(d, p) == GetBe64(s, q)
  {
    hide GetBe32;
    assert s[q..q + 4] == s[q..q + 8][..4] == d[p..p + 4];
    assert s[q + 4..q + 8] == s[q..q + 8][4..] == d[p + 4..p + 8];
    Be32Slice(d, p, s, q);
    Be32Slice(d, p + 4, s, q + 4);
  }

  lemma DataHeaderExact(d: seq<byte>, base: nat)
    requires base <= |d|
    ensures ParseDataHeader(d[base..]) ==
      match DecodeHdr(d, base)
      case None => None
      case Some((h, p1)) =>
        match Field(d, p1, false)
        case None => None
        case Some((id, p2)) =>
          match Field(d, p2, true)
          case None => None
          case Some((sequence, p3)) => Some(DataHeader(id, sequence))
  {
    hide Field, ParseUnsigned;
    var v := d[base..];
    if DecodeHdr(d, base).Some? {
      var start := DecodeHdr(d, base).value.1 - base;
      FieldOfSlice(d, base, start, false);
      var first := ParseUnsigned(v[start..], start, false);
      if first.Some? && first.value.1 <= |v| {
        FieldOfSlice(d, base, first.value.1, true);
      }
    }
  }

  lemma ShortHeaderExact(d: seq<byte>, base: nat)
    requires base <= |d|
    ensures var id := match DecodeHdr(d, base)
                      case None => None
                      case Some((h, p1)) => if h.fmt == FixArr then Field(d, p1, false) else None;
            && ParseEosHeader(d[base..]) == (if id.Some? then Some(EosHeader(id.value.0)) else None)
            && ParseHeartbeatHeader(d[base..]) == (if id.Some? then Some(HeartbeatHeader(id.value.0)) else None)
  {
    hide Field, ParseUnsigned;
    if base < |d| { FieldOfSlice(d, base, 1, false); }
  }

  /** The key stands at the front exactly when the length byte and the key slice say so. */
  lemma KeyAt(d: seq<byte>, key: seq<byte>)
    requires |key| < 0x20
    ensures At(d, 0, Tagged(key, [])) <==>
            2 + |key| <= |d| && d[0] == 0x81 && d[1] as int == 0xa0 + |key| && d[2..2 + |key|] == key
  {
    assert key + [] == key;
    TagAt(d, 0, 0x81, [0xa0 + |key|] + (key + []));
    TagAt(d, 1, 0xa0 + |key|, key + []);
  }

  /** On every byte string the byte-by-byte fast path is the decoding of the
      leading fields. */
  lemma ParseExact(d: seq<byte>)
    ensures Parse(d) == FullHeader(d)
  {
    hide ParseDataHeader, ParseEosHeader, ParseHeartbeatHeader, Field, DecodeHdr;
    KeyAt(d, DATA);
    KeyAt(d, END_OF_STREAM);
    KeyAt(d, HEARTBEAT);
    if 6 <= |d| { DataHeaderExact(d, 6); }
    if 13 <= |d| { ShortHeaderExact(d, 13); }
    if 11 <= |d| { ShortHeaderExact(d, 11); }
  }

  lemma FieldAt(d: seq<byte>, p: nat, v: u64, wide: bool)
    requires At(d, p, EncNum(Compact(v))) && (wide || v < 0x1_0000_0000)
    ensures Field(d, p, wide) == Some((v as int, p + |EncNum(Compact(v))|))
  {
    hide DecodeNum, EncNum;
    NumComplete(d, p, Compact(v));
  }

  /** The fields behind the key, array header first. */
  lemma TaggedAt(d: seq<byte>, key: seq<byte>, value: seq<byte>)
    requires |key| < 0x20 && At(d, 0, Tagged(key, value))
    ensures At(d, 0, Tagged(key, [])) && At(d, 2 + |key|, value)
  {
    TagAt(d, 0, 0x81, [0xa0 + |key|] + (key + value));
    TagAt(d, 1, 0xa0 + |key|, key + value);
    AtAppend(d, 2, key, value);
    KeyAt(d, key);
  }

  lemma KeysDiffer(d: seq<byte>)
    ensures At(d, 0, Tagged(END_OF_STREAM, [])) ==> !At(d, 0, Tagged(DATA, []))
    ensures At(d, 0, Tagged(HEARTBEAT, [])) ==> !At(d, 0, Tagged(DATA, [])) && !At(d, 0, Tagged(END_OF_STREAM, []))
  {
    KeyAt(d, DATA);
    KeyAt(d, END_OF_STREAM);
    KeyAt(d, HEARTBEAT);
  }

  lemma DataRoundTrip(m: Message, d: seq<byte>)
    requires m.Data? && At(d, 0, EncMessage(m))
    ensures FullHeader(d) == Some(HeaderOf(m))
  {
    hide Field, DecodeHdr, EncHdr, EncNum, Compact, Tagged;
    var id, sequence := EncNum(Compact(m.sourceId)), EncNum(Compact(m.sequenceNumber));
    var h, tail := EncHdr(RawHdr(FixArr, 4)), EncNum(Compact(m.timestamp)) + m.payload;
    TaggedAt(d, DATA, h + (id + (sequence + tail)));
    AtAppend(d, 6, h, id + (sequence + tail));
    HdrExact(d, 6, RawHdr(FixArr, 4), 6 + |h|);
    var p1 := 6 + |h|;
    AtAppend(d, p1, id, sequence + tail);
    FieldAt(d, p1, m.sourceId, false);
    AtAppend(d, p1 + |id|, sequence, tail);
    FieldAt(d, p1 + |id|, m.sequenceNumber, true);
  }

  lemma EosRoundTrip(m: Message, d: seq<byte>)
    requires m.EndOfStream? && At(d, 0, EncMessage(m))
    ensures FullHeader(d) == Some(HeaderOf(m))
  {
    hide Field, DecodeHdr, EncHdr, EncNum, Compact, Tagged;
    KeysDiffer(d);
    var id, run := EncNum(Compact(m.sourceId)), EncNum(Compact(m.runNumber));
    var h := EncHdr(RawHdr(FixArr, 2));
    TaggedAt(d, END_OF_STREAM, h + (id + run));
    AtAppend(d, 13, h, id + run);
    HdrExact(d, 13, RawHdr(FixArr, 2), 13 + |h|);
    AtAppend(d, 13 + |h|, id, run);
    FieldAt(d, 13 + |h|, m.sourceId, false);
  }

  lemma HeartbeatRoundTrip(m: Message, d: seq<byte>)
    requires m.Heartbeat? && At(d, 0, EncMessage(m))
    ensures FullHeader(d) == Some(HeaderOf(m))
  {
    hide Field, DecodeHdr, EncHdr, EncNum, Compact, Tagged;
    KeysDiffer(d);
    var id, tail := EncNum(Compact(m.sourceId)), EncNum(Compact(m.timestamp)) + EncNum(Compact(m.counter));
    var h := EncHdr(RawHdr(FixArr, 3));
    TaggedAt(d, HEARTBEAT, h + (id + tail));
    AtAppend(d, 11, h, id + tail);
    HdrExact(d, 11, RawHdr(FixArr, 3), 11 + |h|);
    AtAppend(d, 11 + |h|, id, tail);
    FieldAt(d, 11 + |h|, m.sourceId, false);
  }

  /** Main result: for every message, whatever bytes follow its encoding, the fast
      path gives that message's variant, source id and sequence number. */
  lemma RoundTrip(m: Message, suffix: seq<byte>)
    ensures Parse(EncMessage(m) + suffix) == Some(HeaderOf(m))
  {
    hide Parse, FullHeader, EncMessage;
    var d := EncMessage(m) + suffix;
    assert At(d, 0, EncMessage(m));
    ParseExact(d);
    match m
    case Data(_, _, _, _) => DataRoundTrip(m, d);
    case EndOfStream(_, _) => EosRoundTrip(m, d);
    case Heartbeat(_, _, _) => HeartbeatRoundTrip(m, d);
  }

  lemma AtLonger(d: seq<byte>, x: seq<byte>, p: nat, s: seq<byte>)
    requires At(d, p, s)
    ensures At(d + x, p, s)
  {
    assert (d + x)[p..p + |s|] == d[p..p + |s|];
  }

  lemma FieldLonger(d: seq<byte>, x: seq<byte>, p: nat, wide: bool)
    requires Field(d, p, wide).Some?
    ensures Field(d + x, p, wide) == Field(d, p, wide)
  {
    hide DecodeNum, EncNum;
    var (n, q) := DecodeNum(d, p).value;
    NumSound(d, p);
    AtLonger(d, x, p, EncNum(n));
    NumComplete(d + x, p, n);
  }

  lemma HdrLonger(d: seq<byte>, x: seq<byte>, p: nat)
    requires DecodeHdr(d, p).Some?
    ensures DecodeHdr(d + x, p) == DecodeHdr(d, p)
  {
    hide DecodeHdr, EncHdr;
    var (h, q) := DecodeHdr(d, p).value;
    HdrExact(d, p, h, q);
    AtLonger(d, x, p, EncHdr(h));
    HdrExact(d + x, p, h, q);
  }

  /** A header once found is not changed by appended bytes. */
  lemma AppendStable(d: seq<byte>, x: seq<byte>)
    requires Parse(d).Some?
    ensures Parse(d + x) == Parse(d)
  {
    hide Field, DecodeHdr, Parse, Tagged;
    ParseExact(d);
    ParseExact(d + x);
    KeysDiffer(d + x);
    if At(d, 0, Tagged(DATA, [])) {
      AtLonger(d, x, 0, Tagged(DATA, []));
      HdrLonger(d, x, 6);
      var p1 := DecodeHdr(d, 6).value.1;
      FieldLonger(d, x, p1, false);
      FieldLonger(d, x, Field(d, p1, false).value.1, true);
    } else if At(d, 0, Tagged(END_OF_STREAM, [])) {
      AtLonger(d, x, 0, Tagged(END_OF_STREAM, []));
      HdrLonger(d, x, 13);
      FieldLonger(d, x, DecodeHdr(d, 13).value.1, false);
    } else {
      AtLonger(d, x, 0, Tagged(HEARTBEAT, []));
      HdrLonger(d, x, 11);
      FieldLonger(d, x, DecodeHdr(d, 11).value.1, false);
    }
  }

  // ---- The fast path against a complete decoder of messages ----

  /** A map header with one entry, in any format: where it ends. */
  function OneEntryMap(d: seq<byte>): (r: Option<nat>) {
    if |d| >= 1 && d[0] == 0x81 then Some(1)
    else if |d| >= 3 && d[0] == 0xde && GetBe16(d, 1) == 1 then Some(3)
    else if |d| >= 5 && d[0] == 0xdf && GetBe32(d, 1) == 1 then Some(5)
    else None
  }

  /** A string header in any format: the length, and where the text begins. */
  function StrHead(d: seq<byte>, p: nat): (r: Option<(nat, nat)>) {
    if p >= |d| then None
    else if 0xa0 <= d[p] <= 0xbf then Some((d[p] as int - 0xa0, p + 1))
    else if d[p] == 0xd9 && p + 2 <= |d| then Some((d[p + 1] as int, p + 2))
    else if d[p] == 0xda && p + 3 <= |d| then Some((GetBe16(d, p + 1), p + 3))
    else if d[p] == 0xdb && p + 5 <= |d| then Some((GetBe32(d, p + 1), p + 5))
    else None
  }

  /** The variant's name, and where its fields begin. */
  function VariantKey(d: seq<byte>): (r: Option<(seq<byte>, nat)>) {
    var p :- OneEntryMap(d);
    var (n, q) :- StrHead(d, p);
    if q + n <= |d| then Some((d[q..q + n], q + n)) else None
  }

  /** A field of an unsigned type, in any integer format that holds its value. */
  function UintField(d: seq<byte>, p: nat, limit: nat): (r: Option<(nat, nat)>)
    ensures r.Some? ==> r.value.0 < limit && p < r.value.1 <= |d|
  {
    var (n, q) :- DecodeNum(d, p);
    NumSpan(d, p);
    if 0 <= n.v < limit then Some((n.v, q)) else None
  }

  lemma NumSpan(d: seq<byte>, p: nat)
    ensures DecodeNum(d, p).Some? ==> p < DecodeNum(d, p).value.1 <= |d|
  {
  }

  const MAX32 := 0x1_0000_0000
  const MAX64 := 0x1_0000_0000_0000_0000

  /** The fields of a variant: an array of exactly its length, in any format. */
  function DecodeFields(d: seq<byte>, key: seq<byte>, base: nat): (r: Option<Message>) {
    var (h, p1) :- DecodeHdr(d, base);
    var (id, p2) :- UintField(d, p1, MAX32);
    if key == DATA && h.count == 4 then
      var (sequence, p3) :- UintField(d, p2, MAX64);
      var (ts, p4) :- UintField(d, p3, MAX64);
      Some(Data(id, sequence, ts, d[p4..]))
    else if key == END_OF_STREAM && h.count == 2 then
      var (run, p3) :- UintField(d, p2, MAX32);
      Some(EndOfStream(id, run))
    else if key == HEARTBEAT && h.count == 3 then
      var (ts, p3) :- UintField(d, p2, MAX64);
      var (counter, p4) :- UintField(d, p3, MAX64);
      Some(Heartbeat(id, ts, counter))
    else None
  }

  /** A complete decoder of messages; only the events of a batch stay bytes. */
  function DecodeMessage(d: seq<byte>): (r: Option<Message>) {
    var (key, base) :- VariantKey(d);
    DecodeFields(d, key, base)
  }

  /** The integer at `p` is in a format of `parse_u32`, or of `parse_u64`. */
  predicate FastNum(d: seq<byte>, p: nat, wide: bool) {
    DecodeNum(d, p).Some? &&
    var fmt := DecodeNum(d, p).value.0.fmt;
    fmt in {PosFix, U8, U16, U32} || (wide && fmt == U64)
  }

  /** The formats of a message that the fast path reads. */
  predicate FastForm(d: seq<byte>) {
    && VariantKey(d).Some? && d[0] == 0x81 && |d| > 1 && 0xa0 <= d[1] <= 0xbf
    && var (key, base) := VariantKey(d).value;
    && DecodeHdr(d, base).Some?
    && var (h, p1) := DecodeHdr(d, base).value;
    && FastNum(d, p1, false)
    && if key == DATA then FastNum(d, DecodeNum(d, p1).value.1, true) else h.fmt == FixArr
  }

  lemma FieldIsFast(d: seq<byte>, p: nat, wide: bool)
    ensures Field(d, p, wide) ==
        if FastNum(d, p, wide) then Some((DecodeNum(d, p).value.0.v, DecodeNum(d, p).value.1)) else None
  {
    hide DecodeNum;
  }

  /** With the short map and string headers the key stands where the fast path looks. */
  lemma ShortKey(d: seq<byte>, key: seq<byte>)
    requires |d| > 1 && d[0] == 0x81 && 0xa0 <= d[1] <= 0xbf && VariantKey(d).Some? && |key| < 0x20
    ensures VariantKey(d).value.1 == 2 + |VariantKey(d).value.0|
    ensures At(d, 0, Tagged(key, [])) <==> VariantKey(d).value.0 == key
  {
    KeyAt(d, key);
  }

  lemma ShortFormsOnly(d: seq<byte>)
    requires |d| < 2 || d[0] != 0x81 || !(0xa0 <= d[1] <= 0xbf)
    ensures Parse(d).None?
  {
  }

  /** Main result: on every byte string that a complete decoder takes for a message,
      whatever formats it is written in, the fast path gives the header of that
      message if the formats are its own, and nothing otherwise. */
  lemma ParseOfMessage(d: seq<byte>)
    requires DecodeMessage(d).Some?
    ensures Parse(d) == if FastForm(d) then Some(HeaderOf(DecodeMessage(d).value)) else None
  {
    hide Parse, FullHeader, DecodeFields, FastForm, FastNum, VariantKey;
    if |d| < 2 || d[0] != 0x81 || !(0xa0 <= d[1] <= 0xbf) {
      ShortFormsOnly(d);
      LongForm(d);
    } else {
      ParseExact(d);
      HeaderOfFields(d);
    }
  }

  lemma LongForm(d: seq<byte>)
    requires |d| < 2 || d[0] != 0x81 || !(0xa0 <= d[1] <= 0xbf)
    ensures !FastForm(d)
  {
    hide DecodeHdr, FastNum;
  }

  lemma HeaderOfFields(d: seq<byte>)
    requires |d| > 1 && d[0] == 0x81 && 0xa0 <= d[1] <= 0xbf && DecodeMessage(d).Some?
    ensures FullHeader(d) == if FastForm(d) then Some(HeaderOf(DecodeMessage(d).value)) else None
  {
    hide DecodeNum, DecodeHdr, Tagged, VariantKey, Field, FastNum;
    var (key, base) := VariantKey(d).value;
    ShortKey(d, DATA);
    ShortKey(d, END_OF_STREAM);
    ShortKey(d, HEARTBEAT);
    var (h, p1) := DecodeHdr(d, base).value;
    FieldIsFast(d, p1, false);
    FieldIsFast(d, DecodeNum(d, p1).value.1, true);
  }

  // ---- A message that the fast path does not read ----

  /** A data batch of source 5 without events, the source id in the int 8 format. */
  const SIGNED_ID: seq<byte> := [0x81, 0xa4, 0x44, 0x61, 0x74, 0x61, 0x94, 0xd0, 0x05, 0x00, 0x00, 0x90]

  /** "The fast path agrees with the complete decoder" is false of the code outside
      its formats: here is a message whose header it does not find. */
  lemma SignedIdRejected()
    ensures DecodeMessage(SIGNED_ID) == Some(Data(5, 0, 0, [0x90])) && Parse(SIGNED_ID).None?
  {
    var d := SIGNED_ID;
    assert d[2..6] == DATA && VariantKey(d) == Some((DATA, 6));
    assert DecodeHdr(d, 6) == Some((RawHdr(FixArr, 4), 7));
    assert DecodeNum(d, 7) == Some((RawNum(I8, 5), 9));
    assert DecodeNum(d, 9) == Some((RawNum(PosFix, 0), 10));
    assert DecodeNum(d, 10) == Some((RawNum(PosFix, 0), 11));
    assert d[11..] == [0x90];
    hide DecodeNum, DecodeHdr, VariantKey, Parse;
    ParseOfMessage(d);
  }
}
