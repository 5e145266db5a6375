/** The v2 `.delila` block: its concrete syntax (values together with the
    MessagePack format each one was written in), its encoding, and the reader
    of that encoding as a function.

    The reader is parameterised by a dialect: `Full` takes every MessagePack
    format, `Reader` what `read_delila.C` takes, `Converter` what
    `convert_to_tree.C` takes. */
module DelilaSyntax {
  import opened Bytes
  import opened MsgPack

  datatype Dialect = Full | Reader | Converter

  /** How a field is read: by `read_uint` or by `read_int`. */
  datatype Role = Unsigned | Signed

  /** Samples of one probe: a binary string or an array of integers. */
  datatype Probe = AsBin(bin: Bin) | AsArray(fmt: ArrFmt, elems: seq<Num>)

  /** Two analog and four digital probes, then time resolution and threshold. */
  datatype Wave = Wave(fmt: ArrFmt, probes: seq<Probe>, settings: seq<Num>, nsPerSample: Option<Float>)

  /** `head` is module, channel, energy, short-gate energy. */
  datatype Event = Event(fmt: ArrFmt, head: seq<Num>, timestamp: Float, flags: Num, wave: Option<Wave>)

  /** `head` is source id, sequence number, batch timestamp. */
  datatype Batch = Batch(fmt: ArrFmt, head: seq<Num>, eventsFmt: ArrFmt, events: seq<Event>)

  function RoleOf(i: nat): Role { if i < 2 then Signed else Unsigned }

  // ---- What a dialect takes ----

  predicate Accepts(dl: Dialect, role: Role, fmt: IntFmt) {
    dl.Full? || (if role.Signed? then fmt != I64 else fmt in {PosFix, U8, U16, U32, U64})
  }

  predicate NumsOk(dl: Dialect, role: Role, s: seq<Num>) {
    forall i :: 0 <= i < |s| ==> Accepts(dl, role, s[i].fmt)
  }

  predicate FloatOk(dl: Dialect, f: Float) { dl.Full? || f.F64? }

  predicate ProbeOk(dl: Dialect, role: Role, x: Probe) {
    x.AsArray? ==> NumsOk(dl, role, x.elems)
  }

  predicate ProbesOk(dl: Dialect, i: nat, s: seq<Probe>)
    decreases |s|
  {
    s == [] || (ProbeOk(dl, RoleOf(i), s[0]) && ProbesOk(dl, i + 1, s[1..]))
  }

  predicate WaveOk(dl: Dialect, w: Wave) {
    && ProbesOk(dl, 0, w.probes)
    && NumsOk(dl, Unsigned, w.settings)
    && (w.nsPerSample.Some? ==> !dl.Converter? && FloatOk(dl, w.nsPerSample.value))
  }

  predicate EventOk(dl: Dialect, e: Event) {
    && NumsOk(dl, Unsigned, e.head)
    && FloatOk(dl, e.timestamp)
    && Accepts(dl, Unsigned, e.flags.fmt)
    && (e.wave.Some? ==> WaveOk(dl, e.wave.value))
  }

  predicate EventsOk(dl: Dialect, s: seq<Event>) {
    s == [] || (EventOk(dl, s[0]) && EventsOk(dl, s[1..]))
  }

  predicate BatchOk(dl: Dialect, b: Batch) {
    NumsOk(dl, Unsigned, b.head) && EventsOk(dl, b.events)
  }

  // ---- Well-formed syntax: every count fits its header ----

  predicate ProbeWf(role: Role, x: Probe) {
    if x.AsBin? then role.Unsigned? else HoldsCount(RawHdr(x.fmt, |x.elems|))
  }

  predicate ProbesWf(i: nat, s: seq<Probe>)
    decreases |s|
  {
    s == [] || (ProbeWf(RoleOf(i), s[0]) && ProbesWf(i + 1, s[1..]))
  }

  function WaveCount(w: Wave): nat { if w.nsPerSample.Some? then 9 else 8 }

  predicate WaveWf(w: Wave) {
    |w.probes| == 6 && ProbesWf(0, w.probes) && |w.settings| == 2
  }

  function EventCount(e: Event): nat { if e.wave.Some? then 7 else 6 }

  predicate EventWf(e: Event) {
    |e.head| == 4 && (e.wave.Some? ==> WaveWf(e.wave.value))
  }

  predicate EventsWf(s: seq<Event>) {
    s == [] || (EventWf(s[0]) && EventsWf(s[1..]))
  }

  predicate BatchWf(b: Batch) {
    |b.head| == 3 && HoldsCount(RawHdr(b.eventsFmt, |b.events|)) && EventsWf(b.events)
  }

  // ---- Encoding ----

  function EncNums(s: seq<Num>): (r: seq<byte>) {
    if s == [] then [] else EncNum(s[0]) + EncNums(s[1..])
  }

  function EncProbe(role: Role, x: Probe): (r: seq<byte>)
    requires ProbeWf(role, x)
    ensures 1 <= |r|
  {
    if x.AsBin? then EncBin(x.bin) else EncHdr(RawHdr(x.fmt, |x.elems|)) + EncNums(x.elems)
  }

  function EncProbes(i: nat, s: seq<Probe>): (r: seq<byte>)
    requires ProbesWf(i, s)
    decreases |s|
  {
    if s == [] then [] else EncProbe(RoleOf(i), s[0]) + EncProbes(i + 1, s[1..])
  }

  function EncNs(ns: Option<Float>): (r: seq<byte>) {
    if ns.Some? then EncFloat(ns.value) else []
  }

  function EncWave(w: Wave): (r: seq<byte>)
    requires WaveWf(w)
  {
    EncHdr(RawHdr(w.fmt, WaveCount(w))) + (EncProbes(0, w.probes) + (EncNums(w.settings) + EncNs(w.nsPerSample)))
  }

  function EncWaveOpt(w: Option<Wave>): (r: seq<byte>)
    requires w.Some? ==> WaveWf(w.value)
  {
    if w.Some? then EncWave(w.value) else []
  }

  function EncEvent(e: Event): (r: seq<byte>)
    requires EventWf(e)
    ensures 1 <= |r|
  {
    EncHdr(RawHdr(e.fmt, EventCount(e))) +
    (EncNums(e.head) + (EncFloat(e.timestamp) + (EncNum(e.flags) + EncWaveOpt(e.wave))))
  }

  function EncEvents(s: seq<Event>): (r: seq<byte>)
    requires EventsWf(s)
    ensures |s| <= |r|
  {
    if s == [] then [] else EncEvent(s[0]) + EncEvents(s[1..])
  }

  function EncBatch(b: Batch): (r: seq<byte>)
    requires BatchWf(b)
    ensures 1 <= |r|
  {
    EncHdr(RawHdr(b.fmt, 4)) +
    (EncNums(b.head) + (EncHdr(RawHdr(b.eventsFmt, |b.events|)) + EncEvents(b.events)))
  }

  // ---- Reading: the value at an offset and the offset behind it ----

  function ReadNum(dl: Dialect, role: Role, d: seq<byte>, p: nat): (r: Option<(Num, nat)>) {
    var (n, q) :- DecodeNum(d, p);
    if Accepts(dl, role, n.fmt) then Some((n, q)) else None
  }

  function ReadNums(dl: Dialect, role: Role, d: seq<byte>, p: nat, count: nat): (r: Option<(seq<Num>, nat)>)
    ensures r.Some? ==> |r.value.0| == count
    decreases count
  {
    if count == 0 then Some(([], p))
    else
      var (x, q) :- ReadNum(dl, role, d, p);
      var (xs, z) :- ReadNums(dl, role, d, q, count - 1);
      Some(([x] + xs, z))
  }

  function ReadFloat(dl: Dialect, d: seq<byte>, p: nat): (r: Option<(Float, nat)>) {
    var (f, q) :- DecodeFloat(d, p);
    if FloatOk(dl, f) then Some((f, q)) else None
  }

  function ReadProbe(dl: Dialect, role: Role, d: seq<byte>, p: nat): (r: Option<(Probe, nat)>) {
    if role.Unsigned? && p < |d| && d[p] in {0xc4, 0xc5, 0xc6} then
      var (b, q) :- DecodeBin(d, p);
      Some((AsBin(b), q))
    else
      var (h, q) :- DecodeHdr(d, p);
      var (xs, z) :- ReadNums(dl, role, d, q, h.count);
      Some((AsArray(h.fmt, xs), z))
  }

  function ReadProbes(dl: Dialect, d: seq<byte>, p: nat, i: nat, count: nat): (r: Option<(seq<Probe>, nat)>)
    ensures r.Some? ==> |r.value.0| == count
    decreases count
  {
    if count == 0 then Some(([], p))
    else
      var (x, q) :- ReadProbe(dl, RoleOf(i), d, p);
      var (xs, z) :- ReadProbes(dl, d, q, i + 1, count - 1);
      Some(([x] + xs, z))
  }

  function ReadWave(dl: Dialect, d: seq<byte>, p: nat): (r: Option<(Wave, nat)>) {
    var (h, p1) :- DecodeHdr(d, p);
    if h.count != 8 && (h.count != 9 || dl.Converter?) then None
    else
      var (probes, p2) :- ReadProbes(dl, d, p1, 0, 6);
      var (settings, p3) :- ReadNums(dl, Unsigned, d, p2, 2);
      if h.count == 8 then Some((Wave(h.fmt, probes, settings, None), p3))
      else
        var (ns, p4) :- ReadFloat(dl, d, p3);
        Some((Wave(h.fmt, probes, settings, Some(ns)), p4))
  }

  function ReadEvent(dl: Dialect, d: seq<byte>, p: nat): (r: Option<(Event, nat)>) {
    var (h, p1) :- DecodeHdr(d, p);
    if h.count != 6 && h.count != 7 then None
    else
      var (head, p2) :- ReadNums(dl, Unsigned, d, p1, 4);
      var (ts, p3) :- ReadFloat(dl, d, p2);
      var (flags, p4) :- ReadNum(dl, Unsigned, d, p3);
      if h.count == 6 then Some((Event(h.fmt, head, ts, flags, None), p4))
      else
        var (w, p5) :- ReadWave(dl, d, p4);
        Some((Event(h.fmt, head, ts, flags, Some(w)), p5))
  }

  function ReadEvents(dl: Dialect, d: seq<byte>, p: nat, count: nat): (r: Option<(seq<Event>, nat)>)
    ensures r.Some? ==> |r.value.0| == count
    decreases count
  {
    if count == 0 then Some(([], p))
    else
      var (x, q) :- ReadEvent(dl, d, p);
      var (xs, z) :- ReadEvents(dl, d, q, count - 1);
      Some(([x] + xs, z))
  }

  /** Batch header: (array format, source id / sequence / timestamp, events header, offset). */
  function ReadBatchHead(dl: Dialect, d: seq<byte>, p: nat): (r: Option<(ArrFmt, seq<Num>, Hdr, nat)>)
    ensures r.Some? ==> |r.value.1| == 3
  {
    var (h, p1) :- DecodeHdr(d, p);
    if h.count != 4 then None
    else
      var (head, p2) :- ReadNums(dl, Unsigned, d, p1, 3);
      var (eh, p3) :- DecodeHdr(d, p2);
      Some((h.fmt, head, eh, p3))
  }

  function ReadBatch(dl: Dialect, d: seq<byte>, p: nat): (r: Option<(Batch, nat)>) {
    var (fmt, head, eh, p3) :- ReadBatchHead(dl, d, p);
    var (events, p4) :- ReadEvents(dl, d, p3, eh.count);
    Some((Batch(fmt, head, eh.fmt, events), p4))
  }

  // ---- The reader accepts only encodings ... ----

  lemma NumsSound(dl: Dialect, role: Role, d: seq<byte>, p: nat, count: nat)
    requires p <= |d| && ReadNums(dl, role, d, p, count).Some?
    ensures var (s, q) := ReadNums(dl, role, d, p, count).value;
            NumsOk(dl, role, s) && At(d, p, EncNums(s)) && q == p + |EncNums(s)|
    decreases count
  {
    hide DecodeNum, EncNum, Holds, Accepts;
    if count == 0 {
    } else {
      var (x, q) := ReadNum(dl, role, d, p).value;
      var (xs, z) := ReadNums(dl, role, d, q, count - 1).value;
      NumSound(d, p);
      NumsSound(dl, role, d, q, count - 1);
      assert ([x] + xs)[1..] == xs;
      AtAppend(d, p, EncNum(x), EncNums(xs));
    }
  }

  lemma ProbeSound(dl: Dialect, role: Role, d: seq<byte>, p: nat)
    requires ReadProbe(dl, role, d, p).Some?
    ensures var (x, q) := ReadProbe(dl, role, d, p).value;
            ProbeWf(role, x) && ProbeOk(dl, role, x) && At(d, p, EncProbe(role, x)) && q == p + |EncProbe(role, x)|
  {
    hide DecodeHdr, EncHdr, DecodeBin, EncBin, Holds, HoldsBin, Accepts, ReadNums, EncNums, NumsOk;
    if role.Unsigned? && p < |d| && d[p] in {0xc4, 0xc5, 0xc6} {
      BinSound(d, p);
    } else {
      var (h, q) := DecodeHdr(d, p).value;
      HdrExact(d, p, h, q);
      NumsSound(dl, role, d, q, h.count);
      AtAppend(d, p, EncHdr(h), EncNums(ReadNums(dl, role, d, q, h.count).value.0));
    }
  }

  lemma ProbesSound(dl: Dialect, d: seq<byte>, p: nat, i: nat, count: nat)
    requires p <= |d| && ReadProbes(dl, d, p, i, count).Some?
    ensures var (s, q) := ReadProbes(dl, d, p, i, count).value;
            ProbesWf(i, s) && ProbesOk(dl, i, s) && At(d, p, EncProbes(i, s)) && q == p + |EncProbes(i, s)|
    decreases count
  {
    hide ReadProbe, EncProbe, ProbeWf, ProbeOk, RoleOf, Holds, HoldsBin, HoldsCount;
    if count == 0 {
    } else {
      var (x, q) := ReadProbe(dl, RoleOf(i), d, p).value;
      var (xs, z) := ReadProbes(dl, d, q, i + 1, count - 1).value;
      ProbeSound(dl, RoleOf(i), d, p);
      ProbesSound(dl, d, q, i + 1, count - 1);
      assert ([x] + xs)[1..] == xs;
      AtAppend(d, p, EncProbe(RoleOf(i), x), EncProbes(i + 1, xs));
    }
  }

  lemma WaveSound(dl: Dialect, d: seq<byte>, p: nat)
    requires ReadWave(dl, d, p).Some?
    ensures var (w, q) := ReadWave(dl, d, p).value;
            WaveWf(w) && WaveOk(dl, w) && At(d, p, EncWave(w)) && q == p + |EncWave(w)|
  {
    hide DecodeHdr, EncHdr, ReadProbes, EncProbes, ProbesWf, ProbesOk, ReadNums, EncNums, NumsOk, EncFloat,
        DecodeFloat, Holds, HoldsBin;
    var (w, q) := ReadWave(dl, d, p).value;
    var (h, p1) := DecodeHdr(d, p).value;
    HdrExact(d, p, h, p1);
    var (probes, p2) := ReadProbes(dl, d, p1, 0, 6).value;
    ProbesSound(dl, d, p1, 0, 6);
    var (settings, p3) := ReadNums(dl, Unsigned, d, p2, 2).value;
    NumsSound(dl, Unsigned, d, p2, 2);
    if h.count == 9 {
      FloatSound(d, p3);
    }
    assert h == RawHdr(w.fmt, WaveCount(w));
    AtAppend(d, p2, EncNums(settings), EncNs(w.nsPerSample));
    AtAppend(d, p1, EncProbes(0, probes), EncNums(settings) + EncNs(w.nsPerSample));
    AtAppend(d, p, EncHdr(h), EncProbes(0, probes) + (EncNums(settings) + EncNs(w.nsPerSample)));
  }

  /** The parts of an event one after another. */
  lemma EventAssembled(d: seq<byte>, p: nat, p1: nat, p2: nat, p3: nat, p4: nat, e: Event)
    requires EventWf(e)
    requires At(d, p, EncHdr(RawHdr(e.fmt, EventCount(e)))) && p1 == p + |EncHdr(RawHdr(e.fmt, EventCount(e)))|
    requires At(d, p1, EncNums(e.head)) && p2 == p1 + |EncNums(e.head)|
    requires At(d, p2, EncFloat(e.timestamp)) && p3 == p2 + |EncFloat(e.timestamp)|
    requires At(d, p3, EncNum(e.flags)) && p4 == p3 + |EncNum(e.flags)|
    requires At(d, p4, EncWaveOpt(e.wave))
    ensures At(d, p, EncEvent(e)) && p4 + |EncWaveOpt(e.wave)| == p + |EncEvent(e)|
  {
    hide At, EncHdr, EncNums, EncFloat, EncNum, EncWaveOpt, WaveWf;
    var t4 := EncWaveOpt(e.wave);
    var t3 := EncNum(e.flags) + t4;
    var t2 := EncFloat(e.timestamp) + t3;
    AtAppend(d, p3, EncNum(e.flags), t4);
    AtAppend(d, p2, EncFloat(e.timestamp), t3);
    AtAppend(d, p1, EncNums(e.head), t2);
    AtAppend(d, p, EncHdr(RawHdr(e.fmt, EventCount(e))), EncNums(e.head) + t2);
  }

  lemma EventSound(dl: Dialect, d: seq<byte>, p: nat)
    requires ReadEvent(dl, d, p).Some?
    ensures var (e, q) := ReadEvent(dl, d, p).value;
            EventWf(e) && EventOk(dl, e) && At(d, p, EncEvent(e)) && q == p + |EncEvent(e)|
  {
    hide DecodeHdr, EncHdr, ReadWave, EncWave, WaveWf, WaveOk, ReadNums, EncNums, NumsOk, EncFloat, DecodeFloat,
         EncNum, DecodeNum, Holds, Accepts, At, EncEvent;
    var (e, q) := ReadEvent(dl, d, p).value;
    var (h, p1) := DecodeHdr(d, p).value;
    HdrExact(d, p, h, p1);
    EmptyBehind(d, p, EncHdr(h));
    var (head, p2) := ReadNums(dl, Unsigned, d, p1, 4).value;
    NumsSound(dl, Unsigned, d, p1, 4);
    var (ts, p3) := ReadFloat(dl, d, p2).value;
    FloatSound(d, p2);
    var (flags, p4) := ReadNum(dl, Unsigned, d, p3).value;
    NumSound(d, p3);
    if h.count == 7 {
      WaveSound(dl, d, p4);
    } else {
      EmptyBehind(d, p3, EncNum(flags));
    }
    assert h == RawHdr(e.fmt, EventCount(e));
    EventAssembled(d, p, p1, p2, p3, p4, e);
  }

  lemma EmptyBehind(d: seq<byte>, p: nat, s: seq<byte>)
    requires At(d, p, s)
    ensures p + |s| <= |d| && At(d, p + |s|, [])
  {
  }

  lemma EventsSound(dl: Dialect, d: seq<byte>, p: nat, count: nat)
    requires p <= |d| && ReadEvents(dl, d, p, count).Some?
    ensures var (s, q) := ReadEvents(dl, d, p, count).value;
            EventsWf(s) && EventsOk(dl, s) && At(d, p, EncEvents(s)) && q == p + |EncEvents(s)|
    decreases count
  {
    hide ReadEvent, EncEvent, EventWf, EventOk;
    if count == 0 {
    } else {
      var (x, q) := ReadEvent(dl, d, p).value;
      var (xs, z) := ReadEvents(dl, d, q, count - 1).value;
      EventSound(dl, d, p);
      EventsSound(dl, d, q, count - 1);
      assert ([x] + xs)[1..] == xs;
      AtAppend(d, p, EncEvent(x), EncEvents(xs));
    }
  }

  /** The parts of a batch one after another. */
  lemma BatchAssembled(d: seq<byte>, p: nat, p1: nat, p2: nat, p3: nat, b: Batch)
    requires BatchWf(b)
    requires At(d, p, EncHdr(RawHdr(b.fmt, 4))) && p1 == p + |EncHdr(RawHdr(b.fmt, 4))|
    requires At(d, p1, EncNums(b.head)) && p2 == p1 + |EncNums(b.head)|
    requires At(d, p2, EncHdr(RawHdr(b.eventsFmt, |b.events|)))
    requires p3 == p2 + |EncHdr(RawHdr(b.eventsFmt, |b.events|))| && At(d, p3, EncEvents(b.events))
    ensures At(d, p, EncBatch(b)) && p3 + |EncEvents(b.events)| == p + |EncBatch(b)|
  {
    hide At, EncHdr, EncNums, EncEvents, EventsWf;
    var eh, t3 := EncHdr(RawHdr(b.eventsFmt, |b.events|)), EncEvents(b.events);
    AtAppend(d, p2, eh, t3);
    AtAppend(d, p1, EncNums(b.head), eh + t3);
    AtAppend(d, p, EncHdr(RawHdr(b.fmt, 4)), EncNums(b.head) + (eh + t3));
  }

  lemma BatchSound(dl: Dialect, d: seq<byte>, p: nat)
    requires ReadBatch(dl, d, p).Some?
    ensures var (b, q) := ReadBatch(dl, d, p).value;
            BatchWf(b) && BatchOk(dl, b) && At(d, p, EncBatch(b)) && q == p + |EncBatch(b)|
  {
    hide DecodeHdr, EncHdr, ReadEvents, EncEvents, EventsWf, EventsOk, ReadNums, EncNums, NumsOk, Holds, At, EncBatch;
    var (b, q) := ReadBatch(dl, d, p).value;
    var (h, p1) := DecodeHdr(d, p).value;
    HdrExact(d, p, h, p1);
    EmptyBehind(d, p, EncHdr(h));
    var (head, p2) := ReadNums(dl, Unsigned, d, p1, 3).value;
    NumsSound(dl, Unsigned, d, p1, 3);
    var (eh, p3) := DecodeHdr(d, p2).value;
    HdrExact(d, p2, eh, p3);
    EmptyBehind(d, p2, EncHdr(eh));
    EventsSound(dl, d, p3, eh.count);
    assert h == RawHdr(b.fmt, 4) && eh == RawHdr(b.eventsFmt, |b.events|);
    BatchAssembled(d, p, p1, p2, p3, b);
  }

  // ---- ... and every encoding its dialect takes ----

  lemma NumsComplete(dl: Dialect, role: Role, d: seq<byte>, p: nat, s: seq<Num>)
    requires NumsOk(dl, role, s) && At(d, p, EncNums(s))
    ensures ReadNums(dl, role, d, p, |s|) == Some((s, p + |EncNums(s)|))
    decreases |s|
  {
    hide DecodeNum, EncNum, Holds, Accepts, At;
    if s == [] {
    } else {
      AtAppend(d, p, EncNum(s[0]), EncNums(s[1..]));
      NumComplete(d, p, s[0]);
      NumsComplete(dl, role, d, p + |EncNum(s[0])|, s[1..]);
      assert [s[0]] + s[1..] == s;
    }
  }

  lemma ProbeComplete(dl: Dialect, role: Role, d: seq<byte>, p: nat, x: Probe)
    requires ProbeWf(role, x) && ProbeOk(dl, role, x) && At(d, p, EncProbe(role, x))
    ensures ReadProbe(dl, role, d, p) == Some((x, p + |EncProbe(role, x)|))
  {
    hide DecodeHdr, EncHdr, DecodeBin, EncBin, Holds, HoldsBin, Accepts, ReadNums, EncNums, NumsOk;
    if x.AsBin? {
      BinComplete(d, p, x.bin);
      BinTag(d, p);
    } else {
      var h := RawHdr(x.fmt, |x.elems|);
      AtAppend(d, p, EncHdr(h), EncNums(x.elems));
      HdrExact(d, p, h, p + |EncHdr(h)|);
      HdrTag(d, p);
      NumsComplete(dl, role, d, p + |EncHdr(h)|, x.elems);
    }
  }

  lemma ProbesComplete(dl: Dialect, d: seq<byte>, p: nat, i: nat, s: seq<Probe>)
    requires ProbesWf(i, s) && ProbesOk(dl, i, s) && At(d, p, EncProbes(i, s))
    ensures ReadProbes(dl, d, p, i, |s|) == Some((s, p + |EncProbes(i, s)|))
    decreases |s|
  {
    hide ReadProbe, EncProbe, ProbeWf, ProbeOk, RoleOf, Holds, HoldsBin, HoldsCount;
    if s == [] {
    } else {
      var x := EncProbe(RoleOf(i), s[0]);
      AtAppend(d, p, x, EncProbes(i + 1, s[1..]));
      ProbeComplete(dl, RoleOf(i), d, p, s[0]);
      ProbesComplete(dl, d, p + |x|, i + 1, s[1..]);
      assert [s[0]] + s[1..] == s;
    }
  }

  lemma WaveComplete(dl: Dialect, d: seq<byte>, p: nat, w: Wave)
    requires WaveWf(w) && WaveOk(dl, w) && At(d, p, EncWave(w))
    ensures ReadWave(dl, d, p) == Some((w, p + |EncWave(w)|))
  {
    hide DecodeHdr, EncHdr, ReadProbes, EncProbes, ProbesWf, ProbesOk, ReadNums, EncNums, NumsOk, EncFloat,
        DecodeFloat, Holds, HoldsBin;
    var h := RawHdr(w.fmt, WaveCount(w));
    var t2 := EncNums(w.settings) + EncNs(w.nsPerSample);
    var t1 := EncProbes(0, w.probes) + t2;
    AtAppend(d, p, EncHdr(h), t1);
    var p1 := p + |EncHdr(h)|;
    HdrExact(d, p, h, p1);
    AtAppend(d, p1, EncProbes(0, w.probes), t2);
    ProbesComplete(dl, d, p1, 0, w.probes);
    var p2 := p1 + |EncProbes(0, w.probes)|;
    AtAppend(d, p2, EncNums(w.settings), EncNs(w.nsPerSample));
    NumsComplete(dl, Unsigned, d, p2, w.settings);
    if w.nsPerSample.Some? {
      var p3 := p2 + |EncNums(w.settings)|;
      FloatExact(d, p3, w.nsPerSample.value, p3 + |EncNs(w.nsPerSample)|);
    }
  }

  lemma EventComplete(dl: Dialect, d: seq<byte>, p: nat, e: Event)
    requires EventWf(e) && EventOk(dl, e) && At(d, p, EncEvent(e))
    ensures ReadEvent(dl, d, p) == Some((e, p + |EncEvent(e)|))
  {
    hide DecodeHdr, EncHdr, ReadWave, EncWave, WaveWf, WaveOk, ReadNums, EncNums, NumsOk, EncFloat, DecodeFloat,
        EncNum, DecodeNum, Holds, Accepts;
    var h := RawHdr(e.fmt, EventCount(e));
    var t4 := EncWaveOpt(e.wave);
    var t3 := EncNum(e.flags) + t4;
    var t2 := EncFloat(e.timestamp) + t3;
    AtAppend(d, p, EncHdr(h), EncNums(e.head) + t2);
    var p1 := p + |EncHdr(h)|;
    HdrExact(d, p, h, p1);
    AtAppend(d, p1, EncNums(e.head), t2);
    NumsComplete(dl, Unsigned, d, p1, e.head);
    var p2 := p1 + |EncNums(e.head)|;
    AtAppend(d, p2, EncFloat(e.timestamp), t3);
    var p3 := p2 + |EncFloat(e.timestamp)|;
    FloatExact(d, p2, e.timestamp, p3);
    AtAppend(d, p3, EncNum(e.flags), t4);
    NumComplete(d, p3, e.flags);
    if e.wave.Some? {
      WaveComplete(dl, d, p3 + |EncNum(e.flags)|, e.wave.value);
    }
  }

  lemma EventsComplete(dl: Dialect, d: seq<byte>, p: nat, s: seq<Event>)
    requires EventsWf(s) && EventsOk(dl, s) && At(d, p, EncEvents(s))
    ensures ReadEvents(dl, d, p, |s|) == Some((s, p + |EncEvents(s)|))
    decreases |s|
  {
    hide ReadEvent, EncEvent, EventWf, EventOk, At;
    if s == [] {
    } else {
      AtAppend(d, p, EncEvent(s[0]), EncEvents(s[1..]));
      EventComplete(dl, d, p, s[0]);
      EventsComplete(dl, d, p + |EncEvent(s[0])|, s[1..]);
      assert [s[0]] + s[1..] == s;
    }
  }

  lemma BatchComplete(dl: Dialect, d: seq<byte>, p: nat, b: Batch)
    requires BatchWf(b) && BatchOk(dl, b) && At(d, p, EncBatch(b))
    ensures ReadBatch(dl, d, p) == Some((b, p + |EncBatch(b)|))
  {
    hide DecodeHdr, EncHdr, ReadEvents, EncEvents, EventsWf, EventsOk, ReadNums, EncNums, NumsOk, Holds;
    var h := RawHdr(b.fmt, 4);
    var eh := RawHdr(b.eventsFmt, |b.events|);
    var t3 := EncEvents(b.events);
    AtAppend(d, p, EncHdr(h), EncNums(b.head) + (EncHdr(eh) + t3));
    var p1 := p + |EncHdr(h)|;
    HdrExact(d, p, h, p1);
    AtAppend(d, p1, EncNums(b.head), EncHdr(eh) + t3);
    NumsComplete(dl, Unsigned, d, p1, b.head);
    var p2 := p1 + |EncNums(b.head)|;
    AtAppend(d, p2, EncHdr(eh), t3);
    HdrExact(d, p2, eh, p2 + |EncHdr(eh)|);
    EventsComplete(dl, d, p2 + |EncHdr(eh)|, b.events);
  }

  // ---- Main results about the syntax ----

  /** A dialect reads a batch at `p` exactly when the encoding of that batch,
      written only in formats of the dialect, stands there; and it stops behind it. */
  lemma BatchExact(dl: Dialect, d: seq<byte>, p: nat, b: Batch, q: nat)
    ensures ReadBatch(dl, d, p) == Some((b, q)) <==>
            BatchWf(b) && BatchOk(dl, b) && At(d, p, EncBatch(b)) && q == p + |EncBatch(b)|
  {
    hide ReadBatch, EncBatch, BatchWf, BatchOk;
    if ReadBatch(dl, d, p) == Some((b, q)) { BatchSound(dl, d, p); }
    if BatchWf(b) && BatchOk(dl, b) && At(d, p, EncBatch(b)) { BatchComplete(dl, d, p, b); }
  }

  lemma EventsFull(s: seq<Event>)
    ensures EventsOk(Full, s)
  {
    if s != [] {
      if s[0].wave.Some? { ProbesFull(0, s[0].wave.value.probes); }
      EventsFull(s[1..]);
    }
  }

  lemma ProbesFull(i: nat, s: seq<Probe>)
    ensures ProbesOk(Full, i, s)
    decreases |s|
  {
    if s != [] { ProbesFull(i + 1, s[1..]); }
  }

  /** No two batches, in whatever formats, have encodings that both stand at one offset. */
  lemma EncodingUnique(d: seq<byte>, p: nat, a: Batch, b: Batch)
    requires BatchWf(a) && BatchWf(b) && At(d, p, EncBatch(a)) && At(d, p, EncBatch(b))
    ensures a == b
  {
    EventsFull(a.events);
    EventsFull(b.events);
    BatchComplete(Full, d, p, a);
    BatchComplete(Full, d, p, b);
  }

  /** On a legal encoding of any batch a dialect returns that batch or nothing,
      and it returns it exactly when every format used is one it takes. */
  lemma ReadsIffSupported(dl: Dialect, pre: seq<byte>, b: Batch, post: seq<byte>)
    requires BatchWf(b)
    ensures ReadBatch(dl, pre + EncBatch(b) + post, |pre|) ==
            if BatchOk(dl, b) then Some((b, |pre| + |EncBatch(b)|)) else None
  {
    hide ReadBatch, EncBatch, BatchWf, BatchOk;
    var d := pre + EncBatch(b) + post;
    AtFrame(pre, EncBatch(b), post);
    if BatchOk(dl, b) {
      BatchComplete(dl, d, |pre|, b);
    } else if ReadBatch(dl, d, |pre|).Some? {
      BatchSound(dl, d, |pre|);
      EncodingUnique(d, |pre|, b, ReadBatch(dl, d, |pre|).value.0);
      assert false;
    }
  }

  // ---- Legal batches that the C++ readers reject ----

  const ZERO_NUM: Num := RawNum(PosFix, 0)
  const NO_SAMPLES := AsArray(FixArr, [])

  function OneEvent(e: Event): (b: Batch) { Batch(FixArr, [ZERO_NUM, ZERO_NUM, ZERO_NUM], FixArr, [e]) }

  /** An event without waveform and with this timestamp. */
  function TimedEvent(ts: Float): (e: Event) {
    Event(FixArr, [ZERO_NUM, ZERO_NUM, ZERO_NUM, ZERO_NUM], ts, ZERO_NUM, None)
  }

  /** An event with a waveform of one analog sample. */
  function SampledEvent(sample: Num): (e: Event) {
    Event(FixArr, [ZERO_NUM, ZERO_NUM, ZERO_NUM, ZERO_NUM], F64(0), ZERO_NUM,
          Some(Wave(FixArr, [AsArray(FixArr, [sample]), NO_SAMPLES, NO_SAMPLES, NO_SAMPLES, NO_SAMPLES, NO_SAMPLES],
                    [ZERO_NUM, ZERO_NUM], None)))
  }

  lemma OneEventWf(e: Event)
    requires EventWf(e)
    ensures BatchWf(OneEvent(e))
    ensures !EventOk(Reader, e) ==> !BatchOk(Reader, OneEvent(e))
  {
    hide EventWf, EventOk;
    assert [e][1..] == [] && [e][0] == e;
    assert EventsWf([e]) && (EventsOk(Reader, [e]) ==> EventOk(Reader, e));
  }

  /** "Every legal width is read" is false of the code: a timestamp in 32 bits and a
      sample in the int 64 format are legal, and their batches are rejected. */
  lemma LegalWidthsRejected(bits: u32, sample: int)
    requires -0x8000 <= sample < 0x8000
    ensures BatchWf(OneEvent(TimedEvent(F32(bits))))
    ensures ReadBatch(Reader, EncBatch(OneEvent(TimedEvent(F32(bits)))), 0).None?
    ensures BatchWf(OneEvent(SampledEvent(RawNum(I64, sample))))
    ensures ReadBatch(Reader, EncBatch(OneEvent(SampledEvent(RawNum(I64, sample)))), 0).None?
  {
    hide ReadBatch, EncBatch, BatchWf, BatchOk;
    Rejected(TimedEvent(F32(bits)));
    SampledWf(RawNum(I64, sample));
    Rejected(SampledEvent(RawNum(I64, sample)));
  }

  lemma SampledWf(sample: Num)
    ensures EventWf(SampledEvent(sample))
    ensures sample.fmt == I64 ==> !EventOk(Reader, SampledEvent(sample))
  {
    var probes := [AsArray(FixArr, [sample]), NO_SAMPLES, NO_SAMPLES, NO_SAMPLES, NO_SAMPLES, NO_SAMPLES];
    EmptyProbes(1, probes[1..]);
    assert ProbesWf(0, probes);
    assert probes[0].elems[0].fmt == sample.fmt;
    assert ProbesOk(Reader, 0, probes) ==> ProbeOk(Reader, Signed, probes[0]);
  }

  lemma {:induction false} EmptyProbes(i: nat, s: seq<Probe>)
    requires forall k :: 0 <= k < |s| ==> s[k] == NO_SAMPLES
    ensures ProbesWf(i, s)
    decreases |s|
  {
    if s == [] {
    } else {
      EmptyProbes(i + 1, s[1..]);
    }
  }

  lemma Rejected(e: Event)
    requires EventWf(e) && !EventOk(Reader, e)
    ensures BatchWf(OneEvent(e)) && ReadBatch(Reader, EncBatch(OneEvent(e)), 0).None?
  {
    hide ReadBatch, EncBatch, BatchWf, BatchOk, EventWf, EventOk;
    OneEventWf(e);
    ReadsIffSupported(Reader, [], OneEvent(e), []);
    assert [] + EncBatch(OneEvent(e)) + [] == EncBatch(OneEvent(e));
  }
}
