/** What the serializer writes for the v2 types: every integer in its shortest
    format, every float in 64 bits. Such blocks are always readable. */
module DelilaWriter {
  import opened Bytes
  import opened MsgPack
  import opened DelilaSyntax
  import opened DelilaReader
  import opened DelilaFile

  const MAX32 := 0x1_0000_0000
  const MAX64 := 0x1_0000_0000_0000_0000

  datatype BatchVal = BatchVal(sourceId: u32, sequence: u64, timestamp: u64, events: seq<EventVal>)

  // ---- Values of the v2 types ----

  predicate AnalogIsV2(s: seq<int>) { |s| < MAX32 && forall i :: 0 <= i < |s| ==> IsI16(s[i]) }

  predicate WaveIsV2(w: WaveVal) {
    && AnalogIsV2(w.analog1) && AnalogIsV2(w.analog2)
    && |w.digital1| < MAX32 && |w.digital2| < MAX32 && |w.digital3| < MAX32 && |w.digital4| < MAX32
    && IsU16(w.triggerThreshold) && (w.nsPerSample.Some? ==> w.nsPerSample.value < MAX64)
  }

  predicate EventIsV2(e: EventVal) {
    && IsU16(e.energy) && IsU16(e.energyShort) && e.timestampBits < MAX64 && 0 <= e.flags < MAX64
    && (e.wave.Some? ==> WaveIsV2(e.wave.value))
  }

  predicate EventsAreV2(s: seq<EventVal>) { s == [] || (EventIsV2(s[0]) && EventsAreV2(s[1..])) }

  predicate BatchIsV2(b: BatchVal) { |b.events| < MAX32 && EventsAreV2(b.events) }

  // ---- The writer ----

  function ShortArr(n: nat): (f: ArrFmt)
    requires n < MAX32
    ensures HoldsCount(RawHdr(f, n))
  {
    if n < 0x10 then FixArr else if n < 0x1_0000 then Arr16 else Arr32
  }

  function WriteAnalog(s: seq<int>): (x: Probe)
    requires AnalogIsV2(s)
  {
    AsArray(ShortArr(|s|), seq(|s|, i requires 0 <= i < |s| => CompactI16(s[i])))
  }

  /** Bytes as a binary string or, as by default, as an array of integers. */
  function WriteDigital(s: seq<byte>, asBin: bool): (x: Probe)
    requires |s| < MAX32
  {
    if !asBin then AsArray(ShortArr(|s|), seq(|s|, i requires 0 <= i < |s| => Compact(s[i])))
    else AsBin(RawBin(if |s| < 0x100 then Bin8 else if |s| < 0x1_0000 then Bin16 else Bin32, s))
  }

  function WriteWave(w: WaveVal, asBin: bool): (r: Wave)
    requires WaveIsV2(w)
  {
    Wave(FixArr,
         [WriteAnalog(w.analog1), WriteAnalog(w.analog2),
          WriteDigital(w.digital1, asBin), WriteDigital(w.digital2, asBin),
          WriteDigital(w.digital3, asBin), WriteDigital(w.digital4, asBin)],
         [Compact(w.timeResolution), Compact(w.triggerThreshold)],
         if w.nsPerSample.Some? then Some(F64(w.nsPerSample.value)) else None)
  }

  function WriteEvent(e: EventVal, asBin: bool): (r: Event)
    requires EventIsV2(e)
  {
    Event(FixArr, [Compact(e.module_), Compact(e.channel), Compact(e.energy), Compact(e.energyShort)],
          F64(e.timestampBits), Compact(e.flags),
          if e.wave.Some? then Some(WriteWave(e.wave.value, asBin)) else None)
  }

  function WriteEvents(s: seq<EventVal>, asBin: bool): (r: seq<Event>)
    requires EventsAreV2(s)
    ensures |r| == |s|
  {
    if s == [] then [] else [WriteEvent(s[0], asBin)] + WriteEvents(s[1..], asBin)
  }

  function WriteBatch(b: BatchVal, asBin: bool): (r: Batch)
    requires BatchIsV2(b)
  {
    Batch(FixArr, [Compact(b.sourceId), Compact(b.sequence), Compact(b.timestamp)],
          ShortArr(|b.events|), WriteEvents(b.events, asBin))
  }

  // ---- What is written is readable, and read back unchanged ----

  lemma CompactRead(v: u64)
    ensures Accepts(Reader, Unsigned, Compact(v).fmt) && Accepts(Reader, Signed, Compact(v).fmt) && Compact(v).v == v
  {
  }

  lemma AnalogRead(s: seq<int>)
    requires AnalogIsV2(s)
    ensures ProbeWf(Signed, WriteAnalog(s)) && ProbeOk(Reader, Signed, WriteAnalog(s))
    ensures AnalogVal(WriteAnalog(s)) == s
  {
    hide HoldsCount, ShortArr;
  }

  lemma DigitalRead(s: seq<byte>, asBin: bool)
    requires |s| < MAX32
    ensures ProbeWf(Unsigned, WriteDigital(s, asBin)) && ProbeOk(Reader, Unsigned, WriteDigital(s, asBin))
    ensures DigitalVal(WriteDigital(s, asBin)) == s
  {
    hide HoldsCount, ShortArr;
  }

  /** Six probes of the right roles. */
  lemma SixProbes(a: Probe, b: Probe, c: Probe, d: Probe, e: Probe, f: Probe)
    requires ProbeWf(Signed, a) && ProbeOk(Reader, Signed, a) && ProbeWf(Signed, b) && ProbeOk(Reader, Signed, b)
    requires ProbeWf(Unsigned, c) && ProbeOk(Reader, Unsigned, c)
    requires ProbeWf(Unsigned, d) && ProbeOk(Reader, Unsigned, d)
    requires ProbeWf(Unsigned, e) && ProbeOk(Reader, Unsigned, e)
    requires ProbeWf(Unsigned, f) && ProbeOk(Reader, Unsigned, f)
    ensures ProbesWf(0, [a, b, c, d, e, f]) && ProbesOk(Reader, 0, [a, b, c, d, e, f])
  {
    hide ProbeWf, ProbeOk;
    OneProbe(5, f, []);
    OneProbe(4, e, [f]);
    OneProbe(3, d, [e, f]);
    OneProbe(2, c, [d, e, f]);
    OneProbe(1, b, [c, d, e, f]);
    OneProbe(0, a, [b, c, d, e, f]);
    assert [a] + [b, c, d, e, f] == [a, b, c, d, e, f];
    assert [b] + [c, d, e, f] == [b, c, d, e, f] && [c] + [d, e, f] == [c, d, e, f];
    assert [d] + [e, f] == [d, e, f] && [e] + [f] == [e, f] && [f] + [] == [f];
  }

  lemma OneProbe(i: nat, x: Probe, rest: seq<Probe>)
    requires ProbeWf(RoleOf(i), x) && ProbeOk(Reader, RoleOf(i), x)
    ensures ProbesWf(i + 1, rest) && ProbesOk(Reader, i + 1, rest) ==>
              ProbesWf(i, [x] + rest) && ProbesOk(Reader, i, [x] + rest)
    ensures rest == [] ==> ProbesWf(i, [x] + rest) && ProbesOk(Reader, i, [x] + rest)
  {
    hide ProbeWf, ProbeOk, RoleOf;
    assert ([x] + rest)[1..] == rest;
  }

  lemma WaveRead(w: WaveVal, asBin: bool)
    requires WaveIsV2(w)
    ensures WaveWf(WriteWave(w, asBin)) && WaveOk(Reader, WriteWave(w, asBin)) && WaveOf(WriteWave(w, asBin)) == w
  {
    hide AnalogIsV2, WriteAnalog, WriteDigital, AnalogVal, DigitalVal, ProbeWf, ProbeOk, Compact, ProbesWf, ProbesOk;
    AnalogRead(w.analog1);
    AnalogRead(w.analog2);
    DigitalRead(w.digital1, asBin);
    DigitalRead(w.digital2, asBin);
    DigitalRead(w.digital3, asBin);
    DigitalRead(w.digital4, asBin);
    SixProbes(WriteAnalog(w.analog1), WriteAnalog(w.analog2),
              WriteDigital(w.digital1, asBin), WriteDigital(w.digital2, asBin),
              WriteDigital(w.digital3, asBin), WriteDigital(w.digital4, asBin));
    CompactRead(w.timeResolution);
    CompactRead(w.triggerThreshold);
  }

  lemma EventRead(e: EventVal, asBin: bool)
    requires EventIsV2(e)
    ensures EventWf(WriteEvent(e, asBin)) && EventOk(Reader, WriteEvent(e, asBin)) && EventOf(WriteEvent(e, asBin)) == e
  {
    hide WaveIsV2, WriteWave, WaveWf, WaveOk, WaveOf, Compact;
    CompactRead(e.module_);
    CompactRead(e.channel);
    CompactRead(e.energy);
    CompactRead(e.energyShort);
    CompactRead(e.flags);
    if e.wave.Some? { WaveRead(e.wave.value, asBin); }
  }

  lemma {:induction false} EventsRead(s: seq<EventVal>, asBin: bool)
    requires EventsAreV2(s)
    ensures EventsWf(WriteEvents(s, asBin)) && EventsOk(Reader, WriteEvents(s, asBin))
    ensures EventsOf(WriteEvents(s, asBin)) == s
    decreases |s|
  {
    hide EventIsV2, WriteEvent, EventWf, EventOk, EventOf;
    if s == [] {
    } else {
      EventRead(s[0], asBin);
      EventsRead(s[1..], asBin);
    }
  }

  /** Every batch of the v2 types is written in formats that the reader takes, and
      reading gives back its events unchanged. */
  lemma BatchRead(b: BatchVal, asBin: bool)
    requires BatchIsV2(b)
    ensures BatchWf(WriteBatch(b, asBin)) && BatchOk(Reader, WriteBatch(b, asBin))
    ensures EventsOf(WriteBatch(b, asBin).events) == b.events
  {
    hide EventsAreV2, WriteEvents, EventsWf, EventsOk, EventsOf, Compact;
    EventsRead(b.events, asBin);
    CompactRead(b.sourceId);
    CompactRead(b.sequence);
    CompactRead(b.timestamp);
  }

  // ---- A file the program wrote ----

  predicate BatchesAreV2(bs: seq<BatchVal>) { forall i :: 0 <= i < |bs| ==> BatchIsV2(bs[i]) }

  function WriteBatches(bs: seq<BatchVal>, asBin: bool): (r: seq<Batch>)
    requires BatchesAreV2(bs)
    ensures |r| == |bs|
  {
    if bs == [] then [] else [WriteBatch(bs[0], asBin)] + WriteBatches(bs[1..], asBin)
  }

  function AllEvents(bs: seq<BatchVal>): (es: seq<EventVal>) {
    if bs == [] then [] else bs[0].events + AllEvents(bs[1..])
  }

  predicate Admissible(batches: seq<Batch>)
    requires Blocks(batches)
  {
    forall i :: 0 <= i < |batches| ==> |EncBatch(batches[i])| <= 100_000_000
  }

  lemma {:induction false} AllReadable(bs: seq<BatchVal>, asBin: bool)
    requires BatchesAreV2(bs) && Blocks(WriteBatches(bs, asBin)) && Admissible(WriteBatches(bs, asBin))
    ensures ReadableEvents(WriteBatches(bs, asBin)) == AllEvents(bs)
    decreases |bs|
  {
    hide BatchIsV2, WriteBatch, BatchWf, BatchOk, EventsOf, EncBatch;
    if bs == [] {
    } else {
      BatchRead(bs[0], asBin);
      assert WriteBatches(bs, asBin)[1..] == WriteBatches(bs[1..], asBin);
      AllReadable(bs[1..], asBin);
    }
  }

  /** Main result: a file of v2 batches whose blocks are of admissible length gives
      back all its events, with every field and sample unchanged. */
  lemma WrittenFileRead(metadata: seq<byte>, bs: seq<BatchVal>, asBin: bool, footer: seq<byte>)
    requires |metadata| < MAX32 && |footer| == 64
    requires BatchesAreV2(bs) && Blocks(WriteBatches(bs, asBin)) && Admissible(WriteBatches(bs, asBin))
    ensures var file := FileBytes(metadata, WriteBatches(bs, asBin), footer);
            && DataStart(file).Some?
            && BlockEvents(file, DataStart(file).value, |file| - 64) == AllEvents(bs)
  {
    hide BatchesAreV2, Blocks, Admissible, WriteBatches, FileBytes, DataStart, BlockEvents, ReadableEvents, AllEvents;
    FileRoundTrip(metadata, WriteBatches(bs, asBin), footer);
    AllReadable(bs, asBin);
  }
}
