/** `convert_to_tree.C`: the second decoder of the same blocks. It writes each
    event into fixed branch buffers of MAX_WAVEFORM_SAMPLES entries, cutting
    longer probes, and takes waveforms of eight elements only. Its primitive
    readers are those of `read_delila.C`, word for word. */
module ConvertToTree {
  import opened Bytes
  import opened MsgPack
  import opened DelilaSyntax
  import opened DelilaReader

  const MAX_WAVEFORM_SAMPLES := 16384

  function Min(a: int, b: int): int { if a < b then a else b }

  /** `static_cast<int>(size)` for a size below 2^32. */
  function CastInt(size: nat): (r: int) { Unwrap(size % 0x1_0000_0000, 0x1_0000_0000) }

  function Cut<T>(s: seq<T>): (r: seq<T>)
    ensures r <= s && |r| == if |s| < 16384 then |s| else 16384
  {
    s[..Min(|s|, MAX_WAVEFORM_SAMPLES)]
  }

  /** The branch variables and buffers of the tree. */
  class Branches {
    var module_: byte
    var channel: byte
    var energy: nat
    var energyShort: nat
    var timestampBits: nat
    var flags: int
    var hasWaveform: bool
    var nAnalog1: int
    var nAnalog2: int
    var nDigital1: int
    var nDigital2: int
    var nDigital3: int
    var nDigital4: int
    var timeResolution: byte
    var triggerThreshold: nat
    const analog1: array<int>
    const analog2: array<int>
    const digital1: array<byte>
    const digital2: array<byte>
    const digital3: array<byte>
    const digital4: array<byte>

    /** Six separate buffers of the fixed size. */
    ghost predicate Valid() {
      && analog1.Length == analog2.Length == MAX_WAVEFORM_SAMPLES
      && digital1.Length == digital2.Length == digital3.Length == digital4.Length == MAX_WAVEFORM_SAMPLES
      && analog1 != analog2
      && digital1 != digital2 && digital1 != digital3 && digital1 != digital4
      && digital2 != digital3 && digital2 != digital4 && digital3 != digital4
    }

    ghost function Buffers(): set<object> {
      {analog1 as object, analog2 as object, digital1 as object, digital2 as object, digital3 as object,
          digital4 as object}
    }

    constructor ()
      ensures Valid() && fresh(Buffers())
    {
      module_, channel, energy, energyShort, timestampBits, flags := 0, 0, 0, 0, 0, 0;
      hasWaveform, nAnalog1, nAnalog2 := false, 0, 0;
      nDigital1, nDigital2, nDigital3, nDigital4 := 0, 0, 0, 0;
      timeResolution, triggerThreshold := 0, 0;
      analog1 := new int[MAX_WAVEFORM_SAMPLES];
      analog2 := new int[MAX_WAVEFORM_SAMPLES];
      digital1 := new byte[MAX_WAVEFORM_SAMPLES];
      digital2 := new byte[MAX_WAVEFORM_SAMPLES];
      digital3 := new byte[MAX_WAVEFORM_SAMPLES];
      digital4 := new byte[MAX_WAVEFORM_SAMPLES];
    }

    ghost predicate ShowsAnalog(x1: Probe, x2: Probe)
      reads this, analog1, analog2
    {
      && Shows(analog1[..], nAnalog1, AnalogVal(x1))
      && Shows(analog2[..], nAnalog2, AnalogVal(x2))
    }

    ghost predicate ShowsDigital(x1: Probe, x2: Probe, x3: Probe, x4: Probe)
      reads this, digital1, digital2, digital3, digital4
    {
      && Shows(digital1[..], nDigital1, DigitalVal(x1))
      && Shows(digital2[..], nDigital2, DigitalVal(x2))
      && Shows(digital3[..], nDigital3, DigitalVal(x3))
      && Shows(digital4[..], nDigital4, DigitalVal(x4))
    }

    /** The waveform branches hold `w`, each probe cut to the buffer size. */
    ghost predicate ShowsWave(w: Wave)
      requires Valid() && WaveWf(w)
      reads this, Buffers()
    {
      && ShowsAnalog(w.probes[0], w.probes[1])
      && ShowsDigital(w.probes[2], w.probes[3], w.probes[4], w.probes[5])
      && timeResolution == CastU8(w.settings[0].v)
      && triggerThreshold == CastU16(w.settings[1].v)
    }

    /** The waveform branches start empty. */
    method ClearWave()
      modifies `nAnalog1, `nAnalog2, `nDigital1, `nDigital2, `nDigital3, `nDigital4, `timeResolution, `triggerThreshold
      ensures nAnalog1 == nAnalog2 == nDigital1 == nDigital2 == nDigital3 == nDigital4 == 0
      ensures timeResolution == 0 && triggerThreshold == 0
    {
      nAnalog1, nAnalog2 := 0, 0;
      nDigital1, nDigital2, nDigital3, nDigital4 := 0, 0, 0, 0;
      timeResolution, triggerThreshold := 0, 0;
    }

    /** The scalar branches of an event. */
    method SetScalars(m: nat, c: nat, e: nat, es: nat, ts: nat, fl: int, wave: bool)
      modifies this
      ensures module_ == CastU8(m) && channel == CastU8(c) && energy == CastU16(e) && energyShort == CastU16(es)
      ensures timestampBits == ts && flags == fl && hasWaveform == wave
      ensures nAnalog1 == nAnalog2 == nDigital1 == nDigital2 == nDigital3 == nDigital4 == 0
      ensures timeResolution == 0 && triggerThreshold == 0
    {
      hide CastU8, CastU16;
      module_, channel := CastU8(m), CastU8(c);
      energy, energyShort := CastU16(e), CastU16(es);
      timestampBits, flags, hasWaveform := ts, fl, wave;
      ClearWave();
    }

    /** The scalar branches hold the start of an event, the waveform branches are empty. */
    ghost predicate ShowsScalars(s: Start)
      requires |s.head| == 4
      reads this
    {
      && module_ == CastU8(s.head[0].v) && channel == CastU8(s.head[1].v)
      && energy == CastU16(s.head[2].v) && energyShort == CastU16(s.head[3].v)
      && timestampBits == s.timestamp.bits && flags == s.flags.v && hasWaveform == s.withWave
      && nAnalog1 == nAnalog2 == nDigital1 == nDigital2 == nDigital3 == nDigital4 == 0
      && timeResolution == 0 && triggerThreshold == 0
    }

    /** The branches hold event `e`. */
    ghost predicate ShowsEvent(e: Event)
      requires Valid() && EventWf(e)
      reads this, Buffers()
    {
      && module_ == CastU8(e.head[0].v) && channel == CastU8(e.head[1].v)
      && energy == CastU16(e.head[2].v) && energyShort == CastU16(e.head[3].v)
      && timestampBits == e.timestamp.bits && flags == e.flags.v
      && hasWaveform == e.wave.Some?
      && (e.wave.Some? ==> ShowsWave(e.wave.value))
      && (e.wave.None? ==>
            && nAnalog1 == nAnalog2 == nDigital1 == nDigital2 == nDigital3 == nDigital4 == 0
            && timeResolution == 0 && triggerThreshold == 0)
    }

    /** `tree->Fill()`: the row the branches show. */
    method Fill(ghost e: Event) returns (row: EventVal)
      requires Valid() && EventWf(e) && ShowsEvent(e)
      ensures row == CutEvent(EventOf(e))
    {
      hide AnalogVal, DigitalVal, CastU8, CastU16;
      var wave: Option<WaveVal> := None;
      if hasWaveform {
        wave := Some(WaveVal(analog1[..nAnalog1], analog2[..nAnalog2], digital1[..nDigital1],
          digital2[..nDigital2], digital3[..nDigital3], digital4[..nDigital4],
          timeResolution, triggerThreshold, None));
      }
      row := EventVal(module_, channel, energy, energyShort, timestampBits, flags, wave);
    }
  }

  /** Buffer `a` with count `n` shows the first entries of `s`: all of them, or
      as many as fit. */
  ghost predicate Shows<T>(a: seq<T>, n: int, s: seq<T>) {
    n == Min(|s|, MAX_WAVEFORM_SAMPLES) && n <= |a| && a[..n] == Cut(s)
  }

  /** `if (static_cast<int>(i) < max_size) arr[i] = x`: the buffer shows one more
      element of what was read, if it has room. */
  method StoreIfFits<T>(arr: array<T>, i: nat, x: T, ghost s: seq<T>)
    requires arr.Length == MAX_WAVEFORM_SAMPLES && i < 0x8000_0000 && |s| == i && arr[..Min(i, arr.Length)] == Cut(s)
    modifies arr
    ensures arr[..Min(i + 1, arr.Length)] == Cut(s + [x])
  {
    if CastInt(i) < arr.Length {
      arr[i] := x;
      assert arr[..i + 1] == arr[..i] + [x];
    } else {
      assert (s + [x])[..arr.Length] == s[..arr.Length];
    }
  }

  class TreeParser {
    const r: MsgPackParser

    ghost predicate Valid()
      reads r
    {
      r.Valid() && |r.data| <= 100_000_000
    }

    /** The block loop admits no longer block. */
    constructor (block: seq<byte>)
      requires |block| <= 100_000_000
      ensures Valid() && fresh(r) && r.data == block && r.pos == 0
    {
      r := new MsgPackParser(block);
    }

    method ReadI16Array(arr: array<int>, maxSize: nat) returns (ok: bool, n: int)
      requires Valid() && arr.Length == maxSize == MAX_WAVEFORM_SAMPLES
      modifies r`pos, arr
      ensures Valid() && old(r.pos) <= r.pos
      ensures ok == ReadProbe(Converter, Signed, r.data, old(r.pos)).Some?
      ensures ok ==>
        var (x, q) := ReadProbe(Converter, Signed, r.data, old(r.pos)).value;
        Shows(arr[..], n, AnalogVal(x)) && r.pos == q
    {
      hide DecodeHdr, ReadNum, ReadNums, I16s, CastI16, CastI64;
      n := 0;
      var size;
      ok, size := r.ReadArrayHeader();
      if !ok { return; }
      n := Min(CastInt(size), maxSize);
      ghost var total := ReadNums(Converter, Signed, r.data, r.pos, size);
      SplitsStart(Converter, Signed, r.data, r.pos, size);
      ghost var done: seq<Num> := [];
      for i := 0 to size
        invariant Valid() && i <= r.pos && old(r.pos) <= r.pos
        invariant Splits(Converter, Signed, r.data, total, done, r.pos, size - i)
        invariant |done| == i && arr[..Min(i, maxSize)] == Cut(I16s(done))
      {
        var val;
        ghost var here := r.pos;
        SplitsStep(Converter, Signed, r.data, total, done, r.pos, size - i);
        SameNum(Signed, r.data, here);
        ok, val := r.ReadInt();
        if !ok { return; }
        ghost var read := ReadNum(Converter, Signed, r.data, here).value.0;
        CastI16OfI64(read);
        StoreIfFits(arr, i, CastI16(val), I16s(done));
        done := done + [read];
        I16sSnoc(done);
      }
      SplitsEnd(Converter, Signed, r.data, total, done, r.pos);
    }

    method ReadU8Array(arr: array<byte>, maxSize: nat) returns (ok: bool, n: int)
      requires Valid() && arr.Length == maxSize == MAX_WAVEFORM_SAMPLES
      modifies r`pos, arr
      ensures Valid() && old(r.pos) <= r.pos
      ensures ok == ReadProbe(Converter, Unsigned, r.data, old(r.pos)).Some?
      ensures ok ==>
        var (x, q) := ReadProbe(Converter, Unsigned, r.data, old(r.pos)).value;
        Shows(arr[..], n, DigitalVal(x)) && r.pos == q
    {
      hide DecodeHdr, DecodeBin, ReadNum, ReadNums, U8s, CastU8;
      n := 0;
      if r.pos >= |r.data| {
        HdrNone(r.data, r.pos);
        return false, 0;
      }
      var b: int := r.data[r.pos];
      if b == 0xc4 || b == 0xc5 || b == 0xc6 {
        ok, n := ReadBin(arr, maxSize);
        return;
      }
      ok, n := ReadU8Elements(arr, maxSize);
    }

    /** A digital probe that comes as an array. */
    method ReadU8Elements(arr: array<byte>, maxSize: nat) returns (ok: bool, n: int)
      requires Valid() && arr.Length == maxSize == MAX_WAVEFORM_SAMPLES
      modifies r`pos, arr
      ensures Valid() && old(r.pos) <= r.pos
      ensures var h := DecodeHdr(r.data, old(r.pos));
              var nums := if h.None? then None else ReadNums(Converter, Unsigned, r.data, h.value.1, h.value.0.count);
              && ok == nums.Some?
              && (ok ==> Shows(arr[..], n, U8s(nums.value.0)) && r.pos == nums.value.1)
    {
      hide DecodeHdr, DecodeBin, ReadNum, ReadNums, U8s, CastU8;
      n := 0;
      var size;
      ok, size := r.ReadArrayHeader();
      if !ok { return; }
      n := Min(CastInt(size), maxSize);
      ghost var total := ReadNums(Converter, Unsigned, r.data, r.pos, size);
      SplitsStart(Converter, Unsigned, r.data, r.pos, size);
      ghost var done: seq<Num> := [];
      for i := 0 to size
        invariant Valid() && i <= r.pos && old(r.pos) <= r.pos
        invariant Splits(Converter, Unsigned, r.data, total, done, r.pos, size - i)
        invariant |done| == i && arr[..Min(i, maxSize)] == Cut(U8s(done))
      {
        var val;
        ghost var here := r.pos;
        SplitsStep(Converter, Unsigned, r.data, total, done, r.pos, size - i);
        SameNum(Unsigned, r.data, here);
        ok, val := r.ReadUint();
        if !ok { return; }
        StoreIfFits(arr, i, CastU8(val), U8s(done));
        done := done + [ReadNum(Converter, Unsigned, r.data, here).value.0];
        U8sSnoc(done);
      }
      SplitsEnd(Converter, Unsigned, r.data, total, done, r.pos);
    }

    method ReadBin(arr: array<byte>, maxSize: nat) returns (ok: bool, n: int)
      requires Valid() && arr.Length == maxSize == MAX_WAVEFORM_SAMPLES
      modifies r`pos, arr
      ensures Valid() && old(r.pos) <= r.pos
      ensures ok == DecodeBin(r.data, old(r.pos)).Some?
      ensures ok ==>
        var (x, q) := DecodeBin(r.data, old(r.pos)).value; Shows(arr[..], n, x.data) && r.pos == q
    {
      hide BinHead;
      n := 0;
      var size;
      ok, size := r.ReadBinHeader();
      if !ok { return; }
      n := Min(CastInt(size), maxSize);
      if r.pos + size > |r.data| { return false, n; }
      forall i | 0 <= i < n {
        arr[i] := r.data[r.pos + i];
      }
      ghost var bin := r.data[r.pos..r.pos + size];
      assert arr[..n] == bin[..n];
      r.pos := r.pos + size;
      return true, n;
    }

    method ParseBatchHeader() returns (ok: bool, sourceId: nat, numEvents: nat)
      requires Valid()
      modifies r`pos
      ensures Valid() && old(r.pos) <= r.pos
      ensures ok == ReadBatchHead(Converter, r.data, old(r.pos)).Some?
      ensures ok ==>
        var (fmt, head, eh, q) := ReadBatchHead(Converter, r.data, old(r.pos)).value;
        sourceId == CastU32(head[0].v) && numEvents == eh.count && r.pos == q
    {
      hide DecodeHdr, ReadNum, ReadNums;
      sourceId, numEvents := 0, 0;
      var size, tmp;
      ok, size := r.ReadArrayHeader();
      if !ok || size != 4 { return false, 0, 0; }
      ReadThree(Converter, Unsigned, r.data, r.pos);
      SameNum(Unsigned, r.data, r.pos);
      ok, tmp := r.ReadUint();
      if !ok { return; }
      sourceId := CastU32(tmp);
      ReadTwo(Converter, Unsigned, r.data, r.pos);
      SameNum(Unsigned, r.data, r.pos);
      ok, tmp := r.ReadUint();
      if !ok { return; }
      SameNum(Unsigned, r.data, r.pos);
      ok, tmp := r.ReadUint();
      if !ok { return; }
      ok, numEvents := r.ReadArrayHeader();
    }

    method ReadAnalogProbes(b: Branches) returns (ok: bool)
      requires Valid() && b.Valid()
      modifies r`pos, b`nAnalog1, b`nAnalog2, b.analog1, b.analog2
      ensures Valid() && old(r.pos) <= r.pos
      ensures ok == ReadProbes(Converter, r.data, old(r.pos), 0, 2).Some?
      ensures ok ==>
        var (s, q) := ReadProbes(Converter, r.data, old(r.pos), 0, 2).value; b.ShowsAnalog(s[0], s[1]) && r.pos == q
    {
      hide ReadProbe, ReadProbes, AnalogVal, Cut, Min;
      ghost var total := ReadProbes(Converter, r.data, r.pos, 0, 2);
      ghost var done: seq<Probe> := [];
      ProbesSplitStart(Converter, r.data, r.pos, 0, 2);
      var n;
      ProbesSplitStep(Converter, r.data, total, done, r.pos, 0, 2);
      ghost var x0 := ReadProbe(Converter, RoleOf(0), r.data, r.pos);
      ok, n := ReadI16Array(b.analog1, MAX_WAVEFORM_SAMPLES);
      if !ok { return; }
      b.nAnalog1 := n;
      done := done + [x0.value.0];
      ProbesSplitStep(Converter, r.data, total, done, r.pos, 1, 1);
      ghost var x1 := ReadProbe(Converter, RoleOf(1), r.data, r.pos);
      ok, n := ReadI16Array(b.analog2, MAX_WAVEFORM_SAMPLES);
      if !ok { return; }
      b.nAnalog2 := n;
      done := done + [x1.value.0];
      ProbesSplitEnd(Converter, r.data, total, done, r.pos, 2);
    }

    method ReadDigitalProbes(b: Branches) returns (ok: bool)
      requires Valid() && b.Valid()
      modifies r`pos, b`nDigital1, b`nDigital2, b`nDigital3, b`nDigital4
      modifies b.digital1, b.digital2, b.digital3, b.digital4
      ensures Valid() && old(r.pos) <= r.pos
      ensures ok == ReadProbes(Converter, r.data, old(r.pos), 2, 4).Some?
      ensures ok ==>
        var (s, q) := ReadProbes(Converter, r.data, old(r.pos), 2, 4).value;
        b.ShowsDigital(s[0], s[1], s[2], s[3]) && r.pos == q
    {
      hide ReadProbe, ReadProbes, DigitalVal, Cut, Min;
      ghost var total := ReadProbes(Converter, r.data, r.pos, 2, 4);
      ghost var done: seq<Probe> := [];
      ProbesSplitStart(Converter, r.data, r.pos, 2, 4);
      var n;
      ProbesSplitStep(Converter, r.data, total, done, r.pos, 2, 4);
      ghost var x2 := ReadProbe(Converter, RoleOf(2), r.data, r.pos);
      ok, n := ReadU8Array(b.digital1, MAX_WAVEFORM_SAMPLES);
      if !ok { return; }
      b.nDigital1 := n;
      done := done + [x2.value.0];
      ProbesSplitStep(Converter, r.data, total, done, r.pos, 3, 3);
      ghost var x3 := ReadProbe(Converter, RoleOf(3), r.data, r.pos);
      ok, n := ReadU8Array(b.digital2, MAX_WAVEFORM_SAMPLES);
      if !ok { return; }
      b.nDigital2 := n;
      done := done + [x3.value.0];
      ProbesSplitStep(Converter, r.data, total, done, r.pos, 4, 2);
      ghost var x4 := ReadProbe(Converter, RoleOf(4), r.data, r.pos);
      ok, n := ReadU8Array(b.digital3, MAX_WAVEFORM_SAMPLES);
      if !ok { return; }
      b.nDigital3 := n;
      done := done + [x4.value.0];
      ProbesSplitStep(Converter, r.data, total, done, r.pos, 5, 1);
      ghost var x5 := ReadProbe(Converter, RoleOf(5), r.data, r.pos);
      ok, n := ReadU8Array(b.digital4, MAX_WAVEFORM_SAMPLES);
      if !ok { return; }
      b.nDigital4 := n;
      done := done + [x5.value.0];
      ProbesSplitEnd(Converter, r.data, total, done, r.pos, 6);
    }

    method ParseWaveform(b: Branches) returns (ok: bool)
      requires Valid() && b.Valid()
      modifies r`pos, b`nAnalog1, b`nAnalog2, b`nDigital1, b`nDigital2, b`nDigital3, b`nDigital4
      modifies b`timeResolution, b`triggerThreshold, b.Buffers()
      ensures Valid() && old(r.pos) <= r.pos
      ensures ok == ReadWave(Converter, r.data, old(r.pos)).Some?
      ensures ok ==> WaveWf(ReadWave(Converter, r.data, old(r.pos)).value.0)
      ensures ok ==>
        var (w, q) := ReadWave(Converter, r.data, old(r.pos)).value; b.ShowsWave(w) && r.pos == q
    {
      hide DecodeHdr, ReadProbes, ReadNums, ReadFloat, AnalogVal, DigitalVal, Shows, CastU8, CastU16, WaveOk, EncWave,
          At;
      ghost var p0 := r.pos;
      var size, resolution, threshold;
      ok, size := r.ReadArrayHeader();
      if !ok || size != 8 { return false; }
      ProbesConcat(Converter, r.data, r.pos);
      ok := ReadAnalogProbes(b);
      if !ok { return; }
      ok := ReadDigitalProbes(b);
      if !ok { return; }
      SameNums(Unsigned, r.data, r.pos, 2);
      ok, resolution, threshold := r.ReadWaveSettings();
      if !ok { return; }
      b.timeResolution := CastU8(resolution);
      b.triggerThreshold := CastU16(threshold);
      WaveSound(Converter, r.data, p0);
    }

    /** Everything of an event up to its waveform. */
    method ParseScalars(b: Branches) returns (ok: bool)
      requires Valid() && b.Valid()
      modifies r`pos, b
      ensures Valid() && b.Valid() && old(r.pos) <= r.pos
      ensures ok == EventStart(r.data, old(r.pos)).Some?
      ensures ok ==> b.ShowsScalars(EventStart(r.data, old(r.pos)).value)
      ensures ok ==> r.pos == EventStart(r.data, old(r.pos)).value.end
    {
      hide DecodeHdr, ReadNum, ReadNums, ReadFloat, CastU8, CastU16;
      var size, m, c, e, es, ts, flags;
      ok, size := r.ReadArrayHeader();
      if !ok || (size != 6 && size != 7) { return false; }
      SameNums(Unsigned, r.data, r.pos, 4);
      ok, m, c, e, es := r.ReadEventHead();
      if !ok { return; }
      SameFloat(r.data, r.pos);
      ok, ts := r.ReadFloat64();
      if !ok { return; }
      SameNum(Unsigned, r.data, r.pos);
      ok, flags := r.ReadUint();
      if !ok { return; }
      b.SetScalars(m, c, e, es, ts, flags, size == 7);
    }

    method ParseEvent(b: Branches) returns (ok: bool)
      requires Valid() && b.Valid()
      modifies r`pos, b, b.Buffers()
      ensures Valid() && old(r.pos) <= r.pos
      ensures ok == ReadEvent(Converter, r.data, old(r.pos)).Some?
      ensures ok ==> EventWf(ReadEvent(Converter, r.data, old(r.pos)).value.0)
      ensures ok ==>
        var (e, q) := ReadEvent(Converter, r.data, old(r.pos)).value; b.ShowsEvent(e) && r.pos == q
    {
      hide EventStart, ReadEvent, ReadWave, WaveWf, Branches.ShowsWave, CastU8, CastU16;
      EventFromStart(r.data, r.pos);
      ok := ParseScalars(b);
      if !ok { return; }
      if b.hasWaveform {
        ok := ParseWaveform(b);
        if !ok { return; }
      }
    }
  }

  /** The part of an event before its waveform, and where it ends. */
  datatype Start = Start(fmt: ArrFmt, withWave: bool, head: seq<Num>, timestamp: Float, flags: Num, end: nat)

  function EventStart(d: seq<byte>, p: nat): (r: Option<Start>)
    ensures r.Some? ==> |r.value.head| == 4
  {
    var (h, p1) :- DecodeHdr(d, p);
    if h.count != 6 && h.count != 7 then None
    else
      var (head, p2) :- ReadNums(Converter, Unsigned, d, p1, 4);
      var (ts, p3) :- ReadFloat(Converter, d, p2);
      var (flags, p4) :- ReadNum(Converter, Unsigned, d, p3);
      Some(Start(h.fmt, h.count == 7, head, ts, flags, p4))
  }

  lemma EventFromStart(d: seq<byte>, p: nat)
    ensures ReadEvent(Converter, d, p) ==
      match EventStart(d, p)
      case None => None
      case Some(s) =>
        if !s.withWave then Some((Event(s.fmt, s.head, s.timestamp, s.flags, None), s.end))
        else
          match ReadWave(Converter, d, s.end)
          case None => None
          case Some((w, q)) => Some((Event(s.fmt, s.head, s.timestamp, s.flags, Some(w)), q))
  {
    hide DecodeHdr, ReadNums, ReadFloat, ReadNum, ReadWave;
  }

  lemma SameNum(role: Role, d: seq<byte>, p: nat)
    ensures ReadNum(Converter, role, d, p) == ReadNum(Reader, role, d, p)
  {
    hide DecodeNum;
  }

  lemma SameFloat(d: seq<byte>, p: nat)
    ensures ReadFloat(Converter, d, p) == ReadFloat(Reader, d, p)
  {
    hide DecodeFloat;
  }

  lemma SameNums(role: Role, d: seq<byte>, p: nat, count: nat)
    ensures ReadNums(Converter, role, d, p, count) == ReadNums(Reader, role, d, p, count)
    decreases count
  {
    hide ReadNum;
    if count > 0 {
      SameNum(role, d, p);
      if ReadNum(Reader, role, d, p).Some? {
        SameNums(role, d, ReadNum(Reader, role, d, p).value.1, count - 1);
      }
    }
  }

  lemma I16sSnoc(s: seq<Num>)
    requires s != []
    ensures I16s(s) == I16s(s[..|s| - 1]) + [CastI16(s[|s| - 1].v)]
  {
  }

  lemma U8sSnoc(s: seq<Num>)
    requires s != []
    ensures U8s(s) == U8s(s[..|s| - 1]) + [CastU8(s[|s| - 1].v)]
  {
  }

  // ---- One block ----

  function CutWave(w: WaveVal): (r: WaveVal) {
    WaveVal(Cut(w.analog1), Cut(w.analog2), Cut(w.digital1), Cut(w.digital2), Cut(w.digital3), Cut(w.digital4),
            w.timeResolution, w.triggerThreshold, None)
  }

  /** The tree row of an event: probes cut, `ns_per_sample` not kept. */
  function CutEvent(v: EventVal): (r: EventVal) {
    v.(wave := if v.wave.Some? then Some(CutWave(v.wave.value)) else None)
  }

  /** `a` is the first 16384 entries of `s`, or all of them. */
  predicate FirstOf<T(==)>(a: seq<T>, s: seq<T>) {
    a <= s && |a| == if |s| < 16384 then |s| else 16384
  }

  predicate IsRowWave(r: WaveVal, w: WaveVal) {
    && FirstOf(r.analog1, w.analog1) && FirstOf(r.analog2, w.analog2)
    && FirstOf(r.digital1, w.digital1) && FirstOf(r.digital2, w.digital2)
    && FirstOf(r.digital3, w.digital3) && FirstOf(r.digital4, w.digital4)
    && r.timeResolution == w.timeResolution && r.triggerThreshold == w.triggerThreshold
  }

  /** The branches of a row show the event. */
  predicate IsRowOf(r: EventVal, v: EventVal) {
    && r.module_ == v.module_ && r.channel == v.channel && r.energy == v.energy && r.energyShort == v.energyShort
    && r.timestampBits == v.timestampBits && r.flags == v.flags
    && (r.wave.Some? <==> v.wave.Some?) && (v.wave.Some? ==> IsRowWave(r.wave.value, v.wave.value))
  }

  lemma CutIsRow(v: EventVal)
    ensures IsRowOf(CutEvent(v), v)
  {
  }

  function Rows(s: seq<Event>): (r: seq<EventVal>)
    requires EventsWf(s)
    ensures |r| == |s|
  {
    if s == [] then [] else [CutEvent(EventOf(s[0]))] + Rows(s[1..])
  }

  /** The events before the first unreadable one. */
  function EventPrefix(d: seq<byte>, p: nat, count: nat): (r: seq<Event>)
    ensures EventsWf(r) && |r| <= count
    decreases count
  {
    if count == 0 then []
    else
      var x := ReadEvent(Converter, d, p);
      if x.None? then []
      else
        EventSound(Converter, d, p);
        [x.value.0] + EventPrefix(d, x.value.1, count - 1)
  }

  /** The body of the block loop: `None` when the batch header is unreadable. */
  function BlockRows(d: seq<byte>): (r: Option<seq<EventVal>>) {
    var h := ReadBatchHead(Converter, d, 0);
    if h.None? then None else Some(Rows(EventPrefix(d, h.value.3, h.value.2.count)))
  }

  method ConvertBlock(block: seq<byte>, b: Branches) returns (ok: bool, rows: seq<EventVal>)
    requires |block| <= 100_000_000 && b.Valid()
    modifies b, b.Buffers()
    ensures ok == BlockRows(block).Some?
    ensures ok ==> rows == BlockRows(block).value
  {
    hide ReadBatchHead, ReadEvent, EventWf, EventPrefix, Rows;
    var parser := new TreeParser(block);
    var sourceId, count;
    rows := [];
    ok, sourceId, count := parser.ParseBatchHeader();
    if !ok { return; }
    ghost var all := Rows(EventPrefix(block, parser.r.pos, count));
    for i := 0 to count
      invariant parser.Valid() && parser.r.data == block
      invariant fresh(parser.r)
      invariant all == rows + Rows(EventPrefix(block, parser.r.pos, count - i))
    {
      ghost var x := ReadEvent(Converter, block, parser.r.pos);
      PrefixStep(block, parser.r.pos, count - i);
      var good := parser.ParseEvent(b);
      if !good { return; }
      var row := b.Fill(x.value.0);
      ghost var rest := Rows(EventPrefix(block, parser.r.pos, count - i - 1));
      assert rows + ([row] + rest) == rows + [row] + rest;
      rows := rows + [row];
    }
    PrefixEnd(block, parser.r.pos);
  }

  lemma PrefixEnd(d: seq<byte>, p: nat)
    ensures Rows(EventPrefix(d, p, 0)) == []
  {
  }

  lemma PrefixStep(d: seq<byte>, p: nat, count: nat)
    requires count > 0
    ensures match ReadEvent(Converter, d, p)
            case None => EventPrefix(d, p, count) == []
            case Some((x, q)) =>
              EventWf(x) && Rows(EventPrefix(d, p, count)) ==
                  [CutEvent(EventOf(x))] + Rows(EventPrefix(d, q, count - 1))
  {
    hide ReadEvent, EventWf, EventOf;
    match ReadEvent(Converter, d, p)
    case None =>
    case Some((x, q)) =>
      EventSound(Converter, d, p);
      var rest := EventPrefix(d, q, count - 1);
      assert ([x] + rest)[1..] == rest;
  }

  // ---- The two decoders ----

  predicate EightElement(s: seq<Event>) {
    s == [] || ((s[0].wave.Some? ==> s[0].wave.value.nsPerSample.None?) && EightElement(s[1..]))
  }

  lemma {:induction false} ProbesOkSame(i: nat, s: seq<Probe>)
    ensures ProbesOk(Converter, i, s) <==> ProbesOk(Reader, i, s)
    decreases |s|
  {
    if s == [] {
    } else {
      ProbesOkSame(i + 1, s[1..]);
    }
  }

  lemma {:induction false} EventsOkSame(s: seq<Event>)
    ensures EventsOk(Converter, s) <==> EventsOk(Reader, s) && EightElement(s)
    decreases |s|
  {
    if s == [] {
    } else {
      if s[0].wave.Some? { ProbesOkSame(0, s[0].wave.value.probes); }
      EventsOkSame(s[1..]);
    }
  }

  /** The converter's parser accepts exactly what the reader's accepts and whose
      waveforms all have eight elements; then both read the same batch and stop
      at the same offset. */
  lemma DecodersAgree(d: seq<byte>, p: nat)
    ensures ReadBatch(Converter, d, p) ==
      match ReadBatch(Reader, d, p)
      case None => None
      case Some((b, q)) => if EightElement(b.events) then Some((b, q)) else None
  {
    hide ReadBatch, EventsOk, EightElement, EncBatch, BatchWf;
    if ReadBatch(Converter, d, p).Some? {
      var b := ReadBatch(Converter, d, p).value.0;
      BatchSound(Converter, d, p);
      EventsOkSame(b.events);
      BatchComplete(Reader, d, p, b);
    }
    if ReadBatch(Reader, d, p).Some? {
      var b := ReadBatch(Reader, d, p).value.0;
      BatchSound(Reader, d, p);
      EventsOkSame(b.events);
      if EightElement(b.events) { BatchComplete(Converter, d, p, b); }
    }
  }

  lemma {:induction false} PrefixIsAll(d: seq<byte>, p: nat, count: nat)
    requires ReadEvents(Converter, d, p, count).Some?
    ensures EventPrefix(d, p, count) == ReadEvents(Converter, d, p, count).value.0
    decreases count
  {
    hide ReadEvent;
    if count == 0 {
    } else {
      PrefixIsAll(d, ReadEvent(Converter, d, p).value.1, count - 1);
    }
  }

  lemma {:induction false} RowsAreCut(s: seq<Event>, i: nat)
    requires EventsWf(s) && i < |s|
    ensures Rows(s)[i] == CutEvent(EventsOf(s)[i])
    decreases |s|
  {
    hide EventOf, EventWf;
    if i == 0 {
    } else {
      RowsAreCut(s[1..], i - 1);
    }
  }

  /** Main result: on every block the converter accepts completely, its rows are
      the events `read_delila` returns, in order, field by field, each probe cut to
      its first 16384 entries. */
  lemma RowsAgree(d: seq<byte>)
    requires ReadBatch(Converter, d, 0).Some?
    ensures ReadBatch(Reader, d, 0) == ReadBatch(Converter, d, 0)
    ensures BatchWf(ReadBatch(Reader, d, 0).value.0)
    ensures var events := EventsOf(ReadBatch(Reader, d, 0).value.0.events);
            && BlockRows(d).Some? && |BlockRows(d).value| == |events|
            && forall i :: 0 <= i < |events| ==> IsRowOf(BlockRows(d).value[i], events[i])
  {
    hide ReadBatchHead, ReadEvents, EventPrefix, Rows, EventsOf, EventsWf, CutEvent, IsRowOf;
    DecodersAgree(d, 0);
    BatchSound(Reader, d, 0);
    var h := ReadBatchHead(Converter, d, 0).value;
    var s := ReadBatch(Reader, d, 0).value.0.events;
    PrefixIsAll(d, h.3, h.2.count);
    assert EventPrefix(d, h.3, h.2.count) == s;
    forall i | 0 <= i < |s|
      ensures IsRowOf(Rows(s)[i], EventsOf(s)[i])
    {
      RowsAreCut(s, i);
      CutIsRow(EventsOf(s)[i]);
    }
  }
}
