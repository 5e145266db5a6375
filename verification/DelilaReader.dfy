/** `read_delila.C`: the vector-building MessagePack parser and the loop that
    walks the length-prefixed blocks of a `.delila` file. */
module DelilaReader {
  import opened Bytes
  import Arith
  import opened MsgPack
  import opened DelilaSyntax

  // ---- What the C++ structs hold after a parse ----

  function CastU8(v: int): (r: byte) { v % 0x100 }
  function CastU16(v: int): (r: nat) { v % 0x1_0000 }
  function CastI16(v: int): (r: int) { Unwrap(v % 0x1_0000, 0x1_0000) }
  function CastU32(v: int): (r: nat) { v % 0x1_0000_0000 }

  /** `static_cast<int64_t>` of a value read in any accepted format. */
  function CastI64(v: int): (r: int) {
    if v >= 0x8000_0000_0000_0000 then v - 0x1_0000_0000_0000_0000 else v
  }

  /** A cast gives the value of its type that is congruent to the number. */
  lemma CastsCongruent(v: int)
    ensures 0 <= CastU8(v) < 0x100 && (v - CastU8(v)) % 0x100 == 0
    ensures 0 <= CastU16(v) < 0x1_0000 && (v - CastU16(v)) % 0x1_0000 == 0
    ensures -0x8000 <= CastI16(v) < 0x8000 && (v - CastI16(v)) % 0x1_0000 == 0
    ensures 0 <= CastU32(v) < 0x1_0000_0000 && (v - CastU32(v)) % 0x1_0000_0000 == 0
    ensures -0x8000_0000_0000_0000 <= v < 0x1_0000_0000_0000_0000 ==>
              -0x8000_0000_0000_0000 <= CastI64(v) < 0x8000_0000_0000_0000
              && (v - CastI64(v)) % 0x1_0000_0000_0000_0000 == 0
  {
    hide CastI16, CastI64;
    Residue(v, 0x100);
    Residue(v, 0x1_0000);
    Residue(v, 0x1_0000_0000);
    CastI16Congruent(v);
    if -0x8000_0000_0000_0000 <= v < 0x1_0000_0000_0000_0000 { CastI64Congruent(v); }
  }

  lemma Residue(v: int, m: nat)
    requires m > 0
    ensures 0 <= v % m < m && (v - v % m) % m == 0
  {
    var q, r := v / m, v % m;
    assert v - r == q * m + 0;
    Multiple(q, m);
  }

  lemma Multiple(q: int, m: nat)
    requires m > 0
    ensures (q * m) % m == 0
  {
    var k, t := (q * m) / m, (q * m) % m;
    assert m * (q - k) == t;
    Arith.AtLeastOnce(m, q - k);
  }

  lemma CastI16Congruent(v: int)
    ensures -0x8000 <= CastI16(v) < 0x8000 && (v - CastI16(v)) % 0x1_0000 == 0
  {
    var u := v % 0x1_0000;
    Residue(v, 0x1_0000);
    assert (v - u + 0x1_0000) % 0x1_0000 == 0;
  }

  lemma CastI64Congruent(v: int)
    requires -0x8000_0000_0000_0000 <= v < 0x1_0000_0000_0000_0000
    ensures -0x8000_0000_0000_0000 <= CastI64(v) < 0x8000_0000_0000_0000
    ensures (v - CastI64(v)) % 0x1_0000_0000_0000_0000 == 0
  {
  }

  /** `nsPerSample` is `None` when the parser leaves the field unwritten. */
  datatype WaveVal = WaveVal(
    analog1: seq<int>, analog2: seq<int>,
    digital1: seq<byte>, digital2: seq<byte>, digital3: seq<byte>, digital4: seq<byte>,
    timeResolution: byte, triggerThreshold: nat, nsPerSample: Option<nat>)

  datatype EventVal = EventVal(
    module_: byte, channel: byte, energy: nat, energyShort: nat,
    timestampBits: nat, flags: int, wave: Option<WaveVal>)

  function I16s(s: seq<Num>): (r: seq<int>)
    ensures |r| == |s|
  {
    seq(|s|, i requires 0 <= i < |s| => CastI16(s[i].v))
  }

  function U8s(s: seq<Num>): (r: seq<byte>)
    ensures |r| == |s|
  {
    seq(|s|, i requires 0 <= i < |s| => CastU8(s[i].v))
  }

  function AnalogVal(x: Probe): (r: seq<int>) {
    if x.AsArray? then I16s(x.elems) else []
  }

  function DigitalVal(x: Probe): (r: seq<byte>) {
    if x.AsArray? then U8s(x.elems) else x.bin.data
  }

  function WaveOf(w: Wave): (r: WaveVal)
    requires WaveWf(w)
  {
    WaveVal(
      AnalogVal(w.probes[0]), AnalogVal(w.probes[1]),
      DigitalVal(w.probes[2]), DigitalVal(w.probes[3]), DigitalVal(w.probes[4]), DigitalVal(w.probes[5]),
      CastU8(w.settings[0].v), CastU16(w.settings[1].v),
      if w.nsPerSample.Some? then Some(w.nsPerSample.value.bits) else None)
  }

  function EventOf(e: Event): (r: EventVal)
    requires EventWf(e)
  {
    EventVal(
      CastU8(e.head[0].v), CastU8(e.head[1].v), CastU16(e.head[2].v), CastU16(e.head[3].v),
      e.timestamp.bits, e.flags.v,
      if e.wave.Some? then Some(WaveOf(e.wave.value)) else None)
  }

  function EventsOf(s: seq<Event>): (r: seq<EventVal>)
    requires EventsWf(s)
    ensures |r| == |s|
  {
    if s == [] then [] else [EventOf(s[0])] + EventsOf(s[1..])
  }

  // ---- A batch of the v2 types is returned unchanged ----

  predicate IsU8(v: int) { 0 <= v < 0x100 }
  predicate IsU16(v: int) { 0 <= v < 0x1_0000 }
  predicate IsI16(v: int) { -0x8000 <= v < 0x8000 }

  predicate ProbeTyped(role: Role, x: Probe) {
    x.AsArray? ==>
      forall i :: 0 <= i < |x.elems| ==> if role.Signed? then IsI16(x.elems[i].v) else IsU8(x.elems[i].v)
  }

  /** Every field holds a value of its v2 type. */
  predicate EventTyped(e: Event)
    requires EventWf(e)
  {
    && IsU8(e.head[0].v) && IsU8(e.head[1].v) && IsU16(e.head[2].v) && IsU16(e.head[3].v)
    && (e.wave.Some? ==>
          var w := e.wave.value;
          && (forall i :: 0 <= i < 6 ==> ProbeTyped(RoleOf(i), w.probes[i]))
          && IsU8(w.settings[0].v) && IsU16(w.settings[1].v))
  }

  /** The samples of a probe as they were written. */
  function Samples(x: Probe): (r: seq<int>) {
    if x.AsArray? then seq(|x.elems|, i requires 0 <= i < |x.elems| => x.elems[i].v)
    else seq(|x.bin.data|, i requires 0 <= i < |x.bin.data| => x.bin.data[i] as int)
  }

  lemma ProbeUnchanged(role: Role, x: Probe)
    requires ProbeWf(role, x) && ProbeTyped(role, x)
    ensures role.Signed? ==> AnalogVal(x) == Samples(x)
    ensures role.Unsigned? ==>
      |DigitalVal(x)| == |Samples(x)| && forall i :: 0 <= i < |Samples(x)| ==> DigitalVal(x)[i] as int == Samples(x)[i]
  {
    hide Holds, HoldsBin, HoldsCount;
  }

  /** No cast of the parser changes an event whose fields have their v2 types. */
  lemma EventUnchanged(e: Event)
    requires EventWf(e) && EventTyped(e)
    ensures var v := EventOf(e);
            && v.module_ as int == e.head[0].v && v.channel as int == e.head[1].v
            && v.energy == e.head[2].v && v.energyShort == e.head[3].v
            && v.timestampBits == e.timestamp.bits && v.flags == e.flags.v
            && v.wave.Some? == e.wave.Some?
    ensures e.wave.Some? ==>
            var w, v := e.wave.value, EventOf(e).wave.value;
            && v.analog1 == Samples(w.probes[0]) && v.analog2 == Samples(w.probes[1])
            && SameSamples(v.digital1, w.probes[2]) && SameSamples(v.digital2, w.probes[3])
            && SameSamples(v.digital3, w.probes[4]) && SameSamples(v.digital4, w.probes[5])
            && v.timeResolution as int == w.settings[0].v && v.triggerThreshold == w.settings[1].v
            && (w.nsPerSample.Some? ==> v.nsPerSample == Some(w.nsPerSample.value.bits))
  {
    hide AnalogVal, DigitalVal, Samples, ProbeWf, ProbeTyped, Holds;
    if e.wave.Some? {
      var w := e.wave.value;
      ProbesWfAt(0, w.probes, 0); ProbesWfAt(0, w.probes, 1); ProbesWfAt(0, w.probes, 2);
      ProbesWfAt(0, w.probes, 3); ProbesWfAt(0, w.probes, 4); ProbesWfAt(0, w.probes, 5);
      ProbeUnchanged(Signed, w.probes[0]);
      ProbeUnchanged(Signed, w.probes[1]);
      ProbeUnchanged(Unsigned, w.probes[2]);
      ProbeUnchanged(Unsigned, w.probes[3]);
      ProbeUnchanged(Unsigned, w.probes[4]);
      ProbeUnchanged(Unsigned, w.probes[5]);
    }
  }

  predicate SameSamples(s: seq<byte>, x: Probe) {
    |s| == |Samples(x)| && forall i :: 0 <= i < |s| ==> s[i] as int == Samples(x)[i]
  }

  lemma {:induction false} ProbesWfAt(i: nat, s: seq<Probe>, k: nat)
    requires ProbesWf(i, s) && k < |s|
    ensures ProbeWf(RoleOf(i + k), s[k])
    decreases k
  {
    hide ProbeWf, RoleOf;
    if k == 0 {
    } else {
      ProbesWfAt(i + 1, s[1..], k - 1);
    }
  }

  // ---- The parser ----

  class MsgPackParser {
    const data: seq<byte>
    var pos: nat

    ghost predicate Valid()
      reads this
    {
      pos <= |data|
    }

    constructor (data: seq<byte>)
      ensures Valid() && this.data == data && pos == 0
    {
      this.data := data;
      pos := 0;
    }

    method ReadArrayHeader() returns (ok: bool, size: nat)
      requires Valid()
      modifies this`pos
      ensures Valid() && old(pos) <= pos
      ensures ok == DecodeHdr(data, old(pos)).Some?
      ensures ok ==> size == DecodeHdr(data, old(pos)).value.0.count && pos == DecodeHdr(data, old(pos)).value.1
    {
      if pos >= |data| { return false, 0; }
      var b: int := data[pos];
      pos := pos + 1;
      if b / 0x10 == 0x9 {
        return true, b % 0x10;
      }
      if b == 0xdc && pos + 2 <= |data| {
        size := (data[pos] as int) * 0x100 + data[pos + 1] as int;
        pos := pos + 2;
        return true, size;
      }
      if b == 0xdd && pos + 4 <= |data| {
        size := (data[pos] as int) * 0x100_0000 + (data[pos + 1] as int) * 0x1_0000
          + (data[pos + 2] as int) * 0x100 + data[pos + 3] as int;
        pos := pos + 4;
        return true, size;
      }
      return false, 0;
    }

    method ReadUint() returns (ok: bool, val: nat)
      requires Valid()
      modifies this`pos
      ensures Valid() && old(pos) <= pos && (ok ==> old(pos) < pos)
      ensures ok == ReadNum(Reader, Unsigned, data, old(pos)).Some?
      ensures ok ==>
        var (n, q) := ReadNum(Reader, Unsigned, data, old(pos)).value; val == n.v && pos == q
    {
      if pos >= |data| { return false, 0; }
      var b: int := data[pos];
      pos := pos + 1;
      if b <= 0x7f {
        return true, b;
      }
      if b == 0xcc && pos + 1 <= |data| {
        val := data[pos];
        pos := pos + 1;
        return true, val;
      }
      if b == 0xcd && pos + 2 <= |data| {
        val := GetBe16(data, pos);
        pos := pos + 2;
        return true, val;
      }
      if b == 0xce && pos + 4 <= |data| {
        val := GetBe32(data, pos);
        pos := pos + 4;
        return true, val;
      }
      if b == 0xcf && pos + 8 <= |data| {
        val := GetBe64(data, pos);
        pos := pos + 8;
        return true, val;
      }
      return false, 0;
    }

    method ReadInt() returns (ok: bool, val: int)
      requires Valid()
      modifies this`pos
      ensures Valid() && old(pos) <= pos && (ok ==> old(pos) < pos)
      ensures ok == ReadNum(Reader, Signed, data, old(pos)).Some?
      ensures ok ==>
        var (n, q) := ReadNum(Reader, Signed, data, old(pos)).value; val == CastI64(n.v) && pos == q
    {
      if pos >= |data| { return false, 0; }
      var b: int := data[pos];
      if b <= 0x7f {
        pos := pos + 1;
        return true, b;
      }
      if b >= 0xe0 {
        pos := pos + 1;
        return true, Unwrap(b, 0x100);
      }
      if b == 0xd0 && pos + 2 <= |data| {
        pos := pos + 2;
        return true, Unwrap(data[pos - 1], 0x100);
      }
      if b == 0xd1 && pos + 3 <= |data| {
        pos := pos + 3;
        return true, Unwrap(GetBe16(data, pos - 2), 0x1_0000);
      }
      if b == 0xd2 && pos + 5 <= |data| {
        pos := pos + 5;
        return true, Unwrap(GetBe32(data, pos - 4), 0x1_0000_0000);
      }
      var uval;
      ok, uval := ReadUint();
      val := CastI64(uval);
    }

    /** The bit pattern is copied into the double unchanged. */
    method ReadFloat64() returns (ok: bool, bits: nat)
      requires Valid()
      modifies this`pos
      ensures Valid() && old(pos) <= pos
      ensures ok == ReadFloat(Reader, data, old(pos)).Some?
      ensures ok ==>
        var (f, q) := ReadFloat(Reader, data, old(pos)).value; bits == f.bits && pos == q
    {
      if pos >= |data| { return false, 0; }
      var b: int := data[pos];
      pos := pos + 1;
      if b == 0xcb && pos + 8 <= |data| {
        bits := GetBe64(data, pos);
        pos := pos + 8;
        return true, bits;
      }
      return false, 0;
    }

    /** The tag and length that open a binary string. */
    method ReadBinHeader() returns (ok: bool, size: nat)
      requires Valid()
      modifies this`pos
      ensures Valid() && old(pos) <= pos
      ensures ok == BinHead(data, old(pos)).Some?
      ensures ok ==> size == BinHead(data, old(pos)).value.1 && pos == BinHead(data, old(pos)).value.2
    {
      if pos >= |data| { return false, 0; }
      var b: int := data[pos];
      pos := pos + 1;
      if b == 0xc4 && pos + 1 <= |data| {
        size := data[pos];
        pos := pos + 1;
      } else if b == 0xc5 && pos + 2 <= |data| {
        size := GetBe16(data, pos);
        pos := pos + 2;
      } else if b == 0xc6 && pos + 4 <= |data| {
        size := GetBe32(data, pos);
        pos := pos + 4;
      } else {
        return false, 0;
      }
      return true, size;
    }

    method ReadBin() returns (ok: bool, arr: seq<byte>)
      requires Valid()
      modifies this`pos
      ensures Valid() && old(pos) <= pos
      ensures ok == DecodeBin(data, old(pos)).Some?
      ensures ok ==>
        var (x, q) := DecodeBin(data, old(pos)).value; arr == x.data && pos == q
    {
      hide BinHead;
      arr := [];
      var size;
      ok, size := ReadBinHeader();
      if !ok { return; }
      if pos + size > |data| { return false, []; }
      arr := data[pos..pos + size];
      pos := pos + size;
      return true, arr;
    }

    method ReadI16Array() returns (ok: bool, arr: seq<int>)
      requires Valid()
      modifies this`pos
      ensures Valid() && old(pos) <= pos
      ensures ok == ReadProbe(Reader, Signed, data, old(pos)).Some?
      ensures ok ==>
        var (x, q) := ReadProbe(Reader, Signed, data, old(pos)).value; arr == AnalogVal(x) && pos == q
    {
      hide DecodeHdr, ReadNum;
      arr := [];
      var size;
      ok, size := ReadArrayHeader();
      if !ok { return; }
      ghost var total := ReadNums(Reader, Signed, data, pos, size);
      SplitsStart(Reader, Signed, data, pos, size);
      ghost var done: seq<Num> := [];
      for i := 0 to size
        invariant Valid() && old(pos) <= pos
        invariant Splits(Reader, Signed, data, total, done, pos, size - i)
        invariant arr == I16s(done)
      {
        var val;
        ghost var here := pos;
        SplitsStep(Reader, Signed, data, total, done, pos, size - i);
        ok, val := ReadInt();
        if !ok { return; }
        CastI16OfI64(ReadNum(Reader, Signed, data, here).value.0);
        done := done + [ReadNum(Reader, Signed, data, here).value.0];
        arr := arr + [CastI16(val)];
      }
      SplitsEnd(Reader, Signed, data, total, done, pos);
    }

    method ReadU8Array() returns (ok: bool, arr: seq<byte>)
      requires Valid()
      modifies this`pos
      ensures Valid() && old(pos) <= pos
      ensures ok == ReadProbe(Reader, Unsigned, data, old(pos)).Some?
      ensures ok ==>
        var (x, q) := ReadProbe(Reader, Unsigned, data, old(pos)).value; arr == DigitalVal(x) && pos == q
    {
      hide DecodeHdr, DecodeBin, ReadNum;
      arr := [];
      if pos >= |data| {
        HdrNone(data, pos);
        return false, [];
      }
      var b: int := data[pos];
      if b == 0xc4 || b == 0xc5 || b == 0xc6 {
        ok, arr := ReadBin();
        return;
      }
      var size;
      ok, size := ReadArrayHeader();
      if !ok { return; }
      ghost var total := ReadNums(Reader, Unsigned, data, pos, size);
      SplitsStart(Reader, Unsigned, data, pos, size);
      ghost var done: seq<Num> := [];
      for i := 0 to size
        invariant Valid() && old(pos) <= pos
        invariant Splits(Reader, Unsigned, data, total, done, pos, size - i)
        invariant arr == U8s(done)
      {
        var val;
        ghost var here := pos;
        SplitsStep(Reader, Unsigned, data, total, done, pos, size - i);
        ok, val := ReadUint();
        if !ok { return; }
        done := done + [ReadNum(Reader, Unsigned, data, here).value.0];
        arr := arr + [CastU8(val)];
      }
      SplitsEnd(Reader, Unsigned, data, total, done, pos);
    }

    /** `analog_probe1` and `analog_probe2`. */
    method ReadAnalogProbes() returns (ok: bool, a1: seq<int>, a2: seq<int>)
      requires Valid()
      modifies this`pos
      ensures Valid() && old(pos) <= pos
      ensures ok == ReadProbes(Reader, data, old(pos), 0, 2).Some?
      ensures ok ==>
        var (s, q) := ReadProbes(Reader, data, old(pos), 0, 2).value;
        a1 == AnalogVal(s[0]) && a2 == AnalogVal(s[1]) && pos == q
    {
      hide ReadProbe, ReadProbes, AnalogVal;
      a1, a2 := [], [];
      ghost var total := ReadProbes(Reader, data, pos, 0, 2);
      ghost var done: seq<Probe> := [];
      ProbesSplitStart(Reader, data, pos, 0, 2);
      ProbesSplitStep(Reader, data, total, done, pos, 0, 2);
      ghost var x0 := ReadProbe(Reader, RoleOf(0), data, pos);
      ok, a1 := ReadI16Array();
      if !ok { return; }
      done := done + [x0.value.0];
      ProbesSplitStep(Reader, data, total, done, pos, 1, 1);
      ghost var x1 := ReadProbe(Reader, RoleOf(1), data, pos);
      ok, a2 := ReadI16Array();
      if !ok { return; }
      done := done + [x1.value.0];
      ProbesSplitEnd(Reader, data, total, done, pos, 2);
    }

    /** `digital_probe1` to `digital_probe4`. */
    method ReadDigitalProbes() returns (ok: bool, d1: seq<byte>, d2: seq<byte>, d3: seq<byte>, d4: seq<byte>)
      requires Valid()
      modifies this`pos
      ensures Valid() && old(pos) <= pos
      ensures ok == ReadProbes(Reader, data, old(pos), 2, 4).Some?
      ensures ok ==>
        var (s, q) := ReadProbes(Reader, data, old(pos), 2, 4).value;
        && d1 == DigitalVal(s[0]) && d2 == DigitalVal(s[1])
        && d3 == DigitalVal(s[2]) && d4 == DigitalVal(s[3]) && pos == q
    {
      hide ReadProbe, ReadProbes, DigitalVal;
      d1, d2, d3, d4 := [], [], [], [];
      ghost var total := ReadProbes(Reader, data, pos, 2, 4);
      ghost var done: seq<Probe> := [];
      ProbesSplitStart(Reader, data, pos, 2, 4);
      ProbesSplitStep(Reader, data, total, done, pos, 2, 4);
      ghost var x2 := ReadProbe(Reader, RoleOf(2), data, pos);
      ok, d1 := ReadU8Array();
      if !ok { return; }
      done := done + [x2.value.0];
      ProbesSplitStep(Reader, data, total, done, pos, 3, 3);
      ghost var x3 := ReadProbe(Reader, RoleOf(3), data, pos);
      ok, d2 := ReadU8Array();
      if !ok { return; }
      done := done + [x3.value.0];
      ProbesSplitStep(Reader, data, total, done, pos, 4, 2);
      ghost var x4 := ReadProbe(Reader, RoleOf(4), data, pos);
      ok, d3 := ReadU8Array();
      if !ok { return; }
      done := done + [x4.value.0];
      ProbesSplitStep(Reader, data, total, done, pos, 5, 1);
      ghost var x5 := ReadProbe(Reader, RoleOf(5), data, pos);
      ok, d4 := ReadU8Array();
      if !ok { return; }
      done := done + [x5.value.0];
      ProbesSplitEnd(Reader, data, total, done, pos, 6);
    }

    /** `time_resolution` and `trigger_threshold`. */
    method ReadWaveSettings() returns (ok: bool, resolution: nat, threshold: nat)
      requires Valid()
      modifies this`pos
      ensures Valid() && old(pos) <= pos
      ensures ok == ReadNums(Reader, Unsigned, data, old(pos), 2).Some?
      ensures ok ==>
        var (s, q) := ReadNums(Reader, Unsigned, data, old(pos), 2).value;
        resolution == s[0].v && threshold == s[1].v && pos == q
    {
      hide ReadNum, ReadNums;
      ReadTwo(Reader, Unsigned, data, pos);
      threshold := 0;
      ok, resolution := ReadUint();
      if !ok { return; }
      ok, threshold := ReadUint();
    }

    method ParseWaveform() returns (ok: bool, wf: WaveVal)
      requires Valid()
      modifies this`pos
      ensures Valid() && old(pos) <= pos
      ensures ok == ReadWave(Reader, data, old(pos)).Some?
      ensures ok ==> WaveWf(ReadWave(Reader, data, old(pos)).value.0)
      ensures ok ==>
        var (w, q) := ReadWave(Reader, data, old(pos)).value; wf == WaveOf(w) && pos == q
    {
      hide DecodeHdr, ReadProbes, ReadNums, ReadFloat, AnalogVal, DigitalVal;
      wf := WaveVal([], [], [], [], [], [], 0, 0, None);
      ghost var p0 := pos;
      var size, a1, a2, d1, d2, d3, d4, resolution, threshold;
      ok, size := ReadArrayHeader();
      if !ok || (size != 8 && size != 9) { return false, wf; }
      ProbesConcat(Reader, data, pos);
      ok, a1, a2 := ReadAnalogProbes();
      if !ok { return; }
      ok, d1, d2, d3, d4 := ReadDigitalProbes();
      if !ok { return; }
      ok, resolution, threshold := ReadWaveSettings();
      if !ok { return; }
      var ns: Option<nat> := None;
      if size == 9 {
        var bits;
        ok, bits := ReadFloat64();
        if !ok { return; }
        ns := Some(bits);
      }
      WaveSound(Reader, data, p0);
      wf := WaveVal(a1, a2, d1, d2, d3, d4, CastU8(resolution), CastU16(threshold), ns);
    }

    /** `module`, `channel`, `energy` and `energy_short`, before truncation. */
    method ReadEventHead() returns (ok: bool, m: nat, c: nat, e: nat, es: nat)
      requires Valid()
      modifies this`pos
      ensures Valid() && old(pos) <= pos
      ensures ok == ReadNums(Reader, Unsigned, data, old(pos), 4).Some?
      ensures ok ==>
        var (s, q) := ReadNums(Reader, Unsigned, data, old(pos), 4).value;
        m == s[0].v && c == s[1].v && e == s[2].v && es == s[3].v && pos == q
    {
      hide ReadNum, ReadNums;
      c, e, es := 0, 0, 0;
      ReadFour(Reader, Unsigned, data, pos);
      ok, m := ReadUint();
      if !ok { return; }
      ReadThree(Reader, Unsigned, data, pos);
      ok, c := ReadUint();
      if !ok { return; }
      ReadTwo(Reader, Unsigned, data, pos);
      ok, e := ReadUint();
      if !ok { return; }
      ok, es := ReadUint();
    }

    method ParseEvent() returns (ok: bool, ev: EventVal)
      requires Valid()
      modifies this`pos
      ensures Valid() && old(pos) <= pos
      ensures ok == ReadEvent(Reader, data, old(pos)).Some?
      ensures ok ==> EventWf(ReadEvent(Reader, data, old(pos)).value.0)
      ensures ok ==>
        var (e, q) := ReadEvent(Reader, data, old(pos)).value; ev == EventOf(e) && pos == q
    {
      hide DecodeHdr, ReadNum, ReadNums, ReadFloat, ReadWave, WaveWf, WaveOf;
      ev := EventVal(0, 0, 0, 0, 0, 0, None);
      ghost var p0 := pos;
      var size, m, c, e, es, ts, flags;
      ok, size := ReadArrayHeader();
      if !ok || (size != 6 && size != 7) { return false, ev; }
      ok, m, c, e, es := ReadEventHead();
      if !ok { return; }
      ok, ts := ReadFloat64();
      if !ok { return; }
      ok, flags := ReadUint();
      if !ok { return; }
      var wave: Option<WaveVal> := None;
      if size == 7 {
        var wf;
        ok, wf := ParseWaveform();
        if !ok { return; }
        wave := Some(wf);
      }
      EventSound(Reader, data, p0);
      ev := EventVal(CastU8(m), CastU8(c), CastU16(e), CastU16(es), ts, flags, wave);
    }

    method ParseBatch() returns (ok: bool, sourceId: nat, events: seq<EventVal>)
      requires Valid()
      modifies this`pos
      ensures Valid() && old(pos) <= pos
      ensures ok == ReadBatch(Reader, data, old(pos)).Some?
      ensures ok ==> BatchWf(ReadBatch(Reader, data, old(pos)).value.0)
      ensures ok ==>
        var (b, q) := ReadBatch(Reader, data, old(pos)).value;
        sourceId == CastU32(b.head[0].v) && events == EventsOf(b.events) && pos == q
    {
      hide DecodeHdr, ReadNum, ReadEvent, EventOf, EventWf;
      sourceId, events := 0, [];
      ghost var p0 := pos;
      var size;
      ok, size := ReadArrayHeader();
      if !ok || size != 4 { return false, 0, []; }
      ReadThree(Reader, Unsigned, data, pos);
      var src, sequence, ts, count;
      ok, src := ReadUint();
      if !ok { return; }
      sourceId := CastU32(src);
      ok, sequence := ReadUint();
      if !ok { return; }
      ok, ts := ReadUint();
      if !ok { return; }
      ok, count := ReadArrayHeader();
      if !ok { return; }
      ghost var total := ReadEvents(Reader, data, pos, count);
      ghost var done: seq<Event> := [];
      EventsSplitStart(Reader, data, pos, count);
      for i := 0 to count
        invariant Valid() && old(pos) <= pos
        invariant EventsSplit(Reader, data, total, done, pos, count - i)
        invariant EventsWf(done) && events == EventsOf(done)
      {
        EventsSplitStep(Reader, data, total, done, pos, count - i);
        ghost var x := ReadEvent(Reader, data, pos);
        var ev;
        ok, ev := ParseEvent();
        if !ok { return; }
        EventsOfSnoc(done, x.value.0);
        done := done + [x.value.0];
        events := events + [ev];
      }
      EventsSplitEnd(Reader, data, total, done, pos);
      BatchSound(Reader, data, p0);
      return true, sourceId, events;
    }
  }

  // ---- Helpers of the loops ----

  /** `done` are the first probes of the reading `total`; the rest, numbered from
      `i`, is what can be read at `p`. */
  ghost predicate ProbesSplit(dl: Dialect, d: seq<byte>, total: Option<(seq<Probe>, nat)>,
                              done: seq<Probe>, p: nat, i: nat, count: nat) {
    var rest := ReadProbes(dl, d, p, i, count);
    total == if rest.Some? then Some((done + rest.value.0, rest.value.1)) else None
  }

  lemma ProbesSplitStart(dl: Dialect, d: seq<byte>, p: nat, i: nat, count: nat)
    ensures ProbesSplit(dl, d, ReadProbes(dl, d, p, i, count), [], p, i, count)
  {
    var rest := ReadProbes(dl, d, p, i, count);
    if rest.Some? {
      assert [] + rest.value.0 == rest.value.0;
    }
  }

  lemma ProbesSplitStep(dl: Dialect, d: seq<byte>, total: Option<(seq<Probe>, nat)>,
                        done: seq<Probe>, p: nat, i: nat, count: nat)
    requires count > 0 && ProbesSplit(dl, d, total, done, p, i, count)
    ensures match ReadProbe(dl, RoleOf(i), d, p)
            case None => total.None?
            case Some((x, q)) => ProbesSplit(dl, d, total, done + [x], q, i + 1, count - 1)
  {
    hide ReadProbe, RoleOf;
    match ReadProbe(dl, RoleOf(i), d, p)
    case None =>
    case Some((x, q)) =>
      var rest := ReadProbes(dl, d, q, i + 1, count - 1);
      if rest.Some? {
        assert done + ([x] + rest.value.0) == done + [x] + rest.value.0;
      }
  }

  lemma ProbesSplitEnd(dl: Dialect, d: seq<byte>, total: Option<(seq<Probe>, nat)>, done: seq<Probe>, p: nat, i: nat)
    requires ProbesSplit(dl, d, total, done, p, i, 0)
    ensures total == Some((done, p))
  {
    assert done + [] == done;
  }

  /** Reading all elements is reading `done` first and the remaining `count` at `p`. */
  ghost predicate Splits(dl: Dialect, role: Role, d: seq<byte>, total: Option<(seq<Num>, nat)>,
                         done: seq<Num>, p: nat, count: nat) {
    var rest := ReadNums(dl, role, d, p, count);
    total == if rest.Some? then Some((done + rest.value.0, rest.value.1)) else None
  }

  lemma SplitsStart(dl: Dialect, role: Role, d: seq<byte>, p: nat, count: nat)
    ensures Splits(dl, role, d, ReadNums(dl, role, d, p, count), [], p, count)
  {
    var rest := ReadNums(dl, role, d, p, count);
    if rest.Some? {
      assert [] + rest.value.0 == rest.value.0;
    }
  }

  lemma SplitsStep(dl: Dialect, role: Role, d: seq<byte>, total: Option<(seq<Num>, nat)>,
                   done: seq<Num>, p: nat, count: nat)
    requires count > 0 && Splits(dl, role, d, total, done, p, count)
    ensures match ReadNum(dl, role, d, p)
            case None => total.None?
            case Some((x, q)) => Splits(dl, role, d, total, done + [x], q, count - 1)
  {
    hide ReadNum;
    match ReadNum(dl, role, d, p)
    case None =>
    case Some((x, q)) =>
      var rest := ReadNums(dl, role, d, q, count - 1);
      if rest.Some? {
        assert done + ([x] + rest.value.0) == done + [x] + rest.value.0;
      }
  }

  lemma SplitsEnd(dl: Dialect, role: Role, d: seq<byte>, total: Option<(seq<Num>, nat)>, done: seq<Num>, p: nat)
    requires Splits(dl, role, d, total, done, p, 0)
    ensures total == Some((done, p))
  {
    assert done + [] == done;
  }

  lemma HdrNone(d: seq<byte>, p: nat)
    requires p >= |d|
    ensures DecodeHdr(d, p).None?
  {
  }

  lemma CastI16OfI64(n: Num)
    ensures CastI16(CastI64(n.v)) == CastI16(n.v)
  {
    assert (n.v - 0x1_0000_0000_0000_0000) % 0x1_0000 == n.v % 0x1_0000;
  }

  /** Six probes are two and then four. */
  lemma ProbesConcat(dl: Dialect, d: seq<byte>, p: nat)
    ensures ReadProbes(dl, d, p, 0, 6) ==
      match ReadProbes(dl, d, p, 0, 2)
      case None => None
      case Some((x, q)) =>
        match ReadProbes(dl, d, q, 2, 4)
        case None => None
        case Some((y, z)) => Some((x + y, z))
  {
    hide ReadProbe, RoleOf, ReadProbes;
    var total, two := ReadProbes(dl, d, p, 0, 6), ReadProbes(dl, d, p, 0, 2);
    ProbesSplitStart(dl, d, p, 0, 6);
    ProbesSplitStart(dl, d, p, 0, 2);
    ProbesSplitStep(dl, d, total, [], p, 0, 6);
    ProbesSplitStep(dl, d, two, [], p, 0, 2);
    match ReadProbe(dl, RoleOf(0), d, p)
    case None =>
    case Some((x0, q)) =>
      ProbesSplitStep(dl, d, total, [] + [x0], q, 1, 5);
      ProbesSplitStep(dl, d, two, [] + [x0], q, 1, 1);
      match ReadProbe(dl, RoleOf(1), d, q)
      case None =>
      case Some((x1, z)) =>
        ProbesSplitEnd(dl, d, two, [] + [x0] + [x1], z, 2);
  }

  lemma ReadTwo(dl: Dialect, role: Role, d: seq<byte>, p: nat)
    ensures ReadNums(dl, role, d, p, 2) ==
      match ReadNum(dl, role, d, p)
      case None => None
      case Some((x, q)) =>
        match ReadNum(dl, role, d, q)
        case None => None
        case Some((y, z)) => Some(([x, y], z))
  {
    hide ReadNum;
    match ReadNum(dl, role, d, p)
    case None =>
    case Some((x, q)) =>
      assert ReadNums(dl, role, d, p, 2) ==
        var t := ReadNums(dl, role, d, q, 1); if t.Some? then Some(([x] + t.value.0, t.value.1)) else None;
      match ReadNum(dl, role, d, q)
      case None =>
      case Some((y, z)) =>
        assert ReadNums(dl, role, d, z, 0) == Some(([], z));
        assert [x] + ([y] + []) == [x, y];
  }

  lemma ReadThree(dl: Dialect, role: Role, d: seq<byte>, p: nat)
    ensures ReadNums(dl, role, d, p, 3) ==
      match ReadNum(dl, role, d, p)
      case None => None
      case Some((x, q)) =>
        match ReadNums(dl, role, d, q, 2)
        case None => None
        case Some((s, z)) => Some(([x] + s, z))
  {
    hide ReadNum;
    ReadTwo(dl, role, d, p);
  }

  lemma ReadFour(dl: Dialect, role: Role, d: seq<byte>, p: nat)
    ensures ReadNums(dl, role, d, p, 4) ==
      match ReadNum(dl, role, d, p)
      case None => None
      case Some((x, q)) =>
        match ReadNums(dl, role, d, q, 3)
        case None => None
        case Some((s, z)) => Some(([x] + s, z))
  {
    hide ReadNum;
  }

  ghost predicate EventsSplit(dl: Dialect, d: seq<byte>, total: Option<(seq<Event>, nat)>,
                              done: seq<Event>, p: nat, count: nat) {
    var rest := ReadEvents(dl, d, p, count);
    total == if rest.Some? then Some((done + rest.value.0, rest.value.1)) else None
  }

  lemma EventsSplitStart(dl: Dialect, d: seq<byte>, p: nat, count: nat)
    ensures EventsSplit(dl, d, ReadEvents(dl, d, p, count), [], p, count)
  {
    var rest := ReadEvents(dl, d, p, count);
    if rest.Some? {
      assert [] + rest.value.0 == rest.value.0;
    }
  }

  lemma EventsSplitStep(dl: Dialect, d: seq<byte>, total: Option<(seq<Event>, nat)>,
                        done: seq<Event>, p: nat, count: nat)
    requires count > 0 && EventsSplit(dl, d, total, done, p, count)
    ensures match ReadEvent(dl, d, p)
            case None => total.None?
            case Some((x, q)) => EventsSplit(dl, d, total, done + [x], q, count - 1)
  {
    hide ReadEvent;
    match ReadEvent(dl, d, p)
    case None =>
    case Some((x, q)) =>
      var rest := ReadEvents(dl, d, q, count - 1);
      if rest.Some? {
        assert done + ([x] + rest.value.0) == done + [x] + rest.value.0;
      }
  }

  lemma EventsSplitEnd(dl: Dialect, d: seq<byte>, total: Option<(seq<Event>, nat)>, done: seq<Event>, p: nat)
    requires EventsSplit(dl, d, total, done, p, 0)
    ensures total == Some((done, p))
  {
    assert done + [] == done;
  }

  lemma {:induction false} EventsOfSnoc(s: seq<Event>, x: Event)
    requires EventsWf(s) && EventWf(x)
    ensures EventsWf(s + [x]) && EventsOf(s + [x]) == EventsOf(s) + [EventOf(x)]
    decreases |s|
  {
    hide EventOf, EventWf;
    if s == [] {
      assert EventsWf([x][1..]);
    } else {
      assert (s + [x])[1..] == s[1..] + [x];
      EventsOfSnoc(s[1..], x);
    }
  }
}
