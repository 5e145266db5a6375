/** `fine_ts_verify.rs`: walking the nested DIG1 aggregates of a readout buffer,
    and the aggregate builder it undoes. */
module Aggregate {
  import Arith
  import opened Bytes

  datatype PhaseResult =
    | Hw(fineTime: nat, raw: u32)
    | Sw(upper: int, lower: int, raw: u32)

  /** `read_u32`: zero past the end of the data. */
  function ReadU32(d: seq<byte>, p: nat): (v: u32) {
    if p + 4 > |d| then 0 else GetLe32(d, p)
  }

  function Bit(m: nat, k: nat): (b: bool) {
    if k == 0 then m % 2 == 1 else Bit(m / 2, k - 1)
  }

  /** The extras word as the two firmware phases unpack it. */
  function Unpack(extras: u32, isHw: bool): (r: PhaseResult) {
    if isHw then Hw(extras % 0x400, extras)
    else Sw(Unwrap(extras / 0x1_0000, 0x1_0000), Unwrap(extras % 0x1_0000, 0x1_0000), extras)
  }

  // ---- What the three nested loops compute ----

  datatype Options = Options(nsw: u16, es: bool, ee: bool, et: bool, eq: bool)

  function OptionsOf(cw1: u32): (o: Options) {
    var flags := cw1 / 0x800_0000;
    Options(cw1 % 0x1_0000, flags % 2 == 1, flags / 2 % 2 == 1, flags / 4 % 2 == 1, flags / 8 % 2 == 1)
  }

  function WaveBytes(o: Options): (n: nat) { if o.es then o.nsw * 16 else 0 }

  /** Where the extras word of the event at `off` stands, and where the next event starts. */
  function ExtrasAt(o: Options, off: nat): (p: nat) { off + 4 + WaveBytes(o) }

  function NextEvent(o: Options, off: nat): (p: nat)
    ensures p > off
  {
    ExtrasAt(o, off) + (if o.ee then 4 else 0) + if o.eq then 4 else 0
  }

  function Extras(d: seq<byte>, o: Options, isHw: bool, off: nat): (rs: seq<PhaseResult>) {
    if o.ee then [Unpack(ReadU32(d, ExtrasAt(o, off)), isHw)] else []
  }

  function Events(d: seq<byte>, size: nat, end: nat, o: Options, isHw: bool, off: nat): (rs: seq<PhaseResult>)
    decreases end - off
  {
    if off >= end || !o.et || off + 4 > size || (o.ee && ExtrasAt(o, off) + 4 > size) then []
    else Extras(d, o, isHw, off) + Events(d, size, end, o, isHw, NextEvent(o, off))
  }

  /** End of the channel block at `off`. */
  function BlockEnd(d: seq<byte>, off: nat): (end: nat) { off + ReadU32(d, off) % 0x40_0000 * 4 }

  function Block(d: seq<byte>, size: nat, isHw: bool, off: nat): (rs: seq<PhaseResult>) {
    Events(d, size, BlockEnd(d, off), OptionsOf(ReadU32(d, off + 4)), isHw, off + 8)
  }

  function Channels(d: seq<byte>, size: nat, isHw: bool, boardEnd: nat, mask: nat, pair: nat, off: nat):
      (rs: seq<PhaseResult>)
    decreases 8 - pair
  {
    if pair >= 8 then []
    else if !Bit(mask, pair) then Channels(d, size, isHw, boardEnd, mask, pair + 1, off)
    else if off + 8 > boardEnd || BlockEnd(d, off) > boardEnd then []
    else Block(d, size, isHw, off) + Channels(d, size, isHw, boardEnd, mask, pair + 1, BlockEnd(d, off))
  }

  /** A complete board aggregate starts at `off`. */
  predicate BoardHere(d: seq<byte>, size: nat, off: nat) {
    off + 16 <= size && ReadU32(d, off) / 0x1000_0000 == 0xA && BoardEnd(d, off) <= size
  }

  function BoardEnd(d: seq<byte>, off: nat): (end: nat) { off + ReadU32(d, off) % 0x1000_0000 * 4 }

  function Board(d: seq<byte>, size: nat, isHw: bool, off: nat): (rs: seq<PhaseResult>) {
    Channels(d, size, isHw, BoardEnd(d, off), ReadU32(d, off + 4) % 0x100, 0, off + 16)
  }

  /** Every board met from `off` on has a non-zero size field. */
  predicate Advances(d: seq<byte>, size: nat, off: nat)
    decreases size - off
  {
    BoardHere(d, size, off) ==> BoardEnd(d, off) > off && Advances(d, size, BoardEnd(d, off))
  }

  function Results(d: seq<byte>, size: nat, isHw: bool, off: nat): (rs: seq<PhaseResult>)
    requires Advances(d, size, off)
    decreases size - off
  {
    if BoardHere(d, size, off) then Board(d, size, isHw, off) + Results(d, size, isHw, BoardEnd(d, off)) else []
  }

  // ---- parse_aggregate ----

  predicate MoreEvents(size: nat, end: nat, o: Options, off: nat) {
    off < end && o.et && off + 4 <= size && (o.ee ==> ExtrasAt(o, off) + 4 <= size)
  }

  lemma EventsStep(d: seq<byte>, size: nat, end: nat, o: Options, isHw: bool, off: nat, before: seq<PhaseResult>)
    ensures !MoreEvents(size, end, o, off) ==> before + Events(d, size, end, o, isHw, off) == before
    ensures MoreEvents(size, end, o, off) ==>
      before + Events(d, size, end, o, isHw, off)
      == (before + Extras(d, o, isHw, off)) + Events(d, size, end, o, isHw, NextEvent(o, off))
  {
    hide Extras, NextEvent, ExtrasAt;
  }

  method ParseEvents(d: seq<byte>, size: nat, end: nat, o: Options, isHw: bool, start: nat)
      returns (results: seq<PhaseResult>)
    ensures results == Events(d, size, end, o, isHw, start)
  {
    hide ReadU32, Unpack, Events;
    results := [];
    var offset: nat := start;
    while offset < end
      invariant results + Events(d, size, end, o, isHw, offset) == Events(d, size, end, o, isHw, start)
      decreases end - offset
    {
      EventsStep(d, size, end, o, isHw, offset, results);
      if !o.et || offset + 4 > size { return; }
      offset := offset + 4;
      if o.es { offset := offset + o.nsw * 16; }
      if o.ee {
        if offset + 4 > size { return; }
        var extras := ReadU32(d, offset);
        offset := offset + 4;
        results := results + [Unpack(extras, isHw)];
      } else {
        assert results == results + [];
      }
      if o.eq { offset := offset + 4; }
    }
    EventsStep(d, size, end, o, isHw, offset, results);
  }

  lemma ChannelsStep(d: seq<byte>, size: nat, isHw: bool, boardEnd: nat, mask: nat, pair: nat, off: nat,
      before: seq<PhaseResult>)
    ensures
      var rest := Channels(d, size, isHw, boardEnd, mask, pair, off);
      if pair >= 8 then before + rest == before
      else if !Bit(mask, pair) then rest == Channels(d, size, isHw, boardEnd, mask, pair + 1, off)
      else if off + 8 > boardEnd || BlockEnd(d, off) > boardEnd then before + rest == before
      else before + rest == (before + Block(d, size, isHw, off))
                            + Channels(d, size, isHw, boardEnd, mask, pair + 1, BlockEnd(d, off))
  {
    hide Block, BlockEnd, Bit;
  }

  method ParseChannels(d: seq<byte>, size: nat, isHw: bool, boardEnd: nat, mask: nat, start: nat)
      returns (results: seq<PhaseResult>)
    ensures results == Channels(d, size, isHw, boardEnd, mask, 0, start)
  {
    hide Bit, OptionsOf, ReadU32, Events, Channels;
    results := [];
    var offset: nat := start;
    for pair := 0 to 8
      invariant results + Channels(d, size, isHw, boardEnd, mask, pair, offset) ==
          Channels(d, size, isHw, boardEnd, mask, 0, start)
    {
      ChannelsStep(d, size, isHw, boardEnd, mask, pair, offset, results);
      if Bit(mask, pair) {
        if offset + 8 > boardEnd { return; }
        var cw0, cw1 := ReadU32(d, offset), ReadU32(d, offset + 4);
        var blockEnd := offset + cw0 % 0x40_0000 * 4;
        if blockEnd > boardEnd { return; }
        var events := ParseEvents(d, size, blockEnd, OptionsOf(cw1), isHw, offset + 8);
        results := results + events;
        offset := blockEnd;
      }
    }
    ChannelsStep(d, size, isHw, boardEnd, mask, 8, offset, results);
  }

  method ParseAggregate(d: seq<byte>, size: nat, isHw: bool) returns (results: seq<PhaseResult>)
    requires Advances(d, size, 0)
    ensures results == Results(d, size, isHw, 0)
  {
    hide Bit, ReadU32, Channels;
    results := [];
    var offset := 0;
    while offset + 16 <= size
      invariant Advances(d, size, offset)
      invariant results + Results(d, size, isHw, offset) == Results(d, size, isHw, 0)
      decreases size - offset
    {
      var w0 := ReadU32(d, offset);
      if w0 / 0x1000_0000 != 0xA { return; }
      var boardEnd := offset + w0 % 0x1000_0000 * 4;
      if boardEnd > size { return; }
      var mask := ReadU32(d, offset + 4) % 0x100;
      var channels := ParseChannels(d, size, isHw, boardEnd, mask, offset + 16);
      results := results + channels;
      offset := boardEnd;
    }
  }

  // ---- When the walk ends ----

  /** Where the outer loop stands after `n` turns; None once it has stopped. */
  function OffsetAfter(d: seq<byte>, size: nat, n: nat): (off: Option<nat>) {
    if n == 0 then Some(0)
    else
      var off :- OffsetAfter(d, size, n - 1);
      if BoardHere(d, size, off) then Some(BoardEnd(d, off)) else None
  }

  ghost predicate Stops(d: seq<byte>, size: nat) { exists n: nat :: OffsetAfter(d, size, n).None? }

  predicate ZeroBoard(d: seq<byte>, size: nat, off: nat) {
    BoardHere(d, size, off) && ReadU32(d, off) % 0x1000_0000 == 0
  }

  /** The walk comes to a board whose size field is zero. */
  ghost predicate MeetsZeroBoard(d: seq<byte>, size: nat) {
    exists n: nat :: OffsetAfter(d, size, n).Some? && ZeroBoard(d, size, OffsetAfter(d, size, n).value)
  }

  lemma {:induction false} StopsFrom(d: seq<byte>, size: nat, n: nat)
    requires OffsetAfter(d, size, n).Some? && Advances(d, size, OffsetAfter(d, size, n).value)
    ensures Stops(d, size)
    decreases size - OffsetAfter(d, size, n).value
  {
    hide ReadU32;
    var off := OffsetAfter(d, size, n).value;
    if BoardHere(d, size, off) {
      assert OffsetAfter(d, size, n + 1) == Some(BoardEnd(d, off));
      StopsFrom(d, size, n + 1);
    } else {
      assert OffsetAfter(d, size, n + 1).None?;
    }
  }

  lemma {:induction false} NeverStops(d: seq<byte>, size: nat, n: nat)
    requires !Advances(d, size, 0)
    ensures OffsetAfter(d, size, n).Some? && !Advances(d, size, OffsetAfter(d, size, n).value)
  {
    hide ReadU32;
    if n == 0 {
    } else {
      NeverStops(d, size, n - 1);
    }
  }

  lemma {:induction false} ZeroBoardAhead(d: seq<byte>, size: nat, n: nat)
    requires OffsetAfter(d, size, n).Some? && !Advances(d, size, OffsetAfter(d, size, n).value)
    ensures MeetsZeroBoard(d, size)
    decreases size - OffsetAfter(d, size, n).value
  {
    hide ReadU32;
    var off := OffsetAfter(d, size, n).value;
    if ZeroBoard(d, size, off) {
    } else {
      assert OffsetAfter(d, size, n + 1) == Some(BoardEnd(d, off));
      ZeroBoardAhead(d, size, n + 1);
    }
  }

  /** The outer loop ends exactly on the buffers where it meets no board with a
      zero size field, which are exactly the buffers it can be called on here. */
  lemma StopsIff(d: seq<byte>, size: nat)
    ensures Stops(d, size) <==> Advances(d, size, 0)
    ensures Stops(d, size) <==> !MeetsZeroBoard(d, size)
  {
    hide OffsetAfter, ReadU32;
    if Advances(d, size, 0) {
      assert OffsetAfter(d, size, 0) == Some(0) by { AtStart(d, size); }
      StopsFrom(d, size, 0);
      if n: nat :| OffsetAfter(d, size, n).Some? && ZeroBoard(d, size, OffsetAfter(d, size, n).value) {
        AdvancesAlong(d, size, n);
      }
    } else {
      AtStart(d, size);
      ZeroBoardAhead(d, size, 0);
      forall n: nat
        ensures OffsetAfter(d, size, n).Some?
      {
        NeverStops(d, size, n);
      }
    }
  }

  lemma AtStart(d: seq<byte>, size: nat)
    ensures OffsetAfter(d, size, 0) == Some(0)
  {
  }

  lemma {:induction false} AdvancesAlong(d: seq<byte>, size: nat, n: nat)
    requires Advances(d, size, 0) && OffsetAfter(d, size, n).Some?
    ensures Advances(d, size, OffsetAfter(d, size, n).value)
  {
    hide ReadU32;
    if n == 0 {
    } else {
      AdvancesAlong(d, size, n - 1);
    }
  }

  // ---- The aggregate builder ----

  datatype Event = Event(timeTag: u32, waveform: seq<u32>, extras: u32, charge: u32)

  /** `spare`, `middle`, `extraOption` and `dual` fill the header bits that the
      parser does not look at. */
  datatype ChannelBlock = ChannelBlock(options: Options, spare: nat, middle: byte, extraOption: nat, dual: bool,
      events: seq<Event>)

  /** `tail` are words between the last channel block and the end of the board. */
  datatype BoardAggregate = BoardAggregate(boardBits: nat, counter: u32, timeTag: u32, slots: seq<Option<ChannelBlock>>,
      tail: seq<u32>)

  function EventWords(o: Options, e: Event): (ws: seq<u32>) {
    [e.timeTag] + (if o.es then e.waveform else []) + (if o.ee then [e.extras] else []) + if o.eq then [e.charge]
        else []
  }

  function EventsWords(o: Options, es: seq<Event>): (ws: seq<u32>) {
    if es == [] then [] else EventWords(o, es[0]) + EventsWords(o, es[1..])
  }

  function B(b: bool): (n: nat) { if b then 1 else 0 }

  function Flags(o: Options, dual: bool): (f: nat) { B(o.es) + 2 * B(o.ee) + 4 * B(o.et) + 8 * B(o.eq) + 16 * B(dual) }

  function FormatWord(b: ChannelBlock): (w: nat) {
    b.options.nsw + 0x1_0000 * b.middle + 0x100_0000 * b.extraOption + 0x800_0000 * Flags(b.options, b.dual)
  }

  function BlockSize(b: ChannelBlock): (n: nat) { 2 + |EventsWords(b.options, b.events)| }

  /** A waveform holds four words per declared unit. With the time-tag bit off the
      parser does not look at the words of the block, which can then be any. */
  predicate BlockOk(b: ChannelBlock) {
    EventsOk(b.options, b.events) && BlockSize(b) < 0x40_0000 && b.spare < 0x400 && b.extraOption < 8
  }

  function BlockWords(b: ChannelBlock): (ws: seq<u32>)
    requires BlockOk(b)
  {
    [b.spare * 0x40_0000 + BlockSize(b), FormatWord(b)] + EventsWords(b.options, b.events)
  }

  predicate SlotsOk(slots: seq<Option<ChannelBlock>>) {
    forall i :: 0 <= i < |slots| && slots[i].Some? ==> BlockOk(slots[i].value)
  }

  function SlotsWords(slots: seq<Option<ChannelBlock>>): (ws: seq<u32>)
    requires SlotsOk(slots)
  {
    if slots == [] then []
    else (if slots[0].Some? then BlockWords(slots[0].value) else []) + SlotsWords(slots[1..])
  }

  function MaskOf(slots: seq<Option<ChannelBlock>>): (m: nat) {
    if slots == [] then 0 else (if slots[0].Some? then 1 else 0) + 2 * MaskOf(slots[1..])
  }

  predicate BoardOk(b: BoardAggregate) {
    && |b.slots| == 8 && SlotsOk(b.slots) && b.boardBits < 0x100_0000
    && 4 + |SlotsWords(b.slots) + b.tail| < 0x1000_0000
  }

  function BoardWords(b: BoardAggregate): (ws: seq<u32>)
    requires BoardOk(b)
  {
    MaskBound(b.slots);
    [0xA000_0000 + 4 + |SlotsWords(b.slots) + b.tail|, b.boardBits * 0x100 + MaskOf(b.slots), b.counter, b.timeTag] +
        (SlotsWords(b.slots) + b.tail)
  }

  lemma MaskBound(slots: seq<Option<ChannelBlock>>)
    requires |slots| <= 8
    ensures MaskOf(slots) < 0x100
  {
    MaskRange(slots, 8);
  }

  function Pow2(n: nat): (p: nat)
    ensures p > 0
  {
    if n == 0 then 1 else 2 * Pow2(n - 1)
  }

  lemma {:induction false} MaskRange(slots: seq<Option<ChannelBlock>>, n: nat)
    requires |slots| <= n
    ensures MaskOf(slots) < Pow2(n)
    ensures n == 8 ==> Pow2(n) == 0x100
  {
    if slots == [] {
    } else {
      MaskRange(slots[1..], n - 1);
    }
    assert Pow2(8) == 2 * Pow2(7) == 4 * Pow2(6) == 8 * Pow2(5) == 16 * Pow2(4) == 32 * Pow2(3);
  }

  function Build(bs: seq<BoardAggregate>): (ws: seq<u32>)
    requires BoardsOk(bs)
  {
    if bs == [] then [] else BoardWords(bs[0]) + Build(bs[1..])
  }

  function ToBytes(ws: seq<u32>): (s: seq<byte>) {
    if ws == [] then [] else Le32(ws[0]) + ToBytes(ws[1..])
  }

  // ---- One result per extras word, in order ----

  function EventResults(o: Options, es: seq<Event>, isHw: bool): (rs: seq<PhaseResult>) {
    if es == [] || !o.et || !o.ee then [] else [Unpack(es[0].extras, isHw)] + EventResults(o, es[1..], isHw)
  }

  function SlotResults(slots: seq<Option<ChannelBlock>>, isHw: bool): (rs: seq<PhaseResult>) {
    if slots == [] then []
    else
      (if slots[0].Some? then EventResults(slots[0].value.options, slots[0].value.events, isHw) else [])
      + SlotResults(slots[1..], isHw)
  }

  function BoardResults(bs: seq<BoardAggregate>, isHw: bool): (rs: seq<PhaseResult>) {
    if bs == [] then [] else SlotResults(bs[0].slots, isHw) + BoardResults(bs[1..], isHw)
  }

  // ---- The walk undoes the builder ----

  ghost predicate WordAt(d: seq<byte>, p: nat, w: u32) { p + 4 <= |d| && ReadU32(d, p) == w }

  ghost predicate Words(d: seq<byte>, p: nat, ws: seq<u32>) {
    forall i :: 0 <= i < |ws| ==> WordAt(d, p + 4 * i, ws[i])
  }

  lemma WordsAppend(d: seq<byte>, p: nat, a: seq<u32>, b: seq<u32>)
    requires Words(d, p, a + b)
    ensures Words(d, p, a) && Words(d, p + 4 * |a|, b)
  {
    hide WordAt;
    forall i | 0 <= i < |a|
      ensures WordAt(d, p + 4 * i, a[i])
    {
      assert (a + b)[i] == a[i];
    }
    forall i | 0 <= i < |b|
      ensures WordAt(d, p + 4 * |a| + 4 * i, b[i])
    {
      assert (a + b)[|a| + i] == b[i];
    }
  }

  lemma {:induction false} WordsOfBytes(d: seq<byte>, p: nat, ws: seq<u32>)
    requires At(d, p, ToBytes(ws))
    ensures Words(d, p, ws) && |ToBytes(ws)| == 4 * |ws|
    decreases |ws|
  {
    hide At;
    if ws == [] {
    } else {
      AtAppend(d, p, Le32(ws[0]), ToBytes(ws[1..]));
      Le32At(d, p, ws[0]);
      WordsOfBytes(d, p + 4, ws[1..]);
      hide WordAt;
      forall i | 0 <= i < |ws|
        ensures WordAt(d, p + 4 * i, ws[i])
      {
        if i == 0 {
          OneWord(d, p, ws[0]);
        } else {
          assert ws[1..][i - 1] == ws[i];
        }
      }
    }
  }

  lemma OneWord(d: seq<byte>, p: nat, w: u32)
    requires p + 4 <= |d| && GetLe32(d, p) == w
    ensures WordAt(d, p, w)
  {
  }

  lemma FirstWords(d: seq<byte>, p: nat, ws: seq<u32>, k: nat)
    requires Words(d, p, ws) && k < |ws|
    ensures p + 4 * k + 4 <= |d| && ReadU32(d, p + 4 * k) == ws[k]
  {
    assert WordAt(d, p + 4 * k, ws[k]);
  }

  lemma EventExtras(d: seq<byte>, o: Options, isHw: bool, off: nat, e: Event)
    requires Words(d, off, EventWords(o, e))
    requires o.es ==> |e.waveform| == 4 * o.nsw
    ensures NextEvent(o, off) == off + 4 * |EventWords(o, e)|
    ensures Extras(d, o, isHw, off) == if o.ee then [Unpack(e.extras, isHw)] else []
  {
    hide Words, ReadU32, Unpack;
    if o.ee {
      var k := 1 + if o.es then 4 * o.nsw else 0;
      assert EventWords(o, e)[k] == e.extras;
      FirstWords(d, off, EventWords(o, e), k);
    }
  }

  predicate EventsOk(o: Options, es: seq<Event>) {
    forall i :: 0 <= i < |es| && o.es ==> |es[i].waveform| == 4 * o.nsw
  }

  lemma {:induction false} EventsRead(d: seq<byte>, size: nat, end: nat, o: Options, isHw: bool, off: nat,
      es: seq<Event>)
    requires Words(d, off, EventsWords(o, es)) && EventsOk(o, es)
    requires end == off + 4 * |EventsWords(o, es)| <= size
    ensures Events(d, size, end, o, isHw, off) == EventResults(o, es, isHw)
    decreases |es|
  {
    hide Words, EventWords, Unpack, Extras, NextEvent, ReadU32;
    if es == [] || !o.et {
    } else {
      WordsAppend(d, off, EventWords(o, es[0]), EventsWords(o, es[1..]));
      EventExtras(d, o, isHw, off, es[0]);
      EventFits(o, off, es[0]);
      EventsRead(d, size, end, o, isHw, NextEvent(o, off), es[1..]);
    }
  }

  lemma EventFits(o: Options, off: nat, e: Event)
    requires o.es ==> |e.waveform| == 4 * o.nsw
    ensures off + 4 <= off + 4 * |EventWords(o, e)|
    ensures o.ee ==> ExtrasAt(o, off) + 4 <= off + 4 * |EventWords(o, e)|
  {
  }

  lemma FlagBits(o: Options, dual: bool)
    ensures var f := Flags(o, dual);
            f < 32 && f % 2 == B(o.es) && f / 2 % 2 == B(o.ee) && f / 4 % 2 == B(o.et) && f / 8 % 2 == B(o.eq)
  {
    var q := B(o.eq) + 2 * B(dual);
    var t := B(o.et) + 2 * q;
    var e := B(o.ee) + 2 * t;
    assert Flags(o, dual) == B(o.es) + 2 * e;
    assert Flags(o, dual) / 2 == e && Flags(o, dual) / 4 == t && Flags(o, dual) / 8 == q;
  }

  lemma SplitWord(nsw: u16, high: nat, flags: nat)
    requires high < 0x800
    ensures var w := nsw + 0x1_0000 * high + 0x800_0000 * flags;
            w % 0x1_0000 == nsw && w / 0x800_0000 == flags
  {
    Arith.DivModUnique(high + 0x800 * flags, nsw, 0x1_0000);
    Arith.DivModUnique(flags, nsw + 0x1_0000 * high, 0x800_0000);
  }

  lemma OptionsRead(b: ChannelBlock)
    requires BlockOk(b)
    ensures FormatWord(b) < 0x1_0000_0000 && OptionsOf(FormatWord(b)) == b.options
  {
    FlagBits(b.options, b.dual);
    SplitWord(b.options.nsw, b.middle + 0x100 * b.extraOption, Flags(b.options, b.dual));
    hide Flags;
    assert FormatWord(b)
        == b.options.nsw + 0x1_0000 * (b.middle + 0x100 * b.extraOption) + 0x800_0000 * Flags(b.options, b.dual);
  }

  lemma BlockRead(d: seq<byte>, size: nat, isHw: bool, off: nat, b: ChannelBlock)
    requires BlockOk(b) && Words(d, off, BlockWords(b)) && off + 4 * |BlockWords(b)| <= size
    ensures BlockEnd(d, off) == off + 4 * |BlockWords(b)| && |BlockWords(b)| >= 2
    ensures Block(d, size, isHw, off) == EventResults(b.options, b.events, isHw)
  {
    hide Words, Events, EventsWords, EventResults, FormatWord, OptionsOf, ReadU32;
    OptionsRead(b);
    FirstWords(d, off, BlockWords(b), 0);
    FirstWords(d, off, BlockWords(b), 1);
    var head := [b.spare * 0x40_0000 + BlockSize(b), FormatWord(b)];
    WordsAppend(d, off, head, EventsWords(b.options, b.events));
    EventsRead(d, size, BlockEnd(d, off), b.options, isHw, off + 8, b.events);
  }

  ghost predicate MaskIs(mask: nat, pair: nat, slots: seq<Option<ChannelBlock>>) {
    forall k :: 0 <= k < |slots| ==> (slots[k].Some? <==> Bit(mask, pair + k))
  }

  lemma {:induction false} ChannelsRead(d: seq<byte>, size: nat, isHw: bool, boardEnd: nat, mask: nat, pair: nat,
      off: nat,
                                        slots: seq<Option<ChannelBlock>>)
    requires SlotsOk(slots) && pair + |slots| == 8 && MaskIs(mask, pair, slots)
    requires Words(d, off, SlotsWords(slots)) && off + 4 * |SlotsWords(slots)| <= boardEnd <= size
    ensures Channels(d, size, isHw, boardEnd, mask, pair, off) == SlotResults(slots, isHw)
    decreases |slots|
  {
    hide Words, BlockWords, Block, BlockEnd, EventResults, Bit, BlockOk;
    if slots == [] {
    } else {
      assert slots[0].Some? <==> Bit(mask, pair + 0);
      assert MaskIs(mask, pair + 1, slots[1..]) by {
        forall k | 0 <= k < |slots| - 1
          ensures slots[1..][k].Some? <==> Bit(mask, pair + 1 + k)
        {
          assert slots[k + 1].Some? <==> Bit(mask, pair + (k + 1));
        }
      }
      if slots[0].Some? {
        var b := slots[0].value;
        WordsAppend(d, off, BlockWords(b), SlotsWords(slots[1..]));
        BlockRead(d, size, isHw, off, b);
        ChannelsRead(d, size, isHw, boardEnd, mask, pair + 1, BlockEnd(d, off), slots[1..]);
      } else {
        assert SlotsWords(slots) == SlotsWords(slots[1..]) && SlotResults(slots, isHw) == SlotResults(slots[1..], isHw);
        ChannelsRead(d, size, isHw, boardEnd, mask, pair + 1, off, slots[1..]);
      }
    }
  }

  lemma MaskHalves(slots: seq<Option<ChannelBlock>>)
    requires slots != []
    ensures MaskOf(slots) / 2 == MaskOf(slots[1..]) && (MaskOf(slots) % 2 == 1 <==> slots[0].Some?)
  {
    Arith.DivModUnique(MaskOf(slots[1..]), if slots[0].Some? then 1 else 0, 2);
  }

  lemma {:induction false} MaskBit(slots: seq<Option<ChannelBlock>>, k: nat)
    requires k < |slots|
    ensures Bit(MaskOf(slots), k) <==> slots[k].Some?
  {
    hide MaskOf;
    MaskHalves(slots);
    if k == 0 {
    } else {
      MaskBit(slots[1..], k - 1);
    }
  }

  lemma BoardRead(d: seq<byte>, size: nat, isHw: bool, off: nat, b: BoardAggregate)
    requires BoardOk(b) && Words(d, off, BoardWords(b)) && off + 4 * |BoardWords(b)| <= size
    ensures BoardHere(d, size, off) && BoardEnd(d, off) == off + 4 * |BoardWords(b)| > off
    ensures Board(d, size, isHw, off) == SlotResults(b.slots, isHw)
  {
    hide Words, Channels, SlotsWords, SlotResults, MaskOf, ReadU32, SlotsOk, Bit;
    MaskBound(b.slots);
    FirstWords(d, off, BoardWords(b), 0);
    FirstWords(d, off, BoardWords(b), 1);
    var body := SlotsWords(b.slots) + b.tail;
    var head := [0xA000_0000 + 4 + |body|, b.boardBits * 0x100 + MaskOf(b.slots), b.counter, b.timeTag];
    assert BoardWords(b) == head + body;
    WordsAppend(d, off, head, body);
    WordsAppend(d, off + 16, SlotsWords(b.slots), b.tail);
    var mask := ReadU32(d, off + 4) % 0x100;
    assert mask == MaskOf(b.slots);
    assert MaskIs(mask, 0, b.slots) by {
      forall k | 0 <= k < |b.slots|
        ensures b.slots[k].Some? <==> Bit(mask, 0 + k)
      {
        MaskBit(b.slots, k);
      }
    }
    ChannelsRead(d, size, isHw, BoardEnd(d, off), mask, 0, off + 16, b.slots);
  }

  predicate BoardsOk(bs: seq<BoardAggregate>) { forall i :: 0 <= i < |bs| ==> BoardOk(bs[i]) }

  lemma {:induction false} BoardsRead(d: seq<byte>, size: nat, isHw: bool, off: nat, bs: seq<BoardAggregate>)
    requires BoardsOk(bs) && Words(d, off, Build(bs))
    requires off + 4 * |Build(bs)| <= size && !BoardHere(d, size, off + 4 * |Build(bs)|)
    ensures Advances(d, size, off) && Results(d, size, isHw, off) == BoardResults(bs, isHw)
    decreases |bs|
  {
    hide Words, BoardWords, BoardOk, SlotResults, Board, BoardHere, BoardEnd;
    if bs == [] {
    } else {
      WordsAppend(d, off, BoardWords(bs[0]), Build(bs[1..]));
      BoardRead(d, size, isHw, off, bs[0]);
      BoardsRead(d, size, isHw, BoardEnd(d, off), bs[1..]);
    }
  }

  /** The walk undoes the builder: on any boards, channel blocks and events it
      gives one result for each extras word, in order, whatever stands in the
      buffer behind the aggregate. */
  lemma ParseUndoesBuild(bs: seq<BoardAggregate>, post: seq<byte>, isHw: bool)
    requires BoardsOk(bs)
    ensures var d, size := ToBytes(Build(bs)) + post, |ToBytes(Build(bs))|;
            Advances(d, size, 0) && Results(d, size, isHw, 0) == BoardResults(bs, isHw)
  {
    hide Build, ToBytes, Words, BoardResults, ReadU32;
    var s := ToBytes(Build(bs));
    AtFrame([], s, post);
    assert [] + s + post == s + post;
    WordsOfBytes(s + post, 0, Build(bs));
    BoardsRead(s + post, |s|, isHw, 0, bs);
  }

  // ---- Where results come from ----

  /** `r` is an extras word, complete within the first `size` bytes, of an event that
      starts behind the header of the board at `b` and before its end at `e`. */
  ghost predicate FromBoard(d: seq<byte>, size: nat, isHw: bool, b: nat, e: nat, r: PhaseResult) {
    exists q: nat, p: nat :: b + 24 <= q < e && FromEvent(d, size, isHw, q, p, r)
  }

  predicate FromEvent(d: seq<byte>, size: nat, isHw: bool, q: nat, p: nat, r: PhaseResult) {
    q + 4 <= p && p + 4 <= size && r == Unpack(ReadU32(d, p), isHw)
  }

  lemma {:induction false} EventsInside(d: seq<byte>, size: nat, end: nat, o: Options, isHw: bool, off: nat,
      b: nat, e: nat, r: PhaseResult)
    requires b + 24 <= off && end <= e && r in Events(d, size, end, o, isHw, off)
    ensures FromBoard(d, size, isHw, b, e, r)
    decreases end - off
  {
    hide Unpack, ReadU32;
    if r in Extras(d, o, isHw, off) {
      assert FromEvent(d, size, isHw, off, ExtrasAt(o, off), r);
    } else {
      EventsInside(d, size, end, o, isHw, NextEvent(o, off), b, e, r);
    }
  }

  lemma {:induction false} ChannelsInside(d: seq<byte>, size: nat, isHw: bool, boardEnd: nat, mask: nat, pair: nat,
      off: nat, b: nat, r: PhaseResult)
    requires b + 16 <= off && r in Channels(d, size, isHw, boardEnd, mask, pair, off)
    ensures FromBoard(d, size, isHw, b, boardEnd, r)
    decreases 8 - pair
  {
    hide Bit, Events, OptionsOf, ReadU32, FromBoard;
    if !Bit(mask, pair) {
      ChannelsInside(d, size, isHw, boardEnd, mask, pair + 1, off, b, r);
    } else if r in Block(d, size, isHw, off) {
      EventsInside(d, size, BlockEnd(d, off), OptionsOf(ReadU32(d, off + 4)), isHw, off + 8, b, boardEnd, r);
    } else {
      ChannelsInside(d, size, isHw, boardEnd, mask, pair + 1, BlockEnd(d, off), b, r);
    }
  }

  /** Main result, for every buffer: each result is an extras word inside the data,
      of an event that starts inside a complete board of the walk. */
  lemma {:induction false} ResultsInside(d: seq<byte>, size: nat, isHw: bool, off: nat, r: PhaseResult) returns (b: nat)
    requires Advances(d, size, off) && r in Results(d, size, isHw, off)
    ensures off <= b && BoardHere(d, size, b) && BoardEnd(d, b) <= size
    ensures FromBoard(d, size, isHw, b, BoardEnd(d, b), r)
    decreases size - off
  {
    hide Channels, ReadU32, FromBoard;
    if r in Board(d, size, isHw, off) {
      b := off;
      ChannelsInside(d, size, isHw, BoardEnd(d, off), ReadU32(d, off + 4) % 0x100, 0, off + 16, off, r);
    } else {
      b := ResultsInside(d, size, isHw, BoardEnd(d, off), r);
    }
  }

  /** The packed fields come back: ten bits of fine time, or two signed halves
      with the upper one in the high bits. */
  lemma FieldsRestored(fine: nat, rest: nat, upper: int, lower: int)
    requires fine < 0x400 && rest < 0x40_0000
    requires -0x8000 <= upper < 0x8000 && -0x8000 <= lower < 0x8000
    ensures var w := rest * 0x400 + fine; Unpack(w, true) == Hw(fine, w)
    ensures var w := Wrap(upper, 0x1_0000) * 0x1_0000 + Wrap(lower, 0x1_0000); Unpack(w, false) == Sw(upper, lower, w)
  {
    var w := Wrap(upper, 0x1_0000) * 0x1_0000 + Wrap(lower, 0x1_0000);
    assert w / 0x1_0000 == Wrap(upper, 0x1_0000) && w % 0x1_0000 == Wrap(lower, 0x1_0000);
  }

  // ---- A walk that does not end ----

  /** A board header with a zero size field, and nothing else. */
  const ZERO_BOARD: seq<byte> := [0, 0, 0, 0xA0, 0, 0, 0, 0, 0, 0, 0, 0, 0, 0, 0, 0]

  /** "The walk ends" is false of the code: on these sixteen bytes it stays where it is. */
  lemma ZeroBoardNeverStops()
    ensures MeetsZeroBoard(ZERO_BOARD, 16) && !Stops(ZERO_BOARD, 16)
  {
    assert ReadU32(ZERO_BOARD, 0) == 0xA000_0000;
    assert OffsetAfter(ZERO_BOARD, 16, 0) == Some(0);
    assert ZeroBoard(ZERO_BOARD, 16, 0);
    StopsIff(ZERO_BOARD, 16);
  }
}
