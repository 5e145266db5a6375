/** `read_delila.C`, `read_header` and the block loop: a `.delila` file is
    magic, metadata, length-prefixed blocks and a 64-byte footer. */
module DelilaFile {
  import opened Bytes
  import opened DelilaSyntax
  import opened DelilaReader

  const FILE_MAGIC: seq<byte> := [0x44, 0x45, 0x4c, 0x49, 0x4c, 0x41, 0x30, 0x32]
  const FOOTER_SIZE := 64
  const MAX_BLOCK := 100_000_000

  /** What parsing one block yields. Bytes behind the batch are not looked at. */
  function BlockValue(block: seq<byte>): (r: Option<seq<EventVal>>) {
    var batch := ReadBatch(Reader, block, 0);
    if batch.None? then None
    else
      BatchSound(Reader, block, 0);
      Some(EventsOf(batch.value.0.events))
  }

  /** All events the block loop can reach from `pos`: it ends at the first
      impossible length, short read or unreadable block. */
  function BlockEvents(file: seq<byte>, pos: nat, end: int): (r: seq<EventVal>)
    decreases end - pos
  {
    if pos >= end || pos + 4 > |file| then []
    else
      var n := GetLe32(file, pos);
      if n == 0 || n > MAX_BLOCK || pos + 4 + n > |file| then []
      else
        var block := BlockValue(file[pos + 4..pos + 4 + n]);
        if block.None? then [] else block.value + BlockEvents(file, pos + 4 + n, end)
  }

  function Limit<T>(s: seq<T>, maxEvents: int): (r: seq<T>) {
    if 0 < maxEvents < |s| then s[..maxEvents] else s
  }

  /** `read_header`: where the data starts, if the magic matches. */
  function DataStart(file: seq<byte>): (r: Option<nat>) {
    if |file| < 12 || file[..8] != FILE_MAGIC then None else Some(12 + GetLe32(file, 8))
  }

  method ReadDelila(file: seq<byte>, maxEvents: int) returns (events: seq<EventVal>)
    ensures events == match DataStart(file)
                      case None => []
                      case Some(start) => Limit(BlockEvents(file, start, |file| - 64), maxEvents)
  {
    hide BlockValue, BlockEvents, GetLe32, Limit;
    events := [];
    LimitShort(events, maxEvents);
    if |file| < 12 || file[..8] != FILE_MAGIC { return; }
    var pos: nat := 12 + GetLe32(file, 8);
    var end := |file| - FOOTER_SIZE;
    ghost var all := BlockEvents(file, pos, end);
    while pos < end
      invariant all == events + BlockEvents(file, pos, end)
      invariant Limit(events, maxEvents) == events && (maxEvents > 0 ==> |events| < maxEvents)
      decreases end - pos
    {
      BlockEventsStep(file, pos, end);
      var n := GetLe32(file, pos);
      if n == 0 || n > MAX_BLOCK { assert all == events; return; }
      if pos + 4 + n > |file| { assert all == events; return; }
      var parsed;
      ghost var before := events;
      ghost var value := BlockValue(file[pos + 4..pos + 4 + n]);
      parsed, events := AddBlock(file[pos + 4..pos + 4 + n], events, maxEvents);
      if !parsed { assert all == events; return; }
      pos := pos + 4 + n;
      ghost var rest := BlockEvents(file, pos, end);
      Assoc(before, value.value, rest);
      LimitSplit(before + value.value, rest, maxEvents);
      if maxEvents > 0 && |events| >= maxEvents { return; }
    }
    BlockEventsStep(file, pos, end);
    assert all == events;
  }

  lemma LimitShort<T>(a: seq<T>, maxEvents: int)
    requires maxEvents <= 0 || |a| <= maxEvents
    ensures Limit(a, maxEvents) == a
  {
  }

  /** A limit reached in the first part cuts there; one not reached cuts nothing. */
  lemma LimitSplit<T>(a: seq<T>, b: seq<T>, maxEvents: int)
    ensures maxEvents > 0 && |Limit(a, maxEvents)| >= maxEvents ==> Limit(a + b, maxEvents) == Limit(a, maxEvents)
    ensures !(maxEvents > 0 && |Limit(a, maxEvents)| >= maxEvents) ==> Limit(a, maxEvents) == a
    ensures Limit(Limit(a, maxEvents), maxEvents) == Limit(a, maxEvents)
  {
    if 0 < maxEvents <= |a| { assert (a + b)[..maxEvents] == a[..maxEvents]; }
  }

  lemma BlockEventsStep(file: seq<byte>, pos: nat, end: int)
    ensures BlockEvents(file, pos, end) ==
      if pos >= end || pos + 4 > |file| then []
      else
        var n := GetLe32(file, pos);
        if n == 0 || n > MAX_BLOCK || pos + 4 + n > |file| then []
        else
          var block := BlockValue(file[pos + 4..pos + 4 + n]);
          if block.None? then [] else block.value + BlockEvents(file, pos + 4 + n, end)
  {
    hide BlockValue, GetLe32;
  }

  /** Parse one block and append its events, up to the limit. */
  method AddBlock(block: seq<byte>, all: seq<EventVal>, maxEvents: int) returns (ok: bool, r: seq<EventVal>)
    requires maxEvents > 0 ==> |all| < maxEvents
    ensures ok == BlockValue(block).Some?
    ensures r == if ok then Limit(all + BlockValue(block).value, maxEvents) else all
  {
    hide ReadBatch, EventsOf, BatchWf;
    var parser := new MsgPackParser(block);
    var sourceId, events;
    ok, sourceId, events := parser.ParseBatch();
    r := all;
    if !ok { return; }
    var i := 0;
    while i < |events|
      invariant 0 <= i <= |events|
      invariant r == all + events[..i]
      invariant maxEvents > 0 ==> |r| < maxEvents
    {
      r := r + [events[i]];
      i := i + 1;
      assert r == all + events[..i];
      if maxEvents > 0 && |r| >= maxEvents {
        assert r == (all + events)[..maxEvents];
        return;
      }
    }
    assert events[..i] == events;
  }

  // ---- The writer's layout ----

  /** Every batch can be encoded into a block whose length fits the prefix. */
  predicate Blocks(batches: seq<Batch>) {
    forall i :: 0 <= i < |batches| ==> BatchWf(batches[i]) && |EncBatch(batches[i])| < 0x1_0000_0000
  }

  function Frame(b: Batch): (r: seq<byte>)
    requires BatchWf(b) && |EncBatch(b)| < 0x1_0000_0000
  {
    Le32(|EncBatch(b)|) + EncBatch(b)
  }

  function Frames(batches: seq<Batch>): (r: seq<byte>)
    requires Blocks(batches)
  {
    if batches == [] then [] else Frame(batches[0]) + Frames(batches[1..])
  }

  function FileBytes(metadata: seq<byte>, batches: seq<Batch>, footer: seq<byte>): (r: seq<byte>)
    requires |metadata| < 0x1_0000_0000 && Blocks(batches)
  {
    Ascii("DELILA02") + Le32(|metadata|) + metadata + Frames(batches) + footer
  }

  /** The reader takes the block: at most 100 MB, and only formats it knows. */
  predicate Readable(b: Batch)
    requires BatchWf(b)
  {
    |EncBatch(b)| <= 100_000_000 && BatchOk(Reader, b)
  }

  /** The events up to the first batch that the reader does not take. */
  function ReadableEvents(batches: seq<Batch>): (r: seq<EventVal>)
    requires Blocks(batches)
  {
    if batches == [] || !Readable(batches[0]) then []
    else EventsOf(batches[0].events) + ReadableEvents(batches[1..])
  }

  lemma BlockValueOf(b: Batch)
    requires BatchWf(b)
    ensures BlockValue(EncBatch(b)) == if BatchOk(Reader, b) then Some(EventsOf(b.events)) else None
  {
    hide BatchWf, BatchOk, EncBatch, ReadBatch;
    ReadsIffSupported(Reader, [], b, []);
    assert [] + EncBatch(b) + [] == EncBatch(b);
  }

  lemma {:induction false} FramesRead(file: seq<byte>, pos: nat, batches: seq<Batch>, end: int)
    requires Blocks(batches) && At(file, pos, Frames(batches)) && end == pos + |Frames(batches)|
    ensures BlockEvents(file, pos, end) == ReadableEvents(batches)
    decreases |batches|
  {
    hide BlockValue, BatchWf, BatchOk, EncBatch, GetLe32;
    if batches == [] {
    } else {
      var b := batches[0];
      var n := |EncBatch(b)|;
      AtAppend(file, pos, Frame(b), Frames(batches[1..]));
      AtAppend(file, pos, Le32(n), EncBatch(b));
      Le32At(file, pos, n);
      BlockValueOf(b);
      FramesRead(file, pos + 4 + n, batches[1..], end);
    }
  }

  /** Main result: reading a written file gives back the events of its batches in
      order, up to the first block that is too long or written in a format that the
      reader does not take.
      `ReadDelila` cuts this at `max_events` when that is positive. */
  lemma FileRoundTrip(metadata: seq<byte>, batches: seq<Batch>, footer: seq<byte>)
    requires |metadata| < 0x1_0000_0000 && Blocks(batches) && |footer| == 64
    ensures var file := FileBytes(metadata, batches, footer);
            && DataStart(file).Some?
            && BlockEvents(file, DataStart(file).value, |file| - 64) == ReadableEvents(batches)
  {
    hide Blocks, Frames, GetLe32, BlockEvents, ReadableEvents;
    var file := FileBytes(metadata, batches, footer);
    var magic := Ascii("DELILA02");
    var head := magic + Le32(|metadata|) + metadata;
    AtFrame(head, Frames(batches), footer);
    AtFrame(magic, Le32(|metadata|), metadata + Frames(batches) + footer);
    assert file == magic + Le32(|metadata|) + (metadata + Frames(batches) + footer);
    Le32At(file, 8, |metadata|);
    assert magic == FILE_MAGIC;
    assert file[..8] == magic;
    FramesRead(file, |head|, batches, |file| - 64);
  }
}
