/** `recover.rs` (`dump`) and `read_dump.C`: the flat event dump, its writer and
    its reader. */
module Dump {
  import opened Bytes

  /** `timestamp` holds the bits of the 64-bit float. */
  datatype Event = Event(mod: byte, channel: byte, energy: u16, energyShort: u16, flags: u64, timestamp: u64)

  datatype Footer = Footer(complete: bool, totalEvents: u64)

  /** `blocks` is what `data_blocks()` yields; `None` is a block it reports as an error. */
  datatype File = File(opens: bool, footer: Option<Footer>, blocks: seq<Option<seq<Event>>>)

  const MAGIC: seq<byte> := [0x44, 0x4C, 0x44, 0x55, 0x4D, 0x50, 0x30, 0x31]
  const RECORD_SIZE := 22
  const HEADER_SIZE := 16
  const TWO64 := 0x1_0000_0000_0000_0000

  // ---- The format ----

  function Record(e: Event): (s: seq<byte>)
    ensures |s| == RECORD_SIZE
  {
    [e.mod] + ([e.channel] + (Le16(e.energy) + (Le16(e.energyShort) + (Le64(e.flags) + Le64(e.timestamp)))))
  }

  function Records(es: seq<Event>): (s: seq<byte>)
    ensures |s| == RECORD_SIZE * |es|
  {
    if es == [] then [] else Records(es[..|es| - 1]) + Record(es[|es| - 1])
  }

  function DumpBytes(count: u64, es: seq<Event>): (s: seq<byte>)
    ensures |s| == HEADER_SIZE + RECORD_SIZE * |es|
  {
    MAGIC + Le64(count) + Records(es)
  }

  // ---- The writer ----

  datatype DumpResult = CountFailed | WriteFailed(output: seq<byte>) | Dumped(output: seq<byte>)

  predicate Intact(f: File) { forall i :: 0 <= i < |f.blocks| ==> f.blocks[i].Some? }

  /** The events up to the first unreadable block. */
  function EventsOfBlocks(blocks: seq<Option<seq<Event>>>): (es: seq<Event>) {
    if blocks == [] || blocks[0].None? then [] else blocks[0].value + EventsOfBlocks(blocks[1..])
  }

  /** The events of all files up to the first unreadable block. */
  function EventsOf(files: seq<File>): (es: seq<Event>) {
    if files == [] then []
    else EventsOfBlocks(files[0].blocks) + if Intact(files[0]) then EventsOf(files[1..]) else []
  }

  predicate TrustsFooter(f: File) { f.footer.Some? && f.footer.value.complete }

  predicate Countable(f: File) { f.opens && (TrustsFooter(f) || Intact(f)) }

  function CountOf(f: File): (n: nat) {
    if TrustsFooter(f) then f.footer.value.totalEvents else |EventsOfBlocks(f.blocks)|
  }

  function TotalCount(files: seq<File>): (n: nat) {
    if files == [] then 0 else TotalCount(files[..|files| - 1]) + CountOf(files[|files| - 1])
  }

  /** Adding in 64 bits at every step comes to one reduction at the end. */
  lemma AddWraps(a: nat, b: nat)
    ensures (a % TWO64 + b) % TWO64 == (a + b) % TWO64
  {
  }

  lemma {:induction false} IntactPrefix(blocks: seq<Option<seq<Event>>>, j: nat)
    requires j < |blocks| && forall i :: 0 <= i < j ==> blocks[i].Some?
    ensures EventsOfBlocks(blocks[..j]) + (if blocks[j].Some? then blocks[j].value else [])
         == EventsOfBlocks(blocks[..j + 1])
    ensures blocks[j].None? ==> EventsOfBlocks(blocks[..j]) == EventsOfBlocks(blocks)
    decreases j
  {
    if j == 0 {
      assert blocks[..1][1..] == [];
      if blocks[0].Some? { assert blocks[0].value + [] == blocks[0].value; }
    } else {
      IntactPrefix(blocks[1..], j - 1);
      assert blocks[..j][1..] == blocks[1..][..j - 1] && blocks[..j + 1][1..] == blocks[1..][..j];
    }
  }

  method CountBlocks(f: File) returns (ok: bool, n: nat)
    ensures ok <==> Intact(f)
    ensures ok ==> n == |EventsOfBlocks(f.blocks)|
  {
    hide EventsOfBlocks;
    n := 0;
    assert EventsOfBlocks(f.blocks[..0]) == [] by { NoBlocks(); }
    for j := 0 to |f.blocks|
      invariant forall i :: 0 <= i < j ==> f.blocks[i].Some?
      invariant n == |EventsOfBlocks(f.blocks[..j])|
    {
      if f.blocks[j].None? { return false, 0; }
      IntactPrefix(f.blocks, j);
      n := n + |f.blocks[j].value|;
    }
    assert f.blocks[..|f.blocks|] == f.blocks;
    ok := true;
  }

  lemma NoBlocks()
    ensures EventsOfBlocks([]) == []
  {
  }

  method CountEvents(files: seq<File>) returns (total: Option<u64>)
    ensures total.Some? <==> forall i :: 0 <= i < |files| ==> Countable(files[i])
    ensures total.Some? ==> total.value == TotalCount(files) % TWO64
  {
    hide EventsOfBlocks, Intact;
    var n: u64 := 0;
    for i := 0 to |files|
      invariant forall j :: 0 <= j < i ==> Countable(files[j])
      invariant n == TotalCount(files[..i]) % TWO64
    {
      var f := files[i];
      assert files[..i + 1][..i] == files[..i];
      AddWraps(TotalCount(files[..i]), CountOf(f));
      if !f.opens { return None; }
      if f.footer.Some? && f.footer.value.complete {
        n := (n + f.footer.value.totalEvents) % TWO64;
      } else {
        var ok, k := CountBlocks(f);
        if !ok { return None; }
        n := (n + k) % TWO64;
      }
    }
    assert files[..|files|] == files;
    total := Some(n);
  }

  lemma RecordsSnoc(es: seq<Event>, e: Event)
    ensures Records(es + [e]) == Records(es) + Record(e)
  {
    assert (es + [e])[..|es|] == es;
  }

  /** One block: record after record. */
  method WriteBlock(output: seq<byte>, ghost count: u64, ghost written: seq<Event>, block: seq<Event>)
      returns (r: seq<byte>)
    requires output == DumpBytes(count, written)
    ensures r == DumpBytes(count, written + block)
  {
    hide Records, Record;
    r := output;
    assert written + block[..0] == written;
    for i := 0 to |block|
      invariant r == DumpBytes(count, written + block[..i])
    {
      var e := block[i];
      assert written + block[..i + 1] == (written + block[..i]) + [e];
      RecordsSnoc(written + block[..i], e);
      r := r + ([e.mod] +
          ([e.channel] + (Le16(e.energy) + (Le16(e.energyShort) + (Le64(e.flags) + Le64(e.timestamp))))));
      RecordIs(e);
    }
    assert block[..|block|] == block;
  }

  lemma RecordIs(e: Event)
    ensures Record(e) ==
        [e.mod] + ([e.channel] + (Le16(e.energy) + (Le16(e.energyShort) + (Le64(e.flags) + Le64(e.timestamp)))))
  {
  }

  method WriteFile(output: seq<byte>, ghost count: u64, ghost written: seq<Event>, f: File)
      returns (ok: bool, r: seq<byte>)
    requires output == DumpBytes(count, written)
    ensures ok <==> Intact(f)
    ensures r == DumpBytes(count, written + EventsOfBlocks(f.blocks))
  {
    hide DumpBytes, EventsOfBlocks;
    r := output;
    NoBlocks();
    assert f.blocks[..0] == [] && written + [] == written;
    for j := 0 to |f.blocks|
      invariant forall i :: 0 <= i < j ==> f.blocks[i].Some?
      invariant r == DumpBytes(count, written + EventsOfBlocks(f.blocks[..j]))
    {
      IntactPrefix(f.blocks, j);
      if f.blocks[j].None? { return false, r; }
      ghost var before := EventsOfBlocks(f.blocks[..j]);
      r := WriteBlock(r, count, written + before, f.blocks[j].value);
      assert (written + before) + f.blocks[j].value == written + (before + f.blocks[j].value);
    }
    assert f.blocks[..|f.blocks|] == f.blocks;
    ok := true;
  }

  lemma FirstFile(files: seq<File>, i: nat)
    requires i < |files|
    ensures EventsOf(files[i..])
         == EventsOfBlocks(files[i].blocks) + if Intact(files[i]) then EventsOf(files[i + 1..]) else []
  {
    hide EventsOfBlocks, Intact;
    assert files[i..][1..] == files[i + 1..];
  }

  lemma EventsOfStep(files: seq<File>, i: nat, written: seq<Event>)
    requires i < |files| && written + EventsOf(files[i..]) == EventsOf(files)
    ensures if Intact(files[i]) then (written + EventsOfBlocks(files[i].blocks)) + EventsOf(files[i + 1..]) ==
        EventsOf(files)
            else written + EventsOfBlocks(files[i].blocks) == EventsOf(files)
  {
    hide EventsOfBlocks, Intact;
    FirstFile(files, i);
    hide EventsOf;
    var here := EventsOfBlocks(files[i].blocks);
    if Intact(files[i]) {
      Assoc(written, here, EventsOf(files[i + 1..]));
    } else {
      assert here + [] == here;
    }
  }

  /** Count, then write. Both passes stop at the first error. */
  method DumpFiles(files: seq<File>) returns (r: DumpResult)
    ensures r.CountFailed? <==> exists i :: 0 <= i < |files| && !Countable(files[i])
    ensures r.Dumped? <==> forall i :: 0 <= i < |files| ==> Countable(files[i]) && Intact(files[i])
    ensures !r.CountFailed? ==> r.output == DumpBytes(TotalCount(files) % TWO64, EventsOf(files))
  {
    hide DumpBytes, EventsOf, EventsOfBlocks, Intact, TotalCount;
    var total := CountEvents(files);
    if total.None? { return CountFailed; }
    var output := MAGIC + Le64(total.value);
    ghost var written: seq<Event> := [];
    assert output == DumpBytes(total.value, []) by { EmptyDump(total.value); }
    assert files[0..] == files && [] + EventsOf(files) == EventsOf(files);
    for i := 0 to |files|
      invariant forall j :: 0 <= j < i ==> Intact(files[j])
      invariant output == DumpBytes(total.value, written)
      invariant written + EventsOf(files[i..]) == EventsOf(files)
    {
      EventsOfStep(files, i, written);
      var ok;
      ok, output := WriteFile(output, total.value, written, files[i]);
      written := written + EventsOfBlocks(files[i].blocks);
      if !ok { return WriteFailed(output); }
    }
    assert written == EventsOf(files) by { assert files[|files|..] == []; NoFiles(); }
    r := Dumped(output);
  }

  lemma EmptyDump(count: u64)
    ensures DumpBytes(count, []) == MAGIC + Le64(count)
  {
    assert MAGIC + Le64(count) + [] == MAGIC + Le64(count);
  }

  lemma NoFiles()
    ensures EventsOf([]) == []
  {
  }

  // ---- The reader ----

  /** The branches of the tree. `fineTs` holds the bits of the float; the flags
      are read into a temporary and not kept. */
  datatype Row = Row(mod: byte, channel: byte, chargeLong: u16, chargeShort: u16, fineTs: u64, recordLength: nat)

  datatype Reading = InvalidMagic | Tree(announced: Option<u64>, rows: seq<Row>)

  function EventAt(d: seq<byte>, p: nat): (e: Event)
    requires p + RECORD_SIZE <= |d|
  {
    Event(d[p], d[p + 1], GetLe16(d, p + 2), GetLe16(d, p + 4), GetLe64(d, p + 6), GetLe64(d, p + 14))
  }

  function RowOf(e: Event): (r: Row) { Row(e.mod, e.channel, e.energy, e.energyShort, e.timestamp, 0) }

  function RowsOf(es: seq<Event>): (rs: seq<Row>)
    ensures |rs| == |es| && forall i :: 0 <= i < |rs| ==> rs[i] == RowOf(es[i])
  {
    seq(|es|, i requires 0 <= i < |es| => RowOf(es[i]))
  }

  /** The complete records from `p` on. */
  function ReadRecords(d: seq<byte>, p: nat): (es: seq<Event>)
    decreases |d| - p
  {
    if p + RECORD_SIZE > |d| then [] else [EventAt(d, p)] + ReadRecords(d, p + RECORD_SIZE)
  }

  lemma ReadStep(d: seq<byte>, p: nat, rows: seq<Row>)
    requires p + RECORD_SIZE <= |d|
    ensures rows + RowsOf(ReadRecords(d, p)) ==
        (rows + [RowOf(EventAt(d, p))]) + RowsOf(ReadRecords(d, p + RECORD_SIZE))
  {
    hide EventAt;
    var more := ReadRecords(d, p + RECORD_SIZE);
    assert RowsOf([EventAt(d, p)] + more) == [RowOf(EventAt(d, p))] + RowsOf(more);
  }

  method ReadDump(d: seq<byte>) returns (r: Reading)
    ensures r.InvalidMagic? <==> !(Ascii("DLDUMP01") <= d)
    ensures r.Tree? ==> r.rows == RowsOf(ReadRecords(d, HEADER_SIZE))
    ensures r.Tree? ==> r.announced == if |d| < HEADER_SIZE then None else Some(GetLe64(d, 8))
  {
    hide ReadRecords, RowsOf, EventAt;
    assert MAGIC == Ascii("DLDUMP01");
    if |d| < 8 || d[..8] != MAGIC { return InvalidMagic; }
    var announced := if |d| < HEADER_SIZE then None else Some(GetLe64(d, 8));
    var rows: seq<Row> := [];
    var p: nat := HEADER_SIZE;
    while p + RECORD_SIZE <= |d|
      invariant rows + RowsOf(ReadRecords(d, p)) == RowsOf(ReadRecords(d, HEADER_SIZE))
      decreases |d| - p
    {
      ReadStep(d, p, rows);
      rows := rows + [Row(d[p], d[p + 1], GetLe16(d, p + 2), GetLe16(d, p + 4), GetLe64(d, p + 14), 0)];
      FieldsRead(d, p);
      p := p + RECORD_SIZE;
    }
    assert RowsOf(ReadRecords(d, p)) == [] by { ReadEnd(d, p); }
    r := Tree(announced, rows);
  }

  lemma FieldsRead(d: seq<byte>, p: nat)
    requires p + RECORD_SIZE <= |d|
    ensures RowOf(EventAt(d, p)) == Row(d[p], d[p + 1], GetLe16(d, p + 2), GetLe16(d, p + 4), GetLe64(d, p + 14), 0)
  {
  }

  lemma ReadEnd(d: seq<byte>, p: nat)
    requires p + RECORD_SIZE > |d|
    ensures ReadRecords(d, p) == [] && RowsOf([]) == []
  {
  }

  // ---- Reading undoes writing ----

  lemma RecordRead(d: seq<byte>, p: nat, e: Event)
    requires At(d, p, Record(e))
    ensures p + RECORD_SIZE <= |d| && EventAt(d, p) == e
  {
    hide GetLe16, GetLe64, Le16, Le64;
    var tail := Le64(e.flags) + Le64(e.timestamp);
    AtAppend(d, p, [e.mod], [e.channel] + (Le16(e.energy) + (Le16(e.energyShort) + tail)));
    AtAppend(d, p + 1, [e.channel], Le16(e.energy) + (Le16(e.energyShort) + tail));
    Widths(e);
    AtAppend(d, p + 2, Le16(e.energy), Le16(e.energyShort) + tail);
    AtAppend(d, p + 4, Le16(e.energyShort), tail);
    AtAppend(d, p + 6, Le64(e.flags), Le64(e.timestamp));
    Le16At(d, p + 2, e.energy);
    Le16At(d, p + 4, e.energyShort);
    Le64At(d, p + 6, e.flags);
    Le64At(d, p + 14, e.timestamp);
    ByteAt(d, p, e.mod);
    ByteAt(d, p + 1, e.channel);
  }

  lemma Widths(e: Event)
    ensures |Le16(e.energy)| == 2 && |Le16(e.energyShort)| == 2 && |Le64(e.flags)| == 8 && |Le64(e.timestamp)| == 8
  {
  }

  lemma ByteAt(d: seq<byte>, p: nat, b: byte)
    requires At(d, p, [b])
    ensures d[p] == b
  {
    assert d[p..p + 1][0] == b;
  }

  lemma {:induction false} RecordsCons(es: seq<Event>)
    requires es != []
    ensures Records(es) == Record(es[0]) + Records(es[1..])
    decreases |es|
  {
    hide Record;
    var n := |es| - 1;
    if n == 0 {
      assert Records(es[..0]) == [] && Records(es[1..]) == [];
      assert Record(es[0]) + [] == Record(es[0]) == [] + Record(es[0]);
    } else {
      RecordsCons(es[..n]);
      assert es[..n][1..] == es[1..][..n - 1];
      assert Record(es[0]) + Records(es[1..][..n - 1]) + Record(es[n])
          == Record(es[0]) + (Records(es[1..][..n - 1]) + Record(es[n]));
    }
  }

  /** Records that stand in the buffer are read; a fraction of one behind them is not. */
  lemma {:induction false} RecordsRead(d: seq<byte>, p: nat, es: seq<Event>)
    requires At(d, p, Records(es)) && |d| < p + RECORD_SIZE * |es| + RECORD_SIZE
    ensures ReadRecords(d, p) == es
    decreases |es|
  {
    hide Record, EventAt, At, Records;
    if es == [] {
    } else {
      RecordsCons(es);
      AtAppend(d, p, Record(es[0]), Records(es[1..]));
      RecordRead(d, p, es[0]);
      RecordsRead(d, p + RECORD_SIZE, es[1..]);
    }
  }

  lemma {:induction false} RecordsSplit(es: seq<Event>, m: nat)
    requires m <= |es|
    ensures Records(es) == Records(es[..m]) + Records(es[m..])
    decreases |es|
  {
    hide Record;
    if m == |es| {
      assert es[..m] == es && Records(es[m..]) == [];
    } else {
      var n := |es| - 1;
      RecordsSplit(es[..n], m);
      assert es[..n][..m] == es[..m] && es[..n][m..] == es[m..][..n - m];
      assert Records(es[..m]) + Records(es[m..][..n - m]) + Record(es[n])
          == Records(es[..m]) + (Records(es[m..][..n - m]) + Record(es[n]));
    }
  }

  /** A dump cut off anywhere behind its header reads back as the events whose
      records are complete, and a whole one as all of them. */
  lemma CutDumpRead(count: u64, es: seq<Event>, cut: nat)
    requires HEADER_SIZE <= cut <= HEADER_SIZE + RECORD_SIZE * |es|
    ensures var d, m := DumpBytes(count, es)[..cut], (cut - HEADER_SIZE) / RECORD_SIZE;
            m <= |es| && ReadRecords(d, HEADER_SIZE) == es[..m] && MAGIC <= d && GetLe64(d, 8) == count
  {
    hide Records, ReadRecords, Record, GetLe64, Le64;
    var whole := DumpBytes(count, es);
    var d, m := whole[..cut], (cut - HEADER_SIZE) / RECORD_SIZE;
    Len64(count);
    RecordsSplit(es, m);
    var end := HEADER_SIZE + RECORD_SIZE * m;
    assert d[8..16] == Le64(count);
    assert At(d, 8, Le64(count));
    Le64At(d, 8, count);
    assert d[HEADER_SIZE..end] == whole[HEADER_SIZE..end] == Records(es[..m]);
    assert At(d, HEADER_SIZE, Records(es[..m]));
    RecordsRead(d, HEADER_SIZE, es[..m]);
  }

  lemma Len64(v: u64)
    ensures |Le64(v)| == 8
  {
  }

  // ---- The announced count ----

  /** By how much the complete footers overstate what their files yield. */
  function Overstated(files: seq<File>): (n: int) {
    if files == [] then 0
    else
      var f := files[|files| - 1];
      Overstated(files[..|files| - 1])
      + if f.footer.Some? && f.footer.value.complete then f.footer.value.totalEvents - |EventsOfBlocks(f.blocks)| else 0
  }

  lemma {:induction false} EventsOfSnoc(files: seq<File>, f: File)
    requires forall i :: 0 <= i < |files| ==> Intact(files[i])
    ensures EventsOf(files + [f]) == EventsOf(files) + EventsOfBlocks(f.blocks)
  {
    hide Intact, EventsOfBlocks;
    if files == [] {
      assert ([] + [f])[1..] == [] && [] + [f] == [f];
      assert EventsOfBlocks(f.blocks) + [] == EventsOfBlocks(f.blocks);
    } else {
      EventsOfSnoc(files[1..], f);
      assert (files + [f])[1..] == files[1..] + [f];
    }
  }

  lemma {:induction false} CountDiffers(files: seq<File>)
    requires forall i :: 0 <= i < |files| ==> Intact(files[i])
    ensures TotalCount(files) == |EventsOf(files)| + Overstated(files)
    decreases |files|
  {
    hide Intact, EventsOfBlocks, EventsOf;
    if files == [] {
      NoFiles();
    } else {
      var n := |files| - 1;
      CountDiffers(files[..n]);
      EventsOfSnoc(files[..n], files[n]);
      assert files == files[..n] + [files[n]];
    }
  }

  /** What a completed dump holds: all events in order, 16 + 22 n bytes, and a
      header count that is n (in 64 bits) exactly when the complete footers do
      not misstate it in total. */
  lemma DumpThenRead(files: seq<File>)
    requires forall i :: 0 <= i < |files| ==> Countable(files[i]) && Intact(files[i])
    ensures var n, d := |EventsOf(files)|, DumpBytes(TotalCount(files) % TWO64, EventsOf(files));
            && |d| == 16 + 22 * n && Ascii("DLDUMP01") <= d
            && ReadRecords(d, HEADER_SIZE) == EventsOf(files)
            && (GetLe64(d, 8) == n % TWO64 <==> Overstated(files) % TWO64 == 0)
  {
    hide Countable, Intact, EventsOf, TotalCount, Overstated, DumpBytes, ReadRecords;
    var n, count := |EventsOf(files)|, TotalCount(files) % TWO64;
    var d := DumpBytes(count, EventsOf(files));
    CutDumpRead(count, EventsOf(files), |d|);
    assert d[..|d|] == d && (|d| - HEADER_SIZE) / RECORD_SIZE == n;
    assert EventsOf(files)[..n] == EventsOf(files);
    assert MAGIC == Ascii("DLDUMP01");
    CountDiffers(files);
    SameResidue(n, Overstated(files));
  }

  lemma SameResidue(n: nat, k: int)
    requires n + k >= 0
    ensures (n + k) % TWO64 == n % TWO64 <==> k % TWO64 == 0
  {
  }

  /** Which branch of the tree each field of a dumped event ends up in. */
  lemma BranchOfField(count: u64, es: seq<Event>, i: nat)
    requires i < |es|
    ensures var rows := RowsOf(ReadRecords(DumpBytes(count, es), HEADER_SIZE));
            && |rows| == |es|
            && rows[i].mod == es[i].mod && rows[i].channel == es[i].channel
            && rows[i].chargeLong == es[i].energy && rows[i].chargeShort == es[i].energyShort
            && rows[i].fineTs == es[i].timestamp && rows[i].recordLength == 0
  {
    hide DumpBytes, ReadRecords;
    var d := DumpBytes(count, es);
    CutDumpRead(count, es, |d|);
    assert d[..|d|] == d && es[..|es|] == es;
  }

  /** The blocks of all files, one after another. */
  function AllBlocks(files: seq<File>): (bs: seq<Option<seq<Event>>>) {
    if files == [] then [] else files[0].blocks + AllBlocks(files[1..])
  }

  lemma {:induction false} BlocksJoined(a: seq<Option<seq<Event>>>, b: seq<Option<seq<Event>>>)
    ensures EventsOfBlocks(a + b) == EventsOfBlocks(a) + if None in a then [] else EventsOfBlocks(b)
    decreases |a|
  {
    if a == [] {
      assert [] + b == b;
    } else {
      assert (a + b)[1..] == a[1..] + b;
      assert None in a <==> a[0].None? || None in a[1..];
      BlocksJoined(a[1..], b);
      if a[0].Some? { Assoc(a[0].value, EventsOfBlocks(a[1..]), if None in a then [] else EventsOfBlocks(b)); }
    }
  }

  /** The dump takes the files as one list of blocks and ends at its first unreadable
      one, wherever that is. */
  lemma {:induction false} OneListOfBlocks(files: seq<File>)
    ensures EventsOf(files) == EventsOfBlocks(AllBlocks(files))
    decreases |files|
  {
    hide EventsOfBlocks;
    if files == [] {
      NoBlocks();
    } else {
      OneListOfBlocks(files[1..]);
      BlocksJoined(files[0].blocks, AllBlocks(files[1..]));
      assert None in files[0].blocks <==> !Intact(files[0]) by { IntactIff(files[0]); }
    }
  }

  lemma IntactIff(f: File)
    ensures Intact(f) <==> None !in f.blocks
  {
  }

  /** A file cannot be counted if it does not open, or if one of its blocks is
      unreadable and its footer is missing or not complete. */
  lemma NotCountable(f: File)
    ensures !Countable(f) <==>
            || !f.opens
            || (None in f.blocks && (f.footer.None? || !f.footer.value.complete))
  {
    IntactIff(f);
  }

  /** The same file without a footer that is not complete. */
  function WithoutIncomplete(f: File): (r: File) {
    match f.footer
    case Some(Footer(false, _)) => f.(footer := None)
    case _ => f
  }

  function WithoutIncompletes(files: seq<File>): (r: seq<File>)
    ensures |r| == |files| && forall i :: 0 <= i < |r| ==> r[i] == WithoutIncomplete(files[i])
  {
    seq(|files|, i requires 0 <= i < |files| => WithoutIncomplete(files[i]))
  }

  lemma SameBlocks(f: File)
    ensures CountOf(WithoutIncomplete(f)) == CountOf(f) && (Countable(WithoutIncomplete(f)) <==> Countable(f))
  {
    hide EventsOfBlocks;
  }

  /** What an incomplete footer says does not matter: such files count, and can be
      counted, as files without a footer. */
  lemma {:induction false} IncompleteIgnored(files: seq<File>)
    ensures TotalCount(files) == TotalCount(WithoutIncompletes(files))
    ensures forall i :: 0 <= i < |files| ==> (Countable(files[i]) <==> Countable(WithoutIncompletes(files)[i]))
    decreases |files|
  {
    hide EventsOfBlocks, Intact;
    if files == [] {
    } else {
      var n := |files| - 1;
      IncompleteIgnored(files[..n]);
      assert WithoutIncompletes(files)[..n] == WithoutIncompletes(files[..n]);
      forall i | 0 <= i < |files|
        ensures Countable(files[i]) <==> Countable(WithoutIncompletes(files)[i])
      {
        assert WithoutIncompletes(files)[i] == WithoutIncomplete(files[i]);
        SameBlocks(files[i]);
      }
      SameBlocks(files[n]);
    }
  }

  // ---- A header count that is wrong ----

  lemma EmptyFile(k: u64)
    ensures var files := [File(true, Some(Footer(true, k)), [])]; EventsOf(files) == [] && TotalCount(files) == k
  {
    var files := [File(true, Some(Footer(true, k)), [])];
    assert files[..0] == [] && files[1..] == [];
  }

  /** "The header holds the number of events" is false of the code when a complete
      footer misstates it: a file without events whose footer claims `k`. */
  lemma MisstatedCount(k: u64)
    requires k > 0
    ensures var files := [File(true, Some(Footer(true, k)), [])];
            && EventsOf(files) == []
            && GetLe64(DumpBytes(TotalCount(files) % TWO64, EventsOf(files)), 8) == k
  {
    hide DumpBytes, TotalCount, EventsOf, GetLe64, ReadRecords;
    EmptyFile(k);
    CutDumpRead(k, [], HEADER_SIZE);
    assert DumpBytes(k, [])[..HEADER_SIZE] == DumpBytes(k, []);
  }
}
