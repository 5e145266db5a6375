/** `delila_source_replay.rs` and `delila_merger_replay.rs`: a publisher loop
    that follows the command task through a watch channel.

    Both programs run the same loop; they differ in which batches they publish,
    whether they renumber them, and how many end-of-stream messages close a pass.
    One step below is one atomic access of one task: a hook or a commit of the
    command handler, or one test, load, wake-up or send of the publisher. */
module Replay {
  import opened Bytes
  import Arith
  import opened ControlState

  datatype Batch = Batch(sourceId: nat, sequenceNumber: nat, payload: int)

  /** What `data_blocks()` yields: a batch or a corrupted block. */
  datatype Block = Good(batch: Batch) | Corrupt

  datatype Mode = SourceReplay(id: nat) | MergerReplay

  /** `files` lists the inputs in order; `None` is a file that cannot be opened. */
  datatype Config = Config(mode: Mode, loopReplay: bool, files: seq<Option<seq<Block>>>)

  datatype Msg = Data(batch: Batch) | Eos(sourceId: nat, runNumber: nat)

  // ---- What a pass should publish ----

  /** The blocks the loop walks: unopenable files are passed over. */
  function Blocks(files: seq<Option<seq<Block>>>): (r: seq<Block>) {
    if files == [] then []
    else (if files[0].Some? then files[0].value else []) + Blocks(files[1..])
  }

  predicate Matches(m: Mode, b: Block) {
    b.Good? && (m.SourceReplay? ==> b.batch.sourceId == m.id)
  }

  /** The matching batches among the first `i` blocks, in file order. */
  function SelectedUpTo(cfg: Config, i: nat): (r: seq<Batch>)
    requires i <= |Blocks(cfg.files)|
  {
    if i == 0 then []
    else
      var b := Blocks(cfg.files)[i - 1];
      SelectedUpTo(cfg, i - 1) + if Matches(cfg.mode, b) then [b.batch] else []
  }

  /** The same after `laps` complete readings of the inputs. */
  function Expected(cfg: Config, laps: nat, i: nat): (r: seq<Batch>)
    requires i <= |Blocks(cfg.files)|
    decreases laps
  {
    (if laps == 0 then [] else Expected(cfg, laps - 1, |Blocks(cfg.files)|)) + SelectedUpTo(cfg, i)
  }

  /** The message for the `k`-th batch of a pass. */
  function DataMsg(m: Mode, b: Batch, k: nat): (r: Msg) {
    Data(if m.SourceReplay? then b.(sequenceNumber := k) else b)
  }

  function DataMsgs(m: Mode, bs: seq<Batch>): (r: seq<Msg>)
    ensures |r| == |bs|
  {
    seq(|bs|, k requires 0 <= k < |bs| => DataMsg(m, bs[k], k))
  }

  /** Insertion into an ordered set without duplicates. */
  function Insert(s: seq<nat>, x: nat): (r: seq<nat>) {
    if s == [] || x < s[0] then [x] + s
    else if x == s[0] then s
    else [s[0]] + Insert(s[1..], x)
  }

  /** The source ids of `bs`, ascending. */
  function IdsOf(bs: seq<Batch>): (r: seq<nat>) {
    if bs == [] then [] else Insert(IdsOf(bs[..|bs| - 1]), bs[|bs| - 1].sourceId)
  }

  /** The end-of-stream messages of a pass that met the sources `ids`. */
  function EosMsgs(m: Mode, ids: seq<nat>, run: nat): (r: seq<Msg>) {
    match m
    case SourceReplay(id) => [Eos(id, run)]
    case MergerReplay =>
      if ids == [] then [Eos(0, run)]
      else seq(|ids|, k requires 0 <= k < |ids| => Eos(ids[k], run))
  }

  // ---- The machine ----

  datatype Pc =
    | Head | WaitRunning | TakeRun | TakeGen
    | AtBlock | CheckGen | Process
    | EndOfList | Exhausted | AutoEos
    | CheckLeave | WaitLeave | FinishEos
    | Exit | Stopped

  /** The publisher's variables. `cursor`, `laps` and `failed` say how far the
      pass got and whether it ended with a failed send; `clean` records whether
      the receiver had seen the current version when the pass took its generation. */
  datatype Publisher = Publisher(
    pc: Pc, rxSeen: nat, nextSeq: nat, lastGen: nat, run: nat,
    autoEosSent: bool, ids: seq<nat>,
    cursor: nat, laps: nat, failed: bool, clean: bool, open: bool)

  /** A finished pass. */
  datatype Pass = Pass(run: nat, gen: nat, laps: nat, cursor: nat, failed: bool, clean: bool, msgs: seq<Msg>)

  /** `hooked` is a command whose hook ran and which holds the state lock until
      its commit. `starts` lists the run numbers of the accepted Starts. */
  datatype State = State(
    ctl: Control, hooked: Option<Command>, gen: nat, shutdown: bool, starts: seq<nat>,
    p: Publisher, done: seq<Pass>, out: seq<Msg>)

  function Init(): (s: State) {
    State(FRESH, None, 0, false, [],
          Publisher(Head, 0, 0, 0, 0, false, [], 0, 0, false, false, false), [], [])
  }

  datatype Label = Hook(cmd: Command) | Commit | Shutdown | Pub(sent: bool)

  /** The replay hooks: Start bumps the generation. */
  function HookStep(s: State, cmd: Command): (r: Option<State>) {
    if s.hooked.Some? then None
    else if cmd.Start? && CanTransition(s.ctl.state, Running) then
      Some(s.(hooked := Some(cmd), gen := s.gen + 1, starts := s.starts + [cmd.runNumber]))
    else Some(s.(hooked := Some(cmd)))
  }

  function CommitStep(s: State): (r: Option<State>) {
    if s.hooked.None? then None
    else Some(s.(hooked := None, ctl := Handle(s.ctl, s.hooked.value, Accept).0))
  }

  function Goto(s: State, pc: Pc): (r: State) { s.(p := s.p.(pc := pc)) }

  /** Waiting for Running, and the captures at the start of a pass. */
  function StartStep(s: State): (r: Option<State>)
    requires s.p.pc in {Head, WaitRunning, TakeRun, TakeGen}
  {
    match s.p.pc
    case Head => Some(Goto(s, if s.ctl.watch.value == Running then TakeRun else WaitRunning))
    case WaitRunning =>
      if s.shutdown then Some(Goto(s, Exit))
      else if s.ctl.watch.version != s.p.rxSeen then
        Some(s.(p := s.p.(pc := Head, rxSeen := s.ctl.watch.version)))
      else None
    case TakeRun =>
      if s.hooked.Some? then None
      else Some(s.(p := s.p.(pc := TakeGen, run := RunNumberOr0(s.ctl), nextSeq := 0)))
    case TakeGen =>
      Some(s.(p := s.p.(
        pc := AtBlock, lastGen := s.gen, autoEosSent := false, ids := [],
        cursor := 0, laps := 0, failed := false, open := true,
        clean := s.p.rxSeen == s.ctl.watch.version)))
  }

  /** The replay loop over the blocks. */
  function BlockStep(cfg: Config, s: State, sent: bool): (r: Option<State>)
    requires s.p.pc in {AtBlock, CheckGen, Process}
  {
    match s.p.pc
    case AtBlock =>
      if s.p.cursor >= |Blocks(cfg.files)| then Some(Goto(s, EndOfList))
      else Some(Goto(s, if s.ctl.watch.value != Running then CheckLeave else CheckGen))
    case CheckGen => Some(Goto(s, if s.gen != s.p.lastGen then CheckLeave else Process))
    case Process =>
      if s.p.cursor >= |Blocks(cfg.files)| then None
      else
        var b := Blocks(cfg.files)[s.p.cursor];
        if !Matches(cfg.mode, b) then
          Some(s.(p := s.p.(pc := AtBlock, cursor := s.p.cursor + 1)))
        else
          var p := s.p.(nextSeq := s.p.nextSeq + 1, ids := Insert(s.p.ids, b.batch.sourceId));
          if sent then
            Some(s.(p := p.(pc := AtBlock, cursor := p.cursor + 1),
                    out := s.out + [DataMsg(cfg.mode, b.batch, s.p.nextSeq)]))
          else Some(s.(p := p.(pc := CheckLeave, failed := true)))
  }

  /** The record of the pass that is closed. */
  function Record(cfg: Config, p: Publisher): (pass: Pass) {
    Pass(p.run, p.lastGen, p.laps, p.cursor, p.failed, p.clean,
         DataMsgs(cfg.mode, SentBy(cfg, p)) + EosMsgs(cfg.mode, p.ids, p.run))
  }

  /** From the end of the inputs to the end of the pass. */
  function EndStep(cfg: Config, s: State): (r: Option<State>)
    requires s.p.pc in {EndOfList, Exhausted, AutoEos, CheckLeave, WaitLeave, FinishEos, Exit}
  {
    match s.p.pc
    case EndOfList =>
      if cfg.loopReplay && s.ctl.watch.value == Running then
        Some(s.(p := s.p.(pc := AtBlock, cursor := 0, laps := s.p.laps + 1)))
      else Some(Goto(s, Exhausted))
    case Exhausted =>
      Some(Goto(s, if s.ctl.watch.value == Running then AutoEos else CheckLeave))
    case AutoEos =>
      Some(s.(p := s.p.(pc := CheckLeave, autoEosSent := true),
              out := s.out + EosMsgs(cfg.mode, s.p.ids, s.p.run)))
    case CheckLeave => Some(Goto(s, if s.ctl.watch.value == Running then WaitLeave else FinishEos))
    case WaitLeave =>
      if s.shutdown then Some(Goto(s, Exit))
      else if s.ctl.watch.version != s.p.rxSeen then
        Some(s.(p := s.p.(pc := FinishEos, rxSeen := s.ctl.watch.version)))
      else None
    case FinishEos =>
      var eos := if s.p.autoEosSent then [] else EosMsgs(cfg.mode, s.p.ids, s.p.run);
      Some(s.(p := s.p.(pc := Head, open := false),
              out := s.out + eos, done := s.done + [Record(cfg, s.p)]))
    case Exit =>
      var id := if cfg.mode.SourceReplay? then cfg.mode.id else 0;
      Some(s.(p := s.p.(pc := Stopped),
              out := s.out + if s.ctl.watch.value == Running then [Eos(id, s.p.run)] else []))
  }

  function Next(cfg: Config, s: State, l: Label): (r: Option<State>) {
    match l
    case Hook(cmd) => HookStep(s, cmd)
    case Commit => CommitStep(s)
    case Shutdown => Some(s.(shutdown := true))
    case Pub(sent) =>
      if s.p.pc in {Head, WaitRunning, TakeRun, TakeGen} then StartStep(s)
      else if s.p.pc in {AtBlock, CheckGen, Process} then BlockStep(cfg, s, sent)
      else if s.p.pc in {EndOfList, Exhausted, AutoEos, CheckLeave, WaitLeave, FinishEos, Exit} then EndStep(cfg, s)
      else None
  }

  /** The state after the first `n` labels, if each was possible. */
  function Exec(cfg: Config, ls: seq<Label>, n: nat): (r: Option<State>)
    requires n <= |ls|
  {
    if n == 0 then Some(Init())
    else
      var s :- Exec(cfg, ls, n - 1);
      Next(cfg, s, ls[n - 1])
  }

  // ---- Invariants ----

  /** What the current pass has sent as data. */
  function SentBy(cfg: Config, p: Publisher): (r: seq<Batch>) {
    if p.cursor <= |Blocks(cfg.files)| then Expected(cfg, p.laps, p.cursor) else []
  }

  /** What a pass has tried to send: a failed send is the last attempt. */
  function Offered(cfg: Config, laps: nat, cursor: nat, failed: bool): (r: seq<Batch>)
    requires cursor <= |Blocks(cfg.files)| && (failed ==> cursor < |Blocks(cfg.files)|)
  {
    Expected(cfg, laps, if failed then cursor + 1 else cursor)
  }

  function Flat(ps: seq<Pass>): (r: seq<Msg>) {
    if ps == [] then [] else Flat(ps[..|ps| - 1]) + ps[|ps| - 1].msgs
  }

  predicate InPass(pc: Pc) {
    pc in {AtBlock, CheckGen, Process, EndOfList, Exhausted, AutoEos, CheckLeave, WaitLeave, FinishEos}
  }

  /** The messages of the pass in progress. */
  function Current(cfg: Config, p: Publisher): (r: seq<Msg>) {
    if !p.open then []
    else DataMsgs(cfg.mode, SentBy(cfg, p)) + if p.autoEosSent then EosMsgs(cfg.mode, p.ids, p.run) else []
  }

  predicate CtlInv(s: State) {
    && Inv(s.ctl) && s.ctl.watch.receivers == 1
    && |s.starts| == s.gen && s.p.rxSeen <= s.ctl.watch.version
    && (s.hooked.Some? && s.hooked.value.Start? && s.ctl.state == Armed ==>
          s.gen > 0 && s.starts[s.gen - 1] == s.hooked.value.runNumber)
    && (s.ctl.state == Running ==> s.gen > 0 && RunNumberOr0(s.ctl) == s.starts[s.gen - 1])
  }

  predicate PubInv(cfg: Config, s: State) {
    var p := s.p;
    && (p.pc != Exit && p.pc != Stopped ==> p.open == InPass(p.pc))
    && (p.open ==>
          && p.cursor <= |Blocks(cfg.files)|
          && (p.failed ==> p.cursor < |Blocks(cfg.files)| && Matches(cfg.mode, Blocks(cfg.files)[p.cursor]))
          && p.ids == IdsOf(Offered(cfg, p.laps, p.cursor, p.failed))
          && (p.laps > 0 ==> cfg.loopReplay))
    && (p.pc in {AtBlock, CheckGen, Process, EndOfList, Exhausted, AutoEos} ==>
          !p.failed && !p.autoEosSent && p.nextSeq == |SentBy(cfg, p)|)
    && (p.pc in {CheckGen, Process} ==> p.cursor < |Blocks(cfg.files)|)
    && (p.pc == EndOfList ==> p.cursor == |Blocks(cfg.files)|)
    && (p.pc == TakeGen ==> p.nextSeq == 0)
    && (p.autoEosSent && p.open ==> !p.failed)
  }

  /** Everything published so far, pass by pass. */
  predicate OutInv(cfg: Config, s: State) {
    || s.out == Flat(s.done) + Current(cfg, s.p)
    || (s.p.pc == Stopped && s.out == Flat(s.done) + Current(cfg, s.p) + [LastEos(cfg, s.p)])
  }

  /** The best-effort EOS of the shutdown path. */
  function LastEos(cfg: Config, p: Publisher): (r: Msg) {
    Eos(if cfg.mode.SourceReplay? then cfg.mode.id else 0, p.run)
  }

  /** A finished pass is a prefix of the expected batches, in order, followed by
      the end-of-stream messages of the sources it met, all with its run number. */
  predicate PassOk(cfg: Config, pass: Pass) {
    && pass.cursor <= |Blocks(cfg.files)|
    && (pass.failed ==> pass.cursor < |Blocks(cfg.files)| && Matches(cfg.mode, Blocks(cfg.files)[pass.cursor]))
    && (pass.laps > 0 ==> cfg.loopReplay)
    && pass.msgs ==
         DataMsgs(cfg.mode, Expected(cfg, pass.laps, pass.cursor)) +
         EosMsgs(cfg.mode, IdsOf(Offered(cfg, pass.laps, pass.cursor, pass.failed)), pass.run)
  }

  predicate DoneInv(cfg: Config, s: State) {
    forall k :: 0 <= k < |s.done| ==> PassOk(cfg, s.done[k])
  }

  predicate MachineInv(cfg: Config, s: State) {
    CtlInv(s) && PubInv(cfg, s) && OutInv(cfg, s) && DoneInv(cfg, s)
  }

  // ---- Preservation ----

  lemma DataMsgsSnoc(m: Mode, bs: seq<Batch>, b: Batch)
    ensures DataMsgs(m, bs + [b]) == DataMsgs(m, bs) + [DataMsg(m, b, |bs|)]
  {
  }

  lemma IdsSnoc(bs: seq<Batch>, b: Batch)
    ensures IdsOf(bs + [b]) == Insert(IdsOf(bs), b.sourceId)
  {
    assert (bs + [b])[..|bs|] == bs;
  }

  /** One more block. */
  lemma ExpectedStep(cfg: Config, laps: nat, i: nat)
    requires i < |Blocks(cfg.files)|
    ensures Expected(cfg, laps, i + 1) ==
            Expected(cfg, laps, i) +
            if Matches(cfg.mode, Blocks(cfg.files)[i]) then [Blocks(cfg.files)[i].batch] else []
  {
    hide Blocks;
    var head := if laps == 0 then [] else Expected(cfg, laps - 1, |Blocks(cfg.files)|);
    var more := if Matches(cfg.mode, Blocks(cfg.files)[i]) then [Blocks(cfg.files)[i].batch] else [];
    assert SelectedUpTo(cfg, i + 1) == SelectedUpTo(cfg, i) + more;
    assert head + (SelectedUpTo(cfg, i) + more) == head + SelectedUpTo(cfg, i) + more;
  }

  lemma ExpectedLap(cfg: Config, laps: nat)
    ensures Expected(cfg, laps + 1, 0) == Expected(cfg, laps, |Blocks(cfg.files)|)
  {
    hide Blocks;
    var all := Expected(cfg, laps, |Blocks(cfg.files)|);
    assert SelectedUpTo(cfg, 0) == [];
    assert all + [] == all;
  }

  lemma HookKeeps(cfg: Config, s: State, cmd: Command)
    requires MachineInv(cfg, s) && HookStep(s, cmd).Some?
    ensures MachineInv(cfg, HookStep(s, cmd).value)
  {
    hide Blocks, Expected, IdsOf, DataMsgs, EosMsgs, Flat, PassOk;
  }

  lemma CommitKeeps(cfg: Config, s: State)
    requires MachineInv(cfg, s) && CommitStep(s).Some?
    ensures MachineInv(cfg, CommitStep(s).value)
  {
    hide Blocks, Expected, IdsOf, DataMsgs, EosMsgs, Flat, PassOk;
  }

  lemma PassStart(cfg: Config)
    ensures Expected(cfg, 0, 0) == [] && IdsOf(Offered(cfg, 0, 0, false)) == []
    ensures DataMsgs(cfg.mode, Expected(cfg, 0, 0)) == []
  {
    hide Blocks;
    assert SelectedUpTo(cfg, 0) == [];
  }

  lemma StartKeeps(cfg: Config, s: State)
    requires MachineInv(cfg, s) && s.p.pc in {Head, WaitRunning, TakeRun, TakeGen} && StartStep(s).Some?
    ensures MachineInv(cfg, StartStep(s).value)
  {
    hide Blocks, Expected, IdsOf, Offered, DataMsgs, EosMsgs, Flat, PassOk, Inv;
    PassStart(cfg);
    assert Flat(s.done) + [] == Flat(s.done);
  }

  /** The step leaves the control side and the finished passes alone. */
  predicate SameRest(s: State, t: State) {
    && t.ctl == s.ctl && t.hooked == s.hooked && t.gen == s.gen && t.starts == s.starts && t.done == s.done
    && t.p.rxSeen <= s.ctl.watch.version
  }

  lemma RestKeeps(cfg: Config, s: State, t: State)
    requires CtlInv(s) && DoneInv(cfg, s) && SameRest(s, t)
    ensures CtlInv(t) && DoneInv(cfg, t)
  {
    hide PassOk, Inv;
  }

  /** What the pass has sent depends on how far it got, not on where it stands. */
  lemma PcOnly(cfg: Config, p: Publisher, q: Publisher)
    requires q.cursor == p.cursor && q.laps == p.laps
    ensures SentBy(cfg, q) == SentBy(cfg, p)
    ensures q.open == p.open && q.autoEosSent == p.autoEosSent && q.ids == p.ids && q.run == p.run
            ==> Current(cfg, q) == Current(cfg, p)
  {
    hide Blocks, Expected, DataMsgs, EosMsgs;
  }

  lemma BlockRest(cfg: Config, s: State, sent: bool)
    requires CtlInv(s) && s.p.pc in {AtBlock, CheckGen, Process} && BlockStep(cfg, s, sent).Some?
    ensures SameRest(s, BlockStep(cfg, s, sent).value)
  {
    hide Blocks, Matches, DataMsg, Insert, Inv;
  }

  lemma EndRest(cfg: Config, s: State)
    requires CtlInv(s) && s.p.pc in {EndOfList, Exhausted, AutoEos, CheckLeave, WaitLeave, Exit} &&
        EndStep(cfg, s).Some?
    ensures SameRest(s, EndStep(cfg, s).value)
  {
    hide Blocks, EosMsgs, DataMsgs, SentBy, Inv;
  }

  /** The walk over one block: skipped, sent, or failed to send. */
  lemma ProcessKeeps(cfg: Config, s: State, sent: bool)
    requires MachineInv(cfg, s) && s.p.pc == Process && BlockStep(cfg, s, sent).Some?
    ensures MachineInv(cfg, BlockStep(cfg, s, sent).value)
  {
    hide Blocks, Expected, IdsOf, DataMsgs, EosMsgs, Flat, Insert, CtlInv, DoneInv;
    BlockRest(cfg, s, sent);
    RestKeeps(cfg, s, BlockStep(cfg, s, sent).value);
    ExpectedStep(cfg, s.p.laps, s.p.cursor);
    var bs, b := SentBy(cfg, s.p), Blocks(cfg.files)[s.p.cursor];
    var t := BlockStep(cfg, s, sent).value;
    if Matches(cfg.mode, b) {
      IdsSnoc(bs, b.batch);
      DataMsgsSnoc(cfg.mode, bs, b.batch);
      assert DataMsgs(cfg.mode, bs) + [] == DataMsgs(cfg.mode, bs);
      assert DataMsgs(cfg.mode, bs + [b.batch]) + [] == DataMsgs(cfg.mode, bs) + [DataMsg(cfg.mode, b.batch, |bs|)];
      assert Flat(s.done) + DataMsgs(cfg.mode, bs) + [DataMsg(cfg.mode, b.batch, |bs|)]
        == Flat(s.done) + (DataMsgs(cfg.mode, bs) + [DataMsg(cfg.mode, b.batch, |bs|)]);
    } else {
      assert bs + [] == bs;
    }
  }

  lemma BlockKeeps(cfg: Config, s: State, sent: bool)
    requires MachineInv(cfg, s) && s.p.pc in {AtBlock, CheckGen, Process} && BlockStep(cfg, s, sent).Some?
    ensures MachineInv(cfg, BlockStep(cfg, s, sent).value)
  {
    hide Blocks, Expected, IdsOf, DataMsgs, EosMsgs, Flat, Insert, CtlInv, DoneInv, SentBy, Offered;
    if s.p.pc == Process {
      ProcessKeeps(cfg, s, sent);
    } else {
      BlockRest(cfg, s, sent);
      RestKeeps(cfg, s, BlockStep(cfg, s, sent).value);
      PcOnly(cfg, s.p, BlockStep(cfg, s, sent).value.p);
    }
  }

  lemma RecordOk(cfg: Config, s: State)
    requires PubInv(cfg, s) && s.p.pc == FinishEos
    ensures PassOk(cfg, Record(cfg, s.p))
  {
    hide Blocks, Expected, IdsOf, DataMsgs, EosMsgs, Offered, Matches;
  }

  lemma FlatSnoc(ps: seq<Pass>, pass: Pass)
    ensures Flat(ps + [pass]) == Flat(ps) + pass.msgs
  {
    assert (ps + [pass])[..|ps|] == ps;
  }

  /** Everything sent is accounted for by the finished passes. */
  lemma FinishOut(cfg: Config, s: State)
    requires PubInv(cfg, s) && OutInv(cfg, s) && s.p.pc == FinishEos
    ensures EndStep(cfg, s).value.out == Flat(s.done + [Record(cfg, s.p)]) + []
  {
    hide Blocks, SentBy, IdsOf, DataMsgs, EosMsgs, Flat, Offered, Matches;
    FlatSnoc(s.done, Record(cfg, s.p));
    var data, eos := DataMsgs(cfg.mode, SentBy(cfg, s.p)), EosMsgs(cfg.mode, s.p.ids, s.p.run);
    assert Flat(s.done) + (data + []) + eos == Flat(s.done) + (data + eos);
    assert Flat(s.done) + (data + eos) + [] == Flat(s.done) + (data + eos);
  }

  /** The pass is closed: its messages are those of the record. */
  lemma FinishKeeps(cfg: Config, s: State)
    requires MachineInv(cfg, s) && s.p.pc == FinishEos
    ensures MachineInv(cfg, EndStep(cfg, s).value)
  {
    hide Blocks, SentBy, IdsOf, DataMsgs, EosMsgs, Flat, Offered, Inv, PassOk;
    RecordOk(cfg, s);
    FinishOut(cfg, s);
    assert EndStep(cfg, s).value.done == s.done + [Record(cfg, s.p)];
  }

  lemma AutoEosKeeps(cfg: Config, s: State)
    requires MachineInv(cfg, s) && s.p.pc == AutoEos
    ensures MachineInv(cfg, EndStep(cfg, s).value)
  {
    hide Blocks, Expected, IdsOf, DataMsgs, EosMsgs, Insert, Flat, CtlInv, DoneInv;
    EndRest(cfg, s);
    RestKeeps(cfg, s, EndStep(cfg, s).value);
    var data, eos := DataMsgs(cfg.mode, SentBy(cfg, s.p)), EosMsgs(cfg.mode, s.p.ids, s.p.run);
    assert Flat(s.done) + (data + []) + eos == Flat(s.done) + (data + eos);
  }

  lemma LapKeeps(cfg: Config, s: State)
    requires MachineInv(cfg, s) && s.p.pc == EndOfList
    ensures MachineInv(cfg, EndStep(cfg, s).value)
  {
    hide Blocks, Expected, IdsOf, DataMsgs, EosMsgs, Insert, Flat, CtlInv, DoneInv;
    EndRest(cfg, s);
    RestKeeps(cfg, s, EndStep(cfg, s).value);
    ExpectedLap(cfg, s.p.laps);
  }

  lemma MoveKeeps(cfg: Config, s: State)
    requires MachineInv(cfg, s) && s.p.pc in {Exhausted, CheckLeave, WaitLeave, Exit} && EndStep(cfg, s).Some?
    ensures MachineInv(cfg, EndStep(cfg, s).value)
  {
    hide Blocks, Expected, IdsOf, DataMsgs, EosMsgs, Insert, Flat, CtlInv, DoneInv, SentBy, Offered;
    PcOnly(cfg, s.p, EndStep(cfg, s).value.p);
    EndRest(cfg, s);
    RestKeeps(cfg, s, EndStep(cfg, s).value);
  }

  lemma EndKeeps(cfg: Config, s: State)
    requires MachineInv(cfg, s)
    requires s.p.pc in {EndOfList, Exhausted, AutoEos, CheckLeave, WaitLeave, FinishEos, Exit}
    requires EndStep(cfg, s).Some?
    ensures MachineInv(cfg, EndStep(cfg, s).value)
  {
    hide MachineInv;
    if s.p.pc == FinishEos {
      FinishKeeps(cfg, s);
    } else if s.p.pc == AutoEos {
      AutoEosKeeps(cfg, s);
    } else if s.p.pc == EndOfList {
      LapKeeps(cfg, s);
    } else {
      MoveKeeps(cfg, s);
    }
  }

  lemma {:induction false} Reachable(cfg: Config, ls: seq<Label>, n: nat)
    requires n <= |ls| && Exec(cfg, ls, n).Some?
    ensures MachineInv(cfg, Exec(cfg, ls, n).value)
  {
    hide MachineInv, HookStep, CommitStep, StartStep, BlockStep, EndStep;
    if n == 0 {
      InitOk(cfg);
    } else {
      Reachable(cfg, ls, n - 1);
      var s := Exec(cfg, ls, n - 1).value;
      match ls[n - 1]
      case Hook(cmd) => HookKeeps(cfg, s, cmd);
      case Commit => CommitKeeps(cfg, s);
      case Shutdown => ShutdownKeeps(cfg, s);
      case Pub(sent) =>
        if s.p.pc in {Head, WaitRunning, TakeRun, TakeGen} { StartKeeps(cfg, s); }
        else if s.p.pc in {AtBlock, CheckGen, Process} { BlockKeeps(cfg, s, sent); }
        else { EndKeeps(cfg, s); }
    }
  }

  lemma InitOk(cfg: Config)
    ensures MachineInv(cfg, Init())
  {
  }

  lemma ShutdownKeeps(cfg: Config, s: State)
    requires MachineInv(cfg, s)
    ensures MachineInv(cfg, s.(shutdown := true))
  {
    hide Blocks, Expected, IdsOf, DataMsgs, EosMsgs, Flat, PassOk;
  }

  // ---- The shape of a pass ----

  function Selected(cfg: Config): (r: seq<Batch>) { SelectedUpTo(cfg, |Blocks(cfg.files)|) }

  lemma {:induction false} SelectedPrefix(cfg: Config, i: nat, k: nat)
    requires i <= k <= |Blocks(cfg.files)|
    ensures SelectedUpTo(cfg, i) <= SelectedUpTo(cfg, k)
  {
    hide Blocks, Matches;
    if i < k { SelectedPrefix(cfg, i, k - 1); }
  }

  lemma {:induction false} ExpectedLength(cfg: Config, laps: nat, i: nat)
    requires i <= |Blocks(cfg.files)|
    ensures |Expected(cfg, laps, i)| == laps * |Selected(cfg)| + |SelectedUpTo(cfg, i)|
    decreases laps
  {
    hide Blocks, SelectedUpTo;
    if laps == 0 {
    } else {
      ExpectedLength(cfg, laps - 1, |Blocks(cfg.files)|);
      assert (laps - 1) * |Selected(cfg)| + |Selected(cfg)| == laps * |Selected(cfg)|;
    }
  }

  lemma FullLaps(cfg: Config, laps: nat)
    requires laps > 0
    ensures |Expected(cfg, laps - 1, |Blocks(cfg.files)|)| == laps * |Selected(cfg)|
  {
    hide Blocks, SelectedUpTo, Expected;
    ExpectedLength(cfg, laps - 1, |Blocks(cfg.files)|);
    assert (laps - 1) * |Selected(cfg)| + |Selected(cfg)| == laps * |Selected(cfg)|;
  }

  lemma ModOfLap(j: nat, laps: nat, m: nat)
    requires m > 0 && laps * m <= j < laps * m + m
    ensures j % m == j - laps * m
  {
    var r := j - laps * m;
    assert j == laps * m + r;
    Arith.DivModUnique(laps, r, m);
  }

  lemma ExpectedAt(cfg: Config, laps: nat, i: nat, j: nat)
    requires i <= |Blocks(cfg.files)| && j < |Expected(cfg, laps, i)|
    ensures var m, n := |Selected(cfg)|, |Blocks(cfg.files)|;
            if laps > 0 && j < |Expected(cfg, laps - 1, n)| then
              Expected(cfg, laps, i)[j] == Expected(cfg, laps - 1, n)[j]
            else
              var before := if laps == 0 then 0 else |Expected(cfg, laps - 1, n)|;
              0 <= j - before < |Selected(cfg)| && Expected(cfg, laps, i)[j] == Selected(cfg)[j - before]
  {
    hide Blocks, SelectedUpTo;
    SelectedPrefix(cfg, i, |Blocks(cfg.files)|);
  }

  /** The `j`-th batch of a pass, counted across laps, is the `j`-th matching batch
      of the inputs read in a circle. */
  lemma {:induction false} ExpectedCircular(cfg: Config, laps: nat, i: nat, j: nat)
    requires i <= |Blocks(cfg.files)| && j < |Expected(cfg, laps, i)|
    ensures |Selected(cfg)| > 0 && Expected(cfg, laps, i)[j] == Selected(cfg)[j % |Selected(cfg)|]
    decreases laps
  {
    hide Blocks, SelectedUpTo, Selected, Expected;
    var m, n := |Selected(cfg)|, |Blocks(cfg.files)|;
    ExpectedAt(cfg, laps, i, j);
    if laps > 0 { FullLaps(cfg, laps); }
    if laps > 0 && j < |Expected(cfg, laps - 1, n)| {
      ExpectedCircular(cfg, laps - 1, n, j);
    } else {
      ModOfLap(j, laps, m);
    }
  }

  predicate Ascending(s: seq<nat>) { forall a, b :: 0 <= a < b < |s| ==> s[a] < s[b] }

  lemma {:induction false} InsertSorted(s: seq<nat>, x: nat)
    requires Ascending(s)
    ensures Ascending(Insert(s, x))
    ensures forall y :: y in Insert(s, x) <==> y == x || y in s
    decreases |s|
  {
    if s == [] || x <= s[0] {
    } else {
      InsertSorted(s[1..], x);
      assert forall y :: y in s <==> y == s[0] || y in s[1..];
    }
  }

  ghost predicate Met(bs: seq<Batch>, id: nat) { exists k :: 0 <= k < |bs| && bs[k].sourceId == id }

  /** Some message from `d` on is an EOS for `id`. */
  ghost predicate Ended(msgs: seq<Msg>, d: nat, id: nat) {
    exists j :: d <= j < |msgs| && msgs[j].Eos? && msgs[j].sourceId == id
  }

  lemma {:induction false} IdsSorted(bs: seq<Batch>)
    ensures Ascending(IdsOf(bs))
    ensures forall y :: y in IdsOf(bs) <==> Met(bs, y)
    decreases |bs|
  {
    hide Insert;
    if bs == [] {
    } else {
      var rest, last := bs[..|bs| - 1], bs[|bs| - 1];
      IdsSorted(rest);
      InsertSorted(IdsOf(rest), last.sourceId);
      forall y
        ensures Met(bs, y) <==> y == last.sourceId || Met(rest, y)
      {
        if Met(rest, y) {
          var k :| 0 <= k < |rest| && rest[k].sourceId == y;
          assert bs[k].sourceId == y;
        }
        if Met(bs, y) {
          var k :| 0 <= k < |bs| && bs[k].sourceId == y;
          if k < |rest| { assert rest[k].sourceId == y; }
        }
      }
    }
  }

  /** The data part of a pass: the matching batches in file order, read in a circle,
      and numbered 0, 1, 2, ... by the source replay. */
  ghost predicate DataPart(cfg: Config, msgs: seq<Msg>, d: nat) {
    d <= |msgs| && forall j {:trigger msgs[j]} :: 0 <= j < d ==>
      && |Selected(cfg)| > 0
      && msgs[j] == DataMsg(cfg.mode, Selected(cfg)[j % |Selected(cfg)|], j)
  }

  /** The end of a pass: one EOS for the replayed source; or, in the merger, one for
      each source the pass met, ascending, and one for source 0 if it met none. */
  ghost predicate EosPart(cfg: Config, msgs: seq<Msg>, d: nat, run: nat, met: seq<Batch>)
    requires d <= |msgs|
  {
    && (forall j {:trigger msgs[j]} :: d <= j < |msgs| ==> msgs[j].Eos? && msgs[j].runNumber == run)
    && (cfg.mode.SourceReplay? ==> |msgs| == d + 1 && msgs[d] == Eos(cfg.mode.id, run))
    && (cfg.mode.MergerReplay? && met == [] ==> |msgs| == d + 1 && msgs[d] == Eos(0, run))
    && (cfg.mode.MergerReplay? && met != [] ==>
          && (forall i, j {:trigger msgs[i], msgs[j]} :: d <= i < j < |msgs| ==> msgs[i].sourceId < msgs[j].sourceId)
          && forall y :: Ended(msgs, d, y) <==> Met(met, y))
  }

  lemma {:induction false} FlatPrefix(ps: seq<Pass>, k: nat)
    requires k <= |ps|
    ensures Flat(ps[..k]) <= Flat(ps)
    decreases |ps|
  {
    if k == |ps| {
      assert ps[..k] == ps;
    } else {
      FlatPrefix(ps[..|ps| - 1], k);
      assert ps[..|ps| - 1][..k] == ps[..k];
    }
  }

  /** What was published: the messages of the finished passes one after another,
      then those of the pass in progress, and at most the EOS of a shutdown. */
  lemma Published(cfg: Config, ls: seq<Label>, n: nat, k: nat)
    requires n <= |ls| && Exec(cfg, ls, n).Some? && k < |Exec(cfg, ls, n).value.done|
    ensures var s := Exec(cfg, ls, n).value;
            OutInv(cfg, s) && Flat(s.done[..k]) + s.done[k].msgs <= s.out
  {
    hide Exec, CtlInv, PubInv, DoneInv, Current;
    Reachable(cfg, ls, n);
    var s := Exec(cfg, ls, n).value;
    FlatPrefix(s.done, k + 1);
    FlatSnoc(s.done[..k], s.done[k]);
    assert s.done[..k] + [s.done[k]] == s.done[..k + 1];
    hide Flat;
    assert Flat(s.done) <= s.out;
  }

  /** Main result: in every interleaving what was published begins with the finished
      passes in order, and each of them is data and then only its end-of-stream
      messages. Without loop mode the data is a prefix of one reading of the inputs;
      the sources met are those sent, and the one whose send failed and ended the pass. */
  lemma PassShape(cfg: Config, ls: seq<Label>, n: nat, k: nat)
    requires n <= |ls| && Exec(cfg, ls, n).Some? && k < |Exec(cfg, ls, n).value.done|
    ensures var s := Exec(cfg, ls, n).value;
            OutInv(cfg, s) && Flat(s.done[..k]) + s.done[k].msgs <= s.out
    ensures var pass := Exec(cfg, ls, n).value.done[k];
            && PassOk(cfg, pass)
            && var d := |Expected(cfg, pass.laps, pass.cursor)|;
            && DataPart(cfg, pass.msgs, d)
            && EosPart(cfg, pass.msgs, d, pass.run, Offered(cfg, pass.laps, pass.cursor, pass.failed))
            && (!cfg.loopReplay ==> d <= |Selected(cfg)|)
  {
    Published(cfg, ls, n, k);
    PassParts(cfg, ls, n, k);
  }

  lemma PassParts(cfg: Config, ls: seq<Label>, n: nat, k: nat)
    requires n <= |ls| && Exec(cfg, ls, n).Some? && k < |Exec(cfg, ls, n).value.done|
    ensures var pass := Exec(cfg, ls, n).value.done[k];
            && PassOk(cfg, pass)
            && var d := |Expected(cfg, pass.laps, pass.cursor)|;
            && DataPart(cfg, pass.msgs, d)
            && EosPart(cfg, pass.msgs, d, pass.run, Offered(cfg, pass.laps, pass.cursor, pass.failed))
            && (!cfg.loopReplay ==> d <= |Selected(cfg)|)
  {
    hide Exec, MachineInv, Selected, Expected, SelectedUpTo, Blocks, IdsOf;
    Reachable(cfg, ls, n);
    var s := Exec(cfg, ls, n).value;
    DoneOf(cfg, s, k);
    var pass := s.done[k];
    var sent := Expected(cfg, pass.laps, pass.cursor);
    forall j | 0 <= j < |sent|
      ensures |Selected(cfg)| > 0 && pass.msgs[j] == DataMsg(cfg.mode, Selected(cfg)[j % |Selected(cfg)|], j)
    {
      ExpectedCircular(cfg, pass.laps, pass.cursor, j);
    }
    ExpectedLength(cfg, pass.laps, pass.cursor);
    SelectedPrefix(cfg, pass.cursor, |Blocks(cfg.files)|);
    SelectedAll(cfg);
    EosShape(cfg, pass);
  }

  lemma SelectedAll(cfg: Config)
    ensures Selected(cfg) == SelectedUpTo(cfg, |Blocks(cfg.files)|)
  {
  }

  lemma DoneOf(cfg: Config, s: State, k: nat)
    requires MachineInv(cfg, s) && k < |s.done|
    ensures PassOk(cfg, s.done[k])
  {
  }

  lemma OneEos(cfg: Config, msgs: seq<Msg>, d: nat, run: nat, met: seq<Batch>)
    requires d <= |msgs| && msgs[d..] == [Eos(if cfg.mode.SourceReplay? then cfg.mode.id else 0, run)]
    requires cfg.mode.SourceReplay? || met == []
    ensures EosPart(cfg, msgs, d, run, met)
  {
    hide Ended, Met;
    assert |msgs| == d + 1 && msgs[d] == msgs[d..][0];
  }

  lemma ManyEos(cfg: Config, msgs: seq<Msg>, d: nat, run: nat, met: seq<Batch>)
    requires d <= |msgs| && cfg.mode.MergerReplay? && met != []
    requires msgs[d..] == EosMsgs(cfg.mode, IdsOf(met), run)
    ensures EosPart(cfg, msgs, d, run, met)
  {
    hide IdsOf, Ended, Met;
    var ids, eos := IdsOf(met), EosMsgs(cfg.mode, IdsOf(met), run);
    IdsEmpty(met);
    forall j | d <= j < |msgs|
      ensures msgs[j] == Eos(ids[j - d], run)
    {
      assert msgs[j] == msgs[d..][j - d] == eos[j - d];
    }
    MergerEos(msgs, d, ids, met);
  }

  lemma EosShape(cfg: Config, pass: Pass)
    requires PassOk(cfg, pass)
    ensures var d := |Expected(cfg, pass.laps, pass.cursor)|;
            d <= |pass.msgs| &&
            EosPart(cfg, pass.msgs, d, pass.run, Offered(cfg, pass.laps, pass.cursor, pass.failed))
  {
    hide Expected, IdsOf, Blocks, Offered, DataMsgs, EosPart, Matches;
    var d := |Expected(cfg, pass.laps, pass.cursor)|;
    var met := Offered(cfg, pass.laps, pass.cursor, pass.failed);
    assert pass.msgs[d..] == EosMsgs(cfg.mode, IdsOf(met), pass.run);
    IdsEmpty(met);
    if cfg.mode.SourceReplay? || met == [] {
      OneEos(cfg, pass.msgs, d, pass.run, met);
    } else {
      ManyEos(cfg, pass.msgs, d, pass.run, met);
    }
  }

  lemma MergerEos(msgs: seq<Msg>, d: nat, ids: seq<nat>, met: seq<Batch>)
    requires ids == IdsOf(met) && |msgs| == d + |ids|
    requires forall j :: d <= j < |msgs| ==> msgs[j].Eos?
    requires forall j :: d <= j < |msgs| ==> msgs[j].sourceId == ids[j - d]
    ensures forall i, j {:trigger msgs[i], msgs[j]} :: d <= i < j < |msgs| ==> msgs[i].sourceId < msgs[j].sourceId
    ensures forall y :: Ended(msgs, d, y) <==> Met(met, y)
  {
    hide IdsOf;
    IdsSorted(met);
    forall y
      ensures Ended(msgs, d, y) <==> y in ids
    {
      if y in ids {
        var j :| 0 <= j < |ids| && ids[j] == y;
        assert msgs[d + j].sourceId == y;
      }
    }
  }

  lemma IdsEmpty(bs: seq<Batch>)
    ensures IdsOf(bs) == [] <==> bs == []
  {
    if bs != [] {
      IdsSorted(bs);
      assert Met(bs, bs[0].sourceId);
      assert bs[0].sourceId in IdsOf(bs);
    }
  }
}
