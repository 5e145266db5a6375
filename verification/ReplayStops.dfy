/** When a replay pass sends and when it ends: nothing is sent once the run is
    over, a pass that nothing disturbs sends every matching batch, and a stop
    closes the pass within seven steps of the publisher. */
module ReplayStops {
  import opened Bytes
  import opened ControlState
  import opened Replay
  import opened ReplayStarts
  import opened ReplayNumbers

  // ---- Nothing is sent behind the end of the run ----

  /** The watched state is not Running, or another Start was accepted. */
  predicate Over(s: State) { s.ctl.watch.value != Running || s.gen != s.p.lastGen }

  /** The publisher has tested state and generation and is about to send. */
  predicate MaySend(s: State) { s.p.pc == Process || (s.p.pc == CheckGen && s.gen == s.p.lastGen) }

  function DataIn(msgs: seq<Msg>): (n: nat) {
    if msgs == [] then 0 else DataIn(msgs[..|msgs| - 1]) + if msgs[|msgs| - 1].Data? then 1 else 0
  }

  lemma {:induction false} DataAppend(a: seq<Msg>, b: seq<Msg>)
    ensures DataIn(a + b) == DataIn(a) + DataIn(b)
    decreases |b|
  {
    if b == [] {
      assert a + b == a;
    } else {
      assert (a + b)[..|a + b| - 1] == a + b[..|b| - 1];
      DataAppend(a, b[..|b| - 1]);
    }
  }

  lemma {:induction false} NoData(msgs: seq<Msg>)
    requires forall j :: 0 <= j < |msgs| ==> msgs[j].Eos?
    ensures DataIn(msgs) == 0
    decreases |msgs|
  {
    if msgs != [] { NoData(msgs[..|msgs| - 1]); }
  }

  lemma EosOnly(m: Mode, ids: seq<nat>, run: nat)
    ensures forall j :: 0 <= j < |EosMsgs(m, ids, run)| ==> EosMsgs(m, ids, run)[j].Eos?
  {
  }

  /** What one step adds to the output. */
  predicate Adds(s: State, t: State, n: nat) { s.out <= t.out && DataIn(t.out) == DataIn(s.out) + n }

  lemma AddsMsgs(s: State, t: State, more: seq<Msg>)
    requires t.out == s.out + more
    ensures Adds(s, t, DataIn(more))
  {
    DataAppend(s.out, more);
  }

  lemma OneData(b: Batch)
    ensures DataIn([Data(b)]) == 1
  {
    assert [Data(b)][..0] == [];
  }

  lemma EndAdds(cfg: Config, s: State)
    requires s.p.pc in {EndOfList, Exhausted, AutoEos, CheckLeave, WaitLeave, FinishEos, Exit}
    requires EndStep(cfg, s).Some?
    ensures Adds(s, EndStep(cfg, s).value, 0) && !MaySend(EndStep(cfg, s).value)
  {
    hide EosMsgs, DataIn, Adds, Record;
    EosOnly(cfg.mode, s.p.ids, s.p.run);
    NoData(EosMsgs(cfg.mode, s.p.ids, s.p.run));
    NoData([]);
    var last := [Eos(if cfg.mode.SourceReplay? then cfg.mode.id else 0, s.p.run)];
    NoData(last);
    var t := EndStep(cfg, s).value;
    AddsMsgs(s, s.(out := s.out + EosMsgs(cfg.mode, s.p.ids, s.p.run)), EosMsgs(cfg.mode, s.p.ids, s.p.run));
    AddsMsgs(s, s.(out := s.out + []), []);
    AddsMsgs(s, s.(out := s.out + last), last);
    assert s.out + [] == s.out;
    if t.out == s.out {
      AddsMsgs(s, t, []);
    } else if t.out == s.out + EosMsgs(cfg.mode, s.p.ids, s.p.run) {
      AddsMsgs(s, t, EosMsgs(cfg.mode, s.p.ids, s.p.run));
    } else {
      AddsMsgs(s, t, last);
    }
  }

  lemma BlockAdds(cfg: Config, s: State, sent: bool)
    requires s.p.pc in {AtBlock, CheckGen, Process} && BlockStep(cfg, s, sent).Some? && Over(s)
    ensures exists n: nat :: n <= 1 && Adds(s, BlockStep(cfg, s, sent).value, n) && (n == 1 ==> s.p.pc == Process)
    ensures MaySend(BlockStep(cfg, s, sent).value) ==> s.p.pc == CheckGen && MaySend(s)
  {
    hide Blocks, BlockStep, DataIn, Adds;
    var t := BlockStep(cfg, s, sent).value;
    if s.p.pc != Process {
      TestGoes(cfg, s, sent);
      SameAdds(s, t);
    } else {
      ProcessGoes(cfg, s, sent);
      ProcessAdds(cfg, s, sent);
    }
  }

  lemma ProcessAdds(cfg: Config, s: State, sent: bool)
    requires s.p.pc == Process && BlockStep(cfg, s, sent).Some?
    ensures exists n: nat :: n <= 1 && Adds(s, BlockStep(cfg, s, sent).value, n)
  {
    hide Blocks, Matches, Insert, DataIn, Adds;
    var t := BlockStep(cfg, s, sent).value;
    if t.out == s.out {
      SameAdds(s, t);
    } else {
      var m := t.out[|s.out|];
      assert t.out == s.out + [m] && m.Data?;
      OneData(m.batch);
      AddsMsgs(s, t, [m]);
    }
  }

  lemma SameAdds(s: State, t: State)
    requires t.out == s.out
    ensures Adds(s, t, 0)
  {
  }

  lemma StartAdds(s: State)
    requires s.p.pc in {Head, WaitRunning, TakeRun, TakeGen} && StartStep(s).Some?
    ensures Adds(s, StartStep(s).value, 0) && !MaySend(StartStep(s).value)
  {
    hide DataIn, Adds;
    SameAdds(s, StartStep(s).value);
  }

  /** A command can only end the permission to send. */
  lemma CommandAdds(cfg: Config, s: State, l: Label)
    requires Next(cfg, s, l).Some? && !l.Pub? && s.p.lastGen <= s.gen
    ensures Adds(s, Next(cfg, s, l).value, 0)
    ensures MaySend(Next(cfg, s, l).value) ==> MaySend(s)
  {
    hide DataIn, Adds, Handle, BlockStep, StartStep, EndStep;
    SameAdds(s, Next(cfg, s, l).value);
  }

  function Allowed(s: State): (n: nat) { if MaySend(s) then 1 else 0 }

  lemma OverStep(cfg: Config, s: State, l: Label)
    requires Next(cfg, s, l).Some? && Over(s) && s.p.lastGen <= s.gen
    ensures var t := Next(cfg, s, l).value;
            s.out <= t.out && DataIn(t.out) + Allowed(t) <= DataIn(s.out) + Allowed(s)
  {
    hide BlockStep, StartStep, EndStep, HookStep, CommitStep, Over, DataIn;
    if !l.Pub? { CommandAdds(cfg, s, l); }
    else if s.p.pc in {Head, WaitRunning, TakeRun, TakeGen} { StartAdds(s); }
    else if s.p.pc in {AtBlock, CheckGen, Process} { BlockAdds(cfg, s, l.sent); }
    else { EndAdds(cfg, s); }
  }

  lemma GenOrder(cfg: Config, ls: seq<Label>, n: nat)
    requires n <= |ls| && Exec(cfg, ls, n).Some?
    ensures Exec(cfg, ls, n).value.p.lastGen <= Exec(cfg, ls, n).value.gen
  {
    hide Exec, CaptureInv, PassesInv;
    StartsReachable(cfg, ls, n);
  }

  /** Main result: while the run of the pass is over, because the watched state is
      not Running or because another Start was accepted, no batch is sent, but for
      one whose tests were already passed when that began. */
  lemma {:induction false} NothingWhenOver(cfg: Config, tr: seq<State>, ls: seq<Label>, a: nat, b: nat)
    requires IsRun(cfg, tr, ls) && a <= b <= |ls|
    requires forall j :: a <= j <= b ==> Over(tr[j])
    ensures tr[a].out <= tr[b].out
    ensures DataIn(tr[b].out) + Allowed(tr[b]) <= DataIn(tr[a].out) + Allowed(tr[a])
    decreases b
  {
    hide Next, Over, DataIn, Allowed, MachineInv;
    if a == b {
    } else {
      NothingWhenOver(cfg, tr, ls, a, b - 1);
      RunStep(cfg, tr, ls, b - 1);
      GenOrder(cfg, ls, b - 1);
      OverStep(cfg, tr[b - 1], ls[b - 1]);
    }
  }

  lemma {:induction false} DataGrows(a: seq<Msg>, b: seq<Msg>)
    requires a <= b && DataIn(b) <= DataIn(a)
    ensures forall j :: |a| <= j < |b| ==> b[j].Eos?
    decreases |b|
  {
    if |a| < |b| {
      DataAppend(a, b[|a|..|b| - 1]);
      assert a + b[|a|..|b| - 1] == b[..|b| - 1];
      DataGrows(a, b[..|b| - 1]);
    }
  }

  /** From the head of the block loop on, nothing but end-of-stream messages. */
  lemma OnlyEosWhenOver(cfg: Config, tr: seq<State>, ls: seq<Label>, a: nat, b: nat)
    requires IsRun(cfg, tr, ls) && a <= b <= |ls| && tr[a].p.pc == AtBlock
    requires forall j :: a <= j <= b ==> Over(tr[j])
    ensures tr[a].out <= tr[b].out && forall j :: |tr[a].out| <= j < |tr[b].out| ==> tr[b].out[j].Eos?
  {
    hide Over, DataIn, Exec;
    NothingWhenOver(cfg, tr, ls, a, b);
    DataGrows(tr[a].out, tr[b].out);
  }

  // ---- A stop closes the pass ----

  /** Where the tests of the block loop lead. */
  lemma TestGoes(cfg: Config, s: State, sent: bool)
    requires s.p.pc in {AtBlock, CheckGen}
    ensures s.p.pc == AtBlock ==> BlockStep(cfg, s, sent) == Some(Goto(s,
              if s.p.cursor >= |Blocks(cfg.files)| then EndOfList
              else if s.ctl.watch.value != Running then CheckLeave
              else CheckGen))
    ensures s.p.pc == CheckGen ==>
              BlockStep(cfg, s, sent) == Some(Goto(s, if s.gen != s.p.lastGen then CheckLeave else Process))
  {
    hide Blocks, Matches, Insert, DataMsg, Goto;
  }

  lemma ProcessGoes(cfg: Config, s: State, sent: bool)
    requires s.p.pc == Process && BlockStep(cfg, s, sent).Some?
    ensures var t := BlockStep(cfg, s, sent).value;
            (t.p.pc == AtBlock || (t.p.pc == CheckLeave && t.p.failed)) && t.done == s.done
  {
    hide Blocks, Matches, Insert, DataMsg;
  }

  /** A publisher in a pass that has seen the newest version has seen Running. */
  predicate SeenRunning(s: State) {
    var within := s.p.pc in {TakeRun, TakeGen} || (InPass(s.p.pc) && s.p.pc != FinishEos);
    within && s.p.rxSeen == s.ctl.watch.version ==> s.ctl.watch.value == Running
  }

  lemma SeenCommand(cfg: Config, s: State, l: Label)
    requires CtlInv(s) && SeenRunning(s) && !l.Pub? && Next(cfg, s, l).Some?
    ensures SeenRunning(Next(cfg, s, l).value)
  {
    hide Inv, BlockStep, StartStep, EndStep, RunNumberOr0;
  }

  lemma SeenStart(s: State)
    requires SeenRunning(s) && s.p.pc in {Head, WaitRunning, TakeRun, TakeGen} && StartStep(s).Some?
    ensures SeenRunning(StartStep(s).value)
  {
  }

  lemma SeenBlock(cfg: Config, s: State, sent: bool)
    requires SeenRunning(s) && s.p.pc in {AtBlock, CheckGen, Process} && BlockStep(cfg, s, sent).Some?
    ensures SeenRunning(BlockStep(cfg, s, sent).value)
  {
    hide BlockStep;
    BlockOutside(cfg, s, sent);
  }

  lemma SeenEnd(cfg: Config, s: State)
    requires SeenRunning(s) && s.p.pc in {EndOfList, Exhausted, AutoEos, CheckLeave, WaitLeave, FinishEos, Exit}
    requires EndStep(cfg, s).Some?
    ensures SeenRunning(EndStep(cfg, s).value)
  {
    hide EosMsgs, Record;
  }

  lemma SeenStep(cfg: Config, s: State, l: Label)
    requires CtlInv(s) && SeenRunning(s) && Next(cfg, s, l).Some?
    ensures SeenRunning(Next(cfg, s, l).value)
  {
    hide BlockStep, StartStep, EndStep, HookStep, CommitStep, SeenRunning, CtlInv;
    if !l.Pub? { SeenCommand(cfg, s, l); }
    else if s.p.pc in {Head, WaitRunning, TakeRun, TakeGen} { SeenStart(s); }
    else if s.p.pc in {AtBlock, CheckGen, Process} { SeenBlock(cfg, s, l.sent); }
    else { SeenEnd(cfg, s); }
  }

  lemma {:induction false} SeenAlways(cfg: Config, tr: seq<State>, ls: seq<Label>, n: nat)
    requires IsRun(cfg, tr, ls) && n <= |ls|
    ensures SeenRunning(tr[n])
    decreases n
  {
    hide Next, SeenRunning, MachineInv, CtlInv;
    if n == 0 {
      RunStart(cfg, tr, ls);
      SeenInit();
    } else {
      SeenAlways(cfg, tr, ls, n - 1);
      RunStep(cfg, tr, ls, n - 1);
      CtlOf(cfg, tr[n - 1]);
      SeenStep(cfg, tr[n - 1], ls[n - 1]);
    }
  }

  lemma SeenInit()
    ensures SeenRunning(Init())
  {
  }

  /** How many steps the publisher is from the end of the pass when the state is not Running. */
  function ToGo(pc: Pc): (n: nat) {
    match pc
    case CheckGen => 7
    case Process => 6
    case AtBlock => 5
    case EndOfList => 4
    case Exhausted => 3
    case AutoEos => 3
    case CheckLeave => 2
    case WaitLeave => 2
    case FinishEos => 1
    case _ => 0
  }

  /** The publisher gets one step nearer to the end, or closes the pass. */
  predicate Nearer(s: State, t: State) {
    if s.p.pc == FinishEos then t.p.pc == Head && |t.done| == |s.done| + 1
    else InPass(t.p.pc) && ToGo(t.p.pc) < ToGo(s.p.pc) && |t.done| == |s.done|
  }

  lemma ProcessNearer(cfg: Config, s: State, sent: bool)
    requires s.p.pc == Process && s.p.cursor < |Blocks(cfg.files)|
    ensures BlockStep(cfg, s, sent).Some? && Nearer(s, BlockStep(cfg, s, sent).value)
  {
    hide Blocks, Matches, Insert, DataMsg;
  }

  lemma TestNearer(cfg: Config, s: State, sent: bool)
    requires s.p.pc in {AtBlock, CheckGen} && s.ctl.watch.value != Running
    ensures BlockStep(cfg, s, sent).Some? && Nearer(s, BlockStep(cfg, s, sent).value)
  {
    hide Blocks, BlockStep;
    TestGoes(cfg, s, sent);
  }

  lemma EndNearer(cfg: Config, s: State)
    requires s.p.pc in {EndOfList, Exhausted, AutoEos, CheckLeave, WaitLeave, FinishEos}
    requires s.ctl.watch.value != Running && SeenRunning(s) && !s.shutdown
    ensures EndStep(cfg, s).Some? && Nearer(s, EndStep(cfg, s).value)
  {
    hide EosMsgs, Record;
  }

  lemma PubNearer(cfg: Config, s: State, sent: bool)
    requires PubInv(cfg, s) && InPass(s.p.pc) && s.ctl.watch.value != Running && SeenRunning(s) && !s.shutdown
    ensures Next(cfg, s, Pub(sent)).Some? && Nearer(s, Next(cfg, s, Pub(sent)).value)
  {
    hide BlockStep, EndStep, Nearer, SeenRunning, Blocks, IdsOf, Offered, SentBy;
    if s.p.pc == Process { ProcessNearer(cfg, s, sent); }
    else if s.p.pc in {AtBlock, CheckGen} { TestNearer(cfg, s, sent); }
    else { EndNearer(cfg, s); }
  }

  /** The steps of the publisher among the labels from `a` to `b`. */
  function Pubs(ls: seq<Label>, a: nat, b: nat): (n: nat)
    requires a <= b <= |ls|
    decreases b
  {
    if a == b then 0 else Pubs(ls, a, b - 1) + if ls[b - 1].Pub? then 1 else 0
  }

  lemma CommandStays(cfg: Config, s: State, l: Label)
    requires Next(cfg, s, l).Some? && !l.Pub?
    ensures Next(cfg, s, l).value.p == s.p && Next(cfg, s, l).value.done == s.done
  {
    hide BlockStep, StartStep, EndStep, Handle;
  }

  lemma PubOf(cfg: Config, s: State)
    requires MachineInv(cfg, s)
    ensures PubInv(cfg, s)
  {
    hide PubInv, CtlInv, OutInv, DoneInv;
  }

  /** Label `m - 1` closed the pass that was open at `a`. */
  ghost predicate ClosedAt(tr: seq<State>, a: nat, m: nat) {
    a < m < |tr| && |tr[m].done| == |tr[a].done| + 1 && tr[m].p.pc == Head
  }

  ghost predicate ClosedBy(tr: seq<State>, a: nat, b: nat) { exists m: nat :: m <= b && ClosedAt(tr, a, m) }

  /** Main result: once the watched state is not Running, and nobody shuts the
      publisher down, it is never blocked inside the pass and closes it with at most
      seven of its steps. */
  lemma {:induction false} StopClosesPass(cfg: Config, tr: seq<State>, ls: seq<Label>, a: nat, b: nat)
    requires IsRun(cfg, tr, ls) && a <= b <= |ls| && InPass(tr[a].p.pc)
    requires forall j :: a <= j <= b ==> tr[j].ctl.watch.value != Running && !tr[j].shutdown
    ensures || ClosedBy(tr, a, b)
            || (&& InPass(tr[b].p.pc) && |tr[b].done| == |tr[a].done|
                && ToGo(tr[b].p.pc) + Pubs(ls, a, b) <= ToGo(tr[a].p.pc)
                && forall x :: Next(cfg, tr[b], Pub(x)).Some?)
    ensures Pubs(ls, a, b) >= 7 ==> ClosedBy(tr, a, b)
    decreases b
  {
    hide Next, MachineInv, SeenRunning, PubInv, Exec;
    Reachable(cfg, ls, b);
    assert Exec(cfg, ls, b) == Some(tr[b]);
    PubOf(cfg, tr[b]);
    SeenAlways(cfg, tr, ls, b);
    if InPass(tr[b].p.pc) {
      forall x
        ensures Next(cfg, tr[b], Pub(x)).Some?
      {
        PubNearer(cfg, tr[b], x);
      }
    }
    if a < b {
      StopClosesPass(cfg, tr, ls, a, b - 1);
      if !ClosedBy(tr, a, b - 1) {
        OneNearer(cfg, tr, ls, a, b);
      }
    }
  }

  lemma OneNearer(cfg: Config, tr: seq<State>, ls: seq<Label>, a: nat, b: nat)
    requires IsRun(cfg, tr, ls) && a < b <= |ls| && tr[b - 1].ctl.watch.value != Running && !tr[b - 1].shutdown
    requires InPass(tr[b - 1].p.pc) && |tr[b - 1].done| == |tr[a].done|
    ensures if ls[b - 1].Pub? && tr[b - 1].p.pc == FinishEos then ClosedAt(tr, a, b)
            else InPass(tr[b].p.pc) && |tr[b].done| == |tr[a].done|
                 && ToGo(tr[b].p.pc) + (if ls[b - 1].Pub? then 1 else 0) <= ToGo(tr[b - 1].p.pc)
  {
    hide Next, MachineInv, SeenRunning, PubInv, Exec;
    var s, l := tr[b - 1], ls[b - 1];
    RunStep(cfg, tr, ls, b - 1);
    PubOf(cfg, s);
    SeenAlways(cfg, tr, ls, b - 1);
    if l.Pub? { PubNearer(cfg, s, l.sent); } else { CommandStays(cfg, s, l); }
  }

  // ---- A pass that nothing disturbs ----

  /** The state is Running and the generation that of the pass. */
  predicate Quiet(s: State) { s.ctl.watch.value == Running && s.gen == s.p.lastGen }

  /** The publisher has not yet left the inputs. */
  predicate Reading(pc: Pc) { pc in {AtBlock, CheckGen, Process, EndOfList, Exhausted} }

  /** All was read once, and the EOS was published as soon as it was. */
  predicate ReadOnce(cfg: Config, s: State) {
    s.p.autoEosSent && !cfg.loopReplay && s.p.laps == 0 && s.p.cursor == |Blocks(cfg.files)|
  }

  /** A pass without a failed send that is past its inputs is past all of them. */
  predicate FullInv(cfg: Config, s: State) {
    && (s.p.pc in {Exhausted, AutoEos} ==>
          !cfg.loopReplay && s.p.laps == 0 && s.p.cursor == |Blocks(cfg.files)|)
    && (s.p.pc in {CheckLeave, WaitLeave, FinishEos} && !s.p.failed ==> ReadOnce(cfg, s))
  }

  lemma FullBlock(cfg: Config, s: State, sent: bool)
    requires s.p.pc in {AtBlock, CheckGen, Process} && BlockStep(cfg, s, sent).Some? && Quiet(s)
    ensures FullInv(cfg, BlockStep(cfg, s, sent).value)
  {
    hide Blocks, BlockStep;
    if s.p.pc == Process { ProcessGoes(cfg, s, sent); } else { TestGoes(cfg, s, sent); }
  }

  lemma FullEnd(cfg: Config, s: State)
    requires PubInv(cfg, s) && FullInv(cfg, s) && (Reading(s.p.pc) ==> Quiet(s))
    requires s.p.pc in {EndOfList, Exhausted, AutoEos, CheckLeave, WaitLeave, FinishEos} && EndStep(cfg, s).Some?
    ensures FullInv(cfg, EndStep(cfg, s).value)
  {
    hide Blocks, EosMsgs, Record, IdsOf, Offered, SentBy, Matches;
  }

  lemma FullStep(cfg: Config, s: State, l: Label)
    requires MachineInv(cfg, s) && Next(cfg, s, l).Some? && InPass(s.p.pc)
    requires FullInv(cfg, s) && (Reading(s.p.pc) ==> Quiet(s))
    ensures FullInv(cfg, Next(cfg, s, l).value)
  {
    hide BlockStep, EndStep, StartStep, HookStep, CommitStep, PubInv, MachineInv, Quiet, Blocks;
    PubOf(cfg, s);
    if !l.Pub? { CommandStays(cfg, s, l); }
    else if s.p.pc in {AtBlock, CheckGen, Process} { FullBlock(cfg, s, l.sent); }
    else { FullEnd(cfg, s); }
  }

  /** The pass opened by label `o` is still open after `n` labels. */
  ghost predicate OpenSince(tr: seq<State>, ls: seq<Label>, o: nat, n: nat) {
    && o < n <= |ls| && |tr| == |ls| + 1 && ls[o].Pub? && tr[o].p.pc == TakeGen
    && forall j :: o < j <= n ==> InPass(tr[j].p.pc)
  }

  lemma OpenedAt(cfg: Config, tr: seq<State>, ls: seq<Label>, o: nat)
    requires IsRun(cfg, tr, ls) && o < |ls| && ls[o].Pub? && tr[o].p.pc == TakeGen
    ensures tr[o + 1].p.pc == AtBlock
  {
    hide MachineInv, BlockStep, EndStep;
    RunStep(cfg, tr, ls, o);
  }

  lemma {:induction false} FullWhileQuiet(cfg: Config, tr: seq<State>, ls: seq<Label>, o: nat, n: nat)
    requires IsRun(cfg, tr, ls) && OpenSince(tr, ls, o, n)
    requires forall j :: o < j <= n && Reading(tr[j].p.pc) ==> Quiet(tr[j])
    ensures FullInv(cfg, tr[n])
    decreases n
  {
    hide Next, MachineInv, Quiet, Reading, FullInv;
    if n == o + 1 {
      OpenedAt(cfg, tr, ls, o);
      AtBlockFull(cfg, tr[n]);
    } else {
      FullWhileQuiet(cfg, tr, ls, o, n - 1);
      RunStep(cfg, tr, ls, n - 1);
      FullStep(cfg, tr[n - 1], ls[n - 1]);
    }
  }

  lemma AtBlockFull(cfg: Config, s: State)
    requires s.p.pc == AtBlock
    ensures FullInv(cfg, s)
  {
  }

  /** The label that opened the pass in progress. */
  lemma {:induction false} OpenAt(cfg: Config, tr: seq<State>, ls: seq<Label>, n: nat) returns (o: nat)
    requires IsRun(cfg, tr, ls) && n <= |ls| && InPass(tr[n].p.pc)
    ensures OpenSince(tr, ls, o, n)
    decreases n
  {
    hide Next, MachineInv;
    if n == 0 {
      RunStart(cfg, tr, ls);
    } else {
      RunStep(cfg, tr, ls, n - 1);
      if InPass(tr[n - 1].p.pc) {
        o := OpenAt(cfg, tr, ls, n - 1);
      } else {
        o := n - 1;
        EntersByTakeGen(cfg, tr[o], ls[o]);
      }
    }
  }

  lemma EntersByTakeGen(cfg: Config, s: State, l: Label)
    requires Next(cfg, s, l).Some? && !InPass(s.p.pc) && InPass(Next(cfg, s, l).value.p.pc)
    ensures l.Pub? && s.p.pc == TakeGen
  {
    hide BlockStep, EndStep, StartStep, HookStep, CommitStep;
    if !l.Pub? { CommandStays(cfg, s, l); }
    else if s.p.pc == Exit { ExitStops(cfg, s); }
    else if s.p.pc != TakeGen { WaitsOutside(s); }
  }

  lemma ExitStops(cfg: Config, s: State)
    requires s.p.pc == Exit
    ensures EndStep(cfg, s).Some? && EndStep(cfg, s).value.p.pc == Stopped
  {
    hide EosMsgs, Record;
  }

  lemma WaitsOutside(s: State)
    requires s.p.pc in {Head, WaitRunning, TakeRun} && StartStep(s).Some?
    ensures !InPass(StartStep(s).value.p.pc)
  {
  }

  /** The label that closed the `i`-th finished pass. */
  lemma {:induction false} ClosedBefore(cfg: Config, tr: seq<State>, ls: seq<Label>, n: nat, i: nat) returns (m: nat)
    requires IsRun(cfg, tr, ls) && n <= |ls| && i < |tr[n].done|
    ensures m < n && tr[m].p.pc == FinishEos && tr[n].done[i] == Record(cfg, tr[m].p)
    decreases n
  {
    hide Next, MachineInv, Record, RunNumberOr0;
    if n == 0 {
      RunStart(cfg, tr, ls);
    } else {
      RunStep(cfg, tr, ls, n - 1);
      Moves(cfg, tr[n - 1], ls[n - 1]);
      if i < |tr[n - 1].done| {
        m := ClosedBefore(cfg, tr, ls, n - 1, i);
      } else {
        m := n - 1;
      }
    }
  }

  lemma OnceSent(cfg: Config, s: State)
    requires PubInv(cfg, s) && s.p.open && ReadOnce(cfg, s) && !s.p.failed
    ensures Record(cfg, s.p).msgs ==
            DataMsgs(cfg.mode, Selected(cfg)) + EosMsgs(cfg.mode, IdsOf(Selected(cfg)), s.p.run)
  {
    hide Blocks, DataMsgs, EosMsgs, IdsOf, SelectedUpTo;
    assert [] + SelectedUpTo(cfg, s.p.cursor) == SelectedUpTo(cfg, s.p.cursor);
  }

  /** Main result, for every finished pass of every run: if no send failed, and the
      state was Running and no other Start accepted whenever the publisher was still
      at the inputs, then it is not in loop mode and the pass consists of every
      matching batch once, in order, and the EOS. So a pass that is short, and every
      pass in loop mode, was ended by one of these three. */
  lemma QuietPassIsFull(cfg: Config, tr: seq<State>, ls: seq<Label>, i: nat) returns (o: nat, m: nat)
    requires IsRun(cfg, tr, ls) && i < |tr[|ls|].done|
    ensures var pass := tr[|ls|].done[i];
            && OpenSince(tr, ls, o, m) && tr[m].p.pc == FinishEos && pass == Record(cfg, tr[m].p)
            && (!pass.failed && (forall j :: o < j <= m && Reading(tr[j].p.pc) ==> Quiet(tr[j])) ==>
                  && !cfg.loopReplay
                  && pass.msgs == DataMsgs(cfg.mode, Selected(cfg))
                                  + EosMsgs(cfg.mode, IdsOf(Selected(cfg)), pass.run))
  {
    hide Exec, Quiet, Reading, MachineInv, PubInv, DataMsgs, EosMsgs, SentBy, Selected, IdsOf, Blocks;
    m := ClosedBefore(cfg, tr, ls, |ls|, i);
    o := OpenAt(cfg, tr, ls, m);
    RunStep(cfg, tr, ls, m);
    PubOf(cfg, tr[m]);
    ClosedOutside(cfg, tr[m]);
    if !tr[m].p.failed && forall j :: o < j <= m && Reading(tr[j].p.pc) ==> Quiet(tr[j]) {
      FullWhileQuiet(cfg, tr, ls, o, m);
      OnceSent(cfg, tr[m]);
    }
  }
}
