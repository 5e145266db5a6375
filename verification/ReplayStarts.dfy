/** How passes of the replay publisher relate to accepted Starts.

    `borrow()` shows the publisher the newest state without marking it as seen;
    only `changed()` marks it. A pass that begins on a state it has merely
    borrowed still has that notification pending, so its wait for the end of the
    run wakes at once. Such a pass is not `clean`; the lemmas say what clean
    passes guarantee and that unclean ones do not. */
module ReplayStarts {
  import opened Bytes
  import opened ControlState
  import opened Replay

  /** The watched state is Running and no Start was accepted since the pass took its generation. */
  predicate StillHere(s: State) {
    s.ctl.watch.value == Running && s.gen == s.p.lastGen
  }

  predicate StartPending(s: State) {
    s.hooked.Some? && s.hooked.value.Start? && s.ctl.state == Armed
  }

  predicate CaptureInv(s: State) {
    && (s.p.pc in {TakeRun, TakeGen} && s.p.rxSeen == s.ctl.watch.version ==> s.ctl.watch.value == Running)
    && (s.p.pc == TakeGen && s.p.rxSeen == s.ctl.watch.version ==> s.p.run == RunNumberOr0(s.ctl))
  }

  /** After a clean capture, Running at the same generation means nothing changed. */
  predicate CleanInv(s: State) {
    && s.p.lastGen <= s.gen
    && (s.p.clean ==>
          && (StartPending(s) ==> s.p.lastGen < s.gen)
          && (StillHere(s) ==>
                || s.p.pc in {Exit, Stopped}
                || (InPass(s.p.pc) && s.p.pc != FinishEos && s.p.rxSeen == s.ctl.watch.version))
          && (s.p.pc in {TakeRun, TakeGen} ==> s.p.lastGen < s.gen)
          && 0 < s.p.lastGen && s.p.lastGen <= |s.starts|
          && (InPass(s.p.pc) ==> s.p.run == s.starts[s.p.lastGen - 1]))
    && (!s.p.clean && InPass(s.p.pc) && s.p.pc != FinishEos ==> s.p.rxSeen < s.ctl.watch.version)
  }

  /** Finished passes come in order of generation, strictly after a clean one,
      and a clean pass carries the run number of the Start that opened it. */
  predicate PassesOk(done: seq<Pass>, starts: seq<nat>, lastGen: nat, open: bool, clean: bool) {
    && (forall k :: 0 <= k < |done| ==>
          && done[k].gen <= lastGen
          && (done[k].clean ==> 0 < done[k].gen <= |starts| && done[k].run == starts[done[k].gen - 1]))
    && (forall k :: 0 <= k < |done| - 1 ==> Ordered(done[k], done[k + 1].gen))
    && (open && done != [] ==> Ordered(done[|done| - 1], lastGen))
    && (!open && done != [] ==> done[|done| - 1].gen == lastGen && done[|done| - 1].clean == clean)
    && (!open && done == [] ==> !clean)
  }

  predicate PassesInv(s: State) { PassesOk(s.done, s.starts, s.p.lastGen, s.p.open, s.p.clean) }

  predicate Ordered(p: Pass, gen: nat) {
    p.gen <= gen && (p.clean ==> p.gen < gen)
  }

  predicate StartsInv(s: State) { CaptureInv(s) && CleanInv(s) && PassesInv(s) }

  lemma HookKeepsStarts(cfg: Config, s: State, cmd: Command)
    requires MachineInv(cfg, s) && StartsInv(s) && HookStep(s, cmd).Some?
    ensures StartsInv(HookStep(s, cmd).value)
  {
    hide PubInv, OutInv, DoneInv, Ordered;
  }

  lemma CommitKeepsStarts(cfg: Config, s: State)
    requires MachineInv(cfg, s) && StartsInv(s) && CommitStep(s).Some?
    ensures StartsInv(CommitStep(s).value)
  {
    hide PubInv, OutInv, DoneInv, Ordered;
  }

  lemma CaptureKeepsStarts(cfg: Config, s: State)
    requires CtlInv(s) && PubInv(cfg, s) && StartsInv(s) && s.p.pc == TakeGen
    ensures StartsInv(StartStep(s).value)
  {
  }

  lemma WaitKeepsStarts(cfg: Config, s: State)
    requires CtlInv(s) && PubInv(cfg, s) && StartsInv(s)
    requires s.p.pc in {Head, WaitRunning, TakeRun} && StartStep(s).Some?
    ensures StartsInv(StartStep(s).value)
  {
    hide PassesOk;
  }

  lemma StartKeepsStarts(cfg: Config, s: State)
    requires MachineInv(cfg, s) && StartsInv(s)
    requires s.p.pc in {Head, WaitRunning, TakeRun, TakeGen} && StartStep(s).Some?
    ensures StartsInv(StartStep(s).value)
  {
    hide CtlInv, PubInv, OutInv, DoneInv, StartsInv;
    if s.p.pc == TakeGen { CaptureKeepsStarts(cfg, s); } else { WaitKeepsStarts(cfg, s); }
  }

  lemma Basics(cfg: Config, s: State)
    requires MachineInv(cfg, s)
    ensures s.p.pc != Exit && s.p.pc != Stopped ==> s.p.open == InPass(s.p.pc)
    ensures CtlInv(s)
  {
    hide CtlInv, OutInv, DoneInv;
  }

  /** Everything the invariants here look at, except the program counter. */
  predicate SameOutside(s: State, t: State) {
    && t.ctl == s.ctl && t.hooked == s.hooked && t.gen == s.gen && t.starts == s.starts && t.done == s.done
    && t.p.rxSeen == s.p.rxSeen && t.p.lastGen == s.p.lastGen && t.p.run == s.p.run
    && t.p.clean == s.p.clean && t.p.open == s.p.open
  }

  lemma SameOutsideKeeps(s: State, t: State)
    requires StartsInv(s) && SameOutside(s, t)
    requires InPass(s.p.pc) && s.p.pc != FinishEos && InPass(t.p.pc)
    requires t.p.pc == FinishEos ==> s.ctl.watch.value != Running
    ensures StartsInv(t)
  {
    hide PassesOk;
  }

  lemma TestOutside(cfg: Config, s: State, sent: bool)
    requires s.p.pc in {AtBlock, CheckGen}
    ensures BlockStep(cfg, s, sent).Some?
    ensures var t := BlockStep(cfg, s, sent).value;
            SameOutside(s, t) && InPass(t.p.pc) && t.p.pc != FinishEos
  {
    hide Blocks, Matches, DataMsg, Insert, SameOutside;
    var t := BlockStep(cfg, s, sent).value;
    assert t == s.(p := s.p.(pc := t.p.pc));
    MovedOnly(s, t.p.pc);
  }

  lemma MovedOnly(s: State, pc: Pc)
    ensures SameOutside(s, s.(p := s.p.(pc := pc)))
  {
  }

  lemma ProcessOutside(cfg: Config, s: State, sent: bool)
    requires s.p.pc == Process && BlockStep(cfg, s, sent).Some?
    ensures var t := BlockStep(cfg, s, sent).value;
            SameOutside(s, t) && InPass(t.p.pc) && t.p.pc != FinishEos
  {
    hide Blocks, Matches, DataMsg, Insert;
  }

  lemma BlockOutside(cfg: Config, s: State, sent: bool)
    requires s.p.pc in {AtBlock, CheckGen, Process} && BlockStep(cfg, s, sent).Some?
    ensures var t := BlockStep(cfg, s, sent).value;
            SameOutside(s, t) && InPass(t.p.pc) && t.p.pc != FinishEos
  {
    hide BlockStep, SameOutside;
    if s.p.pc == Process { ProcessOutside(cfg, s, sent); } else { TestOutside(cfg, s, sent); }
  }

  lemma BlockKeepsStarts(cfg: Config, s: State, sent: bool)
    requires MachineInv(cfg, s) && StartsInv(s)
    requires s.p.pc in {AtBlock, CheckGen, Process} && BlockStep(cfg, s, sent).Some?
    ensures StartsInv(BlockStep(cfg, s, sent).value)
  {
    hide MachineInv, BlockStep, SameOutside, StartsInv;
    BlockOutside(cfg, s, sent);
    SameOutsideKeeps(s, BlockStep(cfg, s, sent).value);
  }

  lemma FinishKeepsStarts(cfg: Config, s: State)
    requires MachineInv(cfg, s) && StartsInv(s) && s.p.pc == FinishEos
    ensures StartsInv(EndStep(cfg, s).value)
  {
    hide MachineInv, Ordered, EosMsgs, DataMsgs, SentBy, Inv;
    Basics(cfg, s);
    if s.done != [] {
      var last := s.done[|s.done| - 1];
      assert Ordered(last, s.p.lastGen);
    }
  }

  lemma EndKeepsStarts(cfg: Config, s: State)
    requires MachineInv(cfg, s) && StartsInv(s)
    requires s.p.pc in {EndOfList, Exhausted, AutoEos, CheckLeave, WaitLeave, FinishEos, Exit}
    requires EndStep(cfg, s).Some?
    ensures StartsInv(EndStep(cfg, s).value)
  {
    hide MachineInv, StartsInv, EosMsgs, DataMsgs, SentBy;
    if s.p.pc == FinishEos {
      FinishKeepsStarts(cfg, s);
    } else if s.p.pc in {WaitLeave, Exit} {
      LeaveKeepsStarts(cfg, s);
    } else {
      SameOutsideKeeps(s, EndStep(cfg, s).value);
    }
  }

  lemma LeaveKeepsStarts(cfg: Config, s: State)
    requires MachineInv(cfg, s) && StartsInv(s) && s.p.pc in {WaitLeave, Exit} && EndStep(cfg, s).Some?
    ensures StartsInv(EndStep(cfg, s).value)
  {
    hide MachineInv, PassesOk, EosMsgs, DataMsgs, SentBy, Inv;
    Basics(cfg, s);
  }

  lemma {:induction false} StartsReachable(cfg: Config, ls: seq<Label>, n: nat)
    requires n <= |ls| && Exec(cfg, ls, n).Some?
    ensures StartsInv(Exec(cfg, ls, n).value)
  {
    hide MachineInv, HookStep, CommitStep, StartStep, BlockStep, EndStep, StartsInv;
    if n == 0 {
      InitStarts();
    } else {
      StartsReachable(cfg, ls, n - 1);
      Reachable(cfg, ls, n - 1);
      var s := Exec(cfg, ls, n - 1).value;
      match ls[n - 1]
      case Hook(cmd) => HookKeepsStarts(cfg, s, cmd);
      case Commit => CommitKeepsStarts(cfg, s);
      case Shutdown => ShutdownKeepsStarts(s);
      case Pub(sent) =>
        if s.p.pc in {Head, WaitRunning, TakeRun, TakeGen} { StartKeepsStarts(cfg, s); }
        else if s.p.pc in {AtBlock, CheckGen, Process} { BlockKeepsStarts(cfg, s, sent); }
        else { EndKeepsStarts(cfg, s); }
    }
  }

  lemma InitStarts()
    ensures StartsInv(Init())
  {
  }

  lemma ShutdownKeepsStarts(s: State)
    requires StartsInv(s)
    ensures StartsInv(s.(shutdown := true))
  {
  }

  // ---- Main results ----

  /** A clean pass carries the run number of the Start that opened it. */
  lemma CleanRun(cfg: Config, ls: seq<Label>, n: nat, i: nat)
    requires n <= |ls| && Exec(cfg, ls, n).Some? && i < |Exec(cfg, ls, n).value.done|
    ensures var s := Exec(cfg, ls, n).value;
            s.done[i].clean ==>
              && 0 < s.done[i].gen <= |s.starts| && s.done[i].gen <= s.gen
              && s.done[i].run == s.starts[s.done[i].gen - 1]
  {
    hide Exec;
    StartsReachable(cfg, ls, n);
  }

  /** In every interleaving the passes follow the Starts in order, and a clean pass
      is the last one of its Start. */
  lemma CleanPasses(cfg: Config, ls: seq<Label>, n: nat, i: nat, k: nat)
    requires n <= |ls| && Exec(cfg, ls, n).Some?
    requires i < k < |Exec(cfg, ls, n).value.done|
    ensures var s := Exec(cfg, ls, n).value;
            && s.done[i].gen <= s.done[k].gen
            && (s.done[i].clean ==>
                  && s.done[i].gen < s.done[k].gen
                  && 0 < s.done[i].gen <= |s.starts|
                  && s.done[i].run == s.starts[s.done[i].gen - 1])
  {
    hide Exec;
    StartsReachable(cfg, ls, n);
    PassesOrdered(Exec(cfg, ls, n).value, i, k);
  }

  lemma {:induction false} PassesOrdered(s: State, i: nat, k: nat)
    requires StartsInv(s) && i < k < |s.done|
    ensures Ordered(s.done[i], s.done[k].gen)
    decreases k - i
  {
    if i + 1 < k { PassesOrdered(s, i + 1, k); }
    assert Ordered(s.done[i], s.done[i + 1].gen);
  }

  /** A publisher that waits for the end of a run which is still the one it
      replayed is woken by an old notification exactly when its pass is not clean. */
  lemma WakesIffUnclean(cfg: Config, ls: seq<Label>, n: nat)
    requires n <= |ls| && Exec(cfg, ls, n).Some?
    requires var s := Exec(cfg, ls, n).value; s.p.pc == WaitLeave && StillHere(s) && !s.shutdown
    ensures var s := Exec(cfg, ls, n).value; Next(cfg, s, Pub(true)).Some? <==> !s.p.clean
  {
    hide Exec, PassesOk;
    StartsReachable(cfg, ls, n);
  }

  function Steps(cfg: Config, s: State, k: nat): (r: Option<State>)
    decreases k
  {
    if k == 0 then Some(s)
    else
      var t :- Next(cfg, s, Pub(true));
      Steps(cfg, t, k - 1)
  }

  /** What follows an unclean pass when no command intervenes: the pass is closed
      and the publisher begins another one for the same Start and run. */
  lemma UncleanPassRepeats(cfg: Config, ls: seq<Label>, n: nat)
    requires n <= |ls| && Exec(cfg, ls, n).Some?
    requires var s := Exec(cfg, ls, n).value;
             s.p.pc == WaitLeave && StillHere(s) && !s.shutdown && !s.p.clean && s.hooked.None?
    ensures var s := Exec(cfg, ls, n).value;
            var t := Steps(cfg, s, 5);
            && t.Some? && t.value.p.pc == AtBlock && t.value.p.open && |t.value.done| == |s.done| + 1
            && t.value.p.lastGen == s.p.lastGen == t.value.done[|s.done|].gen
            && t.value.p.run == RunNumberOr0(s.ctl) && t.value.p.cursor == 0 && t.value.p.nextSeq == 0
            && t.value.ctl == s.ctl && t.value.starts == s.starts && t.value.gen == s.gen
            && t.value.out == s.out + if s.p.autoEosSent then [] else EosMsgs(cfg.mode, s.p.ids, s.p.run)
  {
    hide Exec, PassesOk, EosMsgs, DataMsgs, SentBy;
    StartsReachable(cfg, ls, n);
    var s := Exec(cfg, ls, n).value;
    var s1 := EndStep(cfg, s).value;
    var s2 := EndStep(cfg, s1).value;
    var s3 := StartStep(s2).value;
    var s4 := StartStep(s3).value;
    var s5 := StartStep(s4).value;
    assert Steps(cfg, s4, 1) == Some(s5);
    assert Steps(cfg, s3, 2) == Some(s5);
    assert Steps(cfg, s2, 3) == Some(s5);
    assert Steps(cfg, s1, 4) == Some(s5);
  }

  // ---- One Start, two passes: a concrete run ----

  const ONE_BATCH := Batch(0, 7, 42)
  const ONE_FILE := Config(SourceReplay(0), false, [Some([Good(ONE_BATCH)])])

  /** The commands reach the publisher late: it is woken for Armed, and by the time
      it looks the state is already Running. */
  function LateStart(): (ls: seq<Label>)
    ensures |ls| == 8
  {
    [Hook(Configure(RunConfig(0, "", ""))), Commit, Hook(Arm), Commit,
     Pub(true), Pub(true), Hook(Start(5)), Commit]
  }

  function Publishing(k: nat): (ls: seq<Label>)
    ensures |ls| == k
  {
    seq(k, i => Pub(true))
  }

  lemma {:induction false} ExecSteps(cfg: Config, ls: seq<Label>, n: nat, k: nat)
    requires n + k <= |ls| && (forall j :: n <= j < n + k ==> ls[j] == Pub(true))
    requires Exec(cfg, ls, n).Some?
    ensures Exec(cfg, ls, n + k) == Steps(cfg, Exec(cfg, ls, n).value, k)
    decreases k
  {
    hide Next;
    if k == 0 {
    } else {
      var s := Exec(cfg, ls, n).value;
      assert Exec(cfg, ls, n + 1) == Next(cfg, s, Pub(true));
      if Next(cfg, s, Pub(true)).Some? {
        ExecSteps(cfg, ls, n + 1, k - 1);
      } else {
        ExecStuck(cfg, ls, n + 1, n + k);
      }
    }
  }

  lemma {:induction false} ExecStuck(cfg: Config, ls: seq<Label>, n: nat, m: nat)
    requires n <= m <= |ls| && Exec(cfg, ls, n).None?
    ensures Exec(cfg, ls, m).None?
    decreases m
  {
    hide Next;
    if n < m { ExecStuck(cfg, ls, n, m - 1); }
  }

  lemma StepsSplit(cfg: Config, s: State, j: nat, k: nat)
    requires Steps(cfg, s, j).Some?
    ensures Steps(cfg, s, j + k) == Steps(cfg, Steps(cfg, s, j).value, k)
    decreases j
  {
    hide Next;
    if j > 0 { StepsSplit(cfg, Next(cfg, s, Pub(true)).value, j - 1, k); }
  }

  /** The state after the late Start. */
  function Started(): (s: State) {
    State(Control(Running, Some(RunConfig(5, "", "")), Watch(Running, 3, 1)), None, 1, false, [5],
          Publisher(Head, 2, 0, 0, 0, false, [], 0, 0, false, false, false), [], [])
  }

  lemma ExecNext(cfg: Config, ls: seq<Label>, n: nat, s: State)
    requires n < |ls| && Exec(cfg, ls, n) == Some(s)
    ensures Exec(cfg, ls, n + 1) == Next(cfg, s, ls[n])
  {
  }

  lemma ExecZero(cfg: Config, ls: seq<Label>)
    ensures Exec(cfg, ls, 0) == Some(Init())
  {
  }

  /** The state when the publisher starts to wait. */
  function Waiting(): (s: State) {
    State(Control(Armed, Some(RunConfig(0, "", "")), Watch(Armed, 2, 1)), None, 0, false, [],
          Publisher(Head, 0, 0, 0, 0, false, [], 0, 0, false, false, false), [], [])
  }

  lemma LateStartWaits(ls: seq<Label>)
    requires |ls| >= 4 && ls[..4] == [Hook(Configure(RunConfig(0, "", ""))), Commit, Hook(Arm), Commit]
    ensures Exec(ONE_FILE, ls, 4) == Some(Waiting())
  {
    hide Exec;
    ExecZero(ONE_FILE, ls);
    ExecNext(ONE_FILE, ls, 0, Init());
    assert ls[..4][0] == ls[0] && ls[..4][1] == ls[1] && ls[..4][2] == ls[2] && ls[..4][3] == ls[3];
    var s1 := Next(ONE_FILE, Init(), ls[0]).value;
    ExecNext(ONE_FILE, ls, 1, s1);
    var s2 := Next(ONE_FILE, s1, ls[1]).value;
    ExecNext(ONE_FILE, ls, 2, s2);
    var s3 := Next(ONE_FILE, s2, ls[2]).value;
    ExecNext(ONE_FILE, ls, 3, s3);
  }

  lemma LateStartRuns(rest: seq<Label>)
    ensures Exec(ONE_FILE, LateStart() + rest, 8) == Some(Started())
  {
    hide Exec;
    var ls := LateStart() + rest;
    assert ls[..4] == LateStart()[..4];
    LateStartWaits(ls);
    ExecNext(ONE_FILE, ls, 4, Waiting());
    var s5 := Next(ONE_FILE, Waiting(), ls[4]).value;
    ExecNext(ONE_FILE, ls, 5, s5);
    var s6 := Next(ONE_FILE, s5, ls[5]).value;
    ExecNext(ONE_FILE, ls, 6, s6);
    var s7 := Next(ONE_FILE, s6, ls[6]).value;
    assert s7.starts == [5];
    ExecNext(ONE_FILE, ls, 7, s7);
  }

  lemma OneFileBlocks()
    ensures Blocks(ONE_FILE.files) == [Good(ONE_BATCH)]
  {
    assert ONE_FILE.files[1..] == [];
  }

  const AGAIN := Data(ONE_BATCH.(sequenceNumber := 0))

  /** The pass has captured its run and generation. */
  function Captured(): (s: State) {
    Started().(p := Publisher(AtBlock, 2, 0, 1, 5, false, [], 0, 0, false, false, true))
  }

  /** The batch is sent; the file is at its end. */
  function BatchSent(): (s: State) {
    Started().(p := Publisher(AtBlock, 2, 1, 1, 5, false, [0], 1, 0, false, false, true), out := [AGAIN])
  }

  lemma CaptureSteps()
    ensures Steps(ONE_FILE, Started(), 3) == Some(Captured())
  {
    var s1 := StartStep(Started()).value;
    var s2 := StartStep(s1).value;
    assert Steps(ONE_FILE, s2, 1) == Some(Captured());
    assert Steps(ONE_FILE, s1, 2) == Some(Captured());
  }

  lemma SendSteps()
    ensures Steps(ONE_FILE, Captured(), 3) == Some(BatchSent())
  {
    hide Blocks;
    OneFileBlocks();
    assert Insert([], 0) == [0];
    var s1 := BlockStep(ONE_FILE, Captured(), true).value;
    var s2 := BlockStep(ONE_FILE, s1, true).value;
    var s3 := BlockStep(ONE_FILE, s2, true).value;
    assert s3.out == [AGAIN] && s3.p.ids == [0];
    assert s3 == BatchSent();
    assert Steps(ONE_FILE, s2, 1) == Some(BatchSent());
    assert Steps(ONE_FILE, s1, 2) == Some(BatchSent());
  }

  /** The pass has sent its EOS and waits for the state to leave Running. */
  function EosSent(): (s: State) {
    Started().(p := Publisher(WaitLeave, 2, 1, 1, 5, true, [0], 1, 0, false, false, true),
        out := [AGAIN, Eos(0, 5)])
  }

  function AtEnd(): (s: State) {
    Started().(p := Publisher(AutoEos, 2, 1, 1, 5, false, [0], 1, 0, false, false, true), out := [AGAIN])
  }

  lemma ExhaustSteps()
    ensures Steps(ONE_FILE, BatchSent(), 3) == Some(AtEnd())
  {
    hide Blocks;
    OneFileBlocks();
    var s1 := BlockStep(ONE_FILE, BatchSent(), true).value;
    var s2 := EndStep(ONE_FILE, s1).value;
    assert EndStep(ONE_FILE, s2) == Some(AtEnd());
    assert Steps(ONE_FILE, s2, 1) == Some(AtEnd());
    assert Steps(ONE_FILE, s1, 2) == Some(AtEnd());
  }

  lemma EosSteps()
    ensures Steps(ONE_FILE, AtEnd(), 2) == Some(EosSent())
  {
    hide Blocks;
    var s1 := EndStep(ONE_FILE, AtEnd()).value;
    assert s1.out == [AGAIN, Eos(0, 5)];
    assert Steps(ONE_FILE, s1, 1) == Some(EosSent());
  }

  /** The pass reads the file, sends its batch and the EOS, and waits. */
  lemma FirstPass()
    ensures Steps(ONE_FILE, Started(), 11) == Some(EosSent())
  {
    hide Steps;
    CaptureSteps();
    SendSteps();
    ExhaustSteps();
    EosSteps();
    StepsSplit(ONE_FILE, Started(), 3, 8);
    StepsSplit(ONE_FILE, Captured(), 3, 5);
    StepsSplit(ONE_FILE, BatchSent(), 3, 2);
  }

  lemma SecondSend(t: State)
    requires t.p.pc == AtBlock && t.p.cursor == 0 && t.p.nextSeq == 0 && t.gen == t.p.lastGen
    requires t.ctl.watch.value == Running
    ensures var u := Steps(ONE_FILE, t, 3);
            u.Some? && u.value.out == t.out + [AGAIN] && u.value.starts == t.starts && u.value.ctl == t.ctl
  {
    hide Blocks;
    OneFileBlocks();
    var s1 := BlockStep(ONE_FILE, t, true).value;
    var s2 := BlockStep(ONE_FILE, s1, true).value;
    var s3 := BlockStep(ONE_FILE, s2, true).value;
    assert Steps(ONE_FILE, s2, 1) == Some(s3);
    assert Steps(ONE_FILE, s1, 2) == Some(s3);
  }

  /** Main result: "a Start is replayed once" is false of the code. One Start, no
      Stop, no loop mode and every send successful: the only batch of the only file
      is published twice, with an end-of-stream message in between. */
  lemma ReplayedTwice()
    ensures var ls := LateStart() + Publishing(19);
            var s := Exec(ONE_FILE, ls, |ls|);
            && s.Some? && s.value.out == [AGAIN, Eos(0, 5), AGAIN]
            && s.value.starts == [5] && s.value.ctl.state == Running
  {
    hide Exec, Next, Steps, Blocks;
    var ls := LateStart() + Publishing(19);
    LateStartRuns(Publishing(19));
    FirstPass();
    ExecSteps(ONE_FILE, ls, 8, 11);
    var w := Steps(ONE_FILE, Started(), 11).value;
    UncleanPassRepeats(ONE_FILE, ls, 19);
    ExecSteps(ONE_FILE, ls, 19, 5);
    var t := Steps(ONE_FILE, w, 5).value;
    ExecSteps(ONE_FILE, ls, 24, 3);
    SecondSend(t);
  }
}
