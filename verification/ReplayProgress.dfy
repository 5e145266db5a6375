/** A replay pass that nothing disturbs gets to its end, and lap after lap in loop
    mode, in a number of publisher steps that its inputs determine. */
module ReplayProgress {
  import opened Bytes
  import opened ControlState
  import opened Replay
  import opened ReplayStarts
  import opened ReplayNumbers
  import opened ReplayStops

  lemma PubKeeps(cfg: Config, s: State)
    requires MachineInv(cfg, s) && Next(cfg, s, Pub(true)).Some?
    ensures MachineInv(cfg, Next(cfg, s, Pub(true)).value)
  {
    hide MachineInv, StartStep, BlockStep, EndStep;
    if s.p.pc in {Head, WaitRunning, TakeRun, TakeGen} { StartKeeps(cfg, s); }
    else if s.p.pc in {AtBlock, CheckGen, Process} { BlockKeeps(cfg, s, true); }
    else { EndKeeps(cfg, s); }
  }

  lemma {:induction false} StepsKeep(cfg: Config, s: State, k: nat)
    requires MachineInv(cfg, s) && Steps(cfg, s, k).Some?
    ensures MachineInv(cfg, Steps(cfg, s, k).value)
    decreases k
  {
    hide MachineInv, Next;
    if k == 0 {
    } else {
      PubKeeps(cfg, s);
      StepsKeep(cfg, Next(cfg, s, Pub(true)).value, k - 1);
    }
  }

  /** `t` differs from `s` only in where the pass is. */
  predicate Onward(s: State, t: State) {
    && t.ctl == s.ctl && t.gen == s.gen && t.shutdown == s.shutdown && t.done == s.done
    && t.p.lastGen == s.p.lastGen && t.p.run == s.p.run && t.p.open == s.p.open && t.p.rxSeen == s.p.rxSeen
  }

  predicate AtCursor(s: State, laps: nat, cursor: nat) {
    s.p.pc == AtBlock && s.p.laps == laps && s.p.cursor == cursor
  }

  lemma SendStep(cfg: Config, s: State)
    requires s.p.pc == Process && s.p.cursor < |Blocks(cfg.files)|
    ensures BlockStep(cfg, s, true).Some?
    ensures var t := BlockStep(cfg, s, true).value;
            Onward(s, t) && AtCursor(t, s.p.laps, s.p.cursor + 1)
  {
    hide BlockStep, Blocks;
    SentOrSkipped(cfg, s);
    BlockOutside(cfg, s, true);
  }

  lemma SentOrSkipped(cfg: Config, s: State)
    requires s.p.pc == Process && s.p.cursor < |Blocks(cfg.files)|
    ensures BlockStep(cfg, s, true).Some?
    ensures var t := BlockStep(cfg, s, true).value;
            t.shutdown == s.shutdown && AtCursor(t, s.p.laps, s.p.cursor + 1)
  {
    hide Blocks, Matches, Insert, DataMsg;
  }

  /** Two tests and a send, or a skip. */
  lemma OneBlock(cfg: Config, s: State)
    requires Quiet(s) && s.p.pc == AtBlock && s.p.cursor < |Blocks(cfg.files)|
    ensures Steps(cfg, s, 3).Some?
    ensures var t := Steps(cfg, s, 3).value;
            Onward(s, t) && AtCursor(t, s.p.laps, s.p.cursor + 1)
  {
    hide BlockStep, Blocks;
    TestGoes(cfg, s, true);
    var s1 := Goto(s, CheckGen);
    TestGoes(cfg, s1, true);
    var s2 := Goto(s1, Process);
    SendStep(cfg, s2);
    var t := BlockStep(cfg, s2, true).value;
    assert Next(cfg, s2, Pub(true)) == Some(t);
    assert Steps(cfg, t, 0) == Some(t);
    assert Steps(cfg, s2, 1) == Some(t);
    assert Steps(cfg, s1, 2) == Some(t);
  }

  lemma {:induction false} RestOfBlocks(cfg: Config, s: State)
    requires Quiet(s) && s.p.pc == AtBlock && s.p.cursor <= |Blocks(cfg.files)|
    ensures var k := 3 * (|Blocks(cfg.files)| - s.p.cursor);
            && Steps(cfg, s, k).Some?
            && Onward(s, Steps(cfg, s, k).value)
            && AtCursor(Steps(cfg, s, k).value, s.p.laps, |Blocks(cfg.files)|)
    decreases |Blocks(cfg.files)| - s.p.cursor
  {
    hide Blocks, Steps;
    if s.p.cursor == |Blocks(cfg.files)| {
      NoSteps(cfg, s);
    } else {
      OneBlock(cfg, s);
      var t := Steps(cfg, s, 3).value;
      RestOfBlocks(cfg, t);
      StepsSplit(cfg, s, 3, 3 * (|Blocks(cfg.files)| - t.p.cursor));
    }
  }

  lemma NoSteps(cfg: Config, s: State)
    ensures Steps(cfg, s, 0) == Some(s)
  {
  }

  lemma TurnStep(cfg: Config, s: State)
    requires Quiet(s) && cfg.loopReplay && s.p.pc == EndOfList
    ensures EndStep(cfg, s).Some?
    ensures Onward(s, EndStep(cfg, s).value) && AtCursor(EndStep(cfg, s).value, s.p.laps + 1, 0)
  {
    hide EosMsgs, Record;
  }

  /** At the end of the inputs loop mode begins the next lap. */
  lemma Turn(cfg: Config, s: State)
    requires Quiet(s) && cfg.loopReplay && AtCursor(s, s.p.laps, |Blocks(cfg.files)|)
    ensures Steps(cfg, s, 2).Some?
    ensures Onward(s, Steps(cfg, s, 2).value) && AtCursor(Steps(cfg, s, 2).value, s.p.laps + 1, 0)
  {
    hide BlockStep, EndStep, Blocks;
    TestGoes(cfg, s, true);
    var s1 := Goto(s, EndOfList);
    TurnStep(cfg, s1);
    var t := EndStep(cfg, s1).value;
    assert Next(cfg, s1, Pub(true)) == Some(t);
    assert Steps(cfg, t, 0) == Some(t);
    assert Steps(cfg, s1, 1) == Some(t);
  }

  lemma OneLap(cfg: Config, s: State)
    requires Quiet(s) && cfg.loopReplay && AtCursor(s, s.p.laps, 0)
    ensures var k := 3 * |Blocks(cfg.files)| + 2;
            && Steps(cfg, s, k).Some?
            && Onward(s, Steps(cfg, s, k).value) && AtCursor(Steps(cfg, s, k).value, s.p.laps + 1, 0)
  {
    hide Steps, Blocks;
    RestOfBlocks(cfg, s);
    var t := Steps(cfg, s, 3 * |Blocks(cfg.files)|).value;
    Turn(cfg, t);
    StepsSplit(cfg, s, 3 * |Blocks(cfg.files)|, 2);
  }

  /** Three steps a block and two to turn. */
  function LapSteps(cfg: Config, laps: nat): (k: nat) {
    if laps == 0 then 0 else 3 * |Blocks(cfg.files)| + 2 + LapSteps(cfg, laps - 1)
  }

  lemma {:induction false} ManyLaps(cfg: Config, s: State, laps: nat)
    requires Quiet(s) && cfg.loopReplay && AtCursor(s, s.p.laps, 0)
    ensures Steps(cfg, s, LapSteps(cfg, laps)).Some?
    ensures var t := Steps(cfg, s, LapSteps(cfg, laps)).value; Onward(s, t) && AtCursor(t, s.p.laps + laps, 0)
    decreases laps
  {
    hide Steps, Blocks;
    var lap := 3 * |Blocks(cfg.files)| + 2;
    if laps == 0 {
      NoSteps(cfg, s);
    } else {
      OneLap(cfg, s);
      var t := Steps(cfg, s, lap).value;
      ManyLaps(cfg, t, laps - 1);
      StepsSplit(cfg, s, lap, LapSteps(cfg, laps - 1));
    }
  }

  lemma EosStep(cfg: Config, s: State)
    requires s.p.pc == AutoEos
    ensures EndStep(cfg, s).Some?
    ensures var t := EndStep(cfg, s).value;
            && Onward(s, t) && t.p.pc == CheckLeave && t.p.autoEosSent
            && t.p.laps == s.p.laps && t.p.cursor == s.p.cursor && t.p.failed == s.p.failed
  {
    hide EosMsgs, Record;
  }

  /** The tests at the end of the inputs, while the state is Running. */
  lemma EndTests(cfg: Config, s: State)
    requires Quiet(s) && !cfg.loopReplay
    ensures s.p.pc == EndOfList ==> EndStep(cfg, s) == Some(Goto(s, Exhausted))
    ensures s.p.pc == Exhausted ==> EndStep(cfg, s) == Some(Goto(s, AutoEos))
    ensures s.p.pc == CheckLeave ==> EndStep(cfg, s) == Some(Goto(s, WaitLeave))
  {
    hide EosMsgs, Record;
  }

  /** At the end of the inputs the EOS is published, and the publisher waits. */
  lemma Finish(cfg: Config, s: State)
    requires Quiet(s) && !cfg.loopReplay && AtCursor(s, s.p.laps, |Blocks(cfg.files)|)
    ensures Steps(cfg, s, 5).Some?
    ensures var t := Steps(cfg, s, 5).value;
            && Onward(s, t) && t.p.pc == WaitLeave && t.p.autoEosSent
            && t.p.laps == s.p.laps && t.p.cursor == s.p.cursor && t.p.failed == s.p.failed
  {
    hide BlockStep, EndStep, Blocks, Steps;
    TestGoes(cfg, s, true);
    var s1 := Goto(s, EndOfList);
    EndTests(cfg, s1);
    var s2 := Goto(s1, Exhausted);
    EndTests(cfg, s2);
    var s3 := Goto(s2, AutoEos);
    EosStep(cfg, s3);
    var s4 := EndStep(cfg, s3).value;
    EndTests(cfg, s4);
    FiveSteps(cfg, s, s1, s2, s3, s4, Goto(s4, WaitLeave));
  }

  lemma FiveSteps(cfg: Config, s: State, s1: State, s2: State, s3: State, s4: State, s5: State)
    requires Next(cfg, s, Pub(true)) == Some(s1) && Next(cfg, s1, Pub(true)) == Some(s2)
    requires Next(cfg, s2, Pub(true)) == Some(s3) && Next(cfg, s3, Pub(true)) == Some(s4)
    requires Next(cfg, s4, Pub(true)) == Some(s5)
    ensures Steps(cfg, s, 5) == Some(s5)
  {
    hide Next;
    assert Steps(cfg, s5, 0) == Some(s5);
    assert Steps(cfg, s4, 1) == Some(s5);
    assert Steps(cfg, s3, 2) == Some(s5);
    assert Steps(cfg, s2, 3) == Some(s5);
    assert Steps(cfg, s1, 4) == Some(s5);
  }

  /** What a pass has published when it stands at the head of a lap. */
  lemma OutAt(cfg: Config, s: State, laps: nat)
    requires MachineInv(cfg, s) && AtCursor(s, laps, 0)
    ensures s.p.open && s.out == Flat(s.done) + DataMsgs(cfg.mode, Expected(cfg, laps, 0))
  {
    hide Blocks, CtlInv, DoneInv, DataMsgs, EosMsgs, IdsOf, Expected, Offered, Flat;
    var data := DataMsgs(cfg.mode, Expected(cfg, laps, 0));
    assert data + [] == data;
  }

  lemma NothingYet(cfg: Config, s: State)
    requires MachineInv(cfg, s) && AtCursor(s, 0, 0)
    ensures s.p.open && s.out == Flat(s.done)
  {
    hide MachineInv, Blocks, DataMsgs, Flat, Expected, Offered, IdsOf;
    OutAt(cfg, s, 0);
    PassStart(cfg);
    assert Flat(s.done) + [] == Flat(s.done);
  }

  /** Main result: a pass that nothing disturbs and whose sends succeed publishes,
      three steps a block, every matching batch and then its EOS, and waits. */
  lemma PassCompletes(cfg: Config, s: State)
    requires MachineInv(cfg, s) && Quiet(s) && AtCursor(s, 0, 0) && !cfg.loopReplay
    ensures var t := Steps(cfg, s, 3 * |Blocks(cfg.files)| + 5);
            && t.Some? && t.value.p.pc == WaitLeave && t.value.done == s.done
            && t.value.out == s.out + DataMsgs(cfg.mode, Selected(cfg))
                                    + EosMsgs(cfg.mode, IdsOf(Selected(cfg)), s.p.run)
  {
    hide MachineInv, Quiet, Steps, Blocks, DataMsgs, EosMsgs, IdsOf, Selected, Flat, Expected;
    var n := |Blocks(cfg.files)|;
    NothingYet(cfg, s);
    RestOfBlocks(cfg, s);
    var u := Steps(cfg, s, 3 * n).value;
    StepsKeep(cfg, s, 3 * n);
    NotFailed(cfg, u);
    assert Quiet(u) by { StillQuiet(s, u); }
    Finish(cfg, u);
    StepsSplit(cfg, s, 3 * n, 5);
    StepsKeep(cfg, s, 3 * n + 5);
    OutAtEnd(cfg, Steps(cfg, s, 3 * n + 5).value);
  }

  lemma StillQuiet(s: State, t: State)
    requires Quiet(s) && Onward(s, t)
    ensures Quiet(t)
  {
  }

  lemma NotFailed(cfg: Config, s: State)
    requires MachineInv(cfg, s) && s.p.pc == AtBlock
    ensures !s.p.failed
  {
    hide Blocks, CtlInv, OutInv, DoneInv, IdsOf, Offered, SentBy;
  }

  lemma OutAtEnd(cfg: Config, s: State)
    requires MachineInv(cfg, s) && s.p.pc == WaitLeave && s.p.autoEosSent && !s.p.failed
    requires s.p.laps == 0 && s.p.cursor == |Blocks(cfg.files)|
    ensures s.out == Flat(s.done) + DataMsgs(cfg.mode, Selected(cfg)) + EosMsgs(cfg.mode, IdsOf(Selected(cfg)), s.p.run)
  {
    hide Blocks, CtlInv, DoneInv, DataMsgs, EosMsgs, IdsOf, SelectedUpTo, Flat;
    var all := SelectedUpTo(cfg, s.p.cursor);
    assert [] + all == all;
    var data, eos := DataMsgs(cfg.mode, all), EosMsgs(cfg.mode, IdsOf(all), s.p.run);
    assert Flat(s.done) + (data + eos) == Flat(s.done) + data + eos;
  }

  /** Main result: in loop mode it publishes them again and again, without an EOS. */
  lemma LapsGoOn(cfg: Config, s: State, laps: nat)
    requires MachineInv(cfg, s) && Quiet(s) && AtCursor(s, 0, 0) && cfg.loopReplay
    ensures var t := Steps(cfg, s, LapSteps(cfg, laps));
            && t.Some? && AtCursor(t.value, laps, 0) && t.value.done == s.done
            && t.value.out == s.out + DataMsgs(cfg.mode, Expected(cfg, laps, 0))
  {
    hide MachineInv, Quiet, Steps, Blocks, LapSteps, DataMsgs, Flat, Expected;
    NothingYet(cfg, s);
    ManyLaps(cfg, s, laps);
    StepsKeep(cfg, s, LapSteps(cfg, laps));
    OutAt(cfg, Steps(cfg, s, LapSteps(cfg, laps)).value, laps);
  }

  // ---- When the publisher is blocked, and how it stops ----

  lemma {:induction false} ShutdownSeen(cfg: Config, ls: seq<Label>, n: nat)
    requires n <= |ls| && Exec(cfg, ls, n).Some?
    ensures Exec(cfg, ls, n).value.shutdown <==> exists i :: 0 <= i < n && ls[i].Shutdown?
    decreases n
  {
    hide Next;
    if n == 0 {
    } else {
      ShutdownSeen(cfg, ls, n - 1);
      ShutdownStep(cfg, Exec(cfg, ls, n - 1).value, ls[n - 1]);
    }
  }

  lemma ShutdownStep(cfg: Config, s: State, l: Label)
    requires Next(cfg, s, l).Some?
    ensures Next(cfg, s, l).value.shutdown <==> s.shutdown || l.Shutdown?
  {
    hide BlockStep, EndStep, StartStep, Handle;
    if l.Pub? {
      hide HookStep, CommitStep;
      if s.p.pc in {Head, WaitRunning, TakeRun, TakeGen} { StartStays(s); }
      else if s.p.pc in {AtBlock, CheckGen, Process} { BlockStays(cfg, s, l.sent); }
      else { EndStays(cfg, s); }
    }
  }

  lemma StartStays(s: State)
    requires s.p.pc in {Head, WaitRunning, TakeRun, TakeGen} && StartStep(s).Some?
    ensures StartStep(s).value.shutdown == s.shutdown
  {
  }

  lemma BlockStays(cfg: Config, s: State, sent: bool)
    requires s.p.pc in {AtBlock, CheckGen, Process} && BlockStep(cfg, s, sent).Some?
    ensures BlockStep(cfg, s, sent).value.shutdown == s.shutdown
  {
    hide Blocks, Matches, Insert, DataMsg;
  }

  lemma EndStays(cfg: Config, s: State)
    requires s.p.pc in {EndOfList, Exhausted, AutoEos, CheckLeave, WaitLeave, FinishEos, Exit}
    requires EndStep(cfg, s).Some?
    ensures EndStep(cfg, s).value.shutdown == s.shutdown
  {
    hide EosMsgs, Record;
  }

  /** The publisher waits for the state to change: it has seen the newest version,
      and nobody has asked it to stop. */
  predicate Waits(s: State) {
    s.p.pc in {WaitRunning, WaitLeave} && !s.shutdown && s.ctl.watch.version == s.p.rxSeen
  }

  lemma StartBlocked(s: State)
    requires s.p.pc in {Head, WaitRunning, TakeRun, TakeGen}
    ensures StartStep(s).None? <==> Waits(s) || (s.p.pc == TakeRun && s.hooked.Some?)
  {
  }

  lemma BlockNever(cfg: Config, s: State, sent: bool)
    requires PubInv(cfg, s) && s.p.pc in {AtBlock, CheckGen, Process}
    ensures BlockStep(cfg, s, sent).Some?
  {
    hide Blocks, Matches, Insert, DataMsg, IdsOf, Offered, SentBy;
  }

  lemma EndBlocked(cfg: Config, s: State)
    requires s.p.pc in {EndOfList, Exhausted, AutoEos, CheckLeave, WaitLeave, FinishEos, Exit}
    ensures EndStep(cfg, s).None? <==> Waits(s)
  {
    hide EosMsgs, Record;
  }

  /** Main result, for every reachable state: the publisher is blocked exactly when it
      has stopped, waits for a change, or wants the run number while a command has
      the lock; and the commands are never blocked but by each other. */
  lemma BlockedIff(cfg: Config, ls: seq<Label>, n: nat, sent: bool, cmd: Command)
    requires n <= |ls| && Exec(cfg, ls, n).Some?
    ensures var s := Exec(cfg, ls, n).value;
            && (Next(cfg, s, Pub(sent)).None? <==>
                  s.p.pc == Stopped || Waits(s) || (s.p.pc == TakeRun && s.hooked.Some?))
            && (Next(cfg, s, Hook(cmd)).None? <==> s.hooked.Some?)
            && (Next(cfg, s, Commit).None? <==> s.hooked.None?)
            && Next(cfg, s, Shutdown).Some?
  {
    hide Exec, StartStep, BlockStep, EndStep, MachineInv, PubInv, Waits, Handle;
    Reachable(cfg, ls, n);
    var s := Exec(cfg, ls, n).value;
    PubOf(cfg, s);
    StoppedWaits(s);
    if s.p.pc in {Head, WaitRunning, TakeRun, TakeGen} { StartBlocked(s); }
    else if s.p.pc in {AtBlock, CheckGen, Process} { BlockNever(cfg, s, sent); }
    else if s.p.pc != Stopped { EndBlocked(cfg, s); }
  }

  lemma StoppedWaits(s: State)
    ensures Waits(s) ==> s.p.pc in {WaitRunning, WaitLeave}
  {
  }

  /** A waiting publisher that is asked to stop does so in two steps, with one last
      EOS for its source exactly when the state is still Running. */
  lemma StopsWhenAsked(cfg: Config, s: State)
    requires s.p.pc in {WaitRunning, WaitLeave} && s.shutdown
    ensures var t := Steps(cfg, s, 2);
            && t.Some? && t.value.p.pc == Stopped
            && t.value.out == s.out + if s.ctl.watch.value == Running then [LastEos(cfg, s.p)] else []
  {
    hide EosMsgs, Record;
    var s1 := Goto(s, Exit);
    assert Next(cfg, s, Pub(true)) == Some(s1);
    var t := EndStep(cfg, s1).value;
    assert Next(cfg, s1, Pub(true)) == Some(t);
    assert Steps(cfg, t, 0) == Some(t);
    assert Steps(cfg, s1, 1) == Some(t);
  }

  // ---- How often the publisher is woken ----

  /** The step is a wake-up for a change of the state. */
  predicate WakesUp(s: State, l: Label) { l.Pub? && s.p.pc in {WaitRunning, WaitLeave} && !s.shutdown }

  lemma StartSees(s: State)
    requires s.p.pc in {Head, WaitRunning, TakeRun, TakeGen} && StartStep(s).Some?
    ensures StartStep(s).value.p.rxSeen ==
            if s.p.pc == WaitRunning && !s.shutdown then s.ctl.watch.version else s.p.rxSeen
    ensures s.p.pc == WaitRunning && !s.shutdown ==> s.ctl.watch.version != s.p.rxSeen
  {
  }

  lemma EndSees(cfg: Config, s: State)
    requires s.p.pc in {EndOfList, Exhausted, AutoEos, CheckLeave, WaitLeave, FinishEos, Exit}
    requires EndStep(cfg, s).Some?
    ensures EndStep(cfg, s).value.p.rxSeen ==
            if s.p.pc == WaitLeave && !s.shutdown then s.ctl.watch.version else s.p.rxSeen
    ensures s.p.pc == WaitLeave && !s.shutdown ==> s.ctl.watch.version != s.p.rxSeen
  {
    hide EosMsgs, Record;
  }

  /** Only a wake-up changes what has been seen, and it was for something new. */
  lemma SeesStep(cfg: Config, s: State, l: Label)
    requires Next(cfg, s, l).Some?
    ensures Next(cfg, s, l).value.p.rxSeen == if WakesUp(s, l) then s.ctl.watch.version else s.p.rxSeen
    ensures WakesUp(s, l) ==> s.ctl.watch.version != s.p.rxSeen
  {
    hide BlockStep, EndStep, StartStep, HookStep, CommitStep;
    if !l.Pub? { CommandStays(cfg, s, l); }
    else if s.p.pc in {Head, WaitRunning, TakeRun, TakeGen} { StartSees(s); }
    else if s.p.pc in {AtBlock, CheckGen, Process} { BlockOutside(cfg, s, l.sent); }
    else { EndSees(cfg, s); }
  }

  lemma SeenBound(s: State)
    requires CtlInv(s)
    ensures s.p.rxSeen <= s.ctl.watch.version
  {
    hide Inv;
  }

  lemma {:induction false} SeenGrows(cfg: Config, tr: seq<State>, ls: seq<Label>, i: nat, k: nat)
    requires IsRun(cfg, tr, ls) && i <= k <= |ls|
    ensures tr[i].p.rxSeen <= tr[k].p.rxSeen <= tr[k].ctl.watch.version
    decreases k
  {
    hide Next, MachineInv, CtlInv, WakesUp;
    assert Exec(cfg, ls, k) == Some(tr[k]);
    Reachable(cfg, ls, k);
    CtlOf(cfg, tr[k]);
    SeenBound(tr[k]);
    if i < k {
      SeenGrows(cfg, tr, ls, i, k - 1);
      RunStep(cfg, tr, ls, k - 1);
      SeesStep(cfg, tr[k - 1], ls[k - 1]);
    }
  }

  /** Main result, for every run: the publisher is woken at most once for each state
      change; between two wake-ups the component has entered a state. */
  lemma WokenOncePerChange(cfg: Config, tr: seq<State>, ls: seq<Label>, i: nat, k: nat)
    requires IsRun(cfg, tr, ls) && i < k < |ls| && WakesUp(tr[i], ls[i]) && WakesUp(tr[k], ls[k])
    ensures tr[i].ctl.watch.version < tr[k].ctl.watch.version
  {
    hide Next, MachineInv, CtlInv;
    RunStep(cfg, tr, ls, i);
    SeesStep(cfg, tr[i], ls[i]);
    SeenGrows(cfg, tr, ls, i + 1, k);
    RunStep(cfg, tr, ls, k);
    SeesStep(cfg, tr[k], ls[k]);
  }
}
