/** The run number of a replay pass. The publisher reads the run number first and
    the generation later, each by its own access, so the number need not be that
    of the Start which the generation counts. */
module ReplayNumbers {
  import opened Bytes
  import opened ControlState
  import opened Replay
  import opened ReplayStarts

  /** `tr` lists the states that `ls` leads through. */
  ghost predicate IsRun(cfg: Config, tr: seq<State>, ls: seq<Label>) {
    |tr| == |ls| + 1 && forall i :: 0 <= i <= |ls| ==> Exec(cfg, ls, i) == Some(tr[i])
  }

  lemma RunStart(cfg: Config, tr: seq<State>, ls: seq<Label>)
    requires IsRun(cfg, tr, ls)
    ensures tr[0] == Init()
  {
    assert Exec(cfg, ls, 0) == Some(tr[0]);
  }

  lemma RunStep(cfg: Config, tr: seq<State>, ls: seq<Label>, i: nat)
    requires IsRun(cfg, tr, ls) && i < |ls|
    ensures Next(cfg, tr[i], ls[i]) == Some(tr[i + 1]) && MachineInv(cfg, tr[i]) && MachineInv(cfg, tr[i + 1])
  {
    hide Next, MachineInv, Record, RunNumberOr0;
    assert Exec(cfg, ls, i + 1) == Some(tr[i + 1]);
    Reachable(cfg, ls, i);
    Reachable(cfg, ls, i + 1);
  }

  // ---- Who set the run number in force ----

  /** The step commits an accepted Start; or a Configure or Reset. */
  predicate CommitsStart(s: State, l: Label) {
    l.Commit? && s.hooked.Some? && s.hooked.value.Start? && CanTransition(s.ctl.state, Running)
  }

  predicate CommitsConfigure(s: State, l: Label) {
    l.Commit? && s.hooked.Some? && s.hooked.value.Configure? && CanTransition(s.ctl.state, Configured)
  }

  predicate CommitsReset(s: State, l: Label) { l.Commit? && s.hooked.Some? && s.hooked.value.Reset? }

  /** The Start, counted from 1, that set the run number in force after `n` labels;
      0 when a Configure or a Reset did, or nothing yet. */
  function Owner(tr: seq<State>, ls: seq<Label>, n: nat): (g: nat)
    requires n <= |ls| && n < |tr|
  {
    if n == 0 then 0
    else if CommitsStart(tr[n - 1], ls[n - 1]) then tr[n - 1].gen
    else if CommitsConfigure(tr[n - 1], ls[n - 1]) || CommitsReset(tr[n - 1], ls[n - 1]) then 0
    else Owner(tr, ls, n - 1)
  }

  /** An accepted Start whose hook has run and which is not committed. */
  predicate Pending(s: State) { s.hooked.Some? && s.hooked.value.Start? && s.ctl.state == Armed }

  predicate HooksStart(s: State, l: Label) {
    l.Hook? && l.cmd.Start? && s.hooked.None? && CanTransition(s.ctl.state, Running)
  }

  /** The step leaves the command side alone. */
  predicate SameCommands(s: State, t: State) {
    t.ctl == s.ctl && t.hooked == s.hooked && t.gen == s.gen && t.starts == s.starts
  }

  /** What a step may do on the publisher's side. */
  predicate Moved(cfg: Config, s: State, t: State) {
    && (t.p.pc == TakeRun ==> s.p.pc == TakeRun || s.ctl.watch.value == Running)
    && (t.p.pc == TakeGen ==>
          || (s.p.pc == TakeGen && t.p.run == s.p.run)
          || (s.p.pc == TakeRun && s.hooked.None? && t.p.run == RunNumberOr0(s.ctl)))
    && (t.p.open ==>
          || (s.p.open && t.p.lastGen == s.p.lastGen && (s.p.pc == TakeRun || t.p.run == s.p.run))
          || (s.p.pc == TakeGen && t.p.run == s.p.run && t.p.lastGen == s.gen))
    && (t.done == s.done || (s.p.pc == FinishEos && t.done == s.done + [Record(cfg, s.p)]))
  }

  lemma StartMoves(cfg: Config, s: State)
    requires s.p.pc in {Head, WaitRunning, TakeRun, TakeGen} && StartStep(s).Some?
    ensures SameCommands(s, StartStep(s).value) && Moved(cfg, s, StartStep(s).value)
  {
    hide Record;
  }

  lemma EndMoves(cfg: Config, s: State)
    requires s.p.pc in {EndOfList, Exhausted, AutoEos, CheckLeave, WaitLeave, FinishEos, Exit}
    requires EndStep(cfg, s).Some?
    ensures SameCommands(s, EndStep(cfg, s).value) && Moved(cfg, s, EndStep(cfg, s).value)
  {
    hide Record, EosMsgs;
  }

  lemma BlockMoves(cfg: Config, s: State, sent: bool)
    requires s.p.pc in {AtBlock, CheckGen, Process} && BlockStep(cfg, s, sent).Some?
    ensures SameCommands(s, BlockStep(cfg, s, sent).value) && Moved(cfg, s, BlockStep(cfg, s, sent).value)
  {
    hide BlockStep, Record;
    BlockOutside(cfg, s, sent);
  }

  lemma Moves(cfg: Config, s: State, l: Label)
    requires Next(cfg, s, l).Some?
    ensures Moved(cfg, s, Next(cfg, s, l).value)
    ensures l.Pub? || l.Shutdown? ==> SameCommands(s, Next(cfg, s, l).value)
  {
    hide BlockStep, EndStep, StartStep, Record, Handle, Moved, SameCommands;
    if l.Pub? {
      hide HookStep, CommitStep;
      if s.p.pc in {Head, WaitRunning, TakeRun, TakeGen} { StartMoves(cfg, s); }
      else if s.p.pc in {AtBlock, CheckGen, Process} { BlockMoves(cfg, s, l.sent); }
      else { EndMoves(cfg, s); }
    } else {
      CommandMoves(cfg, s, l);
    }
  }

  lemma CommandMoves(cfg: Config, s: State, l: Label)
    requires Next(cfg, s, l).Some? && !l.Pub?
    ensures Moved(cfg, s, Next(cfg, s, l).value)
    ensures l.Shutdown? ==> SameCommands(s, Next(cfg, s, l).value)
  {
    hide BlockStep, EndStep, StartStep, Record, Handle;
  }

  /** What a step does to the number, to the Starts and to the pending Start. */
  predicate Numbered(s: State, l: Label, t: State) {
    && (CommitsStart(s, l) ==>
          && 0 < s.gen == |s.starts| && RunNumberOr0(t.ctl) == s.starts[s.gen - 1]
          && t.gen == s.gen && t.starts == s.starts)
    && (CommitsReset(s, l) ==> RunNumberOr0(t.ctl) == 0)
    && (!CommitsStart(s, l) && !CommitsConfigure(s, l) && !CommitsReset(s, l) ==>
          RunNumberOr0(t.ctl) == RunNumberOr0(s.ctl) && (Pending(s) ==> Pending(t)))
    && (if HooksStart(s, l) then t.starts == s.starts + [l.cmd.runNumber] && Pending(t)
        else t.starts == s.starts && (Pending(t) ==> Pending(s)))
    && t.gen == |t.starts|
    && (CommitsConfigure(s, l) || CommitsReset(s, l) ==> !Pending(s))
    && (CommitsConfigure(s, l) || CommitsReset(s, l) || CommitsStart(s, l) ==> !Pending(t))
  }

  lemma HookNumbers(s: State, cmd: Command)
    requires |s.starts| == s.gen && HookStep(s, cmd).Some?
    ensures Numbered(s, Hook(cmd), HookStep(s, cmd).value)
  {
  }

  lemma CommitNumbers(s: State)
    requires CtlInv(s) && CommitStep(s).Some?
    ensures Numbered(s, Commit, CommitStep(s).value)
  {
  }

  lemma StillNumbers(s: State, l: Label, t: State)
    requires |s.starts| == s.gen && SameCommands(s, t) && (l.Pub? || l.Shutdown?)
    ensures Numbered(s, l, t)
  {
  }

  lemma Numbers(cfg: Config, s: State, l: Label)
    requires CtlInv(s) && Next(cfg, s, l).Some?
    ensures Numbered(s, l, Next(cfg, s, l).value)
  {
    hide HookStep, CommitStep, BlockStep, EndStep, StartStep, Numbered, SameCommands, Moved, Inv;
    match l
    case Hook(cmd) => HookNumbers(s, cmd);
    case Commit => CommitNumbers(s);
    case _ =>
      Moves(cfg, s, l);
      StillNumbers(s, l, Next(cfg, s, l).value);
  }

  /** A number that a Start set is that Start's; without a pending Start it is the
      last one's. */
  predicate Owned(s: State, owner: nat) {
    && owner <= |s.starts|
    && (owner > 0 ==> RunNumberOr0(s.ctl) == s.starts[owner - 1])
    && (!Pending(s) ==> owner == 0 || owner == s.gen)
  }

  lemma OwnedStep(cfg: Config, s: State, l: Label, owner: nat, next: nat)
    requires CtlInv(s) && Next(cfg, s, l).Some? && Owned(s, owner)
    requires next == if CommitsStart(s, l) then s.gen
                     else if CommitsConfigure(s, l) || CommitsReset(s, l) then 0
                     else owner
    ensures Owned(Next(cfg, s, l).value, next)
  {
    hide Next, CommitsStart, CommitsConfigure, CommitsReset, HooksStart, Pending;
    Numbers(cfg, s, l);
  }

  lemma {:induction false} AlwaysOwned(cfg: Config, tr: seq<State>, ls: seq<Label>, n: nat)
    requires IsRun(cfg, tr, ls) && n <= |ls|
    ensures Owned(tr[n], Owner(tr, ls, n))
    decreases n
  {
    hide Next, CommitsStart, CommitsConfigure, CommitsReset, Owned, CtlInv, MachineInv, Exec;
    if n == 0 {
      RunStart(cfg, tr, ls);
      InitOwned();
    } else {
      AlwaysOwned(cfg, tr, ls, n - 1);
      RunStep(cfg, tr, ls, n - 1);
      CtlOf(cfg, tr[n - 1]);
      OwnedStep(cfg, tr[n - 1], ls[n - 1], Owner(tr, ls, n - 1), Owner(tr, ls, n));
    }
  }

  lemma InitOwned()
    ensures Owned(Init(), 0)
  {
  }

  lemma CtlOf(cfg: Config, s: State)
    requires MachineInv(cfg, s)
    ensures CtlInv(s)
  {
    hide CtlInv, PubInv, OutInv, DoneInv;
  }

  // ---- The two captures of a pass ----

  /** The number was read by label `a` and the generation by label `b`, with the
      publisher in between all the time. */
  ghost predicate Captured(tr: seq<State>, ls: seq<Label>, a: nat, b: nat, run: nat, gen: nat) {
    && |tr| == |ls| + 1 && a < b < |ls|
    && tr[a].p.pc == TakeRun && tr[a].hooked.None? && run == RunNumberOr0(tr[a].ctl)
    && gen == tr[b].gen && forall j :: a < j <= b ==> tr[j].p.pc == TakeGen
  }

  lemma {:induction false} TakenAt(cfg: Config, tr: seq<State>, ls: seq<Label>, b: nat) returns (a: nat)
    requires IsRun(cfg, tr, ls) && b <= |ls| && tr[b].p.pc == TakeGen
    ensures a < b && tr[a].p.pc == TakeRun && tr[a].hooked.None? && tr[b].p.run == RunNumberOr0(tr[a].ctl)
    ensures forall j :: a < j <= b ==> tr[j].p.pc == TakeGen
    decreases b
  {
    hide Next, MachineInv, Record, RunNumberOr0;
    if b == 0 {
      RunStart(cfg, tr, ls);
    } else {
      RunStep(cfg, tr, ls, b - 1);
      Moves(cfg, tr[b - 1], ls[b - 1]);
      if tr[b - 1].p.pc == TakeGen {
        a := TakenAt(cfg, tr, ls, b - 1);
      } else {
        a := b - 1;
      }
    }
  }

  /** A publisher that reads the run number has been preceded by a Start. */
  lemma {:induction false} TakenStarted(cfg: Config, tr: seq<State>, ls: seq<Label>, n: nat)
    requires IsRun(cfg, tr, ls) && n <= |ls| && tr[n].p.pc == TakeRun
    ensures tr[n].gen > 0
    decreases n
  {
    hide Next, MachineInv, CtlInv, Record, RunNumberOr0;
    if n == 0 {
      RunStart(cfg, tr, ls);
    } else {
      RunStep(cfg, tr, ls, n - 1);
      Moves(cfg, tr[n - 1], ls[n - 1]);
      StartsGrow(cfg, tr, ls, n - 1, n - 1);
      StartsGrow(cfg, tr, ls, n - 1, n);
      if tr[n - 1].p.pc == TakeRun {
        TakenStarted(cfg, tr, ls, n - 1);
      } else {
        RunningStarted(cfg, tr[n - 1]);
      }
    }
  }

  lemma RunningStarted(cfg: Config, s: State)
    requires MachineInv(cfg, s) && s.ctl.watch.value == Running
    ensures s.gen > 0
  {
    hide PubInv, OutInv, DoneInv;
  }

  lemma ClosedOutside(cfg: Config, s: State)
    requires MachineInv(cfg, s)
    ensures s.p.pc in {Head, WaitRunning, TakeRun, TakeGen} ==> !s.p.open
    ensures s.p.pc == FinishEos ==> s.p.open
  {
    hide CtlInv, OutInv, DoneInv;
  }

  lemma {:induction false} OpenCaptured(cfg: Config, tr: seq<State>, ls: seq<Label>, n: nat) returns (a: nat, b: nat)
    requires IsRun(cfg, tr, ls) && n <= |ls| && tr[n].p.open
    ensures Captured(tr, ls, a, b, tr[n].p.run, tr[n].p.lastGen) && b < n
    decreases n
  {
    hide Next, MachineInv, Record, RunNumberOr0;
    if n == 0 {
      RunStart(cfg, tr, ls);
    } else {
      var s := tr[n - 1];
      RunStep(cfg, tr, ls, n - 1);
      Moves(cfg, s, ls[n - 1]);
      ClosedOutside(cfg, s);
      if s.p.open {
        a, b := OpenCaptured(cfg, tr, ls, n - 1);
      } else {
        b := n - 1;
        a := TakenAt(cfg, tr, ls, b);
      }
    }
  }

  /** Where a finished pass was closed. */
  lemma {:induction false} DoneAt(cfg: Config, tr: seq<State>, ls: seq<Label>, n: nat, i: nat) returns (m: nat)
    requires IsRun(cfg, tr, ls) && n <= |ls| && i < |tr[n].done|
    ensures m < n && tr[m].p.open && tr[n].done[i].run == tr[m].p.run && tr[n].done[i].gen == tr[m].p.lastGen
    decreases n
  {
    hide Next, MachineInv, DataMsgs, EosMsgs, SentBy, RunNumberOr0;
    if n == 0 {
      RunStart(cfg, tr, ls);
    } else {
      RunStep(cfg, tr, ls, n - 1);
      Moves(cfg, tr[n - 1], ls[n - 1]);
      ClosedOutside(cfg, tr[n - 1]);
      if i < |tr[n - 1].done| {
        m := DoneAt(cfg, tr, ls, n - 1, i);
      } else {
        m := n - 1;
      }
    }
  }

  // ---- Whose number a pass carries ----

  /** Nobody reuses a run number: a Start brings one, other than 0, that no earlier
      Start has brought, and so does a Configure, which may name the next Start's. */
  ghost predicate NumbersFresh(tr: seq<State>, ls: seq<Label>)
    requires |tr| == |ls| + 1
  {
    && (forall h :: 0 <= h < |ls| && HooksStart(tr[h], ls[h]) ==>
          ls[h].cmd.runNumber != 0 && ls[h].cmd.runNumber !in tr[h].starts)
    && (forall c :: 0 <= c < |ls| && CommitsConfigure(tr[c], ls[c]) ==> RunNumberOr0(tr[c + 1].ctl) !in tr[c].starts)
  }

  /** The Starts are distinct, and a number that none of them set is none of theirs. */
  predicate Foreign(s: State, owner: nat) {
    && 0 !in s.starts && (forall i, j :: 0 <= i < j < |s.starts| ==> s.starts[i] != s.starts[j])
    && (!Pending(s) && owner == 0 ==> RunNumberOr0(s.ctl) !in s.starts)
  }

  lemma ForeignStep(cfg: Config, s: State, l: Label, owner: nat, next: nat)
    requires CtlInv(s) && Next(cfg, s, l).Some? && Foreign(s, owner)
    requires next == if CommitsStart(s, l) then s.gen
                     else if CommitsConfigure(s, l) || CommitsReset(s, l) then 0
                     else owner
    requires HooksStart(s, l) ==> l.cmd.runNumber != 0 && l.cmd.runNumber !in s.starts
    requires CommitsConfigure(s, l) ==> RunNumberOr0(Next(cfg, s, l).value.ctl) !in s.starts
    ensures Foreign(Next(cfg, s, l).value, next)
  {
    hide Next, CommitsStart, CommitsConfigure, CommitsReset, HooksStart, Pending;
    Numbers(cfg, s, l);
    NotBoth(s, l);
  }

  lemma NotBoth(s: State, l: Label)
    ensures HooksStart(s, l) ==> !CommitsStart(s, l) && !CommitsConfigure(s, l) && !CommitsReset(s, l)
    ensures CommitsConfigure(s, l) ==> !CommitsStart(s, l)
    ensures CommitsReset(s, l) ==> !CommitsStart(s, l)
  {
  }

  lemma {:induction false} AlwaysForeign(cfg: Config, tr: seq<State>, ls: seq<Label>, n: nat)
    requires IsRun(cfg, tr, ls) && n <= |ls| && NumbersFresh(tr, ls)
    ensures Foreign(tr[n], Owner(tr, ls, n))
    decreases n
  {
    hide Next, CommitsStart, CommitsConfigure, CommitsReset, Foreign, CtlInv, Exec, MachineInv, RunNumberOr0;
    RunStart(cfg, tr, ls);
    if n == 0 {
      InitForeign();
    } else {
      AlwaysForeign(cfg, tr, ls, n - 1);
      RunStep(cfg, tr, ls, n - 1);
      CtlOf(cfg, tr[n - 1]);
      ForeignStep(cfg, tr[n - 1], ls[n - 1], Owner(tr, ls, n - 1), Owner(tr, ls, n));
    }
  }

  lemma InitForeign()
    ensures Foreign(Init(), 0)
  {
  }

  lemma GenOf(s: State)
    requires CtlInv(s)
    ensures s.gen == |s.starts|
  {
    hide Inv;
  }

  lemma NumberedStarts(s: State, l: Label, t: State)
    requires Numbered(s, l, t)
    ensures s.starts <= t.starts && t.gen == |t.starts|
    ensures t.starts == if HooksStart(s, l) then s.starts + [l.cmd.runNumber] else s.starts
  {
    hide CommitsStart, CommitsConfigure, CommitsReset, Pending, RunNumberOr0;
  }

  lemma {:induction false} StartsGrow(cfg: Config, tr: seq<State>, ls: seq<Label>, a: nat, b: nat)
    requires IsRun(cfg, tr, ls) && a <= b <= |ls|
    ensures tr[a].starts <= tr[b].starts && tr[b].gen == |tr[b].starts|
    decreases b
  {
    hide Next, Numbered, MachineInv, CtlInv;
    if a == b {
      Reachable(cfg, ls, b);
      CtlOf(cfg, tr[b]);
      GenOf(tr[b]);
    } else {
      StartsGrow(cfg, tr, ls, a, b - 1);
      RunStep(cfg, tr, ls, b - 1);
      CtlOf(cfg, tr[b - 1]);
      Numbers(cfg, tr[b - 1], ls[b - 1]);
      NumberedStarts(tr[b - 1], ls[b - 1], tr[b]);
    }
  }

  /** Main result, for every finished pass: its run number is that of its own Start
      if that Start was the last command to set a number before the publisher read
      it. When numbers are not reused there is one other way: a Configure had set
      the number of a Start that came between the publisher's two reads. */
  lemma PassNumber(cfg: Config, tr: seq<State>, ls: seq<Label>, i: nat) returns (a: nat, b: nat)
    requires IsRun(cfg, tr, ls) && i < |tr[|ls|].done|
    ensures var pass, starts := tr[|ls|].done[i], tr[|ls|].starts;
            && Captured(tr, ls, a, b, pass.run, pass.gen) && 0 < pass.gen <= |starts|
            && (Owner(tr, ls, a) == pass.gen ==> pass.run == starts[pass.gen - 1])
            && (NumbersFresh(tr, ls) ==>
                  (pass.run == starts[pass.gen - 1] <==>
                    if tr[a].gen == tr[b].gen then Owner(tr, ls, a) == pass.gen
                    else Owner(tr, ls, a) == 0 && RunNumberOr0(tr[a].ctl) == starts[pass.gen - 1]))
  {
    hide Exec, Owner, NumbersFresh, MachineInv, RunNumberOr0;
    var n := |ls|;
    var m := DoneAt(cfg, tr, ls, n, i);
    a, b := OpenCaptured(cfg, tr, ls, m);
    StartsGrow(cfg, tr, ls, a, a);
    StartsGrow(cfg, tr, ls, a, b);
    StartsGrow(cfg, tr, ls, b, n);
    TakenStarted(cfg, tr, ls, a);
    AlwaysOwned(cfg, tr, ls, a);
    if NumbersFresh(tr, ls) {
      NumberForeign(cfg, tr, ls, a, b);
    }
  }

  lemma NumberForeign(cfg: Config, tr: seq<State>, ls: seq<Label>, a: nat, b: nat)
    requires IsRun(cfg, tr, ls) && a <= b <= |ls| && tr[a].hooked.None? && NumbersFresh(tr, ls)
    ensures var run, starts := RunNumberOr0(tr[a].ctl), tr[b].starts;
            |tr[a].starts| <= |starts| && (starts != [] && run == starts[|starts| - 1] ==>
              Owner(tr, ls, a) == if |tr[a].starts| == |starts| then |starts| else 0)
  {
    hide Exec, Owner, NumbersFresh, RunNumberOr0;
    AlwaysOwned(cfg, tr, ls, a);
    AlwaysForeign(cfg, tr, ls, a);
    AlwaysForeign(cfg, tr, ls, b);
    StartsGrow(cfg, tr, ls, a, b);
    StartsGrow(cfg, tr, ls, a, a);
  }

  // ---- A pass with a number that no Start has brought ----

  /** Run 1 starts; between its two captures the publisher's component is configured
      for run 9. */
  function ConfiguredBetween(): (ls: seq<Label>)
    ensures |ls| == 14
  {
    [Hook(Configure(RunConfig(0, "", ""))), Commit, Hook(Arm), Commit, Hook(Start(1)), Commit,
     Pub(true), Hook(Configure(RunConfig(9, "", ""))), Commit, Pub(true), Pub(true), Pub(true), Pub(true), Pub(true)]
  }

  function Running1(): (s: State) {
    State(Control(Running, Some(RunConfig(1, "", "")), Watch(Running, 3, 1)), None, 1, false, [1],
          Publisher(Head, 0, 0, 0, 0, false, [], 0, 0, false, false, false), [], [])
  }

  function Numbered9(): (s: State) {
    State(Control(Configured, Some(RunConfig(9, "", "")), Watch(Configured, 4, 1)), None, 1, false, [1],
          Publisher(TakeGen, 0, 0, 0, 9, false, [], 0, 0, false, false, false), [], [])
  }

  lemma Running1Reached()
    ensures Exec(ONE_FILE, ConfiguredBetween(), 6) == Some(Running1())
  {
    hide Exec;
    var ls := ConfiguredBetween();
    LateStartWaits(ls);
    ExecNext(ONE_FILE, ls, 4, Waiting());
    var s5 := Next(ONE_FILE, Waiting(), ls[4]).value;
    assert s5.starts == [1];
    ExecNext(ONE_FILE, ls, 5, s5);
  }

  lemma Numbered9Reached()
    ensures Exec(ONE_FILE, ConfiguredBetween(), 10) == Some(Numbered9())
  {
    hide Exec;
    var ls := ConfiguredBetween();
    Running1Reached();
    ExecNext(ONE_FILE, ls, 6, Running1());
    var s7 := Next(ONE_FILE, Running1(), ls[6]).value;
    ExecNext(ONE_FILE, ls, 7, s7);
    var s8 := Next(ONE_FILE, s7, ls[7]).value;
    ExecNext(ONE_FILE, ls, 8, s8);
    var s9 := Next(ONE_FILE, s8, ls[8]).value;
    ExecNext(ONE_FILE, ls, 9, s9);
  }

  /** "A pass carries the number of its Start" is false of the code: this pass was
      opened by the Start of run 1 and closes with an EOS of run 9. */
  lemma WrongNumber()
    ensures var s := Exec(ONE_FILE, ConfiguredBetween(), 14);
            && s.Some? && s.value.starts == [1] && s.value.out == [Eos(0, 9)]
            && |s.value.done| == 1 && s.value.done[0].gen == 1 && s.value.done[0].run == 9 && !s.value.done[0].clean
  {
    hide Exec, Blocks, DataMsgs, SentBy;
    var ls := ConfiguredBetween();
    Numbered9Reached();
    OneFileBlocks();
    ExecNext(ONE_FILE, ls, 10, Numbered9());
    var s11 := Next(ONE_FILE, Numbered9(), ls[10]).value;
    ExecNext(ONE_FILE, ls, 11, s11);
    var s12 := Next(ONE_FILE, s11, ls[11]).value;
    ExecNext(ONE_FILE, ls, 12, s12);
    var s13 := Next(ONE_FILE, s12, ls[12]).value;
    ExecNext(ONE_FILE, ls, 13, s13);
  }
}
