/** `online_event_builder.rs`, operator-managed mode: the loop that keeps one
    pipeline thread per run while it follows the command task through a watch
    channel that may skip states. */
module EventBuilder {
  import opened Bytes
  import opened ControlState

  /** The loop's own variables. `thread` is the run number a live pipeline was
      built for; `spawned` and `joined` count threads over the whole run. */
  datatype Driver = Driver(thread: Option<nat>, handle: bool, last: CState, spawned: nat, joined: nat)

  // ---- The branches of the loop as functions ----

  function TornDown(d: Driver): (r: Driver) {
    d.(thread := None, handle := false, joined := d.joined + if d.thread.Some? then 1 else 0)
  }

  /** Into Running: build and spawn, either of which may fail. */
  function Entered(d: Driver, new_: CState, run: nat, builds: bool, spawns: bool): (r: Driver) {
    if new_ != Running || d.thread.Some? || !builds then d
    else if spawns then d.(thread := Some(run), handle := true, spawned := d.spawned + 1)
    else d.(handle := false)
  }

  /** Out of Running: tear down. */
  function Left(d: Driver, new_: CState): (r: Driver) {
    (if d.last == Running && new_ != Running then TornDown(d) else d).(last := new_)
  }

  function Ticked(d: Driver, finished: bool): (r: Driver) {
    if d.thread.Some? && finished then TornDown(d) else d
  }

  // ---- The same branches as the loop runs them ----

  class Loop {
    var thread: Option<nat>
    var handle: bool
    var last: CState
    var spawned: nat
    var joined: nat

    constructor ()
      ensures View() == Driver(None, false, Idle, 0, 0)
    {
      thread, handle, last, spawned, joined := None, false, Idle, 0, 0;
    }

    function View(): (d: Driver)
      reads this
    {
      Driver(thread, handle, last, spawned, joined)
    }

    method TearDown()
      modifies this
      ensures View() == TornDown(old(View()))
    {
      if handle { handle := false; }
      if thread.Some? {
        thread := None;
        joined := joined + 1;
      }
    }

    /** The `state_rx.changed()` branch after the borrow. */
    method OnState(newState: CState, run: nat, builds: bool, spawns: bool)
      modifies this
      ensures View() == Left(Entered(old(View()), newState, run, builds, spawns), newState)
    {
      if newState == Running && thread.None? {
        if builds {
          handle := true;
          if spawns {
            thread := Some(run);
            spawned := spawned + 1;
          } else {
            handle := false;
          }
        }
      }
      if last == Running && newState != Running {
        TearDown();
      }
      last := newState;
    }

    method OnTick(finished: bool)
      modifies this
      ensures View() == Ticked(old(View()), finished)
    {
      if thread.Some? {
        if finished { TearDown(); }
      }
    }
  }

  // ---- The loop and the command task, interleaved ----

  datatype Pc = Waiting | Woken | Seen(newState: CState) | Leaving(newState: CState) | Stopped

  /** `seenAt` is the version at which `last` was read. */
  datatype State = State(ctl: Control, hooked: Option<Command>, shutdown: bool,
                         pc: Pc, rxSeen: nat, seenAt: nat, d: Driver)

  datatype Label =
    | Hook(cmd: Command)
    | Commit
    | Shutdown
    | Wake
    | Read
    | Spawn(builds: bool, spawns: bool)
    | Leave
    | Tick(finished: bool)
    | Quit

  function Init(): (s: State) {
    State(FRESH, None, false, Waiting, 0, 0, Driver(None, false, Idle, 0, 0))
  }

  function Next(s: State, l: Label): (r: Option<State>) {
    match l
    case Hook(cmd) => if s.hooked.Some? then None else Some(s.(hooked := Some(cmd)))
    case Commit =>
      if s.hooked.None? then None
      else Some(s.(hooked := None, ctl := Handle(s.ctl, s.hooked.value, Accept).0))
    case Shutdown => Some(s.(shutdown := true))
    case Wake =>
      if s.pc == Waiting && !s.shutdown && s.ctl.watch.version != s.rxSeen then
        Some(s.(pc := Woken, rxSeen := s.ctl.watch.version))
      else None
    case Read =>
      if s.pc == Woken then Some(s.(pc := Seen(s.ctl.watch.value), seenAt := s.ctl.watch.version)) else None
    case Spawn(builds, spawns) =>
      if s.pc.Seen? && (s.pc.newState == Running && s.d.thread.None? ==> s.hooked.None?) then
        Some(s.(pc := Leaving(s.pc.newState),
                d := Entered(s.d, s.pc.newState, RunNumberOr0(s.ctl), builds, spawns)))
      else None
    case Leave =>
      if s.pc.Leaving? then Some(s.(pc := Waiting, d := Left(s.d, s.pc.newState))) else None
    case Tick(finished) =>
      if s.pc == Waiting && !s.shutdown then Some(s.(d := Ticked(s.d, finished))) else None
    case Quit =>
      if s.pc == Waiting && s.shutdown then Some(s.(pc := Stopped, d := TornDown(s.d))) else None
  }

  function Exec(ls: seq<Label>, n: nat): (r: Option<State>)
    requires n <= |ls|
  {
    if n == 0 then Some(Init())
    else
      var s :- Exec(ls, n - 1);
      Next(s, ls[n - 1])
  }

  predicate DriverInv(d: Driver) {
    && d.handle == d.thread.Some?
    && d.spawned == d.joined + if d.thread.Some? then 1 else 0
  }

  predicate LoopInv(s: State) {
    && DriverInv(s.d)
    && Inv(s.ctl) && s.ctl.watch.receivers == 1
    && (s.pc != Woken ==> s.rxSeen <= s.seenAt)
    && s.rxSeen <= s.ctl.watch.version && s.seenAt <= s.ctl.watch.version
    && (s.pc == Waiting ==>
          && (s.d.thread.Some? ==> s.d.last == Running)
          && (s.seenAt == s.ctl.watch.version ==> s.d.last == s.ctl.watch.value))
    && (s.pc == Woken ==> s.d.thread.Some? ==> s.d.last == Running)
    && (s.pc.Seen? ==>
          && (s.d.thread.Some? ==> s.d.last == Running)
          && (s.seenAt == s.ctl.watch.version ==> s.pc.newState == s.ctl.watch.value))
    && (s.pc.Leaving? ==>
          && (s.d.thread.Some? ==> s.d.last == Running || s.pc.newState == Running)
          && (s.seenAt == s.ctl.watch.version ==> s.pc.newState == s.ctl.watch.value))
    && (s.pc == Stopped ==> s.d.thread.None?)
  }

  lemma StepKeeps(s: State, l: Label)
    requires LoopInv(s) && Next(s, l).Some?
    ensures LoopInv(Next(s, l).value)
  {
  }

  lemma {:induction false} Reachable(ls: seq<Label>, n: nat)
    requires n <= |ls| && Exec(ls, n).Some?
    ensures LoopInv(Exec(ls, n).value)
  {
    hide Next, LoopInv;
    if n == 0 {
      InitOk();
    } else {
      Reachable(ls, n - 1);
      StepKeeps(Exec(ls, n - 1).value, ls[n - 1]);
    }
  }

  lemma InitOk()
    ensures LoopInv(Init())
  {
  }

  /** Main result, for every interleaving and every way the channel conflates: at
      the loop head there is at most one pipeline, a shutdown handle exactly when
      there is one, a pipeline only if the last observed state was Running, and
      every thread ever spawned is joined or live. With no notification pending a
      live pipeline means the component is Running; after shutdown none is live. */
  lemma AtLoopHead(ls: seq<Label>, n: nat)
    requires n <= |ls| && Exec(ls, n).Some?
    requires Exec(ls, n).value.pc in {Waiting, Stopped}
    ensures var s := Exec(ls, n).value;
            && s.d.handle == s.d.thread.Some?
            && s.d.spawned == s.d.joined + (if s.d.thread.Some? then 1 else 0)
            && (s.pc == Waiting && s.d.thread.Some? ==> s.d.last == Running)
            && (s.pc == Waiting && s.rxSeen == s.ctl.watch.version ==>
                  s.d.last == s.ctl.state && (s.d.thread.Some? ==> s.ctl.state == Running))
            && (s.pc == Stopped ==> s.d.thread.None? && s.d.spawned == s.d.joined)
  {
    hide Exec;
    Reachable(ls, n);
  }

  // ---- Whose run a live pipeline belongs to ----

  /** `tr` lists the states that `ls` leads through. */
  ghost predicate IsRun(tr: seq<State>, ls: seq<Label>) {
    |tr| == |ls| + 1 && forall i :: 0 <= i <= |ls| ==> Exec(ls, i) == Some(tr[i])
  }

  lemma RunStart(tr: seq<State>, ls: seq<Label>)
    requires IsRun(tr, ls)
    ensures tr[0] == Init()
  {
    assert Exec(ls, 0) == Some(tr[0]);
  }

  lemma RunStep(tr: seq<State>, ls: seq<Label>, i: nat)
    requires IsRun(tr, ls) && i < |ls|
    ensures Next(tr[i], ls[i]) == Some(tr[i + 1]) && LoopInv(tr[i]) && LoopInv(tr[i + 1])
  {
    hide Next, LoopInv;
    assert Exec(ls, i + 1) == Some(tr[i + 1]);
    Reachable(ls, i);
    Reachable(ls, i + 1);
  }

  /** Label `i` commits an accepted Start. */
  predicate Starts(tr: seq<State>, ls: seq<Label>, i: nat) {
    && i < |ls| && i < |tr| && ls[i].Commit?
    && tr[i].hooked.Some? && tr[i].hooked.value.Start? && tr[i].ctl.state == Armed
  }

  /** Label `i` takes the component out of Running. */
  predicate Leaves(tr: seq<State>, ls: seq<Label>, i: nat) {
    i < |ls| && i + 1 < |tr| && tr[i].ctl.state == Running && tr[i + 1].ctl.state != Running
  }

  /** How many runs the first `n` labels start. */
  function RunsStarted(tr: seq<State>, ls: seq<Label>, n: nat): (k: nat) {
    if n == 0 then 0 else RunsStarted(tr, ls, n - 1) + if Starts(tr, ls, n - 1) then 1 else 0
  }

  /** The live pipeline was spawned by label `b`. */
  ghost predicate LiveSince(tr: seq<State>, ls: seq<Label>, b: nat) {
    && |tr| == |ls| + 1 && b < |ls| && ls[b].Spawn? && tr[b].d.thread.None?
    && forall j :: b < j < |tr| ==> tr[j].d.thread.Some?
  }

  /** The component left Running at `l` and was started again at `c`, behind the
      Spawn, with no Read in between. */
  ghost predicate MissedRestart(tr: seq<State>, ls: seq<Label>, b: nat, l: nat, c: nat) {
    && l < c && b < c && Leaves(tr, ls, l) && Starts(tr, ls, c)
    && forall q :: l <= q <= c ==> !ls[q].Read?
  }

  ghost predicate RestartMissed(tr: seq<State>, ls: seq<Label>, b: nat) {
    exists l: nat, c: nat :: MissedRestart(tr, ls, b, l, c)
  }

  lemma SpawnStep(s: State, l: Label)
    requires LoopInv(s) && Next(s, l).Some? && s.d.thread.None? && Next(s, l).value.d.thread.Some?
    ensures l.Spawn? && s.pc == Seen(Running)
    ensures Next(s, l).value.d.thread == Some(RunNumberOr0(s.ctl))
  {
  }

  lemma {:induction false} SpawnIndex(tr: seq<State>, ls: seq<Label>, n: nat) returns (b: nat)
    requires IsRun(tr, ls) && n <= |ls| && tr[n].d.thread.Some?
    ensures b < n && tr[b].d.thread.None? && ls[b].Spawn? && forall j :: b < j <= n ==> tr[j].d.thread.Some?
    decreases n
  {
    hide Next, LoopInv;
    if n == 0 {
      RunStart(tr, ls);
    } else if tr[n - 1].d.thread.Some? {
      b := SpawnIndex(tr, ls, n - 1);
    } else {
      b := n - 1;
      RunStep(tr, ls, b);
      SpawnStep(tr[b], ls[b]);
    }
  }

  lemma ThreadStep(s: State, l: Label)
    requires Next(s, l).Some? && s.d.thread.Some? && Next(s, l).value.d.thread.Some?
    ensures Next(s, l).value.d.thread == s.d.thread
  {
  }

  /** The live pipeline keeps the run number that was in force at its Spawn. */
  lemma {:induction false} SameThread(tr: seq<State>, ls: seq<Label>, b: nat, j: nat)
    requires IsRun(tr, ls) && LiveSince(tr, ls, b) && b < j < |tr|
    ensures tr[j].d.thread == Some(RunNumberOr0(tr[b].ctl))
    decreases j
  {
    hide Next, LoopInv;
    RunStep(tr, ls, j - 1);
    if j == b + 1 {
      SpawnStep(tr[b], ls[b]);
    } else {
      SameThread(tr, ls, b, j - 1);
      ThreadStep(tr[j - 1], ls[j - 1]);
    }
  }

  lemma ReadStep(s: State, l: Label)
    requires LoopInv(s) && Next(s, l).Some? && Next(s, l).value.pc.Seen? && s.pc != Next(s, l).value.pc
    ensures l.Read? && s.ctl.state == Next(s, l).value.pc.newState
  {
  }

  /** The Read behind which the loop still stands. */
  lemma {:induction false} SeenSince(tr: seq<State>, ls: seq<Label>, b: nat) returns (r: nat)
    requires IsRun(tr, ls) && b < |tr| && tr[b].pc.Seen?
    ensures r < b && ls[r].Read? && tr[r].ctl.state == tr[b].pc.newState
    ensures forall j :: r < j <= b ==> tr[j].pc == tr[b].pc
    decreases b
  {
    hide Next, LoopInv;
    if b == 0 {
      RunStart(tr, ls);
    } else {
      RunStep(tr, ls, b - 1);
      if tr[b - 1].pc == tr[b].pc {
        r := SeenSince(tr, ls, b - 1);
      } else {
        r := b - 1;
        ReadStep(tr[r], ls[r]);
      }
    }
  }

  /** The loop has read a state other than Running while a pipeline is live. */
  predicate SawOut(s: State) {
    (s.pc.Seen? || s.pc.Leaving?) && s.pc.newState != Running && s.d.thread.Some?
  }

  lemma SawOutStep(s: State, l: Label)
    requires LoopInv(s) && SawOut(s) && Next(s, l).Some? && Next(s, l).value.d.thread.Some?
    ensures SawOut(Next(s, l).value)
  {
  }

  lemma ReadOutStep(s: State, l: Label)
    requires LoopInv(s) && l.Read? && s.ctl.state != Running && s.d.thread.Some? && Next(s, l).Some?
    ensures SawOut(Next(s, l).value)
  {
  }

  /** A pipeline that survives to the loop head has not seen a Read of another state. */
  lemma {:induction false} ReadsOut(tr: seq<State>, ls: seq<Label>, b: nat, q: nat, n: nat)
    requires IsRun(tr, ls) && LiveSince(tr, ls, b) && b < q < n < |tr|
    requires ls[q].Read? && tr[q].ctl.state != Running
    ensures SawOut(tr[n])
    decreases n
  {
    hide Next, LoopInv, SawOut;
    RunStep(tr, ls, n - 1);
    if n == q + 1 {
      ReadOutStep(tr[q], ls[q]);
    } else {
      ReadsOut(tr, ls, b, q, n - 1);
      SawOutStep(tr[n - 1], ls[n - 1]);
    }
  }

  /** Running is left, and entered, by commits only. */
  lemma StateStep(s: State, l: Label)
    requires LoopInv(s) && Next(s, l).Some?
    ensures Next(s, l).value.ctl.state != s.ctl.state ==> l.Commit?
    ensures s.ctl.state == Running && Next(s, l).value.ctl.state != Running ==>
              s.hooked.Some? && (s.hooked.value.Stop? || s.hooked.value.Reset? || s.hooked.value.Configure?)
    ensures s.ctl.state != Running && Next(s, l).value.ctl.state == Running ==>
              l.Commit? && s.hooked.Some? && s.hooked.value.Start? && s.ctl.state == Armed
    ensures s.ctl.state == Running && Next(s, l).value.ctl.state == Running ==>
              Next(s, l).value.ctl.runConfig == s.ctl.runConfig
  {
    hide LoopInv;
  }

  /** The last time Running was left before `c`. */
  lemma {:induction false} LastLeave(tr: seq<State>, ls: seq<Label>, r: nat, c: nat) returns (l: nat)
    requires IsRun(tr, ls) && r <= c < |tr| && tr[r].ctl.state == Running && tr[c].ctl.state != Running
    ensures r <= l < c && Leaves(tr, ls, l) && ls[l].Commit?
    ensures forall j :: l < j <= c ==> tr[j].ctl.state != Running
    decreases c
  {
    hide Next, LoopInv;
    RunStep(tr, ls, c - 1);
    if tr[c - 1].ctl.state == Running {
      l := c - 1;
      StateStep(tr[l], ls[l]);
    } else {
      l := LastLeave(tr, ls, r, c - 1);
    }
  }

  lemma {:induction false} CountedStart(tr: seq<State>, ls: seq<Label>, b: nat, n: nat) returns (c: nat)
    requires b <= n && RunsStarted(tr, ls, b) != RunsStarted(tr, ls, n)
    ensures b <= c < n && Starts(tr, ls, c)
    decreases n
  {
    hide Starts;
    if Starts(tr, ls, n - 1) {
      c := n - 1;
    } else {
      c := CountedStart(tr, ls, b, n - 1);
    }
  }

  lemma {:induction false} StartCounts(tr: seq<State>, ls: seq<Label>, b: nat, c: nat, n: nat)
    requires b <= n
    ensures RunsStarted(tr, ls, b) <= RunsStarted(tr, ls, n)
    ensures b <= c < n && Starts(tr, ls, c) ==> RunsStarted(tr, ls, b) < RunsStarted(tr, ls, n)
    decreases n
  {
    hide Starts;
    if b == n {
    } else {
      StartCounts(tr, ls, b, c, n - 1);
    }
  }

  lemma NoReadBetween(tr: seq<State>, ls: seq<Label>, b: nat, r: nat, q: nat)
    requires IsRun(tr, ls) && LiveSince(tr, ls, b) && tr[|ls|].pc == Waiting
    requires tr[b].pc.Seen? && r < q < |ls| && (forall j :: r < j <= b ==> tr[j].pc == tr[b].pc)
    requires tr[q].ctl.state != Running
    ensures !ls[q].Read?
  {
    hide LoopInv;
    RunStep(tr, ls, q);
    if ls[q].Read? && b < q { ReadsOut(tr, ls, b, q, |ls|); }
  }

  lemma StartMissed(tr: seq<State>, ls: seq<Label>, b: nat, c: nat)
    requires IsRun(tr, ls) && LiveSince(tr, ls, b) && tr[|ls|].pc == Waiting
    requires b <= c < |ls| && Starts(tr, ls, c)
    ensures RestartMissed(tr, ls, b)
  {
    hide Next, LoopInv;
    RunStep(tr, ls, b);
    SpawnStep(tr[b], ls[b]);
    var r := SeenSince(tr, ls, b);
    var l := LastLeave(tr, ls, r, c);
    forall q | l <= q <= c
      ensures !ls[q].Read?
    {
      if l < q { NoReadBetween(tr, ls, b, r, q); }
    }
    assert MissedRestart(tr, ls, b, l, c);
  }

  /** Main result, for every run: a pipeline that is live at the loop head belongs
      to an earlier run exactly when, behind its Spawn, the component was started
      again after leaving Running with no Read in between. That such a restart
      begins another run is counting; the content is `StartMissed`, that every Start
      behind a Spawn whose pipeline survives is a restart the loop has missed. */
  lemma StaleIff(tr: seq<State>, ls: seq<Label>, b: nat)
    requires IsRun(tr, ls) && LiveSince(tr, ls, b) && tr[|ls|].pc == Waiting
    ensures RunsStarted(tr, ls, b) != RunsStarted(tr, ls, |ls|) <==> RestartMissed(tr, ls, b)
  {
    hide IsRun, LiveSince, Next;
    if RunsStarted(tr, ls, b) != RunsStarted(tr, ls, |ls|) {
      assert b <= |ls| by { BeforeEnd(tr, ls, b); }
      var c := CountedStart(tr, ls, b, |ls|);
      StartMissed(tr, ls, b, c);
    }
    if l: nat, c: nat :| MissedRestart(tr, ls, b, l, c) {
      BeforeEnd(tr, ls, b);
      StartCounts(tr, ls, b, c, |ls|);
    }
  }

  lemma BeforeEnd(tr: seq<State>, ls: seq<Label>, b: nat)
    requires LiveSince(tr, ls, b)
    ensures b < |ls|
  {
  }

  /** Without a Start a Running component has been Running, with the same number. */
  lemma {:induction false} RunningThroughout(tr: seq<State>, ls: seq<Label>, b: nat, n: nat)
    requires IsRun(tr, ls) && b <= n < |tr| && tr[n].ctl.state == Running
    requires RunsStarted(tr, ls, b) == RunsStarted(tr, ls, n)
    ensures tr[b].ctl.state == Running && tr[b].ctl.runConfig == tr[n].ctl.runConfig
    decreases n
  {
    hide Next, LoopInv;
    if b == n {
    } else {
      RunStep(tr, ls, n - 1);
      StateStep(tr[n - 1], ls[n - 1]);
      StartCounts(tr, ls, b, n - 1, n);
      StartCounts(tr, ls, b, b, n - 1);
      RunningThroughout(tr, ls, b, n - 1);
    }
  }

  /** No Start behind the Spawn reuses the run number that was in force there. */
  ghost predicate NumbersFresh(tr: seq<State>, ls: seq<Label>, b: nat)
    requires b < |tr|
  {
    forall c :: b < c && Starts(tr, ls, c) ==> tr[c].hooked.value.runNumber != RunNumberOr0(tr[b].ctl)
  }

  /** Main result: with no notification pending, the run number of a live pipeline
      is the current one if no restart was missed, and a restart under another
      number makes it a wrong one. */
  lemma RightRun(tr: seq<State>, ls: seq<Label>, b: nat)
    requires IsRun(tr, ls) && LiveSince(tr, ls, b) && tr[|ls|].pc == Waiting
    requires tr[|ls|].rxSeen == tr[|ls|].ctl.watch.version
    ensures tr[|ls|].d.thread == Some(RunNumberOr0(tr[b].ctl))
    ensures !RestartMissed(tr, ls, b) ==> tr[|ls|].d.thread == RunNumber(tr[|ls|].ctl)
    ensures NumbersFresh(tr, ls, b) ==> (tr[|ls|].d.thread == RunNumber(tr[|ls|].ctl) <==> !RestartMissed(tr, ls, b))
  {
    hide Next, LoopInv, RestartMissed, Starts;
    var n := |ls|;
    SameThread(tr, ls, b, n);
    StaleIff(tr, ls, b);
    AtLoopHead(ls, n);
    NotIdle(tr, ls);
    if RunsStarted(tr, ls, b) == RunsStarted(tr, ls, n) {
      RunningThroughout(tr, ls, b, n);
    } else {
      LastNumber(tr, ls, b, n);
    }
  }

  lemma NotIdle(tr: seq<State>, ls: seq<Label>)
    requires IsRun(tr, ls)
    ensures tr[|ls|].ctl.state == Running ==> RunNumber(tr[|ls|].ctl) == Some(RunNumberOr0(tr[|ls|].ctl))
  {
    hide Exec;
    Reachable(ls, |ls|);
  }

  lemma StartStep(s: State, l: Label)
    requires LoopInv(s) && Next(s, l).Some? && s.ctl.state != Running && Next(s, l).value.ctl.state == Running
    ensures RunNumberOr0(Next(s, l).value.ctl) == s.hooked.value.runNumber
  {
  }

  /** A Running component carries the number of the Start that began its run. */
  lemma {:induction false} LastNumber(tr: seq<State>, ls: seq<Label>, b: nat, n: nat)
    requires IsRun(tr, ls) && LiveSince(tr, ls, b) && b < n < |tr| && tr[n].ctl.state == Running
    requires RunsStarted(tr, ls, b) != RunsStarted(tr, ls, n)
    ensures NumbersFresh(tr, ls, b) ==> RunNumberOr0(tr[n].ctl) != RunNumberOr0(tr[b].ctl)
    decreases n
  {
    hide Next, LoopInv;
    RunStep(tr, ls, n - 1);
    StateStep(tr[n - 1], ls[n - 1]);
    if tr[n - 1].ctl.state == Running {
      LastNumber(tr, ls, b, n - 1);
    } else {
      StartStep(tr[n - 1], ls[n - 1]);
      assert Starts(tr, ls, n - 1);
    }
  }

  // ---- When a pipeline begins and ends ----

  /** The last state read before label `i` is `v`. */
  ghost predicate LastRead(tr: seq<State>, ls: seq<Label>, i: nat, v: CState) {
    exists r: nat :: ReadAt(tr, ls, r, i, v)
  }

  ghost predicate ReadAt(tr: seq<State>, ls: seq<Label>, r: nat, i: nat, v: CState) {
    && r < i <= |ls| && i < |tr| && ls[r].Read? && tr[r].ctl.watch.value == v
    && forall q :: r < q < i ==> !ls[q].Read?
  }

  function Observed(s: State): (v: Option<CState>) {
    if s.pc.Seen? || s.pc.Leaving? then Some(s.pc.newState) else None
  }

  lemma ObservedStep(s: State, l: Label)
    requires Next(s, l).Some? && Observed(Next(s, l).value).Some?
    ensures if l.Read? then Observed(Next(s, l).value) == Some(s.ctl.watch.value)
            else Observed(Next(s, l).value) == Observed(s)
  {
  }

  /** The state that the loop acts on is the one it has read last. */
  lemma {:induction false} ObservedRead(tr: seq<State>, ls: seq<Label>, i: nat) returns (r: nat)
    requires IsRun(tr, ls) && i <= |ls| && Observed(tr[i]).Some?
    ensures ReadAt(tr, ls, r, i, Observed(tr[i]).value)
    decreases i
  {
    hide Next, LoopInv, Observed;
    if i == 0 {
      RunStart(tr, ls);
      NothingObserved();
    } else {
      RunStep(tr, ls, i - 1);
      ObservedStep(tr[i - 1], ls[i - 1]);
      if ls[i - 1].Read? {
        r := i - 1;
      } else {
        r := ObservedRead(tr, ls, i - 1);
      }
    }
  }

  lemma NothingObserved()
    ensures Observed(Init()).None?
  {
  }

  lemma ReadUnique(tr: seq<State>, ls: seq<Label>, i: nat, v: CState, r: nat)
    requires ReadAt(tr, ls, r, i, v)
    ensures forall w :: LastRead(tr, ls, i, w) <==> w == v
  {
    assert LastRead(tr, ls, i, v);
    forall w | LastRead(tr, ls, i, w)
      ensures w == v
    {
      var q: nat :| ReadAt(tr, ls, q, i, w);
      assert q == r;
    }
  }

  lemma EndStep(s: State, l: Label)
    requires LoopInv(s) && Next(s, l).Some? && s.d.thread.Some?
    ensures Next(s, l).value.d.thread.None? <==>
            l == Tick(true) || l.Quit? || (l.Leave? && Observed(s).Some? && Observed(s).value != Running)
    ensures l.Leave? ==> Observed(s).Some?
  {
  }

  lemma BeginStep(s: State, l: Label)
    requires LoopInv(s) && Next(s, l).Some? && s.d.thread.None?
    ensures Next(s, l).value.d.thread.Some? <==> l == Spawn(true, true) && Observed(s) == Some(Running)
    ensures l.Spawn? ==> Observed(s).Some?
  {
  }

  /** Main result, for every run: a pipeline ends exactly when a tick finds it
      finished, when the loop leaves behind a state other than Running that it has
      read, or at the shutdown. */
  lemma ThreadEndsIff(tr: seq<State>, ls: seq<Label>, i: nat)
    requires IsRun(tr, ls) && i < |ls| && tr[i].d.thread.Some?
    ensures tr[i + 1].d.thread.None? <==>
            || ls[i] == Tick(true)
            || ls[i].Quit?
            || (ls[i].Leave? && !LastRead(tr, ls, i, Running))
  {
    hide Next, LoopInv, LastRead;
    RunStep(tr, ls, i);
    EndStep(tr[i], ls[i]);
    if ls[i].Leave? {
      var r := ObservedRead(tr, ls, i);
      ReadUnique(tr, ls, i, Observed(tr[i]).value, r);
    }
  }

  /** It begins exactly at a Spawn that succeeds behind a read of Running. */
  lemma ThreadBeginsIff(tr: seq<State>, ls: seq<Label>, i: nat)
    requires IsRun(tr, ls) && i < |ls| && tr[i].d.thread.None?
    ensures tr[i + 1].d.thread.Some? <==> ls[i] == Spawn(true, true) && LastRead(tr, ls, i, Running)
  {
    hide Next, LoopInv, LastRead;
    RunStep(tr, ls, i);
    BeginStep(tr[i], ls[i]);
    if ls[i].Spawn? {
      var r := ObservedRead(tr, ls, i);
      ReadUnique(tr, ls, i, Observed(tr[i]).value, r);
    }
  }

  /** A pipeline that never finishes stays, with its number, as long as every state
      read is Running and nobody shuts the loop down. */
  lemma {:induction false} HealthySurvives(tr: seq<State>, ls: seq<Label>, b: nat, n: nat)
    requires IsRun(tr, ls) && b < n <= |ls| && tr[b].d.thread.None? && tr[b + 1].d.thread.Some?
    requires forall j :: b < j < n ==> ls[j] != Tick(true) && !ls[j].Quit?
    requires forall j :: b < j < n && ls[j].Read? ==> tr[j].ctl.watch.value == Running
    ensures tr[n].d.thread == Some(RunNumberOr0(tr[b].ctl))
    decreases n
  {
    hide Next, LoopInv, LastRead;
    RunStep(tr, ls, n - 1);
    if n == b + 1 {
      SpawnStep(tr[b], ls[b]);
    } else {
      HealthySurvives(tr, ls, b, n - 1);
      ThreadEndsIff(tr, ls, n - 1);
      if ls[n - 1].Leave? {
        EndStep(tr[n - 1], ls[n - 1]);
        var r := ObservedRead(tr, ls, n - 1);
        ReadUnique(tr, ls, n - 1, Observed(tr[n - 1]).value, r);
        if r <= b { SpawnRead(tr, ls, b, n - 1, r); }
      }
      ThreadStep(tr[n - 1], ls[n - 1]);
    }
  }

  /** A read that is the last one before `n` and before the Spawn was of Running. */
  lemma SpawnRead(tr: seq<State>, ls: seq<Label>, b: nat, n: nat, r: nat)
    requires IsRun(tr, ls) && r <= b < n <= |ls| && tr[b].d.thread.None? && tr[b + 1].d.thread.Some?
    requires ReadAt(tr, ls, r, n, tr[r].ctl.watch.value)
    ensures tr[r].ctl.watch.value == Running
  {
    hide Next, LoopInv, LastRead;
    ThreadBeginsIff(tr, ls, b);
    ReadUnique(tr, ls, b, tr[r].ctl.watch.value, r);
  }

  ghost predicate ShutdownBefore(ls: seq<Label>, n: nat)
    requires n <= |ls|
  {
    exists i :: 0 <= i < n && ls[i].Shutdown?
  }

  lemma ShutdownStep(s: State, l: Label)
    requires Next(s, l).Some?
    ensures Next(s, l).value.shutdown <==> s.shutdown || l.Shutdown?
  {
  }

  lemma {:induction false} ShutdownSeen(tr: seq<State>, ls: seq<Label>, n: nat)
    requires IsRun(tr, ls) && n <= |ls|
    ensures tr[n].shutdown <==> ShutdownBefore(ls, n)
    decreases n
  {
    hide Next, LoopInv;
    if n == 0 {
      RunStart(tr, ls);
    } else {
      ShutdownSeen(tr, ls, n - 1);
      RunStep(tr, ls, n - 1);
      ShutdownStep(tr[n - 1], ls[n - 1]);
    }
  }

  /** A notification is pending: the component changed since the loop was woken last. */
  predicate Pending(s: State) { s.ctl.watch.version != s.rxSeen }

  /** Main result, for every run: at the loop head a shutdown that has arrived is the
      only branch that can be taken, and ends the loop; without one the tick can, and the state branch
      exactly when a notification is pending. Inside the state branch the loop is held
      up only by a command that has the lock while it wants the run number. */
  lemma BranchesPossible(tr: seq<State>, ls: seq<Label>, n: nat)
    requires IsRun(tr, ls) && n <= |ls|
    ensures tr[n].pc == Waiting ==>
              && (Next(tr[n], Quit).Some? <==> ShutdownBefore(ls, n))
              && (Next(tr[n], Wake).Some? <==> !ShutdownBefore(ls, n) && Pending(tr[n]))
              && (forall f :: Next(tr[n], Tick(f)).Some? <==> !ShutdownBefore(ls, n))
    ensures tr[n].pc == Waiting && Next(tr[n], Quit).Some? ==> Next(tr[n], Quit).value.pc == Stopped
    ensures tr[n].pc == Stopped ==> Next(tr[n], Read).None? && Next(tr[n], Leave).None? && !tr[n].pc.Seen?
    ensures tr[n].pc == Woken ==> Next(tr[n], Read).Some?
    ensures tr[n].pc.Leaving? ==> Next(tr[n], Leave).Some?
    ensures forall b, w :: tr[n].pc.Seen? ==>
              (Next(tr[n], Spawn(b, w)).None? <==>
                tr[n].hooked.Some? && tr[n].d.thread.None? && tr[n].pc.newState == Running)
    ensures tr[n].pc != Waiting ==>
              Next(tr[n], Quit).None? && Next(tr[n], Wake).None? && forall f :: Next(tr[n], Tick(f)).None?
  {
    hide LoopInv, Exec;
    ShutdownSeen(tr, ls, n);
    forall b, w
      ensures tr[n].pc.Seen? ==>
                (Next(tr[n], Spawn(b, w)).None? <==>
                  tr[n].hooked.Some? && tr[n].d.thread.None? && tr[n].pc.newState == Running)
    {
      if tr[n].pc.Seen? { SpawnPossible(tr[n], b, w); }
    }
  }

  lemma SpawnPossible(s: State, b: bool, w: bool)
    requires s.pc.Seen?
    ensures Next(s, Spawn(b, w)).None? <==> s.hooked.Some? && s.d.thread.None? && s.pc.newState == Running
  {
  }

  // ---- Runs the loop does not notice ----

  lemma ExecNext(ls: seq<Label>, n: nat, s: State)
    requires n < |ls| && Exec(ls, n) == Some(s)
    ensures Exec(ls, n + 1) == Next(s, ls[n])
  {
  }

  lemma ExecZero(ls: seq<Label>)
    ensures Exec(ls, 0) == Some(Init())
  {
  }

  /** Run 1 is configured, armed and started, and the loop reads it. */
  function StartOne(): (ls: seq<Label>)
    ensures |ls| == 8
  {
    [Hook(Configure(RunConfig(0, "", ""))), Commit, Hook(Arm), Commit, Hook(Start(1)), Commit, Wake, Read]
  }

  /** The first three commands are through; the loop has not moved. */
  function FirstStart(): (s: State) {
    State(Control(Running, Some(RunConfig(1, "", "")), Watch(Running, 3, 1)), None, false,
          Waiting, 0, 0, Driver(None, false, Idle, 0, 0))
  }

  function FirstSeen(): (s: State) { FirstStart().(pc := Seen(Running), rxSeen := 3, seenAt := 3) }

  lemma FirstStartReached(rest: seq<Label>)
    ensures Exec(StartOne() + rest, 6) == Some(FirstStart())
  {
    hide Exec;
    var ls := StartOne() + rest;
    ExecZero(ls);
    ExecNext(ls, 0, Init());
    var s1 := Next(Init(), ls[0]).value;
    ExecNext(ls, 1, s1);
    var s2 := Next(s1, ls[1]).value;
    ExecNext(ls, 2, s2);
    var s3 := Next(s2, ls[2]).value;
    ExecNext(ls, 3, s3);
    var s4 := Next(s3, ls[3]).value;
    ExecNext(ls, 4, s4);
    var s5 := Next(s4, ls[4]).value;
    ExecNext(ls, 5, s5);
  }

  lemma FirstSeenReached(rest: seq<Label>)
    ensures Exec(StartOne() + rest, 8) == Some(FirstSeen())
  {
    hide Exec;
    var ls := StartOne() + rest;
    FirstStartReached(rest);
    ExecNext(ls, 6, FirstStart());
    var s7 := Next(FirstStart(), ls[6]).value;
    ExecNext(ls, 7, s7);
  }

  /** Six possible labels in a row. */
  lemma ExecSix(ls: seq<Label>, n: nat, s: State, r: State)
    requires n + 6 <= |ls| && Exec(ls, n) == Some(s) && SixSteps(ls[n..n + 6], s) == Some(r)
    ensures Exec(ls, n + 6) == Some(r)
  {
    hide Exec, Next;
    var six := ls[n..n + 6];
    assert forall i :: 0 <= i < 6 ==> six[i] == ls[n + i];
    ExecNext(ls, n, s);
    var s1 := Next(s, six[0]).value;
    ExecNext(ls, n + 1, s1);
    var s2 := Next(s1, six[1]).value;
    ExecNext(ls, n + 2, s2);
    var s3 := Next(s2, six[2]).value;
    ExecNext(ls, n + 3, s3);
    var s4 := Next(s3, six[3]).value;
    ExecNext(ls, n + 4, s4);
    var s5 := Next(s4, six[4]).value;
    ExecNext(ls, n + 5, s5);
  }

  function SixSteps(six: seq<Label>, s: State): (r: Option<State>)
    requires |six| == 6
  {
    var s1 :- Next(s, six[0]);
    var s2 :- Next(s1, six[1]);
    var s3 :- Next(s2, six[2]);
    var s4 :- Next(s3, six[3]);
    var s5 :- Next(s4, six[4]);
    Next(s5, six[5])
  }

  function Restart(): (ls: seq<Label>)
    ensures |ls| == 6
  {
    [Hook(Start(2)), Commit, Wake, Read, Spawn(true, true), Leave]
  }

  /** The component is armed again; the loop, last woken for run 1, has a pipeline numbered `n`. */
  function ArmedAgain(n: nat): (s: State) {
    State(Control(Armed, Some(RunConfig(n, "", "")), Watch(Armed, 5, 1)), None, false,
          Waiting, 3, 3, Driver(Some(n), true, Running, 1, 0))
  }

  /** Run 2 is going, nothing is pending, and the pipeline is still the one numbered `n`. */
  function Settled(n: nat): (s: State) {
    State(Control(Running, Some(RunConfig(2, "", "")), Watch(Running, 6, 1)), None, false,
          Waiting, 6, 6, Driver(Some(n), true, Running, 1, 0))
  }

  lemma StartedAgain(n: nat)
    ensures SixSteps(Restart(), ArmedAgain(n)) == Some(Settled(n))
  {
  }

  lemma StoppedAndArmed()
    ensures SixSteps(SecondStart()[..6], FirstSeen()) == Some(ArmedAgain(1))
  {
  }

  lemma ConfiguredAndArmed()
    ensures SixSteps(NumberedBetween()[..6], FirstSeen()) == Some(ArmedAgain(9))
  {
  }

  /** Run 1 is stopped and run 2 started before the loop is woken again. */
  function SecondStart(): (ls: seq<Label>)
    ensures |ls| == 12
  {
    [Spawn(true, true), Leave, Hook(Stop), Commit, Hook(Arm), Commit] + Restart()
  }

  /** "The live pipeline belongs to the current run" is false of the code: a Stop,
      Arm and Start that all happen between two wake-ups look like no change, and
      the pipeline of run 1 goes on while the component is in run 2. */
  lemma StaleRun()
    ensures var s := Exec(StartOne() + SecondStart(), 20);
            && s.Some? && s.value.pc == Waiting && s.value.rxSeen == s.value.ctl.watch.version
            && s.value.ctl.state == Running && RunNumber(s.value.ctl) == Some(2)
            && s.value.d.thread == Some(1) && s.value.d.spawned == 1
  {
    hide Exec, SixSteps;
    var ls := StartOne() + SecondStart();
    FirstSeenReached(SecondStart());
    assert ls[8..14] == SecondStart()[..6] && ls[14..20] == Restart();
    StoppedAndArmed();
    ExecSix(ls, 8, FirstSeen(), ArmedAgain(1));
    StartedAgain(1);
    ExecSix(ls, 14, ArmedAgain(1), Settled(1));
  }

  /** Between the Read and the Spawn the component is configured for run 9; then run 2 starts. */
  function NumberedBetween(): (ls: seq<Label>)
    ensures |ls| == 12
  {
    [Hook(Configure(RunConfig(9, "", ""))), Commit, Spawn(true, true), Leave, Hook(Arm), Commit] + Restart()
  }

  /** The number of the live pipeline need not even be that of a run: the loop reads
      it behind the state, and may find the number of a run that is never started. */
  lemma NeverStartedRun()
    ensures var s := Exec(StartOne() + NumberedBetween(), 20);
            && s.Some? && s.value.pc == Waiting && s.value.rxSeen == s.value.ctl.watch.version
            && s.value.ctl.state == Running && RunNumber(s.value.ctl) == Some(2) && s.value.d.thread == Some(9)
  {
    hide Exec, SixSteps;
    var ls := StartOne() + NumberedBetween();
    FirstSeenReached(NumberedBetween());
    assert ls[8..14] == NumberedBetween()[..6] && ls[14..20] == Restart();
    ConfiguredAndArmed();
    ExecSix(ls, 8, FirstSeen(), ArmedAgain(9));
    StartedAgain(9);
    ExecSix(ls, 14, ArmedAgain(9), Settled(9));
  }
}
