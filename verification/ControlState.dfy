/** `src/common/command.rs` and `src/common/state.rs`: the component state
    machine, its command handler and the watch channel it publishes on. */
module ControlState {
  import opened Bytes

  datatype CState = Idle | Configured | Armed | Running | Error

  predicate CanTransition(from: CState, to: CState) {
    match (from, to)
    case (Idle, Configured) => true
    case (Configured, Armed) => true
    case (Armed, Running) => true
    case (Running, Configured) => true
    case (Configured, Idle) => true
    case (Armed, Idle) => true
    case (Running, Idle) => true
    case (Error, Idle) => true
    case (Configured, Error) => true
    case (Armed, Error) => true
    case (Running, Error) => true
    case _ => false
  }

  /** The next state on the way to a run. */
  function Successor(s: CState): (t: CState) {
    match s
    case Idle => Configured
    case Configured => Armed
    case Armed => Running
    case Running => Configured
    case Error => Idle
  }

  /** Every state leads to its successor, to Idle and, if it is not Idle, to Error; nothing
      else is a transition, in particular none to the same state. */
  lemma Transitions(from: CState, to: CState)
    ensures CanTransition(from, to) <==> from != to && (to == Successor(from) || (from != Idle && to in {Idle, Error}))
  {
  }

  datatype RunConfig = RunConfig(runNumber: nat, comment: string, expName: string)

  datatype Command =
    | Configure(config: RunConfig)
    | Arm
    | Start(runNumber: nat)
    | Stop
    | Reset
    | GetStatus
    | UpdateEmulatorConfig
    | Detect
    | ApplyDigitizerConfig
    | RegisterChannels
    | ReadAmaxBoardRegisters

  /** The component's extension: absent, or its hook lets the command pass or not. */
  datatype Hook = NoExt | Accept | Refuse

  datatype Response = Response(success: bool, state: CState, runNumber: Option<nat>)

  /** A `tokio::sync::watch` channel: `send` stores and counts only while a
      receiver exists. */
  datatype Watch = Watch(value: CState, version: nat, receivers: nat)

  function Send(w: Watch, v: CState): (r: Watch) {
    if w.receivers == 0 then w else w.(value := v, version := w.version + 1)
  }

  datatype Control = Control(state: CState, runConfig: Option<RunConfig>, watch: Watch)

  function RunNumber(c: Control): (r: Option<nat>) {
    if c.runConfig.Some? then Some(c.runConfig.value.runNumber) else None
  }

  function RunNumberOr0(c: Control): (r: nat) {
    if c.runConfig.Some? then c.runConfig.value.runNumber else 0
  }

  // ---- The handler as a function ----

  function Enter(c: Control, s: CState): (r: Control) {
    c.(state := s, watch := Send(c.watch, s))
  }

  function Renumber(c: Control, run: nat): (r: Control) {
    if c.runConfig.Some? then c.(runConfig := Some(c.runConfig.value.(runNumber := run))) else c
  }

  function Refused(c: Control): (r: Response) { Response(false, c.state, None) }

  function Handle(c: Control, cmd: Command, hook: Hook): (r: (Control, Response)) {
    match cmd
    case Configure(config) =>
      if !CanTransition(c.state, Configured) || hook.Refuse? then (c, Refused(c))
      else (Enter(c.(runConfig := Some(config)), Configured), Response(true, Configured, Some(config.runNumber)))
    case Arm =>
      if !CanTransition(c.state, Armed) || hook.Refuse? then (c, Refused(c))
      else (Enter(c, Armed), Response(true, Armed, Some(RunNumberOr0(c))))
    case Start(run) =>
      if !CanTransition(c.state, Running) then (c, Refused(c))
      else
        var c1 := Renumber(c, run);
        if hook.Refuse? then (c1, Refused(c))
        else (Enter(c1, Running), Response(true, Running, Some(run)))
    case Stop =>
      if c.state != Running || hook.Refuse? then (c, Refused(c))
      else (Enter(c, Configured), Response(true, Configured, Some(RunNumberOr0(c))))
    case Reset =>
      if hook.Refuse? then (c, Refused(c))
      else (Enter(c.(runConfig := None), Idle), Response(true, Idle, None))
    case GetStatus => (c, Response(true, c.state, RunNumber(c)))
    case Detect =>
      (c, Response(c.state in {Idle, Configured} && hook.Accept?, c.state, None))
    case ApplyDigitizerConfig =>
      (c, Response(c.state in {Idle, Configured, Running} && hook.Accept?, c.state, None))
    case RegisterChannels => (c, Refused(c))
    case UpdateEmulatorConfig => (c, Response(hook.Accept?, c.state, None))
    case ReadAmaxBoardRegisters => (c, Response(hook.Accept?, c.state, None))
  }

  // ---- The handler as it is written ----

  class WatchSender {
    var value: CState
    var version: nat
    var receivers: nat

    constructor (initial: CState)
      ensures value == initial && version == 0 && receivers == 1
    {
      value, version, receivers := initial, 0, 1;
    }

    method SendState(v: CState)
      modifies this
      ensures Watch(value, version, receivers) == Send(old(Watch(value, version, receivers)), v)
    {
      if receivers > 0 {
        value, version := v, version + 1;
      }
    }
  }

  class ComponentSharedState {
    var state: CState
    var runConfig: Option<RunConfig>

    constructor ()
      ensures state == Idle && runConfig == None
    {
      state, runConfig := Idle, None;
    }
  }

  function View(s: ComponentSharedState, tx: WatchSender): (c: Control)
    reads s, tx
  {
    Control(s.state, s.runConfig, Watch(tx.value, tx.version, tx.receivers))
  }

  method HandleCommand(s: ComponentSharedState, tx: WatchSender, cmd: Command, hook: Hook) returns (resp: Response)
    modifies s, tx
    ensures (View(s, tx), resp) == Handle(old(View(s, tx)), cmd, hook)
  {
    var current := s.state;
    match cmd
    case Configure(config) =>
      if !CanTransition(current, Configured) { return Response(false, current, None); }
      if hook == Refuse { return Response(false, current, None); }
      s.runConfig := Some(config);
      s.state := Configured;
      tx.SendState(Configured);
      resp := Response(true, Configured, Some(config.runNumber));
    case Arm =>
      if !CanTransition(current, Armed) { return Response(false, current, None); }
      if hook == Refuse { return Response(false, current, None); }
      s.state := Armed;
      tx.SendState(Armed);
      resp := Response(true, Armed, Some(if s.runConfig.Some? then s.runConfig.value.runNumber else 0));
    case Start(run) =>
      if !CanTransition(current, Running) { return Response(false, current, None); }
      if s.runConfig.Some? {
        s.runConfig := Some(s.runConfig.value.(runNumber := run));
      }
      if hook == Refuse { return Response(false, current, None); }
      s.state := Running;
      tx.SendState(Running);
      resp := Response(true, Running, Some(run));
    case Stop =>
      if current != Running { return Response(false, current, None); }
      if hook == Refuse { return Response(false, current, None); }
      s.state := Configured;
      tx.SendState(Configured);
      resp := Response(true, Configured, Some(if s.runConfig.Some? then s.runConfig.value.runNumber else 0));
    case Reset =>
      if hook == Refuse { return Response(false, current, None); }
      s.state := Idle;
      s.runConfig := None;
      tx.SendState(Idle);
      resp := Response(true, Idle, None);
    case GetStatus =>
      resp := Response(true, s.state, if s.runConfig.Some? then Some(s.runConfig.value.runNumber) else None);
    case Detect =>
      if current != Idle && current != Configured { return Response(false, current, None); }
      resp := Response(hook == Accept, current, None);
    case ApplyDigitizerConfig =>
      if current == Idle || current == Configured || current == Running {
        resp := Response(hook == Accept, current, None);
      } else {
        resp := Response(false, current, None);
      }
    case RegisterChannels => resp := Response(false, current, None);
    case UpdateEmulatorConfig => resp := Response(hook == Accept, current, None);
    case ReadAmaxBoardRegisters => resp := Response(hook == Accept, current, None);
  }

  // ---- Runs ----

  /** One thing that happens to a component: a command, or the last receiver goes away. */
  datatype Happening = Got(cmd: Command, hook: Hook) | ReceiversGone

  const FRESH := Control(Idle, None, Watch(Idle, 0, 1))

  function Apply(c: Control, h: Happening): (r: Control) {
    match h
    case Got(cmd, hook) => Handle(c, cmd, hook).0
    case ReceiversGone => c.(watch := c.watch.(receivers := 0))
  }

  predicate Accepted(c: Control, h: Happening) {
    h.Got? && Handle(c, h.cmd, h.hook).1.success
  }

  /** The component after the first `n` happenings of `hs`. */
  function After(hs: seq<Happening>, n: nat): (c: Control)
    requires n <= |hs|
  {
    if n == 0 then FRESH else Apply(After(hs, n - 1), hs[n - 1])
  }

  predicate Inv(c: Control) {
    && (c.state == Idle <==> c.runConfig.None?)
    && c.state != Error
    && (c.watch.receivers > 0 ==> c.watch.value == c.state)
  }

  /** In every run: Idle exactly when nothing is configured, Error never, and the
      watched value is the state as long as somebody watches. */
  lemma {:induction false} AlwaysInv(hs: seq<Happening>, n: nat)
    requires n <= |hs|
    ensures Inv(After(hs, n))
  {
    if n == 0 {
    } else {
      AlwaysInv(hs, n - 1);
    }
  }

  /** `k` is the last happening before `n` of kind `Start`, accepted, and the
      component has been Running ever since. */
  ghost predicate RunningSince(hs: seq<Happening>, n: nat, k: nat)
    requires n <= |hs|
  {
    && k < n && Accepted(After(hs, k), hs[k]) && hs[k].cmd.Start?
    && forall j :: k < j <= n ==> After(hs, j).state == Running
  }

  ghost predicate ArmedSince(hs: seq<Happening>, n: nat, k: nat)
    requires n <= |hs|
  {
    && k < n && Accepted(After(hs, k), hs[k]) && hs[k].cmd.Arm?
    && forall j :: k < j <= n ==> After(hs, j).state == Armed
  }

  ghost predicate ConfiguredSince(hs: seq<Happening>, n: nat, k: nat)
    requires n <= |hs|
  {
    && k < n && Accepted(After(hs, k), hs[k]) && hs[k].cmd.Configure?
    && forall j :: k < j <= n ==> After(hs, j).state != Idle
  }

  lemma {:induction false} NonIdleHistory(hs: seq<Happening>, n: nat) returns (c: nat)
    requires n <= |hs| && After(hs, n).state != Idle
    ensures ConfiguredSince(hs, n, c)
  {
    AlwaysInv(hs, n - 1);
    if After(hs, n - 1).state == Idle {
      c := n - 1;
    } else {
      c := NonIdleHistory(hs, n - 1);
    }
  }

  lemma {:induction false} ArmedHistory(hs: seq<Happening>, n: nat) returns (a: nat)
    requires n <= |hs| && After(hs, n).state == Armed
    ensures ArmedSince(hs, n, a) && After(hs, a).state == Configured
  {
    AlwaysInv(hs, n - 1);
    if After(hs, n - 1).state == Armed {
      a := ArmedHistory(hs, n - 1);
    } else {
      a := n - 1;
    }
  }

  lemma {:induction false} StartHistory(hs: seq<Happening>, n: nat) returns (s: nat)
    requires n <= |hs| && After(hs, n).state == Running
    ensures RunningSince(hs, n, s) && After(hs, s).state == Armed
  {
    AlwaysInv(hs, n - 1);
    if After(hs, n - 1).state == Running {
      s := StartHistory(hs, n - 1);
    } else {
      s := n - 1;
    }
  }

  /** A component that is Running was configured, then armed, then started, in
      that order; it was never Idle since the first, Armed from the second to the
      third and Running since the third. */
  lemma RunningHistory(hs: seq<Happening>, n: nat) returns (c: nat, a: nat, s: nat)
    requires n <= |hs| && After(hs, n).state == Running
    ensures c < a < s < n
    ensures ConfiguredSince(hs, n, c) && ArmedSince(hs, s, a) && RunningSince(hs, n, s)
  {
    s := StartHistory(hs, n);
    a := ArmedHistory(hs, s);
    c := NonIdleHistory(hs, a);
    forall j | c < j <= n
      ensures After(hs, j).state != Idle
    {
    }
  }

  /** A step leaves Running only when Stop, Reset or Configure is accepted in it. */
  lemma LeavesRunning(c: Control, h: Happening)
    requires c.state == Running
    ensures Apply(c, h).state != Running <==>
            Accepted(c, h) && (h.cmd.Stop? || h.cmd.Reset? || h.cmd.Configure?)
  {
  }

  /** A rejected command changes the component exactly when it is a Start that an
      Armed component's own hook refuses, with a run number other than the
      current one; and then only the run number changes. */
  lemma RejectedChanges(c: Control, cmd: Command, hook: Hook)
    requires Inv(c) && !Handle(c, cmd, hook).1.success
    ensures Handle(c, cmd, hook).0 != c <==>
            cmd.Start? && hook.Refuse? && c.state == Armed && RunNumber(c) != Some(cmd.runNumber)
    ensures Handle(c, cmd, hook).0 != c ==> Handle(c, cmd, hook).0 == Renumber(c, cmd.runNumber)
  {
    if cmd.Start? && c.runConfig.Some? {
      var cfg := c.runConfig.value;
      assert cfg.(runNumber := cfg.runNumber) == cfg;
    }
  }

  /** Configured for run 0 and armed, then a Start whose hook fails. */
  function RefusedStart(run: nat): (hs: seq<Happening>)
    ensures |hs| == 3
  {
    [Got(Configure(RunConfig(0, "", "")), Accept), Got(Arm, Accept), Got(Start(run), Refuse)]
  }

  /** "A rejected command changes nothing" is false of the code: the refused Start
      leaves its run number behind. */
  lemma RefusedStartRenumbers(run: nat)
    ensures var hs := RefusedStart(run);
            && After(hs, 2).state == Armed && RunNumber(After(hs, 2)) == Some(0)
            && !Accepted(After(hs, 2), hs[2])
            && After(hs, 3).state == Armed && RunNumber(After(hs, 3)) == Some(run)
  {
    var hs := RefusedStart(run);
    assert After(hs, 0) == FRESH;
    assert After(hs, 1) == Control(Configured, Some(RunConfig(0, "", "")), Watch(Configured, 1, 1));
    assert After(hs, 2) == Control(Armed, Some(RunConfig(0, "", "")), Watch(Armed, 2, 1));
  }

  // ---- What the component holds and answers ----

  predicate Configures(hs: seq<Happening>, k: nat) {
    k < |hs| && Accepted(After(hs, k), hs[k]) && hs[k].cmd.Configure?
  }

  /** A Start that reaches an Armed component passes the gate, whatever its hook says. */
  predicate PassesGate(hs: seq<Happening>, k: nat) {
    k < |hs| && hs[k].Got? && hs[k].cmd.Start? && After(hs, k).state == Armed
  }

  /** `c` is the last accepted Configure among the first `n` happenings. */
  ghost predicate LastConfigure(hs: seq<Happening>, n: nat, c: nat) {
    c < n <= |hs| && Configures(hs, c) && forall j :: c < j < n ==> !Configures(hs, j)
  }

  /** `k` is the last Start that passed the gate behind `c`. */
  ghost predicate LastGate(hs: seq<Happening>, n: nat, c: nat, k: nat) {
    c < k < n <= |hs| && PassesGate(hs, k) && forall j :: k < j < n ==> !PassesGate(hs, j)
  }

  /** `run` is the number that the Configure at `c` and the Starts behind it leave. */
  ghost predicate NumberOf(hs: seq<Happening>, n: nat, c: nat, run: nat)
    requires c < n <= |hs| && hs[c].Got? && hs[c].cmd.Configure?
  {
    && (forall k: nat :: LastGate(hs, n, c, k) ==> run == hs[k].cmd.runNumber)
    && ((forall k: nat :: c < k < n ==> !PassesGate(hs, k)) ==> run == hs[c].cmd.config.runNumber)
  }

  /** What one happening does to the configuration. */
  lemma ConfigStep(hs: seq<Happening>, n: nat)
    requires n < |hs| && Inv(After(hs, n)) && After(hs, n + 1).state != Idle
    ensures var before, after := After(hs, n).runConfig, After(hs, n + 1).runConfig;
            && (Configures(hs, n) ==> after == Some(hs[n].cmd.config))
            && (!Configures(hs, n) ==>
                  && before.Some? && after.Some? && After(hs, n).state != Idle
                  && after.value.comment == before.value.comment && after.value.expName == before.value.expName
                  && after.value.runNumber == if PassesGate(hs, n) then hs[n].cmd.runNumber else before.value.runNumber)
  {
  }

  lemma NumberStep(hs: seq<Happening>, n: nat, c: nat, run: nat)
    requires n < |hs| && c < n && Configures(hs, c) && NumberOf(hs, n, c, run)
    ensures NumberOf(hs, n + 1, c, if PassesGate(hs, n) then hs[n].cmd.runNumber else run)
  {
    hide PassesGate;
    forall k: nat | LastGate(hs, n + 1, c, k) && k < n
      ensures LastGate(hs, n, c, k)
    {
    }
  }

  /** Main result: outside Idle the component holds, field by field, what the last
      accepted Configure gave it, with the run number of the last Start that passed
      the gate behind it, if any. */
  lemma {:induction false} ConfigInForce(hs: seq<Happening>, n: nat) returns (c: nat)
    requires n <= |hs| && After(hs, n).state != Idle
    ensures LastConfigure(hs, n, c) && After(hs, n).runConfig.Some?
    ensures var held, given := After(hs, n).runConfig.value, hs[c].cmd.config;
            held.comment == given.comment && held.expName == given.expName && NumberOf(hs, n, c, held.runNumber)
    decreases n
  {
    hide Configures, PassesGate, NumberOf, After;
    assert n > 0 by { StartsIdle(hs); }
    AlwaysInv(hs, n - 1);
    ConfigStep(hs, n - 1);
    if Configures(hs, n - 1) {
      c := n - 1;
      ConfigureGiven(hs, c);
    } else {
      c := ConfigInForce(hs, n - 1);
      NumberStep(hs, n - 1, c, After(hs, n - 1).runConfig.value.runNumber);
    }
  }

  lemma StartsIdle(hs: seq<Happening>)
    ensures After(hs, 0).state == Idle
  {
  }

  lemma ConfigureGiven(hs: seq<Happening>, c: nat)
    requires Configures(hs, c)
    ensures hs[c].Got? && hs[c].cmd.Configure? && NumberOf(hs, c + 1, c, hs[c].cmd.config.runNumber)
  {
  }

  /** The state that a command is there to reach. */
  function Target(cmd: Command): (s: Option<CState>) {
    match cmd
    case Configure(_) => Some(Configured)
    case Arm => Some(Armed)
    case Start(_) => Some(Running)
    case Stop => Some(Configured)
    case Reset => Some(Idle)
    case _ => None
  }

  /** Every answer, also a refusal, tells the state the component is in then. One
      that reached its target is in it, and tells the run number held then; all
      other commands leave the state alone, and only GetStatus tells the number. */
  lemma Answers(c: Control, cmd: Command, hook: Hook)
    requires Inv(c)
    ensures var (after, resp) := Handle(c, cmd, hook);
            && resp.state == after.state
            && after.state == (if resp.success && Target(cmd).Some? then Target(cmd).value else c.state)
            && resp.runNumber ==
                 (if resp.success && (Target(cmd).Some? || cmd.GetStatus?) then RunNumber(after) else None)
  {
  }

  /** What the hook decides: GetStatus never asks it, the commands that need an
      extension fail without one, and a refusal fails every other command. */
  lemma HookDecides(c: Control, cmd: Command, hook: Hook)
    ensures Handle(c, cmd, hook).1.success <==>
            && Handle(c, cmd, Accept).1.success
            && (hook.Accept? || cmd.GetStatus? || (hook.NoExt? && Target(cmd).Some?))
  {
  }

  ghost predicate Watched(hs: seq<Happening>, n: nat)
    requires n <= |hs|
  {
    forall j :: 0 <= j < n ==> hs[j].Got?
  }

  /** How many of the first `n` happenings entered a state while somebody watched. */
  ghost function Sent(hs: seq<Happening>, n: nat): (k: nat)
    requires n <= |hs|
  {
    if n == 0 then 0
    else if Watched(hs, n) && Accepted(After(hs, n - 1), hs[n - 1]) && Target(hs[n - 1].cmd).Some? then
      Sent(hs, n - 1) + 1
    else Sent(hs, n - 1)
  }

  /** The version counts the states entered while somebody watched, the same state
      again included: no notification is lost and none is made up. */
  lemma {:induction false} VersionCounts(hs: seq<Happening>, n: nat)
    requires n <= |hs|
    ensures After(hs, n).watch.version == Sent(hs, n)
    ensures After(hs, n).watch.receivers > 0 <==> Watched(hs, n)
  {
    hide After, Handle, Watched;
    if n == 0 {
      FreshSent(hs);
    } else {
      VersionCounts(hs, n - 1);
      VersionStep(hs, n - 1);
    }
  }

  lemma FreshSent(hs: seq<Happening>)
    ensures After(hs, 0) == FRESH && Watched(hs, 0)
  {
  }

  lemma VersionStep(hs: seq<Happening>, n: nat)
    requires n < |hs|
    ensures var before, after := After(hs, n), After(hs, n + 1);
            && after.watch.receivers == (if hs[n].Got? then before.watch.receivers else 0)
            && after.watch.version == before.watch.version +
                 (if before.watch.receivers > 0 && Accepted(before, hs[n]) && Target(hs[n].cmd).Some? then 1 else 0)
            && (Watched(hs, n + 1) <==> Watched(hs, n) && hs[n].Got?)
  {
  }

  // ---- What the component advertises ----

  predicate Advertised(s: CState, cmd: Command) {
    match s
    case Idle => cmd.Configure? || cmd.Detect? || cmd.ApplyDigitizerConfig? || cmd.GetStatus?
    case Configured => cmd.Arm? || cmd.Reset? || cmd.ApplyDigitizerConfig? || cmd.GetStatus?
    case Armed => cmd.Start? || cmd.Reset? || cmd.GetStatus?
    case Running => cmd.Stop? || cmd.GetStatus? || cmd.ApplyDigitizerConfig?
    case Error => cmd.Reset? || cmd.GetStatus?
  }

  /** Every advertised command is accepted when the hooks accept. Beyond those the
      handler also accepts Reset from Idle and Running, Configure from Running,
      Detect from Configured and the two state-free commands, and nothing else. */
  lemma AdvertisedAccepted(c: Control, cmd: Command)
    requires Inv(c)
    ensures Handle(c, cmd, Accept).1.success <==>
            || Advertised(c.state, cmd)
            || (cmd.Reset? && c.state in {Idle, Running})
            || (cmd.Configure? && c.state == Running)
            || (cmd.Detect? && c.state == Configured)
            || cmd.UpdateEmulatorConfig? || cmd.ReadAmaxBoardRegisters?
  {
  }
}
