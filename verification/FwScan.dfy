/** `pha_fw_scan.rs`: the firmware trapezoid scan drives the Operator through
    programmed runs, and hands the boards back as it found them. Every reply of
    the Operator, every clock reading and every cancellation is arbitrary. */
module FwScan {
  import opened Bytes

  datatype Settings = Settings(rise: Option<nat>, flat: Option<nat>, other: int)

  datatype Config = Config(id: nat, defaults: Settings, overrides: map<nat, Settings>)

  datatype Point = AsConfigured | Trap(rise: nat, flat: nat)

  datatype SystemState = Idle | Configured | Armed | Running | OtherState

  /** A request and what came back. */
  datatype Call =
    | Apply(cfg: Config, ok: bool)
    | RunStart(run: nat, ok: bool)
    | Stop(ok: bool)
    | Status(reply: Option<SystemState>)

  // ---- Programming one trapezoid on a board ----

  /** What a channel runs with: its own setting, else the default. */
  function RiseOf(c: Config, ch: nat): (r: Option<nat>) {
    if ch in c.overrides && c.overrides[ch].rise.Some? then c.overrides[ch].rise else c.defaults.rise
  }

  function FlatOf(c: Config, ch: nat): (r: Option<nat>) {
    if ch in c.overrides && c.overrides[ch].flat.Some? then c.overrides[ch].flat else c.defaults.flat
  }

  function SetIfOwn(s: Settings, rise: nat, flat: nat): (r: Settings) {
    s.(rise := if s.rise.Some? then Some(rise) else None, flat := if s.flat.Some? then Some(flat) else None)
  }

  function WithTrap(c: Config, rise: nat, flat: nat): (r: Config) {
    Config(c.id, c.defaults.(rise := Some(rise), flat := Some(flat)),
           map ch | ch in c.overrides :: SetIfOwn(c.overrides[ch], rise, flat))
  }

  method SetBoardTrap(c: Config, rise: nat, flat: nat) returns (r: Config)
    ensures r == WithTrap(c, rise, flat)
  {
    r := c.(defaults := c.defaults.(rise := Some(rise), flat := Some(flat)));
    var todo := c.overrides.Keys;
    while todo != {}
      invariant todo <= c.overrides.Keys == r.overrides.Keys
      invariant r.id == c.id && r.defaults == c.defaults.(rise := Some(rise), flat := Some(flat))
      invariant forall ch :: ch in c.overrides ==>
                  r.overrides[ch] == if ch in todo then c.overrides[ch] else SetIfOwn(c.overrides[ch], rise, flat)
      decreases |todo|
    {
      var ch :| ch in todo;
      r := r.(overrides := r.overrides[ch := SetIfOwn(r.overrides[ch], rise, flat)]);
      todo := todo - {ch};
    }
  }

  /** Every channel, overridden or not, then runs with the trapezoid, and
      nothing else changes. */
  lemma TrapOnEveryChannel(c: Config, rise: nat, flat: nat, ch: nat)
    ensures var r := WithTrap(c, rise, flat);
            && RiseOf(r, ch) == Some(rise) && FlatOf(r, ch) == Some(flat)
            && r.id == c.id && r.overrides.Keys == c.overrides.Keys && r.defaults.other == c.defaults.other
            && (ch in c.overrides ==> r.overrides[ch].other == c.overrides[ch].other
                                      && (r.overrides[ch].rise.Some? <==> c.overrides[ch].rise.Some?)
                                      && (r.overrides[ch].flat.Some? <==> c.overrides[ch].flat.Some?))
  {
  }

  // ---- Reading a log of calls ----

  /** The configuration last sent to a board. */
  function LastApply(log: seq<Call>, id: nat): (c: Option<Config>) {
    if log == [] then None
    else
      var last := log[|log| - 1];
      if last.Apply? && last.cfg.id == id then Some(last.cfg) else LastApply(log[..|log| - 1], id)
  }

  /** The entry for a board; of a repeated board, the last. */
  function EntryFor(cfgs: seq<Config>, id: nat): (c: Option<Config>) {
    if cfgs == [] then None
    else if cfgs[|cfgs| - 1].id == id then Some(cfgs[|cfgs| - 1])
    else EntryFor(cfgs[..|cfgs| - 1], id)
  }

  function Else<T>(a: Option<T>, b: Option<T>): (r: Option<T>) { if a.Some? then a else b }

  lemma {:induction false} LastApplyAppend(a: seq<Call>, b: seq<Call>, id: nat)
    ensures LastApply(a + b, id) == Else(LastApply(b, id), LastApply(a, id))
    decreases |b|
  {
    if b == [] {
      assert a + b == a;
    } else {
      assert (a + b)[..|a + b| - 1] == a + b[..|b| - 1];
      LastApplyAppend(a, b[..|b| - 1], id);
    }
  }

  ghost predicate StopsEveryStart(log: seq<Call>) {
    forall i :: 0 <= i < |log| && log[i].RunStart? && log[i].ok ==> StopAfter(log, i)
  }

  ghost predicate StopAfter(log: seq<Call>, i: nat) { exists j :: i < j < |log| && log[j].Stop? }

  /** Between two run starts a stop succeeded and Configured was then seen. */
  ghost predicate RunsApart(log: seq<Call>) {
    forall i, k :: 0 <= i < k < |log| && log[i].RunStart? && log[k].RunStart? ==> Settled(log, i, k)
  }

  ghost predicate Settled(log: seq<Call>, i: nat, k: nat) {
    exists s, c :: i < s < c < k <= |log| && log[s] == Stop(true) && log[c] == Status(Some(Configured))
  }

  ghost predicate NoStarts(log: seq<Call>) { forall i :: 0 <= i < |log| ==> !log[i].RunStart? }

  ghost predicate NoApplies(log: seq<Call>) { forall i :: 0 <= i < |log| ==> !log[i].Apply? }

  lemma {:induction false} NoAppliesNone(log: seq<Call>, id: nat)
    requires NoApplies(log)
    ensures LastApply(log, id).None?
    decreases |log|
  {
    if log == [] {
    } else {
      NoAppliesNone(log[..|log| - 1], id);
    }
  }

  // ---- The Operator as the scan sees it ----

  class Operator {
    var log: seq<Call>
    var clock: nat

    method Elapse(atLeast: nat)
      modifies this`clock
      ensures clock >= old(clock) + atLeast
    {
      var extra :| 0 <= extra;
      clock := clock + atLeast + extra;
    }

    method Request(call: Call)
      modifies this
      ensures log == old(log) + [call] && clock >= old(clock)
    {
      log := log + [call];
      Elapse(0);
    }

    method ApplyConfig(cfg: Config) returns (ok: bool)
      modifies this
      ensures log == old(log) + [Apply(cfg, ok)] && clock >= old(clock)
    {
      ok := *;
      Request(Apply(cfg, ok));
    }

    method StartRun(run: nat) returns (ok: bool)
      modifies this
      ensures log == old(log) + [RunStart(run, ok)] && clock >= old(clock)
    {
      ok := *;
      Request(RunStart(run, ok));
    }

    method StopRun() returns (ok: bool)
      modifies this
      ensures log == old(log) + [Stop(ok)] && clock >= old(clock)
    {
      ok := *;
      Request(Stop(ok));
    }

    method GetStatus() returns (reply: Option<SystemState>)
      modifies this
      ensures log == old(log) + [Status(reply)] && clock >= old(clock)
    {
      reply := *;
      Request(Status(reply));
    }

    /** Poll once a second until the state is `want` or the timeout passes: true
        at the first answer `want`, false when an answer fails to come or another
        one comes behind the timeout; at most one poll a second. */
    method WaitFor(want: SystemState, timeout: nat) returns (ok: bool)
      modifies this
      ensures old(log) < log && OnlyStatus(log[|old(log)|..])
      ensures forall i :: |old(log)| <= i < |log| - 1 ==> log[i].reply.Some? && log[i] != Status(Some(want))
      ensures ok <==> log[|log| - 1] == Status(Some(want))
      ensures !ok && log[|log| - 1] != Status(None) ==> clock > old(clock) + timeout
      ensures |log| - |old(log)| <= timeout / 1000 + 2
      ensures clock >= old(clock)
    {
      var t0 := clock;
      ghost var before := log;
      while true
        invariant before <= log && OnlyStatus(log[|before|..]) && clock >= t0 + 1000 * (|log| - |before|)
        invariant forall i :: |before| <= i < |log| ==> log[i].reply.Some? && log[i] != Status(Some(want))
        invariant |log| > |before| ==> 1000 * (|log| - |before| - 1) <= timeout
        decreases t0 + timeout + 1 - clock
      {
        var s := GetStatus();
        if s.None? { return false; }
        if s.value == want { return true; }
        if clock - t0 > timeout { return false; }
        Elapse(1000);
      }
    }
  }

  predicate OnlyStatus(log: seq<Call>) { forall i :: 0 <= i < |log| ==> log[i].Status? }

  /** At least one poll; each but the last had an answer, and another than Configured. */
  predicate Polls(log: seq<Call>) {
    && log != [] && OnlyStatus(log)
    && forall i :: 0 <= i < |log| - 1 ==> log[i].reply.Some? && log[i] != Status(Some(Configured))
  }

  /** `sleep_or_cancel`: a signal may arrive at any time. */
  method SleepOrCancel(op: Operator, d: nat) returns (ok: bool)
    modifies op`clock
    ensures ok ==> op.clock >= old(op.clock) + d
    ensures op.clock >= old(op.clock)
  {
    ok := *;
    op.Elapse(if ok then d else 0);
  }

  // ---- measure_point ----

  function PointConfig(c: Config, p: Point): (r: Config) {
    if p.Trap? then WithTrap(c, p.rise, p.flat) else c
  }

  function PointConfigs(cs: seq<Config>, p: Point): (rs: seq<Config>)
    ensures |rs| == |cs| && forall i :: 0 <= i < |rs| ==> rs[i] == PointConfig(cs[i], p)
  {
    seq(|cs|, i requires 0 <= i < |cs| => PointConfig(cs[i], p))
  }

  /** What happened at one point: an apply failed, the start failed, or a run
      was to go on for `length`, was watched for `watched`, and stopped; `settle`
      is what was polled after a successful stop. */
  datatype PointTrace =
    | ApplyFailed(n: nat)
    | StartFailed
    | Ran(length: nat, watched: nat, watch: seq<Call>, stopped: bool, settle: seq<Call>)

  /** The log of applying `cfgs` in order, with these outcomes. */
  function Applies(cfgs: seq<Config>, oks: seq<bool>): (log: seq<Call>)
    requires |oks| == |cfgs|
    ensures |log| == |oks| && forall i :: 0 <= i < |log| ==> log[i] == Apply(cfgs[i], oks[i])
  {
    seq(|oks|, i requires 0 <= i < |oks| => Apply(cfgs[i], oks[i]))
  }

  lemma {:induction false} AppliesLast(cfgs: seq<Config>, oks: seq<bool>, id: nat)
    requires |oks| == |cfgs|
    ensures LastApply(Applies(cfgs, oks), id) == EntryFor(cfgs, id)
    decreases |cfgs|
  {
    if cfgs == [] {
    } else {
      var n := |cfgs| - 1;
      AppliesLast(cfgs[..n], oks[..n], id);
      assert Applies(cfgs, oks)[..n] == Applies(cfgs[..n], oks[..n]);
    }
  }

  predicate AllTrue(oks: seq<bool>) { forall i :: 0 <= i < |oks| ==> oks[i] }

  function AllOk(n: nat): (oks: seq<bool>)
    ensures |oks| == n
  {
    seq(n, _ => true)
  }

  predicate ValidPoint(t: PointTrace, cfgs: seq<Config>) {
    match t
    case ApplyFailed(n) => n < |cfgs|
    case StartFailed => true
    case Ran(_, _, watch, stopped, settle) =>
      WatchLog(watch) && (settle == [] || Polls(settle)) && (!stopped ==> settle == [])
  }

  function RunLog(t: PointTrace, run: nat): (log: seq<Call>)
    requires !t.ApplyFailed?
  {
    match t
    case StartFailed => [RunStart(run, false)]
    case Ran(_, _, watch, stopped, settle) => [RunStart(run, true)] + watch + [Stop(stopped)] + settle
  }

  function PointLog(t: PointTrace, cfgs: seq<Config>, run: nat): (log: seq<Call>)
    requires ValidPoint(t, cfgs)
  {
    if t.ApplyFailed? then Applies(cfgs[..t.n], AllOk(t.n)) + [Apply(cfgs[t.n], false)]
    else Applies(cfgs, AllOk(|cfgs|)) + RunLog(t, run)
  }

  /** The run was seen Running at every status read, the last of them after the
      full time; it was stopped and the system seen back in Configured. */
  predicate Completed(t: PointTrace) {
    && t.Ran? && AllRunning(t.watch) && t.watch != [] && t.watched >= t.length
    && t.stopped && t.settle != [] && t.settle[|t.settle| - 1] == Status(Some(Configured))
  }

  lemma AppliesSnoc(cfgs: seq<Config>, n: nat, ok: bool)
    requires n < |cfgs|
    ensures Applies(cfgs[..n], AllOk(n)) + [Apply(cfgs[n], ok)] == Applies(cfgs[..n + 1], AllOk(n) + [ok])
    ensures AllOk(n) + [true] == AllOk(n + 1)
  {
  }

  predicate AllRunning(log: seq<Call>) { forall i :: 0 <= i < |log| ==> log[i] == Status(Some(Running)) }

  /** Status reads, each but the last with the answer Running. */
  predicate WatchLog(log: seq<Call>) { OnlyStatus(log) && (log != [] ==> AllRunning(log[..|log| - 1])) }

  /** The loop between start and stop: true only when the full time has passed
      with every status read Running, the last one included. */
  method Watch(op: Operator, length: nat) returns (ok: bool, ghost watch: seq<Call>)
    modifies op
    ensures op.log == old(op.log) + watch && WatchLog(watch) && op.clock >= old(op.clock)
    ensures ok ==> AllRunning(watch) && watch != [] && op.clock >= old(op.clock) + length
  {
    var t0 := op.clock;
    watch := [];
    while true
      invariant op.log == old(op.log) + watch && AllRunning(watch) && op.clock >= t0
      decreases t0 + length - op.clock
    {
      var elapsed := op.clock - t0;
      var remaining: nat := if elapsed >= length then 0 else length - elapsed;
      ok := SleepOrCancel(op, if remaining < 5000 then remaining else 5000);
      if !ok { return; }
      var s := op.GetStatus();
      assert (watch + [Status(s)])[..|watch|] == watch;
      watch := watch + [Status(s)];
      if s != Some(Running) { ok := false; return; }
      if op.clock - t0 >= length { return; }
    }
  }

  /** Five tries at the recorded files; `Some` is a measurement. */
  method ReadFiles(op: Operator) returns (ok: bool)
    modifies op`clock
  {
    for i := 0 to 5 {
      ok := *;
      if ok { return; }
      var slept := SleepOrCancel(op, 2000);
      if !slept { return false; }
    }
    ok := false;
  }

  /** Program every board, or as many as accept it. */
  method Program(op: Operator, originals: seq<Config>, point: Point) returns (ok: bool, ghost t: PointTrace)
    modifies op
    ensures ok ==> op.log == old(op.log) + Applies(PointConfigs(originals, point), AllOk(|originals|))
    ensures !ok ==> t.ApplyFailed? && ValidPoint(t, PointConfigs(originals, point))
    ensures !ok ==> forall run :: op.log == old(op.log) + PointLog(t, PointConfigs(originals, point), run)
  {
    hide OnlyStatus, Applies, AllOk, PointConfig, WithTrap;
    ghost var cfgs := PointConfigs(originals, point);
    t := StartFailed;
    NothingApplied(cfgs);
    for i := 0 to |originals|
      invariant op.log == old(op.log) + Applies(cfgs[..i], AllOk(i))
    {
      var cfg := originals[i];
      if point.Trap? { cfg := SetBoardTrap(cfg, point.rise, point.flat); }
      assert cfg == cfgs[i] by { OneConfig(originals, point, i); }
      var applied := op.ApplyConfig(cfg);
      AppliesSnoc(cfgs, i, applied);
      if !applied { return false, ApplyFailed(i); }
    }
    assert cfgs[..|originals|] == cfgs;
    ok := true;
  }

  lemma LogRan(log: seq<Call>, run: nat, length: nat, watched: nat, watch: seq<Call>, stopped: bool, settle: seq<Call>)
    ensures log + [RunStart(run, true)] + watch + [Stop(stopped)] + settle ==
        log + RunLog(Ran(length, watched, watch, stopped, settle), run)
    ensures log + [RunStart(run, true)] + watch + [Stop(stopped)] ==
        log + RunLog(Ran(length, watched, watch, stopped, []), run)
    ensures log + [RunStart(run, false)] == log + RunLog(StartFailed, run)
  {
    var start, stop := [RunStart(run, true)], [Stop(stopped)];
    var body := start + watch + stop;
    Assoc(log, start, watch);
    Assoc(log, start + watch, stop);
    Assoc(log, body, settle);
    assert body + [] == body;
  }

  /** Start the run, watch it, stop it, and wait for the files. */
  method RunPoint(op: Operator, run: nat, length: nat) returns (ok: bool, ghost t: PointTrace)
    modifies op
    ensures !t.ApplyFailed? && ValidPoint(t, []) && (t.Ran? ==> t.length == length)
    ensures op.log == old(op.log) + RunLog(t, run)
    ensures ok ==> Completed(t)
  {
    hide OnlyStatus, WatchLog, AllRunning, RunLog;
    LogRan(op.log, run, length, 0, [], false, []);
    var started := op.StartRun(run);
    if !started { return false, StartFailed; }
    ghost var t0 := op.clock;
    var result, watch := Watch(op, length);
    ghost var watched: nat := op.clock - t0;
    var stopped := op.StopRun();
    LogRan(old(op.log), run, length, watched, watch, stopped, []);
    t := Ran(length, watched, watch, stopped, []);
    assert OnlyStatus([]) by { NoStatus(); }
    if !result || !stopped { return false, t; }
    ghost var before := op.log;
    var settled := op.WaitFor(Configured, 60_000);
    LogRan(old(op.log), run, length, watched, watch, stopped, op.log[|before|..]);
    assert op.log == before + op.log[|before|..];
    t := Ran(length, watched, watch, stopped, op.log[|before|..]);
    if !settled { return false, t; }
    ok := ReadFiles(op);
  }

  method MeasurePoint(op: Operator, originals: seq<Config>, point: Point, run: nat, seconds: nat)
    returns (ok: bool, ghost t: PointTrace)
    modifies op
    ensures ValidPoint(t, PointConfigs(originals, point)) && (t.Ran? ==> t.length == 1000 * seconds)
    ensures op.log == old(op.log) + PointLog(t, PointConfigs(originals, point), run)
    ensures ok ==> Completed(t)
  {
    hide OnlyStatus, WatchLog, AllRunning, Applies, AllOk, PointConfigs, RunLog;
    ok, t := Program(op, originals, point);
    if !ok { return; }
    ok, t := RunPoint(op, run, 1000 * seconds);
  }

  lemma NoStatus()
    ensures OnlyStatus([])
  {
  }

  lemma NothingApplied(cfgs: seq<Config>)
    ensures Applies(cfgs[..0], AllOk(0)) == []
  {
  }

  lemma OneConfig(originals: seq<Config>, point: Point, i: nat)
    requires i < |originals|
    ensures PointConfigs(originals, point)[i]
         == if point.Trap? then WithTrap(originals[i], point.rise, point.flat) else originals[i]
  {
  }

  // ---- The scan ----

  /** A whole scan: what happened at the points tried, whether a CSV row could
      not be written, what was done before the boards could be programmed again,
      and the outcomes of the restoring applies. */
  datatype Scan = Scan(originals: seq<Config>, points: seq<Point>, firstRun: nat, seconds: nat, traces: seq<PointTrace>,
                       csvFailed: bool, recovery: seq<Call>, oks: seq<bool>)

  datatype Outcome = CsvError | Done(measured: nat, failed: bool, restored: bool)

  predicate ValidTraces(originals: seq<Config>, points: seq<Point>, traces: seq<PointTrace>) {
    && |traces| <= |points|
    && (forall i :: 0 <= i < |traces| ==> ValidPoint(traces[i], PointConfigs(originals, points[i])))
    && (forall i :: 0 <= i < |traces| - 1 ==> Completed(traces[i]))
  }

  function PointsLog(originals: seq<Config>, points: seq<Point>, firstRun: nat, traces: seq<PointTrace>):
      (log: seq<Call>)
    requires ValidTraces(originals, points, traces)
  {
    if traces == [] then []
    else
      var n := |traces| - 1;
      PointsLog(originals, points, firstRun, traces[..n])
      + PointLog(traces[n], PointConfigs(originals, points[n]), firstRun + n)
  }

  /** A status read and, if a run is on, a stop and the wait for it. */
  predicate IsRecovery(log: seq<Call>) {
    && log != [] && log[0].Status?
    && (log[0].reply in {Some(Running), Some(Armed)} ==> |log| > 1 && log[1].Stop? && Polls(log[2..]))
    && (log[0].reply !in {Some(Running), Some(Armed)} ==> |log| == 1)
  }

  ghost predicate ValidScan(s: Scan) {
    && ValidTraces(s.originals, s.points, s.traces)
    && (forall i :: 0 <= i < |s.traces| && s.traces[i].Ran? ==> s.traces[i].length == 1000 * s.seconds)
    && (s.csvFailed ==> s.traces != [] && Completed(s.traces[|s.traces| - 1]))
    && (!s.csvFailed ==> IsRecovery(s.recovery) && |s.oks| == |s.originals|)
  }

  function ScanLog(s: Scan): (log: seq<Call>)
    requires ValidScan(s)
  {
    var points := PointsLog(s.originals, s.points, s.firstRun, s.traces);
    if s.csvFailed then points else points + s.recovery + Applies(s.originals, s.oks)
  }

  method Restore(op: Operator, originals: seq<Config>) returns (ok: bool, ghost oks: seq<bool>)
    modifies op
    ensures |oks| == |originals| && op.log == old(op.log) + Applies(originals, oks)
    ensures ok <==> AllTrue(oks)
  {
    ok, oks := true, [];
    for i := 0 to |originals|
      invariant |oks| == i && op.log == old(op.log) + Applies(originals[..i], oks)
      invariant ok <==> AllTrue(oks)
    {
      var applied := op.ApplyConfig(originals[i]);
      assert Applies(originals[..i + 1], oks + [applied]) ==
          Applies(originals[..i], oks) + [Apply(originals[i], applied)];
      oks := oks + [applied];
      if !applied { ok := false; }
    }
    assert originals[..|originals|] == originals;
  }

  /** Before the restore: a run that is still on is stopped. */
  method Recover(op: Operator) returns (ghost log: seq<Call>)
    modifies op
    ensures op.log == old(op.log) + log && IsRecovery(log)
  {
    var s := op.GetStatus();
    log := [Status(s)];
    if s in {Some(Running), Some(Armed)} {
      var ok := op.StopRun();
      ghost var before := op.log;
      var _ := op.WaitFor(Configured, 60_000);
      log := [Status(s), Stop(ok)] + op.log[|before|..];
      assert log[2..] == op.log[|before|..];
      assert before == old(op.log) + [Status(s), Stop(ok)];
    }
  }

  lemma OneMore(originals: seq<Config>, points: seq<Point>, firstRun: nat, traces: seq<PointTrace>, t: PointTrace)
    requires ValidTraces(originals, points, traces) && |traces| < |points|
    requires traces == [] || Completed(traces[|traces| - 1])
    requires ValidPoint(t, PointConfigs(originals, points[|traces|]))
    ensures ValidTraces(originals, points, traces + [t])
    ensures PointsLog(originals, points, firstRun, traces + [t])
         == PointsLog(originals, points, firstRun, traces)
            + PointLog(t, PointConfigs(originals, points[|traces|]), firstRun + |traces|)
  {
    hide PointConfigs, ValidPoint, Completed, PointLog;
    assert (traces + [t])[..|traces|] == traces;
  }

  method RunScan(op: Operator, originals: seq<Config>, traps: seq<Point>, firstRun: nat, seconds: nat)
    returns (out: Outcome, ghost s: Scan)
    modifies op
    ensures ValidScan(s) && s.originals == originals && s.points == [AsConfigured] + traps
    ensures s.firstRun == firstRun && s.seconds == seconds
    ensures op.log == old(op.log) + ScanLog(s)
    ensures out.CsvError? <==> s.csvFailed
    ensures out.Done? ==> (out.restored <==> AllTrue(s.oks)) && (!out.failed ==> out.measured == |s.points|)
  {
    hide PointConfigs, ValidPoint, Completed, PointLog, Applies, IsRecovery, AllTrue, PointsLog, ValidTraces;
    var points := [AsConfigured] + traps;
    ghost var traces: seq<PointTrace> := [];
    assert ValidTraces(originals, points, []) && PointsLog(originals, points, firstRun, []) == [] by {
      NoPoints(originals, points, firstRun);
    }
    var failed, i := false, 0;
    while i < |points| && !failed
      invariant i <= |points| && ValidTraces(originals, points, traces)
      invariant op.log == old(op.log) + PointsLog(originals, points, firstRun, traces)
      invariant forall j :: 0 <= j < |traces| && traces[j].Ran? ==> traces[j].length == 1000 * seconds
      invariant !failed ==> |traces| == i && (traces == [] || Completed(traces[|traces| - 1]))
      decreases |points| - i, !failed
    {
      var ok, t := MeasurePoint(op, originals, points[i], firstRun + i, seconds);
      OneMore(originals, points, firstRun, traces, t);
      traces := traces + [t];
      if ok {
        var written: bool := *;
        if !written {
          return CsvError, Scan(originals, points, firstRun, seconds, traces, true, [], []);
        }
        i := i + 1;
      } else {
        failed := true;
      }
    }
    var recovery := Recover(op);
    var restored, oks := Restore(op, originals);
    s := Scan(originals, points, firstRun, seconds, traces, false, recovery, oks);
    out := Done(i, failed, restored);
  }

  lemma NoPoints(originals: seq<Config>, points: seq<Point>, firstRun: nat)
    ensures ValidTraces(originals, points, []) && PointsLog(originals, points, firstRun, []) == []
  {
  }

  // ---- The boards are handed back ----

  lemma {:induction false} EntryOfPoint(cs: seq<Config>, p: Point, id: nat)
    ensures EntryFor(PointConfigs(cs, p), id)
         == if EntryFor(cs, id).Some? then Some(PointConfig(EntryFor(cs, id).value, p)) else None
    decreases |cs|
  {
    if cs == [] {
    } else {
      var n := |cs| - 1;
      EntryOfPoint(cs[..n], p, id);
      assert PointConfigs(cs, p)[..n] == PointConfigs(cs[..n], p);
      assert PointConfigs(cs, p)[n].id == cs[n].id;
    }
  }

  lemma {:induction false} EntryPrefix(cs: seq<Config>, n: nat, id: nat)
    requires n <= |cs| && EntryFor(cs, id).None?
    ensures EntryFor(cs[..n], id).None? && forall i :: 0 <= i < |cs| ==> cs[i].id != id
    decreases |cs|
  {
    if n < |cs| {
      EntryPrefix(cs[..|cs| - 1], n, id);
      assert cs[..|cs| - 1][..n] == cs[..n];
    } else {
      assert cs[..n] == cs;
      if cs != [] { EntryPrefix(cs[..|cs| - 1], |cs| - 1, id); }
    }
  }

  lemma RunLogNoApplies(t: PointTrace, run: nat)
    requires !t.ApplyFailed? && ValidPoint(t, [])
    ensures NoApplies(RunLog(t, run))
  {
  }

  /** At a point that was run every board last received the point's settings. */
  lemma PointApplies(t: PointTrace, cfgs: seq<Config>, run: nat, id: nat)
    requires ValidPoint(t, cfgs)
    ensures !t.ApplyFailed? ==> LastApply(PointLog(t, cfgs, run), id) == EntryFor(cfgs, id)
    ensures EntryFor(cfgs, id).None? ==> LastApply(PointLog(t, cfgs, run), id).None?
  {
    hide LastApply, EntryFor, RunLog, Applies, NoApplies;
    match t {
      case ApplyFailed(n) =>
        if EntryFor(cfgs, id).None? {
          EntryPrefix(cfgs, n, id);
          AppliesLast(cfgs[..n], AllOk(n), id);
          LastApplyAppend(Applies(cfgs[..n], AllOk(n)), [Apply(cfgs[n], false)], id);
          OneApply(cfgs[n], id);
        }
      case _ =>
        AppliesLast(cfgs, AllOk(|cfgs|), id);
        RunLogNoApplies(t, run);
        NoAppliesNone(RunLog(t, run), id);
        LastApplyAppend(Applies(cfgs, AllOk(|cfgs|)), RunLog(t, run), id);
    }
  }

  lemma OneApply(c: Config, id: nat)
    ensures LastApply([Apply(c, false)], id) == if c.id == id then Some(c) else None
  {
    assert LastApply([Apply(c, false)][..0], id).None?;
  }

  lemma {:induction false} OtherBoardsUntouched(originals: seq<Config>, points: seq<Point>, firstRun: nat,
      traces: seq<PointTrace>, id: nat)
    requires ValidTraces(originals, points, traces) && EntryFor(originals, id).None?
    ensures LastApply(PointsLog(originals, points, firstRun, traces), id).None?
    decreases |traces|
  {
    hide LastApply, EntryFor, PointLog, PointConfigs, ValidPoint, Completed;
    if traces == [] {
      NoAppliesNone([], id);
    } else {
      var n := |traces| - 1;
      var cfgs := PointConfigs(originals, points[n]);
      OtherBoardsUntouched(originals, points, firstRun, traces[..n], id);
      EntryOfPoint(originals, points[n], id);
      PointApplies(traces[n], cfgs, firstRun + n, id);
      LastApplyAppend(PointsLog(originals, points, firstRun, traces[..n]), PointLog(traces[n], cfgs, firstRun + n), id);
    }
  }

  /** The last configuration sent to each board of the scan is its original, and
      no other board was sent one. */
  ghost predicate LeftAsFound(log: seq<Call>, originals: seq<Config>) {
    forall id: nat :: LastApply(log, id) == EntryFor(originals, id)
  }

  /** Programming the point changes none of the boards. */
  ghost predicate Harmless(originals: seq<Config>, p: Point) {
    forall id: nat :: EntryFor(PointConfigs(originals, p), id) == EntryFor(originals, id)
  }

  lemma RecoveryNoApplies(log: seq<Call>)
    requires IsRecovery(log)
    ensures NoApplies(log)
  {
    forall i | 0 <= i < |log|
      ensures !log[i].Apply?
    {
      if i >= 2 { assert log[i] == log[2..][i - 2]; }
    }
  }

  lemma RestoredLast(s: Scan, id: nat)
    requires ValidScan(s) && !s.csvFailed
    ensures LastApply(ScanLog(s), id) == EntryFor(s.originals, id)
  {
    hide LastApply, EntryFor, PointsLog, Applies, IsRecovery, NoApplies, ValidTraces;
    var points := PointsLog(s.originals, s.points, s.firstRun, s.traces);
    LastApplyAppend(points + s.recovery, Applies(s.originals, s.oks), id);
    LastApplyAppend(points, s.recovery, id);
    AppliesLast(s.originals, s.oks, id);
    RecoveryNoApplies(s.recovery);
    NoAppliesNone(s.recovery, id);
    if EntryFor(s.originals, id).None? {
      OtherBoardsUntouched(s.originals, s.points, s.firstRun, s.traces, id);
    }
  }

  lemma CsvFailedLast(s: Scan, id: nat)
    requires ValidScan(s) && s.csvFailed
    ensures LastApply(ScanLog(s), id) == EntryFor(PointConfigs(s.originals, s.points[|s.traces| - 1]), id)
  {
    hide LastApply, EntryFor, PointLog, PointConfigs, ValidPoint, PointConfig;
    var n := |s.traces| - 1;
    var cfgs := PointConfigs(s.originals, s.points[n]);
    var earlier := PointsLog(s.originals, s.points, s.firstRun, s.traces[..n]);
    LastApplyAppend(earlier, PointLog(s.traces[n], cfgs, s.firstRun + n), id);
    PointApplies(s.traces[n], cfgs, s.firstRun + n, id);
    EntryOfPoint(s.originals, s.points[n], id);
    if EntryFor(s.originals, id).None? {
      OtherBoardsUntouched(s.originals, s.points, s.firstRun, s.traces[..n], id);
    }
  }

  /** For every pattern of failures and every cancellation the boards are handed
      back with their original settings, except when a CSV row cannot be written
      after a point whose settings differ from them. */
  lemma LeftAsFoundIff(s: Scan)
    requires ValidScan(s)
    ensures LeftAsFound(ScanLog(s), s.originals) <==> !s.csvFailed || Harmless(s.originals, s.points[|s.traces| - 1])
  {
    hide ScanLog, LastApply, EntryFor, PointConfigs, IsRecovery, Completed, ValidPoint;
    assert s.csvFailed ==> 0 < |s.traces| <= |s.points|;
    forall id: nat
      ensures !s.csvFailed ==> LastApply(ScanLog(s), id) == EntryFor(s.originals, id)
      ensures s.csvFailed ==>
          LastApply(ScanLog(s), id) == EntryFor(PointConfigs(s.originals, s.points[|s.traces| - 1]), id)
    {
      if s.csvFailed { CsvFailedLast(s, id); } else { RestoredLast(s, id); }
    }
  }

  /** A point at which the run was seen Running once, after the full time. */
  function GoodPoint(seconds: nat): (t: PointTrace)
    ensures Completed(t) && t.length == 1000 * seconds && forall cfgs :: ValidPoint(t, cfgs)
  {
    Ran(1000 * seconds, 1000 * seconds, [Status(Some(Running))], true, [Status(Some(Configured))])
  }

  /** A scan of one board and one trapezoid in which the row of the trapezoid's
      point cannot be written. */
  function LostRow(c: Config, rise: nat, flat: nat, seconds: nat): (s: Scan) {
    Scan([c], [AsConfigured, Trap(rise, flat)], 1, seconds, [GoodPoint(seconds), GoodPoint(seconds)], true, [], [])
  }

  /** The exception occurs: whatever the board and the trapezoid, this scan leaves
      the board with the trapezoid, unless that was its setting. */
  lemma CsvErrorLeavesTrap(c: Config, rise: nat, flat: nat, seconds: nat)
    ensures ValidScan(LostRow(c, rise, flat, seconds))
    ensures LastApply(ScanLog(LostRow(c, rise, flat, seconds)), c.id) == Some(WithTrap(c, rise, flat))
    ensures WithTrap(c, rise, flat) != c ==> !LeftAsFound(ScanLog(LostRow(c, rise, flat, seconds)), [c])
  {
    hide ScanLog, LastApply, GoodPoint, ValidPoint, Completed, WithTrap;
    var s := LostRow(c, rise, flat, seconds);
    CsvFailedLast(s, c.id);
    EntryOfPoint([c], Trap(rise, flat), c.id);
    assert EntryFor([c], c.id) == Some(c);
  }

  // ---- Under which settings a run starts ----

  function StartsIn(log: seq<Call>): (n: nat) {
    if log == [] then 0 else StartsIn(log[..|log| - 1]) + if log[|log| - 1].RunStart? then 1 else 0
  }

  lemma {:induction false} StartsAppend(a: seq<Call>, b: seq<Call>)
    ensures StartsIn(a + b) == StartsIn(a) + StartsIn(b)
    decreases |b|
  {
    if b == [] {
      assert a + b == a;
    } else {
      assert (a + b)[..|a + b| - 1] == a + b[..|b| - 1];
      StartsAppend(a, b[..|b| - 1]);
    }
  }

  lemma {:induction false} NoStartsNone(log: seq<Call>)
    requires NoStarts(log)
    ensures StartsIn(log) == 0
    decreases |log|
  {
    if log == [] {
    } else {
      NoStartsNone(log[..|log| - 1]);
    }
  }

  /** The part of a point's log before the run starts. */
  lemma PointHead(t: PointTrace, cfgs: seq<Config>, run: nat)
    requires ValidPoint(t, cfgs) && t.Ran?
    ensures StartsIn(PointLog(t, cfgs, run)) == 1
    ensures forall i :: 0 <= i < |PointLog(t, cfgs, run)| && PointLog(t, cfgs, run)[i].RunStart? ==>
              i == |cfgs| && PointLog(t, cfgs, run)[i].run == run
  {
    hide OnlyStatus, NoStarts, AllRunning, Polls, Applies;
    var head, tail := Applies(cfgs, AllOk(|cfgs|)), RunLog(t, run);
    AppliesNoStarts(cfgs, AllOk(|cfgs|));
    NoStartsNone(head);
    assert tail == [tail[0]] + tail[1..];
    assert NoStarts(tail[1..]) by { RunTail(t, run); }
    NoStartsNone(tail[1..]);
    OneStart(tail[0]);
    StartsAppend([tail[0]], tail[1..]);
    StartsAppend(head, tail);
    forall i | 0 <= i < |head + tail| && (head + tail)[i].RunStart?
      ensures i == |head|
    {
      StartBetween(head, tail[0], tail[1..], i);
    }
  }

  lemma StartBetween(a: seq<Call>, c: Call, b: seq<Call>, i: nat)
    requires NoStarts(a) && NoStarts(b) && i < |a + ([c] + b)| && (a + ([c] + b))[i].RunStart?
    ensures i == |a|
  {
  }

  lemma OneStart(c: Call)
    requires c.RunStart?
    ensures StartsIn([c]) == 1
  {
    assert [c][..0] == [];
  }

  lemma RunTail(t: PointTrace, run: nat)
    requires t.Ran? && ValidPoint(t, [])
    ensures RunLog(t, run)[0] == RunStart(run, true) && NoStarts(RunLog(t, run)[1..])
  {
    forall i | 0 < i < |RunLog(t, run)|
      ensures !RunLog(t, run)[i].RunStart?
    {
      LateNoStart(t, run, i);
    }
  }

  /** A point whose start failed, or that did not get so far. */
  lemma OtherPoints(t: PointTrace, cfgs: seq<Config>, run: nat, i: nat)
    requires ValidPoint(t, cfgs) && !t.Ran? && i < |PointLog(t, cfgs, run)| && PointLog(t, cfgs, run)[i].RunStart?
    ensures t.StartFailed? && i == |cfgs| && PointLog(t, cfgs, run)[i].run == run
  {
  }

  /** The board accepts its settings for the point. */
  ghost predicate Programs(c: Call, original: Config, p: Point) {
    && c.Apply? && c.ok && c.cfg.id == original.id
    && (p.AsConfigured? ==> c.cfg == original)
    && (p.Trap? ==> forall ch: nat :: RiseOf(c.cfg, ch) == Some(p.rise) && FlatOf(c.cfg, ch) == Some(p.flat))
  }

  /** `log[..i]` ends with every board accepting its settings for the point. */
  ghost predicate ProgrammedFor(log: seq<Call>, i: nat, originals: seq<Config>, p: Point) {
    && |originals| <= i <= |log|
    && forall j :: 0 <= j < |originals| ==> Programs(log[i - |originals| + j], originals[j], p)
  }

  lemma ProgrammedAt(earlier: seq<Call>, t: PointTrace, originals: seq<Config>, p: Point, run: nat)
    requires !t.ApplyFailed? && ValidPoint(t, PointConfigs(originals, p))
    ensures ProgrammedFor(earlier + PointLog(t, PointConfigs(originals, p), run), |earlier| + |originals|, originals, p)
  {
    hide WithTrap, ValidPoint, RiseOf, FlatOf, RunLog;
    var cfgs := PointConfigs(originals, p);
    forall j | 0 <= j < |originals| && p.Trap?
      ensures forall ch: nat :: RiseOf(cfgs[j], ch) == Some(p.rise) && FlatOf(cfgs[j], ch) == Some(p.flat)
      ensures cfgs[j].id == originals[j].id
    {
      forall ch: nat
        ensures RiseOf(cfgs[j], ch) == Some(p.rise) && FlatOf(cfgs[j], ch) == Some(p.flat)
      {
        TrapOnEveryChannel(originals[j], p.rise, p.flat, ch);
      }
      TrapOnEveryChannel(originals[j], p.rise, p.flat, 0);
    }
  }

  /** At `i` a run starts: it is the run of the point of its turn, under its settings. */
  ghost predicate StartsRight(log: seq<Call>, i: nat, originals: seq<Config>, points: seq<Point>, firstRun: nat) {
    && i < |log| && log[i].RunStart?
    && var k := StartsIn(log[..i]);
    && k < |points| && log[i].run == firstRun + k && ProgrammedFor(log, i, originals, points[k])
  }

  lemma StartsRightPrefix(a: seq<Call>, b: seq<Call>, i: nat, originals: seq<Config>, points: seq<Point>, firstRun: nat)
    requires StartsRight(a, i, originals, points, firstRun)
    ensures StartsRight(a + b, i, originals, points, firstRun)
  {
    hide StartsIn, Programs;
    assert (a + b)[..i] == a[..i];
  }

  lemma {:induction false} PointsStart(originals: seq<Config>, points: seq<Point>, firstRun: nat,
      traces: seq<PointTrace>)
    requires ValidTraces(originals, points, traces)
    ensures var log := PointsLog(originals, points, firstRun, traces);
            && (traces == [] || Completed(traces[|traces| - 1]) ==> StartsIn(log) == |traces|)
            && forall i :: 0 <= i < |log| && log[i].RunStart? ==> StartsRight(log, i, originals, points, firstRun)
    decreases |traces|
  {
    hide PointLog, PointConfigs, ValidPoint, StartsIn, StartsRight, ProgrammedFor;
    if traces == [] {
      NoStartsNone([]);
    } else {
      var n := |traces| - 1;
      var cfgs := PointConfigs(originals, points[n]);
      var earlier, last := PointsLog(originals, points, firstRun, traces[..n]), PointLog(traces[n], cfgs, firstRun + n);
      PointsStart(originals, points, firstRun, traces[..n]);
      StartsAppend(earlier, last);
      if traces[n].Ran? { PointHead(traces[n], cfgs, firstRun + n); }
      forall i | 0 <= i < |earlier + last| && (earlier + last)[i].RunStart?
        ensures StartsRight(earlier + last, i, originals, points, firstRun)
      {
        if i < |earlier| {
          StartsRightPrefix(earlier, last, i, originals, points, firstRun);
        } else {
          LastStart(originals, points, firstRun, traces, i);
        }
      }
    }
  }

  lemma LastStart(originals: seq<Config>, points: seq<Point>, firstRun: nat, traces: seq<PointTrace>, i: nat)
    requires traces != [] && ValidTraces(originals, points, traces)
    requires var n := |traces| - 1; StartsIn(PointsLog(originals, points, firstRun, traces[..n])) == n
    requires |PointsLog(originals, points, firstRun, traces[..|traces| - 1])| <= i
    requires i < |PointsLog(originals, points, firstRun, traces)|
    requires PointsLog(originals, points, firstRun, traces)[i].RunStart?
    ensures StartsRight(PointsLog(originals, points, firstRun, traces), i, originals, points, firstRun)
  {
    hide PointLog, PointConfigs, ValidPoint, StartsIn, ProgrammedFor, Completed;
    var n := |traces| - 1;
    var cfgs := PointConfigs(originals, points[n]);
    var earlier, last := PointsLog(originals, points, firstRun, traces[..n]), PointLog(traces[n], cfgs, firstRun + n);
    if traces[n].Ran? {
      PointHead(traces[n], cfgs, firstRun + n);
    } else {
      OtherPoints(traces[n], cfgs, firstRun + n, i - |earlier|);
    }
    ConfigsLength(originals, points[n]);
    ProgrammedAt(earlier, traces[n], originals, points[n], firstRun + n);
    assert (earlier + last)[..i] == earlier + last[..|cfgs|];
    BeforeStart(traces[n], cfgs, firstRun + n);
    StartsAppend(earlier, last[..|cfgs|]);
  }

  lemma ConfigsLength(originals: seq<Config>, p: Point)
    ensures |PointConfigs(originals, p)| == |originals|
  {
  }

  lemma BeforeStart(t: PointTrace, cfgs: seq<Config>, run: nat)
    requires ValidPoint(t, cfgs) && !t.ApplyFailed?
    ensures |cfgs| < |PointLog(t, cfgs, run)| && StartsIn(PointLog(t, cfgs, run)[..|cfgs|]) == 0
  {
    hide StartsIn, OnlyStatus, AllRunning, Polls, NoStarts;
    AppliesNoStarts(cfgs, AllOk(|cfgs|));
    NoStartsNone(Applies(cfgs, AllOk(|cfgs|)));
    assert PointLog(t, cfgs, run)[..|cfgs|] == Applies(cfgs, AllOk(|cfgs|));
  }

  /** Main result, for every scan: the `k`-th run to be started, counted from 0, has
      the number `firstRun + k`, and immediately before it every board has accepted
      the settings of the `k`-th point: its own at the first point, otherwise the
      point's trapezoid on every channel. */
  lemma RunsUnderPoint(s: Scan, i: nat)
    requires ValidScan(s) && i < |ScanLog(s)| && ScanLog(s)[i].RunStart?
    ensures StartsRight(ScanLog(s), i, s.originals, s.points, s.firstRun)
  {
    hide PointsLog, ValidTraces, IsRecovery, Applies, StartsRight, NoStarts;
    var points := PointsLog(s.originals, s.points, s.firstRun, s.traces);
    PointsStart(s.originals, s.points, s.firstRun, s.traces);
    if !s.csvFailed {
      var tail := s.recovery + Applies(s.originals, s.oks);
      RecoveryNoStarts(s.recovery);
      AppliesNoStarts(s.originals, s.oks);
      NoStartsBoth(s.recovery, Applies(s.originals, s.oks));
      Assoc(points, s.recovery, Applies(s.originals, s.oks));
      InFirst(points, tail, i);
      StartsRightPrefix(points, tail, i, s.originals, s.points, s.firstRun);
    }
  }

  // ---- No board is programmed again under a run ----

  lemma RecoveryAt(log: seq<Call>, i: nat)
    requires IsRecovery(log) && i < |log|
    ensures log[i].Stop? <==> i == 1
    ensures log[i].Stop? || log[i].Status?
    ensures |log| > 1 <==> log[0].reply in {Some(Running), Some(Armed)}
  {
    if i >= 2 { assert log[i] == log[2..][i - 2]; }
  }

  /** The polls behind the stop. */
  lemma RecoveryWaits(log: seq<Call>)
    requires IsRecovery(log) && |log| > 1
    ensures |log| > 2
    ensures forall i :: 2 <= i < |log| - 1 ==> log[i].reply.Some? && log[i] != Status(Some(Configured))
  {
    forall i | 2 <= i < |log| - 1
      ensures log[i].reply.Some? && log[i] != Status(Some(Configured))
    {
      assert log[i] == log[2..][i - 2];
    }
  }

  /** Main result, for every scan that gets to the restore: behind the points, at `m`,
      the status is read. If its answer is Running or Armed a stop is requested next
      and the state is polled until Configured is seen, an answer fails to come or the
      time is up; with any other answer there is no stop. Only then, from `n` on, are
      the originals applied, each once and in order. */
  lemma StoppedBeforeRestore(s: Scan) returns (m: nat, n: nat)
    requires ValidScan(s) && !s.csvFailed
    ensures var log := ScanLog(s);
            && m < n <= |log| && |log| - n == |s.originals|
            && log[..m] == PointsLog(s.originals, s.points, s.firstRun, s.traces)
            && log[m].Status?
            && (if log[m].reply == Some(Running) || log[m].reply == Some(Armed) then
                  m + 2 < n && log[m + 1].Stop? && forall i :: m + 2 <= i < n ==> log[i].Status?
                else n == m + 1)
            && (forall i :: m + 2 <= i < n - 1 ==> log[i].reply.Some? && log[i] != Status(Some(Configured)))
            && forall i :: n <= i < |log| ==> log[i].Apply? && log[i].cfg == s.originals[i - n]
  {
    hide PointsLog, ValidTraces, Applies, IsRecovery;
    var points, tail := PointsLog(s.originals, s.points, s.firstRun, s.traces), Applies(s.originals, s.oks);
    m, n := |points|, |points| + |s.recovery|;
    var log := ScanLog(s);
    RecoveryStarts(s.recovery);
    RecoveryAt(s.recovery, 0);
    if |s.recovery| > 1 { RecoveryWaits(s.recovery); RecoveryAt(s.recovery, 1); }
    assert log[..m] == points;
    forall i | m <= i < n
      ensures log[i] == s.recovery[i - m] && (i > m + 1 ==> log[i].Status?)
    {
      RecoveryAt(s.recovery, i - m);
    }
    forall i | n <= i < |log|
      ensures log[i] == tail[i - n]
    {
    }
  }

  lemma RecoveryStarts(log: seq<Call>)
    requires IsRecovery(log)
    ensures log != [] && log[0].Status?
  {
  }

  // ---- Runs do not keep running, and do not overlap ----

  lemma StopsAppend(a: seq<Call>, b: seq<Call>)
    requires StopsEveryStart(a) && StopsEveryStart(b)
    ensures StopsEveryStart(a + b)
  {
    forall i | 0 <= i < |a + b| && (a + b)[i].RunStart? && (a + b)[i].ok
      ensures StopAfter(a + b, i)
    {
      if i < |a| {
        assert StopAfter(a, i);
        var j :| i < j < |a| && a[j].Stop?;
        assert (a + b)[j].Stop?;
      } else {
        assert StopAfter(b, i - |a|);
        var j :| i - |a| < j < |b| && b[j].Stop?;
        assert (a + b)[|a| + j].Stop?;
      }
    }
  }

  lemma AppliesNoStarts(cfgs: seq<Config>, oks: seq<bool>)
    requires |oks| == |cfgs|
    ensures NoStarts(Applies(cfgs, oks))
  {
  }

  lemma NoStartsStops(log: seq<Call>)
    requires NoStarts(log)
    ensures StopsEveryStart(log) && RunsApart(log)
  {
  }

  lemma StatusNoStarts(log: seq<Call>)
    requires OnlyStatus(log)
    ensures NoStarts(log)
  {
  }

  lemma StopNoStarts(stopped: bool)
    ensures NoStarts([Stop(stopped)])
  {
  }

  /** Only the first call of a run's log starts a run. */
  lemma LateNoStart(t: PointTrace, run: nat, i: nat)
    requires t.Ran? && ValidPoint(t, []) && 0 < i < |RunLog(t, run)|
    ensures !RunLog(t, run)[i].RunStart?
  {
    hide OnlyStatus, NoStarts, AllRunning;
    var tail := t.watch + [Stop(t.stopped)] + t.settle;
    StatusNoStarts(t.watch);
    StopNoStarts(t.stopped);
    StatusNoStarts(t.settle);
    NoStartsBoth(t.watch, [Stop(t.stopped)]);
    NoStartsBoth(t.watch + [Stop(t.stopped)], t.settle);
    Assoc([RunStart(run, true)], t.watch, [Stop(t.stopped)]);
    Assoc([RunStart(run, true)], t.watch + [Stop(t.stopped)], t.settle);
    assert RunLog(t, run) == [RunStart(run, true)] + tail;
    NotStartAt(tail, i - 1);
  }

  lemma NotStartAt(log: seq<Call>, i: nat)
    requires NoStarts(log) && i < |log|
    ensures !log[i].RunStart?
  {
  }

  lemma RunLogStops(t: PointTrace, run: nat)
    requires !t.ApplyFailed? && ValidPoint(t, [])
    ensures StopsEveryStart(RunLog(t, run))
  {
    var log := RunLog(t, run);
    if t.Ran? {
      var k := 1 + |t.watch|;
      assert log[k] == Stop(t.stopped);
      forall i | 0 <= i < |log| && log[i].RunStart?
        ensures StopAfter(log, i)
      {
        if i > 0 { LateNoStart(t, run, i); }
        assert log[k].Stop?;
      }
    }
  }

  /** Every successful start of a point is followed by a stop request before the
      point is done, whatever failed and whenever the signal came. */
  lemma PointStops(t: PointTrace, cfgs: seq<Config>, run: nat)
    requires ValidPoint(t, cfgs)
    ensures StopsEveryStart(PointLog(t, cfgs, run))
  {
    hide RunLog, Applies, StopsEveryStart, NoStarts, RunsApart;
    if t.ApplyFailed? {
      AppliesNoStarts(cfgs[..t.n], AllOk(t.n));
      NoStartsStops(Applies(cfgs[..t.n], AllOk(t.n)));
      assert NoStarts([Apply(cfgs[t.n], false)]) by { ApplyIsNoStart(cfgs[t.n]); }
      NoStartsStops([Apply(cfgs[t.n], false)]);
      StopsAppend(Applies(cfgs[..t.n], AllOk(t.n)), [Apply(cfgs[t.n], false)]);
    } else {
      AppliesNoStarts(cfgs, AllOk(|cfgs|));
      NoStartsStops(Applies(cfgs, AllOk(|cfgs|)));
      RunLogStops(t, run);
      StopsAppend(Applies(cfgs, AllOk(|cfgs|)), RunLog(t, run));
    }
  }

  lemma ApplyIsNoStart(c: Config)
    ensures NoStarts([Apply(c, false)])
  {
  }

  /** Every start in `log` is settled before its end. */
  ghost predicate AllSettled(log: seq<Call>) {
    forall i :: 0 <= i < |log| && log[i].RunStart? ==> Settled(log, i, |log|)
  }

  lemma SettledIn(a: seq<Call>, b: seq<Call>, i: nat, n: nat)
    requires Settled(a, i, |a|) && |a| <= n <= |a + b|
    ensures Settled(a + b, i, n)
  {
    var s, c :| i < s < c < |a| && a[s] == Stop(true) && a[c] == Status(Some(Configured));
    assert (a + b)[s] == Stop(true) && (a + b)[c] == Status(Some(Configured));
  }

  lemma SettledShift(a: seq<Call>, b: seq<Call>, i: nat, k: nat)
    requires Settled(b, i, k)
    ensures Settled(a + b, |a| + i, |a| + k)
  {
    var s, c :| i < s < c < k <= |b| && b[s] == Stop(true) && b[c] == Status(Some(Configured));
    assert (a + b)[|a| + s] == Stop(true) && (a + b)[|a| + c] == Status(Some(Configured));
  }

  lemma ApartAppend(a: seq<Call>, b: seq<Call>)
    requires RunsApart(a) && AllSettled(a) && RunsApart(b)
    ensures RunsApart(a + b) && (AllSettled(b) ==> AllSettled(a + b))
  {
    hide Settled;
    var ab := a + b;
    forall i, k | 0 <= i < k < |ab| && ab[i].RunStart? && ab[k].RunStart?
      ensures Settled(ab, i, k)
    {
      if i < |a| {
        if k < |a| {
          assert Settled(a, i, k);
          SettledPrefix(a, b, i, k);
        } else {
          SettledIn(a, b, i, k);
        }
      } else {
        assert Settled(b, i - |a|, k - |a|);
        SettledShift(a, b, i - |a|, k - |a|);
      }
    }
    forall i | AllSettled(b) && 0 <= i < |ab| && ab[i].RunStart?
      ensures Settled(ab, i, |ab|)
    {
      if i < |a| { SettledIn(a, b, i, |ab|); } else { SettledShift(a, b, i - |a|, |b|); }
    }
  }

  lemma SettledPrefix(a: seq<Call>, b: seq<Call>, i: nat, k: nat)
    requires Settled(a, i, k)
    ensures Settled(a + b, i, k)
  {
    var s, c :| i < s < c < k <= |a| && a[s] == Stop(true) && a[c] == Status(Some(Configured));
    assert (a + b)[s] == Stop(true) && (a + b)[c] == Status(Some(Configured));
  }

  lemma NoStartsSettled(log: seq<Call>)
    requires NoStarts(log)
    ensures AllSettled(log) && RunsApart(log)
  {
  }

  lemma RunLogApart(t: PointTrace, run: nat)
    requires !t.ApplyFailed? && ValidPoint(t, [])
    ensures RunsApart(RunLog(t, run)) && (Completed(t) ==> AllSettled(RunLog(t, run)))
  {
    var log := RunLog(t, run);
    if t.Ran? {
      var k := 1 + |t.watch|;
      forall i | 0 <= i < |log| && log[i].RunStart?
        ensures i == 0
      {
        if i > 0 { LateNoStart(t, run, i); }
      }
      if Completed(t) {
        assert log[k] == Stop(true) && log[|log| - 1] == Status(Some(Configured));
      }
    }
  }

  lemma PointApart(t: PointTrace, cfgs: seq<Config>, run: nat)
    requires ValidPoint(t, cfgs)
    ensures RunsApart(PointLog(t, cfgs, run)) && (Completed(t) ==> AllSettled(PointLog(t, cfgs, run)))
  {
    hide RunLog, Applies, AllSettled, NoStarts, RunsApart;
    if t.ApplyFailed? {
      var first := Applies(cfgs[..t.n], AllOk(t.n));
      AppliesNoStarts(cfgs[..t.n], AllOk(t.n));
      NoStartsSettled(first);
      ApplyIsNoStart(cfgs[t.n]);
      NoStartsSettled([Apply(cfgs[t.n], false)]);
      ApartAppend(first, [Apply(cfgs[t.n], false)]);
    } else {
      AppliesNoStarts(cfgs, AllOk(|cfgs|));
      NoStartsSettled(Applies(cfgs, AllOk(|cfgs|)));
      RunLogApart(t, run);
      ApartAppend(Applies(cfgs, AllOk(|cfgs|)), RunLog(t, run));
    }
  }

  lemma {:induction false} PointsStop(originals: seq<Config>, points: seq<Point>, firstRun: nat,
      traces: seq<PointTrace>)
    requires ValidTraces(originals, points, traces)
    ensures StopsEveryStart(PointsLog(originals, points, firstRun, traces))
    ensures RunsApart(PointsLog(originals, points, firstRun, traces))
    ensures (traces == [] || Completed(traces[|traces| - 1])) ==>
        AllSettled(PointsLog(originals, points, firstRun, traces))
    decreases |traces|
  {
    hide PointLog, PointConfigs, ValidPoint, Completed, StopsEveryStart, RunsApart, AllSettled, NoStarts;
    if traces == [] {
      assert NoStarts([]) by { Nothing(); }
      NoStartsStops([]);
      NoStartsSettled([]);
    } else {
      var n := |traces| - 1;
      var cfgs := PointConfigs(originals, points[n]);
      var earlier, last := PointsLog(originals, points, firstRun, traces[..n]), PointLog(traces[n], cfgs, firstRun + n);
      PointsStop(originals, points, firstRun, traces[..n]);
      PointStops(traces[n], cfgs, firstRun + n);
      PointApart(traces[n], cfgs, firstRun + n);
      StopsAppend(earlier, last);
      ApartAppend(earlier, last);
    }
  }

  lemma Nothing()
    ensures NoStarts([])
  {
  }

  lemma RecoveryNoStarts(log: seq<Call>)
    requires IsRecovery(log)
    ensures NoStarts(log)
  {
    forall i | 0 <= i < |log|
      ensures !log[i].RunStart?
    {
      if i >= 2 { assert log[i] == log[2..][i - 2]; }
    }
  }

  /** Over the whole scan every started run is asked to stop, and a run is only
      started when the one before was stopped and Configured was seen again. */
  lemma ScanStopsRuns(s: Scan)
    requires ValidScan(s)
    ensures StopsEveryStart(ScanLog(s)) && RunsApart(ScanLog(s))
  {
    hide PointsLog, ValidTraces, IsRecovery, Applies, StopsEveryStart, RunsApart, AllSettled, NoStarts, Completed;
    var points := PointsLog(s.originals, s.points, s.firstRun, s.traces);
    PointsStop(s.originals, s.points, s.firstRun, s.traces);
    if !s.csvFailed {
      var tail := s.recovery + Applies(s.originals, s.oks);
      RecoveryNoStarts(s.recovery);
      AppliesNoStarts(s.originals, s.oks);
      NoStartsBoth(s.recovery, Applies(s.originals, s.oks));
      NoStartsStops(tail);
      StopsAppend(points, tail);
      ApartAppendQuiet(points, tail);
      Assoc(points, s.recovery, Applies(s.originals, s.oks));
    }
  }

  lemma NoStartsBoth(a: seq<Call>, b: seq<Call>)
    requires NoStarts(a) && NoStarts(b)
    ensures NoStarts(a + b)
  {
  }

  lemma InFirst(a: seq<Call>, b: seq<Call>, k: nat)
    requires NoStarts(b) && k < |a + b| && (a + b)[k].RunStart?
    ensures k < |a|
  {
  }

  lemma ApartAppendQuiet(a: seq<Call>, b: seq<Call>)
    requires RunsApart(a) && NoStarts(b)
    ensures RunsApart(a + b)
  {
    hide Settled;
    forall i, k | 0 <= i < k < |a + b| && (a + b)[i].RunStart? && (a + b)[k].RunStart?
      ensures Settled(a + b, i, k)
    {
      assert k < |a| by { InFirst(a, b, k); }
      assert Settled(a, i, k);
      SettledPrefix(a, b, i, k);
    }
  }
}
