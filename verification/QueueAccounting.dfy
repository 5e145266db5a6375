/** `queue_accounting.rs`: the lock-free gauge of an unbounded channel, run by
    one thread at a time and under every interleaving of its atomic accesses. */
module QueueAccounting {

  datatype Counters = Counters(enqItems: nat, deqItems: nat, enqBytes: nat, deqBytes: nat, peak: nat)

  const ZERO := Counters(0, 0, 0, 0, 0)

  function SatSub(a: nat, b: nat): (r: nat) { if a < b then 0 else a - b }

  function DepthBytes(c: Counters): (n: nat) { SatSub(c.enqBytes, c.deqBytes) }

  function DepthItems(c: Counters): (n: nat) { SatSub(c.enqItems, c.deqItems) }

  function Max(a: nat, b: nat): (r: nat) { if a < b then b else a }

  // ---- One call after another ----

  datatype Op = Enqueue(bytes: nat) | Dequeue(bytes: nat) | ResetPeak

  function Perform(c: Counters, op: Op): (r: Counters) {
    match op
    case Enqueue(b) =>
      var d := c.(enqItems := c.enqItems + 1, enqBytes := c.enqBytes + b);
      d.(peak := Max(d.peak, DepthBytes(d)))
    case Dequeue(b) => c.(deqItems := c.deqItems + 1, deqBytes := c.deqBytes + b)
    case ResetPeak => c.(peak := DepthBytes(c))
  }

  class Gauge {
    var enqueuedItems: nat
    var dequeuedItems: nat
    var enqueuedBytes: nat
    var dequeuedBytes: nat
    var peakBytes: nat

    function View(): (c: Counters)
      reads this
    {
      Counters(enqueuedItems, dequeuedItems, enqueuedBytes, dequeuedBytes, peakBytes)
    }

    constructor ()
      ensures View() == ZERO
    {
      enqueuedItems, dequeuedItems, enqueuedBytes, dequeuedBytes, peakBytes := 0, 0, 0, 0, 0;
    }

    method Depth() returns (bytes: nat, items: nat)
      ensures bytes == DepthBytes(View()) && items == DepthItems(View())
    {
      bytes := SatSub(enqueuedBytes, dequeuedBytes);
      items := SatSub(enqueuedItems, dequeuedItems);
    }

    method OnEnqueue(bytes: nat)
      modifies this
      ensures View() == Perform(old(View()), Enqueue(bytes))
    {
      enqueuedItems := enqueuedItems + 1;
      enqueuedBytes := enqueuedBytes + bytes;
      var depth, _ := Depth();
      if peakBytes < depth { peakBytes := depth; }
    }

    method OnDequeue(bytes: nat)
      modifies this
      ensures View() == Perform(old(View()), Dequeue(bytes))
    {
      dequeuedItems := dequeuedItems + 1;
      dequeuedBytes := dequeuedBytes + bytes;
    }

    method RebasePeak()
      modifies this
      ensures View() == Perform(old(View()), ResetPeak)
    {
      var depth, _ := Depth();
      peakBytes := depth;
    }
  }

  function After(ops: seq<Op>): (c: Counters) {
    if ops == [] then ZERO else Perform(After(ops[..|ops| - 1]), ops[|ops| - 1])
  }

  /** The peak window in force after `ops` opens behind operation `w - 1`. */
  predicate WindowOpens(ops: seq<Op>, w: nat) {
    && w <= |ops|
    && (w == 0 || ops[w - 1].ResetPeak?)
    && (forall i :: w <= i < |ops| ==> !ops[i].ResetPeak?)
  }

  function DepthAt(ops: seq<Op>, k: nat): (n: nat)
    requires k <= |ops|
  {
    DepthBytes(After(ops[..k]))
  }

  /** Run by one thread, the peak is exactly the largest depth since the last
      `reset_peak`, the depth at the reset included. */
  lemma {:induction false} PeakIsWindowMax(ops: seq<Op>, w: nat) returns (k: nat)
    requires WindowOpens(ops, w)
    ensures w <= k <= |ops| && After(ops).peak == DepthAt(ops, k)
    ensures forall j :: w <= j <= |ops| ==> DepthAt(ops, j) <= After(ops).peak
    decreases |ops|
  {
    var n := |ops|;
    assert ops[..n] == ops;
    if w == n {
      k := w;
      assert n == 0 || After(ops) == Perform(After(ops[..n - 1]), ResetPeak);
    } else {
      k := PeakIsWindowMax(ops[..n - 1], w);
      LastInWindow(ops, ops[..n - 1], w);
      if Raises(ops) { k := n; }
    }
  }

  /** The last operation raises the peak. */
  ghost predicate Raises(ops: seq<Op>)
    requires ops != []
  {
    After(ops).peak != After(ops[..|ops| - 1]).peak
  }

  lemma LastInWindow(ops: seq<Op>, before: seq<Op>, w: nat)
    requires ops != [] && !ops[|ops| - 1].ResetPeak? && w < |ops| && before == ops[..|ops| - 1]
    requires forall j :: w <= j < |ops| ==> DepthAt(before, j) <= After(before).peak
    ensures forall j :: w <= j < |ops| ==> DepthAt(ops, j) == DepthAt(before, j)
    ensures forall j :: w <= j <= |ops| ==> DepthAt(ops, j) <= After(ops).peak
    ensures Raises(ops) ==> DepthAt(ops, |ops|) == After(ops).peak
  {
    var n := |ops|;
    assert ops[..n] == ops && before[..n - 1] == before;
    forall j | w <= j < n
      ensures DepthAt(ops, j) == DepthAt(before, j)
    {
      assert ops[..j] == before[..j];
    }
    assert DepthAt(before, n - 1) <= After(before).peak;
    LastOp(After(before), ops[n - 1]);
    hide Perform, DepthBytes;
  }

  lemma LastOp(c: Counters, op: Op)
    requires !op.ResetPeak? && DepthBytes(c) <= c.peak
    ensures var r := Perform(c, op);
            r.peak >= c.peak && DepthBytes(r) <= r.peak && (r.peak != c.peak ==> DepthBytes(r) == r.peak)
  {
  }

  // ---- Any number of threads, one atomic access at a time ----

  /** Where a thread stands: inside `on_enqueue` and the send that follows,
      inside `on_dequeue`, inside a status read, or inside `reset_peak`. */
  datatype Pc =
    | Idle
    | CountBytes(b: nat) | LoadEnq(b: nat) | LoadDeq(b: nat, e: nat) | RaisePeak(b: nat, v: nat) | ToSend(b: nat)
    | CountOutItem(b: nat) | CountOutBytes(b: nat)
    | ReadDeq(e: nat) | Report(v: nat)
    | ReadItemsDeq(e: nat) | ReportItems(v: nat)
    | ResetDeq(e: nat) | ResetStore(v: nat)

  datatype State = State(c: Counters, channel: seq<nat>, threads: seq<Pc>)

  datatype Call = CallEnqueue(b: nat) | CallReceive | CallRead | CallReadItems | CallReset

  /** `Go(sent)` is the thread's next access; `sent` is the outcome of a send. */
  datatype Action = Begin(call: Call) | Go(sent: bool)

  datatype Label = Label(thread: nat, action: Action)

  /** The access of a thread inside a call: new counters, channel and position. */
  function Access(c: Counters, ch: seq<nat>, pc: Pc, sent: bool): (r: (Counters, seq<nat>, Pc)) {
    match pc
    case Idle => (c, ch, Idle)
    case CountBytes(b) => (c.(enqBytes := c.enqBytes + b), ch, LoadEnq(b))
    case LoadEnq(b) => (c, ch, LoadDeq(b, c.enqBytes))
    case LoadDeq(b, e) => (c, ch, RaisePeak(b, SatSub(e, c.deqBytes)))
    case RaisePeak(b, v) => (c.(peak := Max(c.peak, v)), ch, ToSend(b))
    case ToSend(b) => if sent then (c, ch + [b], Idle) else (c, ch, CountOutItem(b))
    case CountOutItem(b) => (c.(deqItems := c.deqItems + 1), ch, CountOutBytes(b))
    case CountOutBytes(b) => (c.(deqBytes := c.deqBytes + b), ch, Idle)
    case ReadDeq(e) => (c, ch, Report(SatSub(e, c.deqBytes)))
    case Report(_) => (c, ch, Idle)
    case ReadItemsDeq(e) => (c, ch, ReportItems(SatSub(e, c.deqItems)))
    case ReportItems(_) => (c, ch, Idle)
    case ResetDeq(e) => (c, ch, ResetStore(SatSub(e, c.deqBytes)))
    case ResetStore(v) => (c.(peak := v), ch, Idle)
  }

  /** The first access of a call. */
  function Enter(c: Counters, ch: seq<nat>, call: Call): (r: (Counters, seq<nat>, Pc)) {
    match call
    case CallEnqueue(b) => (c.(enqItems := c.enqItems + 1), ch, CountBytes(b))
    case CallReceive => if ch == [] then (c, ch, Idle) else (c, ch[1..], CountOutItem(ch[0]))
    case CallRead => (c, ch, ReadDeq(c.enqBytes))
    case CallReadItems => (c, ch, ReadItemsDeq(c.enqItems))
    case CallReset => (c, ch, ResetDeq(c.enqBytes))
  }

  function Act(c: Counters, ch: seq<nat>, pc: Pc, a: Action): (r: (Counters, seq<nat>, Pc)) {
    match a
    case Go(sent) => Access(c, ch, pc, sent)
    case Begin(call) => if pc.Idle? then Enter(c, ch, call) else (c, ch, pc)
  }

  function Next(s: State, l: Label): (r: State) {
    if l.thread >= |s.threads| then s
    else
      var (c, ch, pc) := Act(s.c, s.channel, s.threads[l.thread], l.action);
      State(c, ch, s.threads[l.thread := pc])
  }

  predicate Initial(s: State) {
    s.c == ZERO && s.channel == [] && forall t :: 0 <= t < |s.threads| ==> s.threads[t].Idle?
  }

  /** `tr` lists the states that the accesses `ls` lead through. */
  ghost predicate IsRun(tr: seq<State>, ls: seq<Label>) {
    && |tr| == |ls| + 1 && Initial(tr[0])
    && forall i :: 0 <= i < |ls| ==> tr[i + 1] == Next(tr[i], ls[i])
  }

  // ---- What a depth computation sees ----

  /** Why a depth is computed: to raise the peak, for a status in bytes or in
      items, or to re-base the peak. */
  datatype Kind = ForPeak(b: nat) | ForStatus | ForItems | ForReset

  /** Where a thread stands before its first load, between its loads, and after. */
  function Ready(k: Kind): (pc: Pc) { if k.ForPeak? then LoadEnq(k.b) else Idle }

  function Loaded(k: Kind, e: nat): (pc: Pc) {
    match k
    case ForPeak(b) => LoadDeq(b, e)
    case ForStatus => ReadDeq(e)
    case ForItems => ReadItemsDeq(e)
    case ForReset => ResetDeq(e)
  }

  function Computed(k: Kind, v: nat): (pc: Pc) {
    match k
    case ForPeak(b) => RaisePeak(b, v)
    case ForStatus => Report(v)
    case ForItems => ReportItems(v)
    case ForReset => ResetStore(v)
  }

  function EnqOf(k: Kind, c: Counters): (n: nat) { if k.ForItems? then c.enqItems else c.enqBytes }

  function DeqOf(k: Kind, c: Counters): (n: nat) { if k.ForItems? then c.deqItems else c.deqBytes }

  function TrueDepth(k: Kind, c: Counters): (n: nat) { if k.ForItems? then DepthItems(c) else DepthBytes(c) }

  predicate Stands(tr: seq<State>, m: nat, t: nat, pc: Pc) {
    m < |tr| && t < |tr[m].threads| && tr[m].threads[t] == pc
  }

  /** Thread `t` loaded the enqueued total at instant `i` and the dequeued total at
      instant `k` of one and the same call, and still holds the result at `j`. */
  ghost predicate ComputedBy(tr: seq<State>, t: nat, kind: Kind, i: nat, k: nat, j: nat, v: nat) {
    && i < k < j < |tr| && Stands(tr, i, t, Ready(kind))
    && (forall m :: i < m <= k ==> Stands(tr, m, t, Loaded(kind, EnqOf(kind, tr[i].c))))
    && (forall m :: k < m <= j ==> Stands(tr, m, t, Computed(kind, v)))
    && v == SatSub(EnqOf(kind, tr[i].c), DeqOf(kind, tr[k].c))
  }

  /** The true depth was at least `v` all the way between two instants. */
  ghost predicate DepthHeld(tr: seq<State>, kind: Kind, i: nat, k: nat, v: nat) {
    i <= k < |tr| && forall m :: i <= m <= k ==> v <= TrueDepth(kind, tr[m].c)
  }

  lemma BecameLoaded(s: State, l: Label, t: nat, kind: Kind, e: nat)
    requires t < |s.threads| && s.threads[t] != Loaded(kind, e) && Next(s, l).threads[t] == Loaded(kind, e)
    ensures s.threads[t] == Ready(kind) && e == EnqOf(kind, s.c)
  {
    hide SatSub, Max;
  }

  lemma BecameComputed(s: State, l: Label, t: nat, kind: Kind, v: nat) returns (e: nat)
    requires t < |s.threads| && s.threads[t] != Computed(kind, v) && Next(s, l).threads[t] == Computed(kind, v)
    ensures s.threads[t] == Loaded(kind, e) && v == SatSub(e, DeqOf(kind, s.c))
  {
    hide SatSub, Max;
    e := s.threads[t].e;
  }

  lemma NotAtStart(s: State, t: nat, kind: Kind, n: nat)
    requires Initial(s) && t < |s.threads|
    ensures s.threads[t] != Loaded(kind, n) && s.threads[t] != Computed(kind, n)
  {
  }

  lemma SameThreads(s: State, l: Label)
    ensures |Next(s, l).threads| == |s.threads|
  {
  }

  /** The instant of the first load. */
  lemma {:induction false} LoadHistory(tr: seq<State>, ls: seq<Label>, t: nat, kind: Kind, e: nat, j: nat)
      returns (i: nat)
    requires IsRun(tr, ls) && Stands(tr, j, t, Loaded(kind, e))
    ensures i < j && Stands(tr, i, t, Ready(kind)) && e == EnqOf(kind, tr[i].c)
    ensures forall m :: i < m <= j ==> Stands(tr, m, t, Loaded(kind, e))
    decreases j
  {
    hide Next, Initial, Loaded, Ready, EnqOf;
    if j == 0 {
      NotAtStart(tr[0], t, kind, e);
    } else {
      SameThreads(tr[j - 1], ls[j - 1]);
      if tr[j - 1].threads[t] == Loaded(kind, e) {
        i := LoadHistory(tr, ls, t, kind, e, j - 1);
      } else {
        i := j - 1;
        BecameLoaded(tr[i], ls[i], t, kind, e);
      }
    }
  }

  /** The instants of both loads. */
  lemma {:induction false} DepthHistory(tr: seq<State>, ls: seq<Label>, t: nat, kind: Kind, v: nat, j: nat)
    returns (i: nat, k: nat)
    requires IsRun(tr, ls) && Stands(tr, j, t, Computed(kind, v))
    ensures ComputedBy(tr, t, kind, i, k, j, v)
    decreases j
  {
    hide Next, Initial, Loaded, Computed, Ready, EnqOf, DeqOf, SatSub;
    if j == 0 {
      NotAtStart(tr[0], t, kind, v);
    } else {
      SameThreads(tr[j - 1], ls[j - 1]);
      if tr[j - 1].threads[t] == Computed(kind, v) {
        i, k := DepthHistory(tr, ls, t, kind, v, j - 1);
      } else {
        k := j - 1;
        var e := BecameComputed(tr[k], ls[k], t, kind, v);
        i := LoadHistory(tr, ls, t, kind, e, k);
      }
    }
  }

  lemma NextMonotone(s: State, l: Label)
    ensures s.c.enqBytes <= Next(s, l).c.enqBytes && s.c.deqBytes <= Next(s, l).c.deqBytes
    ensures s.c.enqItems <= Next(s, l).c.enqItems && s.c.deqItems <= Next(s, l).c.deqItems
  {
    hide SatSub, Max;
  }

  /** The cumulative counters never go down. */
  lemma {:induction false} Monotone(tr: seq<State>, ls: seq<Label>, kind: Kind, i: nat, k: nat)
    requires IsRun(tr, ls) && i <= k < |tr|
    ensures EnqOf(kind, tr[i].c) <= EnqOf(kind, tr[k].c) && DeqOf(kind, tr[i].c) <= DeqOf(kind, tr[k].c)
    decreases k
  {
    hide Next, Initial;
    if i == k {
    } else {
      Monotone(tr, ls, kind, i, k - 1);
      NextMonotone(tr[k - 1], ls[k - 1]);
    }
  }

  /** Main result, under every interleaving: a depth that a thread has computed is
      the difference of its own two loads, and at most the true depth at both of
      them and at every instant between them. This holds of the depths that raise
      the peak, that a status reports in bytes and in items, and that a reset stores. */
  lemma DepthBelowTrue(tr: seq<State>, ls: seq<Label>, t: nat, kind: Kind, v: nat, j: nat) returns (i: nat, k: nat)
    requires IsRun(tr, ls) && Stands(tr, j, t, Computed(kind, v))
    ensures ComputedBy(tr, t, kind, i, k, j, v) && DepthHeld(tr, kind, i, k, v)
  {
    hide IsRun;
    i, k := DepthHistory(tr, ls, t, kind, v, j);
    forall m | i <= m <= k
      ensures v <= TrueDepth(kind, tr[m].c)
    {
      Monotone(tr, ls, kind, i, m);
      Monotone(tr, ls, kind, m, k);
    }
  }

  /** The call that set a peak: its thread, its loads and the instant of its access. */
  datatype Origin = Never | From(t: nat, kind: Kind, i: nat, k: nat, m: nat)

  /** The peak at `j` was set at instant `o.m` and not changed since. */
  ghost predicate PeakFrom(tr: seq<State>, ls: seq<Label>, j: nat, o: Origin)
    requires |tr| == |ls| + 1 && j < |tr|
  {
    match o
    case Never => tr[j].c.peak == 0
    case From(t, kind, i, k, m) =>
      && (kind.ForPeak? || kind.ForReset?) && m < j && ls[m].thread == t
      && ComputedBy(tr, t, kind, i, k, m, tr[j].c.peak) && DepthHeld(tr, kind, i, k, tr[j].c.peak)
      && forall x :: m < x <= j ==> tr[x].c.peak == tr[j].c.peak
  }

  lemma PeakChange(s: State, l: Label) returns (kind: Kind)
    requires Next(s, l).c.peak != s.c.peak
    ensures l.thread < |s.threads| && s.threads[l.thread] == Computed(kind, Next(s, l).c.peak)
    ensures kind.ForPeak? || kind.ForReset?
  {
    hide SatSub;
    var pc := s.threads[l.thread];
    kind := if pc.RaisePeak? then ForPeak(pc.b) else ForReset;
  }

  /** Main result: the peak never exceeds a depth that the channel really had. It is
      what one call computed from its own two loads, and the true depth was at
      least that from the first of them to the second. */
  lemma {:induction false} PeakBelowTrueMax(tr: seq<State>, ls: seq<Label>, j: nat) returns (o: Origin)
    requires IsRun(tr, ls) && j < |tr|
    ensures PeakFrom(tr, ls, j, o)
    decreases j
  {
    hide Next, ComputedBy, DepthHeld, Computed;
    if j == 0 {
      o := Never;
    } else if tr[j].c.peak == tr[j - 1].c.peak {
      o := PeakBelowTrueMax(tr, ls, j - 1);
    } else {
      var m := j - 1;
      var kind := PeakChange(tr[m], ls[m]);
      var i, k := DepthBelowTrue(tr, ls, ls[m].thread, kind, tr[j].c.peak, m);
      o := From(ls[m].thread, kind, i, k, m);
    }
  }

  // ---- Conservation ----

  /** Bytes counted in by a thread and not in the channel, or taken from it (or
      refused by it) and not counted out. */
  function HeldBytes(pc: Pc): (n: nat) {
    match pc
    case LoadEnq(b) => b
    case LoadDeq(b, _) => b
    case RaisePeak(b, _) => b
    case ToSend(b) => b
    case CountOutItem(b) => b
    case CountOutBytes(b) => b
    case _ => 0
  }

  function HeldItems(pc: Pc): (n: nat) {
    if pc.CountBytes? || pc.LoadEnq? || pc.LoadDeq? || pc.RaisePeak? || pc.ToSend? || pc.CountOutItem? then 1 else 0
  }

  function Sum(s: seq<nat>): (n: nat) { if s == [] then 0 else Sum(s[..|s| - 1]) + s[|s| - 1] }

  function AllHeld(threads: seq<Pc>): (n: nat) {
    if threads == [] then 0 else AllHeld(threads[..|threads| - 1]) + HeldBytes(threads[|threads| - 1])
  }

  function AllItems(threads: seq<Pc>): (n: nat) {
    if threads == [] then 0 else AllItems(threads[..|threads| - 1]) + HeldItems(threads[|threads| - 1])
  }

  ghost predicate Balanced(s: State) {
    && s.c.enqBytes == s.c.deqBytes + Sum(s.channel) + AllHeld(s.threads)
    && s.c.enqItems == s.c.deqItems + |s.channel| + AllItems(s.threads)
  }

  lemma {:induction false} SumSnoc(s: seq<nat>, x: nat)
    ensures Sum(s + [x]) == Sum(s) + x
  {
    assert (s + [x])[..|s|] == s;
  }

  lemma {:induction false} SumTail(s: seq<nat>)
    requires s != []
    ensures Sum(s) == s[0] + Sum(s[1..])
    decreases |s|
  {
    if |s| > 1 {
      SumTail(s[..|s| - 1]);
      assert s[..|s| - 1][1..] == s[1..][..|s| - 2];
    }
  }

  lemma {:induction false} HeldUpdate(ts: seq<Pc>, t: nat, pc: Pc)
    requires t < |ts|
    ensures AllHeld(ts[t := pc]) == AllHeld(ts) - HeldBytes(ts[t]) + HeldBytes(pc)
    ensures AllItems(ts[t := pc]) == AllItems(ts) - HeldItems(ts[t]) + HeldItems(pc)
    decreases |ts|
  {
    hide HeldBytes, HeldItems;
    var n := |ts| - 1;
    if t < n {
      HeldUpdate(ts[..n], t, pc);
      assert ts[t := pc][..n] == ts[..n][t := pc];
    } else {
      assert ts[t := pc][..n] == ts[..n];
    }
  }

  /** What one access moves between the counters, the channel and the thread. */
  lemma ActBalance(c: Counters, ch: seq<nat>, pc: Pc, a: Action)
    ensures var r := Act(c, ch, pc, a);
            && r.0.enqBytes - r.0.deqBytes - Sum(r.1) - HeldBytes(r.2) ==
                c.enqBytes - c.deqBytes - Sum(ch) - HeldBytes(pc)
            && r.0.enqItems - r.0.deqItems - |r.1| - HeldItems(r.2) == c.enqItems - c.deqItems - |ch| - HeldItems(pc)
  {
    hide Sum, SatSub, Max;
    if ch != [] { SumTail(ch); }
    if pc.ToSend? { SumSnoc(ch, pc.b); }
  }

  lemma NextBalanced(s: State, l: Label)
    requires Balanced(s)
    ensures Balanced(Next(s, l))
  {
    hide Sum, AllHeld, AllItems, Act, HeldBytes, HeldItems;
    if l.thread < |s.threads| {
      var r := Act(s.c, s.channel, s.threads[l.thread], l.action);
      ActBalance(s.c, s.channel, s.threads[l.thread], l.action);
      HeldUpdate(s.threads, l.thread, r.2);
    }
  }

  lemma {:induction false} IdleHoldsNothing(ts: seq<Pc>)
    requires forall t :: 0 <= t < |ts| ==> ts[t].Idle?
    ensures AllHeld(ts) == 0 && AllItems(ts) == 0
    decreases |ts|
  {
    if ts == [] {
    } else {
      IdleHoldsNothing(ts[..|ts| - 1]);
    }
  }

  /** Items are counted in before they are sent and counted out after they are
      received, so the true difference is what the channel holds plus what is in
      the hands of a thread: never below the bytes in the channel. */
  lemma {:induction false} Conservation(tr: seq<State>, ls: seq<Label>, j: nat)
    requires IsRun(tr, ls) && j < |tr|
    ensures Balanced(tr[j])
    ensures tr[j].c.enqBytes >= tr[j].c.deqBytes + Sum(tr[j].channel)
    ensures tr[j].c.enqItems >= tr[j].c.deqItems + |tr[j].channel|
  {
    hide Next, Sum, AllHeld, AllItems;
    if j == 0 {
      IdleHoldsNothing(tr[0].threads);
      SumNothing();
    } else {
      Conservation(tr, ls, j - 1);
      NextBalanced(tr[j - 1], ls[j - 1]);
    }
  }

  lemma SumNothing()
    ensures Sum([]) == 0
  {
  }

  // ---- What the peak misses ----

  /** The thread will still raise the peak to the present depth. */
  predicate WillRaise(c: Counters, pc: Pc) {
    match pc
    case LoadEnq(_) => true
    case LoadDeq(_, e) => e == c.enqBytes
    case RaisePeak(_, v) => v + c.deqBytes >= c.enqBytes
    case _ => false
  }

  ghost predicate SomeoneWillRaise(s: State) { exists t :: 0 <= t < |s.threads| && WillRaise(s.c, s.threads[t]) }

  /** The peak has reached the present difference, or is about to be raised to it. */
  ghost predicate Covered(s: State) { s.c.peak + s.c.deqBytes >= s.c.enqBytes || SomeoneWillRaise(s) }

  /** A store by `reset_peak` of a depth that is out of date, with no thread about
      to raise the peak. */
  ghost predicate Loses(s: State, l: Label) {
    && l.thread < |s.threads| && l.action.Go?
    && s.threads[l.thread].ResetStore? && s.threads[l.thread].v + s.c.deqBytes < s.c.enqBytes
    && !SomeoneWillRaise(s)
  }

  /** A thread is about to raise the peak to a value that leaves nothing missing
      once the dequeued total is `deq`. */
  ghost predicate RaiserAt(s: State, deq: nat) {
    exists t :: 0 <= t < |s.threads| && s.threads[t].RaisePeak? && s.threads[t].v + deq >= s.c.enqBytes
  }

  /** An access after which the peak is not missing anything: an enqueue counts its
      bytes (and will raise the peak), a dequeue brings the difference down to the
      peak or to what a thread is about to raise it to, or a reset stores a depth
      that is not out of date. */
  ghost predicate Restores(s: State, l: Label) {
    && l.thread < |s.threads| && l.action.Go?
    && match s.threads[l.thread]
       case CountBytes(_) => true
       case CountOutBytes(b) =>
         s.c.peak + s.c.deqBytes + b >= s.c.enqBytes || RaiserAt(s, s.c.deqBytes + b)
       case ResetStore(v) => v + s.c.deqBytes >= s.c.enqBytes
       case _ => false
  }

  lemma RaiserStays(c: Counters, r: Counters, pc: Pc)
    requires WillRaise(c, pc) && r.enqBytes == c.enqBytes && r.deqBytes >= c.deqBytes
    ensures WillRaise(r, pc)
  {
  }

  /** The moving thread outside `reset_peak`'s store. */
  lemma ActCovers(c: Counters, ch: seq<nat>, pc: Pc, a: Action)
    requires !(pc.ResetStore? && a.Go?)
    ensures var r := Act(c, ch, pc, a);
            || (pc.CountBytes? && a.Go? && WillRaise(r.0, r.2))
            || (&& r.0.enqBytes == c.enqBytes && r.0.deqBytes >= c.deqBytes && r.0.peak >= c.peak
                && (WillRaise(c, pc) ==> WillRaise(r.0, r.2) || r.0.peak + r.0.deqBytes >= r.0.enqBytes))
  {
  }

  /** From a covered state only the stale store uncovers. */
  lemma CoveredStep(s: State, l: Label)
    requires Covered(s) && !Loses(s, l)
    ensures Covered(Next(s, l))
  {
    hide Act, WillRaise;
    var i, r := l.thread, Next(s, l);
    if i < |s.threads| {
      var pc, a := s.threads[i], Act(s.c, s.channel, s.threads[i], l.action);
      assert r.c == a.0 && r.threads[i] == a.2;
      if pc.ResetStore? && l.action.Go? {
        StoreKeeps(s, l);
      } else {
        ActCovers(s.c, s.channel, pc, l.action);
        NextMonotone(s, l);
        if t :| 0 <= t < |s.threads| && WillRaise(s.c, s.threads[t]) {
          if t != i && a.0.enqBytes == s.c.enqBytes {
            RaiserStays(s.c, a.0, s.threads[t]);
            assert r.threads[t] == s.threads[t];
          }
        }
      }
    }
  }

  lemma StoreKeeps(s: State, l: Label)
    requires l.thread < |s.threads| && s.threads[l.thread].ResetStore? && l.action.Go? && !Loses(s, l)
    ensures Covered(Next(s, l))
  {
    var r, v := Next(s, l), s.threads[l.thread].v;
    assert r.c == s.c.(peak := v);
    if t :| 0 <= t < |s.threads| && WillRaise(s.c, s.threads[t]) {
      assert t != l.thread && r.threads[t] == s.threads[t];
      assert WillRaise(r.c, r.threads[t]);
    }
  }

  lemma StaleStoreUncovers(s: State, l: Label)
    requires Loses(s, l)
    ensures !Covered(Next(s, l))
  {
    var r, v := Next(s, l), s.threads[l.thread].v;
    assert r.c == s.c.(peak := v);
    forall t | 0 <= t < |r.threads|
      ensures !WillRaise(r.c, r.threads[t])
    {
      assert !WillRaise(s.c, s.threads[t]);
    }
  }

  /** The moving thread of an uncovered state, counting bytes out or not. */
  lemma ActUncovered(c: Counters, ch: seq<nat>, pc: Pc, a: Action)
    requires c.peak + c.deqBytes < c.enqBytes && !WillRaise(c, pc)
    requires pc.LoadDeq? ==> pc.e <= c.enqBytes
    ensures var r, deq := Act(c, ch, pc, a), if pc.CountOutBytes? && a.Go? then pc.b else 0;
            if pc.CountBytes? && a.Go? then WillRaise(r.0, r.2)
            else
              && r.0.enqBytes == c.enqBytes && r.0.deqBytes == c.deqBytes + deq && !WillRaise(r.0, r.2)
              && r.0.peak ==
                  (if pc.ResetStore? && a.Go? then pc.v else if pc.RaisePeak? && a.Go? then Max(c.peak, pc.v)
                      else c.peak)
  {
  }

  /** A thread that would not raise the peak enough comes to by others' dequeues alone. */
  lemma OtherRaiser(c: Counters, r: Counters, pc: Pc)
    requires !WillRaise(c, pc) && r.enqBytes == c.enqBytes && r.deqBytes >= c.deqBytes
    ensures WillRaise(r, pc) <==> pc.RaisePeak? && pc.v + r.deqBytes >= r.enqBytes
  {
  }

  /** No thread has loaded more than the enqueued total. */
  predicate LoadsInPast(s: State) {
    forall t :: 0 <= t < |s.threads| && s.threads[t].LoadDeq? ==> s.threads[t].e <= s.c.enqBytes
  }

  lemma RunLoadsInPast(tr: seq<State>, ls: seq<Label>, j: nat)
    requires IsRun(tr, ls) && j < |tr|
    ensures LoadsInPast(tr[j])
  {
    hide IsRun;
    forall t | 0 <= t < |tr[j].threads| && tr[j].threads[t].LoadDeq?
      ensures tr[j].threads[t].e <= tr[j].c.enqBytes
    {
      var pc := tr[j].threads[t];
      var i := LoadHistory(tr, ls, t, ForPeak(pc.b), pc.e, j);
      Monotone(tr, ls, ForStatus, i, j);
    }
  }

  /** Once uncovered, only a restoring access covers again. */
  lemma UncoveredStep(s: State, l: Label)
    requires !Covered(s) && LoadsInPast(s)
    ensures Covered(Next(s, l)) <==> Restores(s, l)
  {
    hide Act, WillRaise;
    var i, r := l.thread, Next(s, l);
    if i < |s.threads| {
      var pc, a := s.threads[i], Act(s.c, s.channel, s.threads[i], l.action);
      assert r.c == a.0 && r.threads[i] == a.2;
      assert !WillRaise(s.c, pc);
      ActUncovered(s.c, s.channel, pc, l.action);
      if !(pc.CountBytes? && l.action.Go?) {
        forall t | 0 <= t < |s.threads| && t != i
          ensures WillRaise(r.c, r.threads[t]) <==>
              s.threads[t].RaisePeak? && s.threads[t].v + r.c.deqBytes >= s.c.enqBytes
        {
          assert !WillRaise(s.c, s.threads[t]) && r.threads[t] == s.threads[t];
          OtherRaiser(s.c, r.c, s.threads[t]);
        }
        OnlyCounted(s, l);
      }
    }
  }

  /** Without bytes counted out nobody becomes a raiser. */
  lemma OnlyCounted(s: State, l: Label)
    requires !Covered(s) && l.thread < |s.threads|
    ensures !RaiserAt(s, s.c.deqBytes)
  {
    forall t | 0 <= t < |s.threads| && s.threads[t].RaisePeak?
      ensures s.threads[t].v + s.c.deqBytes < s.c.enqBytes
    {
      assert !WillRaise(s.c, s.threads[t]);
    }
  }

  /** The peak was lost at `k` and nothing covered it since. */
  ghost predicate LostAt(tr: seq<State>, ls: seq<Label>, k: nat, j: nat)
    requires |tr| == |ls| + 1 && j < |tr|
  {
    && k < j && Loses(tr[k], ls[k])
    && forall m :: k < m < j ==> !Restores(tr[m], ls[m])
  }

  ghost predicate Lost(tr: seq<State>, ls: seq<Label>, j: nat)
    requires |tr| == |ls| + 1 && j < |tr|
  {
    exists k :: LostAt(tr, ls, k, j)
  }

  lemma LostStep(tr: seq<State>, ls: seq<Label>, j: nat)
    requires IsRun(tr, ls) && j < |ls|
    ensures Lost(tr, ls, j + 1) <==> Loses(tr[j], ls[j]) || (Lost(tr, ls, j) && !Restores(tr[j], ls[j]))
  {
    hide Loses, Restores, Initial, Next;
    var n := j + 1;
    if Lost(tr, ls, n) {
      var k: nat :| LostAt(tr, ls, k, n);
      if k < j { assert LostAt(tr, ls, k, j); }
    }
    if Loses(tr[j], ls[j]) { assert LostAt(tr, ls, j, n); }
    if Lost(tr, ls, j) && !Restores(tr[j], ls[j]) {
      var k: nat :| LostAt(tr, ls, k, j);
      assert LostAt(tr, ls, k, n);
    }
  }

  lemma StartCovered(s: State)
    requires Initial(s)
    ensures Covered(s)
  {
  }

  /** Main result, for every interleaving with any number of resets: the peak has
      reached the present difference, or a thread inside `on_enqueue` is about to
      raise it, exactly unless a reset stored an outdated depth while no thread was
      about to raise, and no restoring access followed. */
  lemma {:induction false} PeakCovers(tr: seq<State>, ls: seq<Label>, j: nat)
    requires IsRun(tr, ls) && j < |tr|
    ensures Covered(tr[j]) <==> !Lost(tr, ls, j)
    decreases j
  {
    hide Next, Covered, Loses, Restores, Initial;
    if j == 0 {
      StartCovered(tr[0]);
    } else {
      var s, l := tr[j - 1], ls[j - 1];
      PeakCovers(tr, ls, j - 1);
      LostStep(tr, ls, j - 1);
      if Covered(s) {
        if Loses(s, l) { StaleStoreUncovers(s, l); } else { CoveredStep(s, l); }
      } else {
        RunLoadsInPast(tr, ls, j - 1);
        UncoveredStep(s, l);
        LosesNotRestores(s, l);
      }
    }
  }

  lemma LosesNotRestores(s: State, l: Label)
    ensures Loses(s, l) ==> !Restores(s, l)
  {
  }

  predicate AllIdle(s: State) { forall t :: 0 <= t < |s.threads| ==> s.threads[t].Idle? }

  /** At rest the true difference is the bytes in the channel, and the peak is below
      it exactly when a reset lost the peak. */
  lemma RestingPeak(tr: seq<State>, ls: seq<Label>, j: nat)
    requires IsRun(tr, ls) && j < |tr| && AllIdle(tr[j])
    ensures tr[j].c.enqBytes - tr[j].c.deqBytes == Sum(tr[j].channel)
    ensures tr[j].c.peak < Sum(tr[j].channel) <==> Lost(tr, ls, j)
  {
    hide IsRun, Lost, Sum;
    PeakCovers(tr, ls, j);
    Conservation(tr, ls, j);
    IdleHoldsNothing(tr[j].threads);
  }

  /** A run that loses the peak: a reset loads the depth, `b` bytes are enqueued,
      and the reset stores what it had computed. */
  function LosingRun(b: nat): (ls: seq<Label>) {
    [Label(0, Begin(CallReset)), Label(0, Go(true)),
     Label(1, Begin(CallEnqueue(b))), Label(1, Go(true)), Label(1, Go(true)), Label(1, Go(true)), Label(1, Go(true)),
     Label(1, Go(true)), Label(0, Go(true))]
  }

  function LosingStates(b: nat): (tr: seq<State>) {
    [State(ZERO, [], [Idle, Idle]),
     State(ZERO, [], [ResetDeq(0), Idle]),
     State(ZERO, [], [ResetStore(0), Idle]),
     State(Counters(1, 0, 0, 0, 0), [], [ResetStore(0), CountBytes(b)]),
     State(Counters(1, 0, b, 0, 0), [], [ResetStore(0), LoadEnq(b)]),
     State(Counters(1, 0, b, 0, 0), [], [ResetStore(0), LoadDeq(b, b)]),
     State(Counters(1, 0, b, 0, 0), [], [ResetStore(0), RaisePeak(b, b)]),
     State(Counters(1, 0, b, 0, b), [], [ResetStore(0), ToSend(b)]),
     State(Counters(1, 0, b, 0, b), [b], [ResetStore(0), Idle]),
     State(Counters(1, 0, b, 0, 0), [b], [Idle, Idle])]
  }

  /** `reset_peak` loads the depth and stores it later: an enqueue in between is
      overwritten, and the peak stays below a depth that persists at rest. */
  lemma ResetLosesPeak(b: nat)
    requires b > 0
    ensures var tr, ls := LosingStates(b), LosingRun(b);
            IsRun(tr, ls) && AllIdle(tr[9]) && Lost(tr, ls, 9) && tr[9].c.peak == 0 && Sum(tr[9].channel) == b
  {
    var tr, ls := LosingStates(b), LosingRun(b);
    forall i | 0 <= i < |ls|
      ensures tr[i + 1] == Next(tr[i], ls[i])
    {
      LosingStep(b, i);
    }
    assert Sum([b]) == b by { SumSnoc([], b); }
    hide Next, Lost;
    RestingPeak(tr, ls, 9);
  }

  lemma LosingStep(b: nat, i: nat)
    requires i < 9
    ensures LosingStates(b)[i + 1] == Next(LosingStates(b)[i], LosingRun(b)[i])
  {
  }

  // ---- The two views agree ----

  /** A call that no other thread interrupts does what the sequential operation does. */
  lemma UninterruptedEnqueue(s: State, t: nat, b: nat)
    requires t < |s.threads| && s.threads[t].Idle?
    ensures var go := Label(t, Go(true));
            Next(Next(Next(Next(Next(s, Label(t, Begin(CallEnqueue(b)))), go), go), go), go)
            == State(Perform(s.c, Enqueue(b)), s.channel, s.threads[t := ToSend(b)])
  {
    hide SatSub, Max;
    var go, ts := Label(t, Go(true)), s.threads;
    var d := s.c.(enqItems := s.c.enqItems + 1, enqBytes := s.c.enqBytes + b);
    var s1 := Next(s, Label(t, Begin(CallEnqueue(b))));
    var s2 := Next(s1, go);
    assert s2 == State(d, s.channel, ts[t := LoadEnq(b)]);
    var s3 := Next(s2, go);
    assert s3 == State(d, s.channel, ts[t := LoadDeq(b, d.enqBytes)]);
    var s4 := Next(s3, go);
    assert s4 == State(d, s.channel, ts[t := RaisePeak(b, DepthBytes(d))]);
    assert Next(s4, go) == State(d.(peak := Max(d.peak, DepthBytes(d))), s.channel, ts[t := ToSend(b)]);
  }

  lemma UninterruptedDequeue(s: State, t: nat, b: nat)
    requires t < |s.threads| && s.threads[t] == CountOutItem(b)
    ensures Next(Next(s, Label(t, Go(true))), Label(t, Go(true)))
         == State(Perform(s.c, Dequeue(b)), s.channel, s.threads[t := Idle])
  {
    var s1 := Next(s, Label(t, Go(true)));
    assert s1.threads == s.threads[t := CountOutBytes(b)];
    assert s1.threads[t := Idle] == s.threads[t := Idle];
  }

  lemma UninterruptedReset(s: State, t: nat)
    requires t < |s.threads| && s.threads[t].Idle?
    ensures Next(Next(Next(s, Label(t, Begin(CallReset))), Label(t, Go(true))), Label(t, Go(true)))
         == State(Perform(s.c, ResetPeak), s.channel, s.threads)
  {
    hide SatSub;
    var go, ts := Label(t, Go(true)), s.threads;
    var s2 := Next(Next(s, Label(t, Begin(CallReset))), go);
    assert s2 == State(s.c, s.channel, ts[t := ResetStore(DepthBytes(s.c))]);
    assert ts[t := Idle] == ts;
  }

  /** The two depth reads report what `Gauge.Depth` returns. */
  lemma UninterruptedReads(s: State, t: nat)
    requires t < |s.threads| && s.threads[t].Idle?
    ensures Next(Next(s, Label(t, Begin(CallRead))), Label(t, Go(true)))
         == State(s.c, s.channel, s.threads[t := Report(DepthBytes(s.c))])
    ensures Next(Next(s, Label(t, Begin(CallReadItems))), Label(t, Go(true)))
         == State(s.c, s.channel, s.threads[t := ReportItems(DepthItems(s.c))])
  {
    hide SatSub;
    var ts := s.threads;
    var s1, r1 := Next(s, Label(t, Begin(CallRead))), Next(s, Label(t, Begin(CallReadItems)));
    assert s1.threads[t := Report(DepthBytes(s.c))] == ts[t := Report(DepthBytes(s.c))];
    assert r1.threads[t := ReportItems(DepthItems(s.c))] == ts[t := ReportItems(DepthItems(s.c))];
  }
}
