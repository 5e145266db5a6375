/** `amax_codegen.rs`: deriving the register-page layout, choosing the canonical
    page, the guard that the two pages share one layout, and the emitted
    address functions. */
module AmaxLayout {
  import opened Bytes
  import Arith
  import opened AmaxNames

  const TWO32 := 0x1_0000_0000

  /** The page family a register belongs to. */
  datatype Group = Other | Broadcast | Page(channel: u32)

  /** A register as the naming functions see it. */
  datatype Reg = Reg(address: u32, group: Group, key: Option<string>)

  function GroupOf(r: Register): (g: Group) {
    if !IsPerChannel(r) then Other
    else
      match ChannelIndex(r)
      case None => Broadcast
      case Some(ch) => Page(ch)
  }

  function Classify(r: Register): (c: Reg) { Reg(r.address, GroupOf(r), FwKey(r)) }

  function ClassifyAll(regs: seq<Register>): (cs: seq<Reg>)
    ensures |cs| == |regs| && forall i :: 0 <= i < |cs| ==> cs[i] == Classify(regs[i])
  {
    seq(|regs|, i requires 0 <= i < |regs| => Classify(regs[i]))
  }

  datatype Layout = Layout(pageBase: nat, pageStride: nat, broadcastBase: nat, channelPages: nat,
      preferPerChannel: bool)

  // ---- Specification of the derived layout ----

  function MinAddr(regs: seq<Reg>, g: Group): (m: Option<nat>) {
    if regs == [] then None
    else
      var m, r := MinAddr(regs[..|regs| - 1], g), regs[|regs| - 1];
      if r.group != g then m
      else if m.Some? && m.value <= r.address then m
      else Some(r.address)
  }

  function Indices(regs: seq<Reg>): (s: set<u32>) {
    set r | r in regs && r.group.Page? :: r.group.channel
  }

  ghost predicate IsSmallestPositive(s: set<nat>, k: nat) {
    k in s && k > 0 && forall x :: x in s && x > 0 ==> k <= x
  }

  ghost predicate IsLargest(s: set<nat>, m: nat) {
    m in s && forall x :: x in s ==> x <= m
  }

  function SatSub(a: nat, b: nat): (r: nat) { if a < b then 0 else a - b }

  /** The step from page 0 to page `k`: the raw difference when it does not divide evenly. */
  function Step(a0: nat, k: nat, ak: nat): (r: nat) {
    var delta := SatSub(ak, a0);
    if k == 0 then 0 else if delta % k == 0 then delta / k else delta
  }

  function BaseOf(regs: seq<Reg>, perChannel: bool): (r: nat) {
    var ch0, bc := MinAddr(regs, Page(0)), MinAddr(regs, Broadcast);
    if perChannel && ch0.Some? then ch0.value
    else if bc.Some? then bc.value
    else if ch0.Some? then ch0.value
    else 0
  }

  ghost predicate StepsTo(a0: nat, k: nat, ak: Option<nat>, stride: nat) {
    ak.Some? && stride == Step(a0, k, ak.value)
  }

  /** The stride comes from page 0 and the smallest other page. */
  ghost predicate IsStride(regs: seq<Reg>, stride: nat) {
    var a0 := MinAddr(regs, Page(0));
    if a0.None? || !HasPositive(Indices(regs)) then stride == 0
    else exists k: u32 :: IsSmallestPositive(Indices(regs), k) && StepsTo(a0.value, k, MinAddr(regs, Page(k)), stride)
  }

  ghost predicate HasPositive(s: set<nat>) { exists k :: k in s && k > 0 }

  /** One past the largest index, in 32-bit arithmetic. */
  ghost predicate IsSpan(s: set<nat>, pages: nat) {
    if s == {} then pages == 0
    else exists m: nat :: IsLargest(s, m) && pages == (m + 1) % TWO32
  }

  /** What `derive_layout` returns, field by field. */
  ghost predicate IsLayout(regs: seq<Reg>, prefer: Option<bool>, l: Layout) {
    var ch0, bc := MinAddr(regs, Page(0)), MinAddr(regs, Broadcast);
    && l.preferPerChannel == (if prefer.Some? then prefer.value else ch0.Some?)
    && l.pageBase == BaseOf(regs, l.preferPerChannel)
    && l.broadcastBase == (if bc.Some? then bc.value else l.pageBase)
    && IsStride(regs, l.pageStride)
    && IsSpan(Indices(regs), l.channelPages)
  }

  // ---- Facts about minima ----

  lemma {:induction false} MinAddrIsMin(regs: seq<Reg>, g: Group)
    ensures MinAddr(regs, g).Some? <==> exists r :: r in regs && r.group == g
    ensures MinAddr(regs, g).Some? ==>
              && (exists r :: r in regs && r.group == g && r.address as int == MinAddr(regs, g).value)
              && forall r :: r in regs && r.group == g ==> MinAddr(regs, g).value <= r.address
    decreases |regs|
  {
    if regs == [] {
    } else {
      var rest, last := regs[..|regs| - 1], regs[|regs| - 1];
      MinAddrIsMin(rest, g);
      assert forall r :: r in regs <==> r in rest || r == last;
      assert last in regs;
    }
  }

  lemma MinAddrUnique(regs: seq<Reg>, g: Group, m: nat, w: Reg)
    requires w in regs && w.group == g && w.address as int == m
    requires forall r :: r in regs && r.group == g ==> m <= r.address
    ensures MinAddr(regs, g) == Some(m)
  {
    MinAddrIsMin(regs, g);
  }

  // ---- derive_layout ----

  method SmallestPositive(keys: set<nat>) returns (r: Option<nat>)
    ensures r.Some? ==> IsSmallestPositive(keys, r.value)
    ensures r.None? ==> forall k :: k in keys ==> k == 0
  {
    r := None;
    var todo := keys;
    while todo != {}
      invariant todo <= keys
      invariant r.Some? ==> r.value in keys && r.value > 0
      invariant forall k :: k in keys && k > 0 ==> k in todo || (r.Some? && r.value <= k)
      decreases |todo|
    {
      var k :| k in todo;
      if k > 0 && (r.None? || k < r.value) { r := Some(k); }
      todo := todo - {k};
    }
  }

  method Largest(keys: set<nat>) returns (r: Option<nat>)
    ensures r.Some? ==> IsLargest(keys, r.value)
    ensures r.None? ==> keys == {}
  {
    r := None;
    var todo := keys;
    while todo != {}
      invariant todo <= keys
      invariant r.Some? ==> r.value in keys
      invariant forall k :: k in keys ==> k in todo || (r.Some? && k <= r.value)
      decreases |todo|
    {
      var k :| k in todo;
      if r.None? || k > r.value { r := Some(k); }
      todo := todo - {k};
    }
  }

  lemma MinSnoc(cs: seq<Reg>, i: nat, g: Group)
    requires i < |cs|
    ensures MinAddr(cs[..i + 1], g) ==
      if cs[i].group != g then MinAddr(cs[..i], g)
      else if MinAddr(cs[..i], g).Some? && MinAddr(cs[..i], g).value <= cs[i].address then MinAddr(cs[..i], g)
      else Some(cs[i].address)
  {
    assert cs[..i + 1][..i] == cs[..i];
  }

  lemma EmptyList(cs: seq<Reg>)
    ensures Indices(cs[..0]) == {} && forall g :: MinAddr(cs[..0], g) == None
  {
  }

  lemma IndicesSnoc(cs: seq<Reg>, i: nat)
    requires i < |cs|
    ensures Indices(cs[..i + 1]) == Indices(cs[..i]) + if cs[i].group.Page? then {cs[i].group.channel} else {}
  {
    assert forall x :: x in cs[..i + 1] <==> x in cs[..i] || x == cs[i];
  }

  /** The scan over the register list. */
  method Minima(regs: seq<Register>) returns (byIdx: map<u32, nat>, broadcastMin: Option<nat>)
    ensures broadcastMin == MinAddr(ClassifyAll(regs), Broadcast)
    ensures byIdx.Keys == Indices(ClassifyAll(regs))
    ensures forall k: u32 :: MinAddr(ClassifyAll(regs), Page(k)) == if k in byIdx then Some(byIdx[k]) else None
  {
    hide GroupOf, FwKey, MinAddr, Indices;
    ghost var cs := ClassifyAll(regs);
    byIdx, broadcastMin := map[], None;
    EmptyList(cs);
    for i := 0 to |regs|
      invariant broadcastMin == MinAddr(cs[..i], Broadcast)
      invariant byIdx.Keys == Indices(cs[..i])
      invariant forall k: u32 :: MinAddr(cs[..i], Page(k)) == if k in byIdx then Some(byIdx[k]) else None
    {
      var r := regs[i];
      assert cs[i] == Classify(r);
      IndicesSnoc(cs, i);
      forall g
        ensures MinAddr(cs[..i + 1], g) ==
          if cs[i].group != g then MinAddr(cs[..i], g)
          else if MinAddr(cs[..i], g).Some? && MinAddr(cs[..i], g).value <= cs[i].address then MinAddr(cs[..i], g)
          else Some(cs[i].address)
      {
        MinSnoc(cs, i, g);
      }
      match GroupOf(r) {
        case Other =>
        case Broadcast =>
          broadcastMin := Some(if broadcastMin.Some? && broadcastMin.value <= r.address
                               then broadcastMin.value else r.address);
        case Page(idx) =>
          var e: nat := if idx in byIdx then byIdx[idx] else r.address;
          byIdx := byIdx[idx := if e <= r.address then e else r.address];
      }
    }
    assert cs[..|regs|] == cs;
  }

  method DeriveLayout(regs: seq<Register>, prefer: Option<bool>) returns (l: Layout)
    ensures IsLayout(ClassifyAll(regs), prefer, l)
  {
    hide ClassifyAll, MinAddr, Step, Indices;
    var byIdx, broadcastMin := Minima(regs);
    var hasCh0 := 0 in byIdx;
    var perChannel := if prefer.Some? then prefer.value else hasCh0;
    var pageBase: nat;
    if perChannel && hasCh0 {
      pageBase := byIdx[0];
    } else if broadcastMin.Some? {
      pageBase := broadcastMin.value;
    } else if hasCh0 {
      pageBase := byIdx[0];
    } else {
      pageBase := 0;
    }
    var next := SmallestPositive(byIdx.Keys);
    var pageStride: nat := 0;
    if hasCh0 && next.Some? {
      pageStride := Step(byIdx[0], next.value, byIdx[next.value]);
    }
    var broadcastBase := if broadcastMin.Some? then broadcastMin.value else pageBase;
    var last := Largest(byIdx.Keys);
    var channelPages: nat := if last.Some? then (last.value + 1) % TWO32 else 0;
    l := Layout(pageBase, pageStride, broadcastBase, channelPages, perChannel);
  }

  /** The layout is determined by the list. */
  lemma LayoutUnique(regs: seq<Reg>, prefer: Option<bool>, a: Layout, b: Layout)
    requires IsLayout(regs, prefer, a) && IsLayout(regs, prefer, b)
    ensures a == b
  {
    hide MinAddr, Step, BaseOf, Indices;
  }

  /** The order of the list and repetitions in it do not matter. */
  lemma LayoutOfSet(a: seq<Reg>, b: seq<Reg>, prefer: Option<bool>, l: Layout)
    requires forall r :: r in a <==> r in b
    requires IsLayout(a, prefer, l)
    ensures IsLayout(b, prefer, l)
  {
    hide MinAddr, Step;
    forall g
      ensures MinAddr(a, g) == MinAddr(b, g)
    {
      MinAddrIsMin(a, g);
      MinAddrIsMin(b, g);
    }
    assert Indices(a) == Indices(b);
  }

  // ---- Uniform pages ----

  function PageAt(base: nat, stride: nat, ch: nat): (a: nat) { base + ch * stride }

  /** Every page present starts at `base + channel * stride`: a register stands
      at that address and none of the page stands below it. */
  ghost predicate Uniform(regs: seq<Reg>, base: nat, stride: nat) {
    forall ch: u32 :: ch in Indices(regs) ==> PageStart(regs, ch, PageAt(base, stride, ch))
  }

  ghost predicate PageStart(regs: seq<Reg>, ch: u32, start: nat) {
    && (exists r :: r in regs && r.group == Page(ch) && r.address == start)
    && (forall r :: r in regs && r.group == Page(ch) ==> start <= r.address)
  }

  lemma PageStartIsMin(regs: seq<Reg>, ch: u32, start: nat)
    requires PageStart(regs, ch, start)
    ensures MinAddr(regs, Page(ch)) == Some(start)
  {
    hide MinAddr;
    var r :| r in regs && r.group == Page(ch) && r.address == start;
    MinAddrUnique(regs, Page(ch), start, r);
  }

  lemma UniformMin(regs: seq<Reg>, base: nat, stride: nat, ch: u32)
    requires Uniform(regs, base, stride) && ch in Indices(regs)
    ensures MinAddr(regs, Page(ch)) == Some(PageAt(base, stride, ch))
  {
    hide MinAddr, PageStart, Indices;
    PageStartIsMin(regs, ch, PageAt(base, stride, ch));
  }

  lemma StepOfUniform(base: nat, stride: nat, k: nat)
    requires k > 0
    ensures Step(base, k, base + k * stride) == stride
  {
    Arith.DivModUnique(stride, 0, k);
  }

  /** Uniform pages are recovered exactly, whatever the order of the list and
      however sparse the page indices are. */
  lemma UniformRecovered(regs: seq<Reg>, prefer: Option<bool>, l: Layout, base: nat, stride: nat, bc: Option<nat>)
    requires IsLayout(regs, prefer, l)
    requires Uniform(regs, base, stride) && 0 in Indices(regs)
    requires bc == MinAddr(regs, Broadcast)
    ensures l.pageBase == (if prefer == Some(false) && bc.Some? then bc.value else base)
    ensures l.pageStride == (if HasPositive(Indices(regs)) then stride else 0)
    ensures l.broadcastBase == (if bc.Some? then bc.value else base)
    ensures exists top: nat :: IsLargest(Indices(regs), top) && l.channelPages == (top + 1) % TWO32
  {
    hide MinAddr, Step, Indices, Uniform;
    UniformMin(regs, base, stride, 0);
    if HasPositive(Indices(regs)) {
      var k: u32 :| IsSmallestPositive(Indices(regs), k) && StepsTo(base, k, MinAddr(regs, Page(k)), l.pageStride);
      UniformMin(regs, base, stride, k);
      StepOfUniform(base, stride, k);
    }
  }

  /** Without ch0 the pages tell nothing but their span: whatever they look like, and
      whatever is preferred, both bases are the broadcast one, or 0, and the stride
      is 0. So the base and stride of uniform pages are lost, unless the base is
      just that and the stride is 0. */
  lemma UniformWithoutCh0(regs: seq<Reg>, prefer: Option<bool>, l: Layout, base: nat, stride: nat, bc: Option<nat>)
    requires IsLayout(regs, prefer, l)
    requires Uniform(regs, base, stride) && 0 !in Indices(regs) && Indices(regs) != {}
    requires bc == MinAddr(regs, Broadcast)
    ensures l.pageBase == l.broadcastBase == (if bc.Some? then bc.value else 0) && l.pageStride == 0
    ensures l.pageBase == base && l.pageStride == stride <==>
              base == (if bc.Some? then bc.value else 0) && stride == 0
    ensures l.preferPerChannel <==> prefer == Some(true)
    ensures exists top: nat :: IsLargest(Indices(regs), top) && l.channelPages == (top + 1) % TWO32
  {
    hide MinAddr, Indices, Uniform;
    assert MinAddr(regs, Page(0)).None? by { NoPage(regs, 0); }
  }

  lemma NoPage(regs: seq<Reg>, ch: u32)
    requires ch !in Indices(regs)
    ensures MinAddr(regs, Page(ch)).None?
  {
    hide MinAddr;
    MinAddrIsMin(regs, Page(ch));
  }

  // ---- The sparse warning in `main` ----

  predicate Warns(regs: seq<Reg>, channelPages: nat) {
    var present := Indices(regs);
    present != {} && |present| % TWO32 != channelPages
  }

  function Below(n: nat): (s: set<nat>)
    ensures forall x: nat :: x in s <==> x < n
    ensures |s| == n
  {
    if n == 0 then {} else Below(n - 1) + {n - 1}
  }

  lemma {:induction false} SubsetSize(a: set<nat>, b: set<nat>)
    requires a <= b
    ensures |a| <= |b|
    ensures |a| == |b| ==> a == b
  {
    if a == {} {
    } else {
      var x :| x in a;
      SubsetSize(a - {x}, b - {x});
    }
  }

  ghost predicate HasGap(s: set<nat>, top: nat) { exists gap: nat :: gap < top && gap !in s }

  lemma SpanResidue(k: nat, top: nat)
    requires 1 <= k <= top + 1 <= TWO32
    ensures k % TWO32 != (top + 1) % TWO32 <==> k != top + 1
  {
  }

  lemma SpanSize(s: set<nat>, top: nat)
    requires IsLargest(s, top) && top < TWO32
    ensures |s| % TWO32 != (top + 1) % TWO32 <==> HasGap(s, top)
  {
    var full := Below(top + 1);
    hide Below;
    assert s <= full && |s| > 0;
    SubsetSize(s, full);
    SpanResidue(|s|, top);
    if HasGap(s, top) {
      var gap: nat :| gap < top && gap !in s;
      assert gap in full;
    } else {
      assert s == full;
    }
  }

  /** The warning is printed exactly when an index below the largest is missing. */
  lemma WarnsIffSparse(regs: seq<Reg>, prefer: Option<bool>, l: Layout)
    requires IsLayout(regs, prefer, l)
    ensures Warns(regs, l.channelPages) <==>
        exists top: nat :: IsLargest(Indices(regs), top) && HasGap(Indices(regs), top)
  {
    hide IsStride, BaseOf, MinAddr, Indices, HasGap;
    var s := Indices(regs);
    if s != {} {
      var top: nat :| IsLargest(s, top) && l.channelPages == (top + 1) % TWO32;
      SpanSize(s, top);
    }
  }

  // ---- The canonical page ----

  function Filter(regs: seq<Reg>, keep: Reg -> bool): (s: seq<Reg>) {
    if regs == [] then []
    else Filter(regs[..|regs| - 1], keep) + if keep(regs[|regs| - 1]) then [regs[|regs| - 1]] else []
  }

  predicate HasGroup(regs: seq<Reg>, g: Group) {
    exists i :: 0 <= i < |regs| && regs[i].group == g
  }

  predicate Keeps(usePerChannel: bool, hasBroadcast: bool, r: Reg) {
    match r.group
    case Other => false
    case Broadcast => !usePerChannel
    case Page(ch) => ch == 0 && (usePerChannel || !hasBroadcast)
  }

  function SelectCanonical(regs: seq<Reg>, preferPerChannel: bool): (s: seq<Reg>) {
    var hasBroadcast := HasGroup(regs, Broadcast);
    var usePerChannel := preferPerChannel && HasGroup(regs, Page(0));
    Filter(regs, r => Keeps(usePerChannel, hasBroadcast, r))
  }

  lemma {:induction false} FilterIn(regs: seq<Reg>, keep: Reg -> bool, r: Reg)
    ensures r in Filter(regs, keep) <==> r in regs && keep(r)
  {
    if regs == [] {
    } else {
      FilterIn(regs[..|regs| - 1], keep, r);
      assert regs == regs[..|regs| - 1] + [regs[|regs| - 1]];
    }
  }

  /** Exactly one page family is kept: ch0 when it is asked for or stands alone,
      otherwise the broadcast page. */
  ghost predicate IsCanonical(regs: seq<Reg>, prefer: bool, g: Group) {
    && g.Other? == !(HasGroup(regs, Page(0)) || HasGroup(regs, Broadcast))
    && (!g.Other? ==>
        g == if HasGroup(regs, Page(0)) && (prefer || !HasGroup(regs, Broadcast)) then Page(0) else Broadcast)
  }

  lemma CanonicalIsOneGroup(regs: seq<Reg>, prefer: bool, g: Group, r: Reg)
    requires IsCanonical(regs, prefer, g)
    ensures r in SelectCanonical(regs, prefer) <==> r in regs && !g.Other? && r.group == g
  {
    var hasBroadcast := HasGroup(regs, Broadcast);
    var usePerChannel := prefer && HasGroup(regs, Page(0));
    FilterIn(regs, r => Keeps(usePerChannel, hasBroadcast, r), r);
    if r in regs {
      var i :| 0 <= i < |regs| && regs[i] == r;
      assert regs[i].group == r.group;
    }
  }

  ghost predicate IsLowest(kept: seq<Reg>, m: nat) {
    && (kept == [] ==> m == 0)
    && (kept != [] ==> exists r :: r in kept && r.address == m)
    && (forall r :: r in kept ==> m <= r.address)
  }

  lemma HasGroupIffMin(regs: seq<Reg>, g: Group)
    ensures HasGroup(regs, g) <==> MinAddr(regs, g).Some?
  {
    hide MinAddr;
    MinAddrIsMin(regs, g);
    if r :| r in regs && r.group == g {
      var i :| 0 <= i < |regs| && regs[i] == r;
      assert regs[i].group == g;
    }
  }

  /** For every list and every override, `page_base` is the lowest address of
      exactly the registers that will be emitted. */
  lemma PageBaseIsLowestKept(regs: seq<Reg>, prefer: Option<bool>, l: Layout)
    requires IsLayout(regs, prefer, l)
    ensures IsLowest(SelectCanonical(regs, l.preferPerChannel), l.pageBase)
  {
    hide MinAddr, IsStride, IsSpan, SelectCanonical;
    HasGroupIffMin(regs, Page(0));
    HasGroupIffMin(regs, Broadcast);
    var g := if MinAddr(regs, Page(0)).Some? && (l.preferPerChannel || MinAddr(regs, Broadcast).None?) then Page(0)
             else if MinAddr(regs, Broadcast).Some? then Broadcast
             else Other;
    forall r
      ensures r in SelectCanonical(regs, l.preferPerChannel) <==> r in regs && !g.Other? && r.group == g
    {
      CanonicalIsOneGroup(regs, l.preferPerChannel, g, r);
    }
    MinAddrIsMin(regs, g);
    var kept := SelectCanonical(regs, l.preferPerChannel);
    if kept != [] { assert kept[0] in kept; }
  }

  /** `saturating_sub` is exact on every emitted register precisely when the
      base in force does not exceed the derived one. */
  lemma OffsetsExactIff(regs: seq<Reg>, prefer: Option<bool>, l: Layout, base: nat)
    requires IsLayout(regs, prefer, l)
    requires SelectCanonical(regs, l.preferPerChannel) != []
    ensures (forall r :: r in SelectCanonical(regs, l.preferPerChannel) ==> base + SatSub(r.address, base) == r.address)
       <==> base <= l.pageBase
  {
    hide SelectCanonical, IsLayout;
    PageBaseIsLowestKept(regs, prefer, l);
    var r :| r in SelectCanonical(regs, l.preferPerChannel) && r.address == l.pageBase;
    assert base > l.pageBase ==> base + SatSub(r.address, base) != r.address;
  }

  // ---- The layout guard ----

  datatype Verdict = Ok | Mismatch(key: string)

  /** Address of the first ch0 register named `key`. */
  function FirstCh0(regs: seq<Reg>, key: string): (a: Option<nat>) {
    if regs == [] then None
    else
      var earlier, r := FirstCh0(regs[..|regs| - 1], key), regs[|regs| - 1];
      if earlier.Some? then earlier
      else if r.group == Page(0) && r.key == Some(key) then Some(r.address)
      else None
  }

  /** A broadcast register stands at another offset than its ch0 namesake. */
  predicate Clashes(regs: seq<Reg>, pageBase: nat, broadcastBase: nat, r: Reg) {
    && r.group == Broadcast
    && r.key.Some?
    && FirstCh0(regs, r.key.value).Some?
    && r.address - broadcastBase != FirstCh0(regs, r.key.value).value - pageBase
  }

  method FirstSeen(regs: seq<Register>) returns (ch0: map<string, nat>)
    ensures forall k :: FirstCh0(ClassifyAll(regs), k) == if k in ch0 then Some(ch0[k]) else None
  {
    hide GroupOf, FwKey;
    ghost var cs := ClassifyAll(regs);
    ch0 := map[];
    for i := 0 to |regs|
      invariant forall k :: FirstCh0(cs[..i], k) == if k in ch0 then Some(ch0[k]) else None
    {
      var r := regs[i];
      assert cs[..i + 1][..i] == cs[..i] && cs[i] == Classify(r);
      if GroupOf(r) == Page(0) {
        var key := FwKey(r);
        if key.Some? && key.value !in ch0 {
          ch0 := ch0[key.value := r.address];
        }
      }
    }
    assert cs[..|regs|] == cs;
  }

  method AssertBroadcastLayoutMatches(regs: seq<Register>, pageBase: nat, broadcastBase: nat) returns (v: Verdict)
    ensures v.Ok? <==> GuardOk(ClassifyAll(regs), pageBase, broadcastBase)
    ensures v.Mismatch? ==> exists i :: 0 <= i < |regs| && FirstClash(ClassifyAll(regs), pageBase, broadcastBase, i)
                                     && FwKey(regs[i]) == Some(v.key)
  {
    hide GroupOf, FwKey, FirstCh0;
    ghost var cs := ClassifyAll(regs);
    var ch0 := FirstSeen(regs);
    for i := 0 to |regs|
      invariant forall j :: 0 <= j < i ==> !Clashes(cs, pageBase, broadcastBase, cs[j])
    {
      var r := regs[i];
      assert cs[i] == Classify(r);
      if GroupOf(r) == Broadcast {
        var key := FwKey(r);
        if key.Some? && key.value in ch0 {
          if r.address - broadcastBase != ch0[key.value] - pageBase {
            assert FirstClash(cs, pageBase, broadcastBase, i) && cs[i] in cs;
            return Mismatch(key.value);
          }
        }
      }
    }
    v := Ok;
  }

  ghost predicate FirstClash(regs: seq<Reg>, pageBase: nat, broadcastBase: nat, i: nat)
    requires i < |regs|
  {
    && Clashes(regs, pageBase, broadcastBase, regs[i])
    && forall j :: 0 <= j < i ==> !Clashes(regs, pageBase, broadcastBase, regs[j])
  }

  ghost predicate GuardOk(regs: seq<Reg>, pageBase: nat, broadcastBase: nat) {
    forall r :: r in regs ==> !Clashes(regs, pageBase, broadcastBase, r)
  }

  /** With the ch0 page switched off, both bases are the broadcast one, so the
      guard compares addresses: it accepts only a firmware whose two pages have
      no shared name at different addresses. */
  lemma GuardWithoutPerChannel(regs: seq<Reg>, l: Layout)
    requires IsLayout(regs, Some(false), l)
    ensures GuardOk(regs, l.pageBase, l.broadcastBase) <==>
      forall r :: r in regs && r.group == Broadcast && r.key.Some? && FirstCh0(regs, r.key.value).Some?
        ==> FirstCh0(regs, r.key.value) == Some(r.address)
  {
    hide FirstCh0, IsStride, IsSpan, MinAddr;
    forall r | r in regs && r.group == Broadcast
      ensures l.pageBase == l.broadcastBase
    {
      MinAddrIsMin(regs, Broadcast);
    }
  }

  // ---- The emitted address functions ----

  function BroadcastByteAddr(l: Layout, wordOffset: nat): (a: nat) {
    (l.broadcastBase + wordOffset) % TWO32 * 4 % TWO32
  }

  function ChannelByteAddr(l: Layout, channel: nat, wordOffset: nat): (a: nat) {
    ((l.pageBase + channel * l.pageStride % TWO32) % TWO32 + wordOffset) % TWO32 * 4 % TWO32
  }

  /** Without address overrides, what the generated constants address is the
      register they were generated from: on its own page and, once the guard has
      passed, the register of the same name on the broadcast page. A byte address
      is exact below 2^30 words. */
  lemma EmittedAddresses(regs: seq<Reg>, prefer: Option<bool>, l: Layout, r: Reg, b: Reg)
    requires IsLayout(regs, prefer, l) && GuardOk(regs, l.pageBase, l.broadcastBase)
    requires r in SelectCanonical(regs, l.preferPerChannel) && r.group == Page(0)
    requires b in regs && b.group == Broadcast && b.key.Some?
    requires FirstCh0(regs, b.key.value) == Some(r.address)
    ensures ChannelByteAddr(l, 0, SatSub(r.address, l.pageBase)) == 4 * r.address % TWO32
    ensures BroadcastByteAddr(l, SatSub(r.address, l.pageBase)) == 4 * b.address % TWO32
    ensures b.address < 0x4000_0000 ==> BroadcastByteAddr(l, SatSub(r.address, l.pageBase)) == 4 * b.address
  {
    hide FirstCh0, IsLayout, SelectCanonical;
    PageBaseIsLowestKept(regs, prefer, l);
    assert !Clashes(regs, l.pageBase, l.broadcastBase, b);
    NoWrap(b.address);
    ChannelAddrExact(l, 0, SatSub(r.address, l.pageBase), r.address);
  }

  lemma NoWrap(x: nat)
    requires x < TWO32
    ensures x % TWO32 == x
  {
  }

  lemma ChannelAddrExact(l: Layout, ch: nat, off: nat, address: u32)
    requires l.pageBase + ch * l.pageStride + off == address
    ensures ChannelByteAddr(l, ch, off) == 4 * address % TWO32
  {
    var step := ch * l.pageStride;
    assert step >= 0;
    NoWrap(step);
    NoWrap(l.pageBase + step);
    NoWrap(l.pageBase + step + off);
  }

  /** A canonical broadcast page is addressed by its own offsets. */
  lemma EmittedBroadcastAddresses(regs: seq<Reg>, prefer: Option<bool>, l: Layout, r: Reg)
    requires IsLayout(regs, prefer, l)
    requires r in SelectCanonical(regs, l.preferPerChannel) && r.group == Broadcast
    ensures BroadcastByteAddr(l, SatSub(r.address, l.pageBase)) == 4 * r.address % TWO32
  {
    hide IsLayout, SelectCanonical, HasGroup;
    PageBaseIsLowestKept(regs, prefer, l);
    assert l.pageBase == l.broadcastBase by {
      CanonicalHolder(regs, l.preferPerChannel, r);
      BroadcastBases(regs, prefer, l);
    }
    NoWrap(r.address);
  }

  lemma BroadcastBases(regs: seq<Reg>, prefer: Option<bool>, l: Layout)
    requires IsLayout(regs, prefer, l) && HasGroup(regs, Broadcast)
    requires !(l.preferPerChannel && HasGroup(regs, Page(0)))
    ensures l.pageBase == l.broadcastBase
  {
    hide IsStride, IsSpan, MinAddr, HasGroup;
    HasGroupIffMin(regs, Page(0));
    HasGroupIffMin(regs, Broadcast);
  }

  lemma CanonicalHolder(regs: seq<Reg>, prefer: bool, r: Reg)
    requires r in SelectCanonical(regs, prefer) && r.group == Broadcast
    ensures HasGroup(regs, Broadcast) && !(prefer && HasGroup(regs, Page(0)))
  {
    var hasBroadcast := HasGroup(regs, Broadcast);
    var usePerChannel := prefer && HasGroup(regs, Page(0));
    FilterIn(regs, r => Keeps(usePerChannel, hasBroadcast, r), r);
    var i :| 0 <= i < |regs| && regs[i] == r;
    assert regs[i].group == Broadcast;
  }

  /** On uniform pages one offset addresses the same place on every page present. */
  lemma EmittedOnEveryPage(regs: seq<Reg>, prefer: Option<bool>, l: Layout, base: nat, stride: nat,
                           r: Reg, x: Reg, ch: u32)
    requires IsLayout(regs, prefer, l) && Uniform(regs, base, stride) && 0 in Indices(regs)
    requires r in SelectCanonical(regs, l.preferPerChannel) && r.group == Page(0)
    requires x in regs && x.group == Page(ch)
    requires x.address - PageAt(base, stride, ch) == r.address - base
    ensures ChannelByteAddr(l, ch, SatSub(r.address, l.pageBase)) == 4 * x.address % TWO32
  {
    hide IsLayout, SelectCanonical, IsCanonical, Uniform, Indices, MinAddr;
    assert l.pageBase == base && l.pageStride * ch == stride * ch by {
      BaseWhenCh0(regs, prefer, l, r);
      UniformMin(regs, base, stride, 0);
      UniformRecovered(regs, prefer, l, base, stride, MinAddr(regs, Broadcast));
      IndexPresent(regs, x, ch);
    }
    PageBaseIsLowestKept(regs, prefer, l);
    ChannelAddrExact(l, ch, SatSub(r.address, l.pageBase), x.address);
  }

  lemma IndexPresent(regs: seq<Reg>, x: Reg, ch: u32)
    requires x in regs && x.group == Page(ch)
    ensures ch in Indices(regs) && (HasPositive(Indices(regs)) || ch == 0)
  {
    assert x.group.channel in Indices(regs);
  }

  /** When a ch0 register is canonical, the base is ch0's. */
  lemma BaseWhenCh0(regs: seq<Reg>, prefer: Option<bool>, l: Layout, r: Reg)
    requires IsLayout(regs, prefer, l)
    requires r in SelectCanonical(regs, l.preferPerChannel) && r.group == Page(0)
    ensures MinAddr(regs, Page(0)) == Some(l.pageBase)
  {
    hide MinAddr, IsStride, IsSpan;
    var hasBroadcast := HasGroup(regs, Broadcast);
    var usePerChannel := l.preferPerChannel && HasGroup(regs, Page(0));
    FilterIn(regs, r => Keeps(usePerChannel, hasBroadcast, r), r);
    HasGroupIffMin(regs, Page(0));
    HasGroupIffMin(regs, Broadcast);
    var i :| 0 <= i < |regs| && regs[i] == r;
    assert regs[i].group == Page(0);
  }

  // ---- A sound firmware that the guard rejects ----

  /** One register on ch0 and its namesake on the broadcast page, in the forms of 13 May. */
  function TwoPages(a: u32, b: u32, name: string): (regs: seq<Register>) {
    [Register(a, Some(Print(Slash13May(4, 0), name)), None), Register(b, Some(Print(SlashBroadcast13May, name)), None)]
  }

  lemma TwoPagesClassified(a: u32, b: u32, name: string)
    ensures ClassifyAll(TwoPages(a, b, name)) == [Reg(a, Page(0), Some(name)), Reg(b, Broadcast, Some(name))]
  {
    hide IsPerChannelName, FwKeyOf, ChannelIndexOf, Print;
    ParseUndoesPrint(Slash13May(4, 0), name);
    ParseUndoesPrint(SlashBroadcast13May, name);
  }

  lemma TwoPagesMinima(a: u32, b: u32, name: string)
    ensures var regs := [Reg(a, Page(0), Some(name)), Reg(b, Broadcast, Some(name))];
            MinAddr(regs, Page(0)) == Some(a) && MinAddr(regs, Broadcast) == Some(b)
            && FirstCh0(regs, name) == Some(a)
  {
    var r0, r1 := Reg(a, Page(0), Some(name)), Reg(b, Broadcast, Some(name));
    assert [r0, r1][..1] == [r0] && [r0][..0] == [];
    assert MinAddr([r0], Page(0)) == Some(a) && MinAddr([r0], Broadcast) == None;
    assert FirstCh0([r0], name) == Some(a);
  }

  /** "The guard accepts pages with equal offsets" is false of the code under
      `Some(false)`: both registers have offset 0 on their own page, and the
      firmware is rejected unless the pages coincide. By default it is accepted. */
  lemma EqualOffsetsRejected(a: u32, b: u32, name: string, l: Layout, m: Layout)
    requires a != b
    requires IsLayout(ClassifyAll(TwoPages(a, b, name)), Some(false), l)
    requires IsLayout(ClassifyAll(TwoPages(a, b, name)), None, m)
    ensures !GuardOk(ClassifyAll(TwoPages(a, b, name)), l.pageBase, l.broadcastBase)
    ensures GuardOk(ClassifyAll(TwoPages(a, b, name)), m.pageBase, m.broadcastBase)
  {
    hide TwoPages, ClassifyAll, MinAddr, FirstCh0, IsStride, IsSpan;
    TwoPagesClassified(a, b, name);
    TwoPagesMinima(a, b, name);
    var regs := [Reg(a, Page(0), Some(name)), Reg(b, Broadcast, Some(name))];
    assert Clashes(regs, l.pageBase, l.broadcastBase, regs[1]);
  }
}
