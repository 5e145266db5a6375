/** The layout laws on the register list as it is read: which registers count,
    and what page each naming era puts them on. */
module AmaxRegisters {
  import opened Bytes
  import opened AmaxNames
  import opened AmaxLayout

  // ---- Registers outside the page family ----

  predicate NamesPage(s: string) { "page_amax_energy_" <= s || "page_amax_energy/" <= s }

  /** The register's path, or without one its name, has a page prefix. */
  predicate OnPage(r: Register) {
    match r.path
    case Some(path) => NamesPage(path)
    case None => r.name.Some? && NamesPage(r.name.value)
  }

  /** The list without the board-level registers. */
  function PagesOnly(regs: seq<Register>): (s: seq<Register>) {
    if regs == [] then []
    else PagesOnly(regs[..|regs| - 1]) + if OnPage(regs[|regs| - 1]) then [regs[|regs| - 1]] else []
  }

  lemma OtherIffOffPage(r: Register)
    ensures GroupOf(r) == Other <==> !OnPage(r)
  {
    assert SLASH_PREFIX == "page_amax_energy/" && UNDERSCORE_PREFIX == "page_amax_energy_";
    hide SplitFrom, LastToken, ParseU32, Find;
  }

  lemma ClassifyLast(regs: seq<Register>)
    requires regs != []
    ensures var n := |regs| - 1;
            ClassifyAll(regs) == ClassifyAll(regs[..n]) + [Classify(regs[n])]
            && ClassifyAll(regs)[..n] == ClassifyAll(regs[..n])
  {
    hide Classify;
  }

  lemma PagesLast(regs: seq<Register>)
    requires regs != []
    ensures var n := |regs| - 1;
            ClassifyAll(PagesOnly(regs)) ==
            ClassifyAll(PagesOnly(regs[..n])) + if OnPage(regs[n]) then [Classify(regs[n])] else []
  {
    hide Classify, OnPage;
  }

  lemma MinAddrSnoc(cs: seq<Reg>, c: Reg, g: Group)
    ensures MinAddr(cs + [c], g) ==
      if c.group != g then MinAddr(cs, g)
      else if MinAddr(cs, g).Some? && MinAddr(cs, g).value <= c.address then MinAddr(cs, g)
      else Some(c.address)
  {
    assert (cs + [c])[..|cs|] == cs;
  }

  lemma {:induction false} MinAddrOfPages(regs: seq<Register>, g: Group)
    requires !g.Other?
    ensures MinAddr(ClassifyAll(regs), g) == MinAddr(ClassifyAll(PagesOnly(regs)), g)
    decreases |regs|
  {
    hide MinAddr, ClassifyAll, PagesOnly, OnPage, GroupOf, FwKey;
    if regs == [] {
      assert PagesOnly([]) == [] by { NoPages(); }
    } else {
      var n := |regs| - 1;
      MinAddrOfPages(regs[..n], g);
      ClassifyLast(regs);
      PagesLast(regs);
      OtherIffOffPage(regs[n]);
      MinAddrSnoc(ClassifyAll(regs[..n]), Classify(regs[n]), g);
      MinAddrSnoc(ClassifyAll(PagesOnly(regs[..n])), Classify(regs[n]), g);
      assert ClassifyAll(PagesOnly(regs[..n])) + [] == ClassifyAll(PagesOnly(regs[..n]));
    }
  }

  lemma NoPages()
    ensures PagesOnly([]) == []
  {
  }

  lemma {:induction false} InPages(regs: seq<Register>, c: Reg)
    requires !c.group.Other?
    ensures c in ClassifyAll(regs) <==> c in ClassifyAll(PagesOnly(regs))
    decreases |regs|
  {
    hide ClassifyAll, PagesOnly, OnPage, GroupOf, FwKey;
    if regs == [] {
      assert PagesOnly([]) == [] by { NoPages(); }
    } else {
      var n := |regs| - 1;
      InPages(regs[..n], c);
      ClassifyLast(regs);
      PagesLast(regs);
      OtherIffOffPage(regs[n]);
    }
  }

  lemma IndicesOfPages(regs: seq<Register>)
    ensures Indices(ClassifyAll(regs)) == Indices(ClassifyAll(PagesOnly(regs)))
  {
    hide ClassifyAll, PagesOnly;
    var a, b := ClassifyAll(regs), ClassifyAll(PagesOnly(regs));
    forall x
      ensures x in Indices(a) <==> x in Indices(b)
    {
      forall r: Reg
        ensures !r.group.Other? ==> (r in a <==> r in b)
      {
        if !r.group.Other? { InPages(regs, r); }
      }
    }
  }

  /** Board-level registers do not move the layout. */
  lemma LayoutOfPages(regs: seq<Register>, prefer: Option<bool>, l: Layout)
    ensures IsLayout(ClassifyAll(regs), prefer, l) <==> IsLayout(ClassifyAll(PagesOnly(regs)), prefer, l)
  {
    hide ClassifyAll, PagesOnly, MinAddr, Indices, Step, HasPositive;
    forall g: Group
      ensures !g.Other? ==> MinAddr(ClassifyAll(regs), g) == MinAddr(ClassifyAll(PagesOnly(regs)), g)
    {
      if !g.Other? { MinAddrOfPages(regs, g); }
    }
    IndicesOfPages(regs);
  }

  lemma HasGroupOfPages(regs: seq<Register>, g: Group)
    requires !g.Other?
    ensures HasGroup(ClassifyAll(regs), g) == HasGroup(ClassifyAll(PagesOnly(regs)), g)
  {
    hide ClassifyAll, PagesOnly, MinAddr, HasGroup;
    HasGroupIffMin(ClassifyAll(regs), g);
    HasGroupIffMin(ClassifyAll(PagesOnly(regs)), g);
    MinAddrOfPages(regs, g);
  }

  lemma FilterSnoc(cs: seq<Reg>, c: Reg, keep: Reg -> bool)
    ensures Filter(cs + [c], keep) == Filter(cs, keep) + if keep(c) then [c] else []
  {
    assert (cs + [c])[..|cs|] == cs;
  }

  lemma {:induction false} FilterOfPages(regs: seq<Register>, keep: Reg -> bool)
    requires forall c: Reg :: c.group.Other? ==> !keep(c)
    ensures Filter(ClassifyAll(regs), keep) == Filter(ClassifyAll(PagesOnly(regs)), keep)
    decreases |regs|
  {
    hide Filter, ClassifyAll, PagesOnly, OnPage, GroupOf, FwKey;
    if regs == [] {
      assert PagesOnly([]) == [] by { NoPages(); }
    } else {
      var n := |regs| - 1;
      FilterOfPages(regs[..n], keep);
      ClassifyLast(regs);
      PagesLast(regs);
      OtherIffOffPage(regs[n]);
      FilterSnoc(ClassifyAll(regs[..n]), Classify(regs[n]), keep);
      FilterSnoc(ClassifyAll(PagesOnly(regs[..n])), Classify(regs[n]), keep);
      var kept := Filter(ClassifyAll(regs[..n]), keep);
      assert kept + [] == kept && ClassifyAll(PagesOnly(regs[..n])) + [] == ClassifyAll(PagesOnly(regs[..n]));
    }
  }

  /** Nor do they change which registers are kept, or their order. */
  lemma CanonicalOfPages(regs: seq<Register>, prefer: bool)
    ensures SelectCanonical(ClassifyAll(regs), prefer) == SelectCanonical(ClassifyAll(PagesOnly(regs)), prefer)
  {
    hide Filter, ClassifyAll, PagesOnly, HasGroup;
    HasGroupOfPages(regs, Broadcast);
    HasGroupOfPages(regs, Page(0));
    var hasBroadcast := HasGroup(ClassifyAll(regs), Broadcast);
    var usePerChannel := prefer && HasGroup(ClassifyAll(regs), Page(0));
    FilterOfPages(regs, r => Keeps(usePerChannel, hasBroadcast, r));
  }

  lemma FirstCh0Snoc(cs: seq<Reg>, c: Reg, key: string)
    ensures FirstCh0(cs + [c], key) ==
      if FirstCh0(cs, key).Some? then FirstCh0(cs, key)
      else if c.group == Page(0) && c.key == Some(key) then Some(c.address)
      else None
  {
    assert (cs + [c])[..|cs|] == cs;
  }

  lemma {:induction false} FirstCh0OfPages(regs: seq<Register>, key: string)
    ensures FirstCh0(ClassifyAll(regs), key) == FirstCh0(ClassifyAll(PagesOnly(regs)), key)
    decreases |regs|
  {
    hide FirstCh0, ClassifyAll, PagesOnly, OnPage, GroupOf, FwKey;
    if regs == [] {
      assert PagesOnly([]) == [] by { NoPages(); }
    } else {
      var n := |regs| - 1;
      FirstCh0OfPages(regs[..n], key);
      ClassifyLast(regs);
      PagesLast(regs);
      OtherIffOffPage(regs[n]);
      FirstCh0Snoc(ClassifyAll(regs[..n]), Classify(regs[n]), key);
      FirstCh0Snoc(ClassifyAll(PagesOnly(regs[..n])), Classify(regs[n]), key);
      assert ClassifyAll(PagesOnly(regs[..n])) + [] == ClassifyAll(PagesOnly(regs[..n]));
    }
  }

  /** And they do not change the verdict of the guard. */
  lemma GuardOfPages(regs: seq<Register>, pageBase: nat, broadcastBase: nat)
    ensures GuardOk(ClassifyAll(regs), pageBase, broadcastBase)
       <==> GuardOk(ClassifyAll(PagesOnly(regs)), pageBase, broadcastBase)
  {
    hide FirstCh0, ClassifyAll, PagesOnly;
    var a, b := ClassifyAll(regs), ClassifyAll(PagesOnly(regs));
    forall r: Reg
      ensures r in a && Clashes(a, pageBase, broadcastBase, r) <==> r in b && Clashes(b, pageBase, broadcastBase, r)
    {
      if r.group == Broadcast { InPages(regs, r); }
      if r.key.Some? { FirstCh0OfPages(regs, r.key.value); }
    }
  }

  /** Main result: layout, kept registers and guard are those of the list without
      its board-level registers. */
  lemma BoardRegistersIgnored(regs: seq<Register>, prefer: Option<bool>, l: Layout)
    ensures IsLayout(ClassifyAll(regs), prefer, l) <==> IsLayout(ClassifyAll(PagesOnly(regs)), prefer, l)
    ensures SelectCanonical(ClassifyAll(regs), l.preferPerChannel)
         == SelectCanonical(ClassifyAll(PagesOnly(regs)), l.preferPerChannel)
    ensures GuardOk(ClassifyAll(regs), l.pageBase, l.broadcastBase)
       <==> GuardOk(ClassifyAll(PagesOnly(regs)), l.pageBase, l.broadcastBase)
    ensures forall r :: r in PagesOnly(regs) <==> r in regs && OnPage(r)
  {
    LayoutOfPages(regs, prefer, l);
    CanonicalOfPages(regs, l.preferPerChannel);
    GuardOfPages(regs, l.pageBase, l.broadcastBase);
    forall r
      ensures r in PagesOnly(regs) <==> r in regs && OnPage(r)
    {
      PagesMembers(regs, r);
    }
  }

  lemma {:induction false} PagesMembers(regs: seq<Register>, r: Register)
    ensures r in PagesOnly(regs) <==> r in regs && OnPage(r)
    decreases |regs|
  {
    hide OnPage;
    if regs == [] {
    } else {
      PagesMembers(regs[..|regs| - 1], r);
      assert regs == regs[..|regs| - 1] + [regs[|regs| - 1]];
    }
  }

  // ---- The page of a register in each era ----

  /** Main result: a register printed in any era's form is on the page of that form
      under its own key, whether the name stands in the path, whatever else is in the
      name field, or only in the name field. */
  lemma PageOfForm(address: u32, f: Form, name: string, other: Option<string>)
    requires !IsSlashForm(f) ==> '/' !in name && !StartsWithToken(name)
    ensures var page := if FormChannel(f).Some? then Page(FormChannel(f).value) else Broadcast;
            && Classify(Register(address, Some(Print(f, name)), other)) == Reg(address, page, Some(name))
            && Classify(Register(address, None, Some(Print(f, name)))) == Reg(address, page, Some(name))
  {
    hide IsPerChannelName, FwKeyOf, ChannelIndexOf, Print;
    ParseUndoesPrint(f, name);
  }

  /** A path decides, whatever the name field says; without one the name does. */
  lemma PathDecides(address: u32, path: string, name: Option<string>)
    ensures Classify(Register(address, Some(path), name)) == Classify(Register(address, None, Some(path)))
  {
    hide FwKeyOf, ChannelIndexOf, IsPerChannelName;
  }

  /** A register outside the family keeps its raw name as its key; one without path
      and name has none. */
  lemma BoardKey(r: Register)
    requires !OnPage(r)
    ensures FwKey(r) == if r.path.Some? then r.path else r.name
  {
    assert SLASH_PREFIX == "page_amax_energy/" && UNDERSCORE_PREFIX == "page_amax_energy_";
  }

  // ---- The stride, and the first of several namesakes ----

  /** What the stride is when the pages are not uniform: the even part of the
      distance to the smallest other page if there is one, otherwise that whole
      distance; 0 if that page stands below ch0. */
  lemma StrideOfPages(regs: seq<Reg>, prefer: Option<bool>, l: Layout, a0: nat, k: u32, ak: nat)
    requires IsLayout(regs, prefer, l)
    requires k in Indices(regs) && 0 < k && forall x :: x in Indices(regs) ==> x == 0 || k <= x
    requires MinAddr(regs, Page(0)) == Some(a0) && MinAddr(regs, Page(k)) == Some(ak)
    ensures forall d: nat :: ak == a0 + k * d ==> l.pageStride == d
    ensures ak >= a0 && (forall d: nat :: ak != a0 + k * d) ==> l.pageStride == ak - a0
    ensures ak < a0 ==> l.pageStride == 0
  {
    hide MinAddr, Indices, BaseOf, IsSpan;
    assert HasPositive(Indices(regs));
    var j: u32 :| IsSmallestPositive(Indices(regs), j) && StepsTo(a0, j, MinAddr(regs, Page(j)), l.pageStride);
    assert j == k;
    forall d: nat | ak == a0 + k * d
      ensures l.pageStride == d
    {
      StepOfUniform(a0, d, k);
    }
    if ak >= a0 && (ak - a0) % k == 0 { assert ak == a0 + k * ((ak - a0) / k); }
  }

  /** `CHANNEL_PAGES` is one more than the largest index, so every page present lies
      below it; 0 without pages, and when the largest index is that of 32 bits. */
  lemma SpanOfPages(regs: seq<Reg>, prefer: Option<bool>, l: Layout)
    requires IsLayout(regs, prefer, l)
    ensures l.channelPages == 0 <==> Indices(regs) == {} || 0xFFFF_FFFF in Indices(regs)
    ensures l.channelPages > 0 ==>
              l.channelPages - 1 in Indices(regs) && forall ch :: ch in Indices(regs) ==> ch < l.channelPages
  {
    hide MinAddr, Indices, BaseOf, IsStride;
    if Indices(regs) != {} {
      var top: nat :| IsLargest(Indices(regs), top) && l.channelPages == (top + 1) % TWO32;
    }
  }

  /** Of several ch0 registers of one name the guard takes the first in the list. */
  lemma {:induction false} FirstCh0IsFirst(regs: seq<Reg>, key: string)
    ensures FirstCh0(regs, key).None? <==> forall i :: 0 <= i < |regs| ==> !Ch0Named(regs[i], key)
    ensures FirstCh0(regs, key).Some? ==>
              exists i :: 0 <= i < |regs| && Ch0Named(regs[i], key)
                          && regs[i].address as int == FirstCh0(regs, key).value
                          && forall j :: 0 <= j < i ==> !Ch0Named(regs[j], key)
    decreases |regs|
  {
    if regs == [] {
    } else {
      var n := |regs| - 1;
      FirstCh0IsFirst(regs[..n], key);
    }
  }

  predicate Ch0Named(r: Reg, key: string) { r.group == Page(0) && r.key == Some(key) }

  /** The guard is not too strict: for a kept ch0 register, which is the first of its
      name, a broadcast namesake clashes exactly when the emitted broadcast address
      would miss it. */
  lemma GuardExact(regs: seq<Reg>, prefer: Option<bool>, l: Layout, r: Reg, b: Reg)
    requires IsLayout(regs, prefer, l)
    requires r in SelectCanonical(regs, l.preferPerChannel) && r.group == Page(0)
    requires b in regs && b.group == Broadcast && b.key.Some?
    requires FirstCh0(regs, b.key.value) == Some(r.address)
    ensures Clashes(regs, l.pageBase, l.broadcastBase, b) <==>
            l.broadcastBase + SatSub(r.address, l.pageBase) != b.address
  {
    hide FirstCh0, IsLayout, SelectCanonical;
    PageBaseIsLowestKept(regs, prefer, l);
  }
}
