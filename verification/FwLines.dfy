/** `pha_trap_tune.rs`: greedy selection of spectral lines from a histogram of
    firmware energy codes. */
module FwLines {
  import opened Bytes

  const AUTO_MIN_CODE := 64
  const AUTO_END_CODE := 0x7FFF

  /** How many events each code has. */
  type Spectrum = multiset<int>

  predicate IsCode(h: Spectrum, c: int) { 64 <= c < 0x7FFF && h[c] > 0 }

  /** Taller first; of two equally tall codes the lower first. */
  predicate Before(h: Spectrum, a: int, b: int) { h[a] > h[b] || (h[a] == h[b] && a < b) }

  /** `a` differs from `l` by more than 0.02 times `l`. */
  predicate TwoPercentOff(a: int, l: int) {
    (if a < l then l as real - a as real else a as real - l as real) > 0.02 * l as real
  }

  /** More than 2 % of `l` away from `l`, in integers. */
  predicate Far(c: int, l: int) { 50 * (if c < l then l - c else c - l) > l }

  lemma FarIsTwoPercent(c: int, l: int)
    ensures Far(c, l) <==> TwoPercentOff(c, l)
  {
    var d := if c < l then l - c else c - l;
    assert 50.0 * (d as real) > l as real <==> d as real > 0.02 * l as real;
    assert (50 * d) as real == 50.0 * (d as real);
  }

  // ---- What a correct selection is ----

  /** `c` lies within 2 % of a pick that ranks before it. */
  ghost predicate Shadowed(h: Spectrum, lines: seq<int>, c: int) {
    exists i :: 0 <= i < |lines| && Before(h, lines[i], c) && !TwoPercentOff(c, lines[i])
  }

  ghost predicate RanksAfterAll(h: Spectrum, lines: seq<int>, c: int) {
    forall i :: 0 <= i < |lines| ==> Before(h, lines[i], c)
  }

  ghost predicate Ordered(h: Spectrum, lines: seq<int>) {
    forall i, j :: 0 <= i < j < |lines| ==> Before(h, lines[i], lines[j])
  }

  ghost predicate Separated(lines: seq<int>) {
    forall i, j :: 0 <= i < j < |lines| ==> TwoPercentOff(lines[j], lines[i])
  }

  ghost predicate IsSelection(h: Spectrum, n: nat, lines: seq<int>) {
    && |lines| <= n && Ordered(h, lines) && Separated(lines)
    && (forall i :: 0 <= i < |lines| ==> IsCode(h, lines[i]))
    && (forall c :: IsCode(h, c) && c !in lines ==>
        Shadowed(h, lines, c) || (|lines| == n && RanksAfterAll(h, lines, c)))
  }

  lemma OrderedIndex(h: Spectrum, a: seq<int>, k: nat, i: nat)
    requires Ordered(h, a) && k <= i < |a|
    ensures !Before(h, a[i], a[k])
  {
    if k < i { assert Before(h, a[k], a[i]); }
  }

  /** Nothing picked from `a[k]` on ranks before `a[k]`. */
  lemma NotPicked(h: Spectrum, a: seq<int>, k: nat, c: int)
    requires Ordered(h, a) && k < |a| && Before(h, c, a[k])
    ensures c in a ==> c in a[..k]
  {
    hide Before, Ordered;
    forall i | k <= i < |a|
      ensures a[i] != c
    {
      OrderedIndex(h, a, k, i);
    }
  }

  lemma Transitive(h: Spectrum, a: int, b: int, c: int)
    requires Before(h, a, b) && Before(h, b, c)
    ensures Before(h, a, c)
  {
  }

  /** `b` keeps its own picks apart, so the picks it shares with `a` cannot
      shadow its next one. */
  lemma NoShadow(h: Spectrum, a: seq<int>, b: seq<int>, k: nat)
    requires Separated(b) && Ordered(h, a) && k < |b| && k <= |a| && a[..k] == b[..k]
    requires k < |a| ==> Before(h, b[k], a[k])
    ensures !Shadowed(h, a, b[k])
  {
    hide TwoPercentOff, Before, Ordered;
    forall i | 0 <= i < |a| && Before(h, a[i], b[k])
      ensures TwoPercentOff(b[k], a[i])
    {
      if k <= i {
        Transitive(h, a[i], b[k], a[k]);
        OrderedIndex(h, a, k, i);
      } else {
        assert a[i] == a[..k][i] == b[..k][i] == b[i];
      }
    }
  }

  lemma NotInPrefix(h: Spectrum, b: seq<int>, k: nat)
    requires Ordered(h, b) && k < |b|
    ensures b[k] !in b[..k]
  {
    forall i | 0 <= i < k
      ensures b[i] != b[k]
    {
      assert Before(h, b[i], b[k]);
    }
  }

  /** After equal beginnings the next pick of `b` cannot rank before that of `a`. */
  lemma NotEarlier(h: Spectrum, n: nat, a: seq<int>, b: seq<int>, k: nat)
    requires IsSelection(h, n, a) && IsSelection(h, n, b) && k < |a| && k < |b| && a[..k] == b[..k]
    ensures !Before(h, b[k], a[k])
  {
    hide IsCode, TwoPercentOff, Separated, Ordered, Shadowed;
    if Before(h, b[k], a[k]) {
      NotPicked(h, a, k, b[k]);
      NotInPrefix(h, b, k);
      NoShadow(h, a, b, k);
    }
  }

  lemma NotLonger(h: Spectrum, n: nat, a: seq<int>, b: seq<int>)
    requires IsSelection(h, n, a) && IsSelection(h, n, b) && |a| <= |b| && a == b[..|a|]
    ensures |a| == |b|
  {
    hide IsCode, TwoPercentOff, Separated, Ordered, Shadowed, Before;
    if |a| < |b| {
      NotInPrefix(h, b, |a|);
      assert a[..|a|] == a;
      NoShadow(h, a, b, |a|);
    }
  }

  lemma {:induction false} AgreeUpTo(h: Spectrum, n: nat, a: seq<int>, b: seq<int>, k: nat)
    requires IsSelection(h, n, a) && IsSelection(h, n, b) && k <= |a| && k <= |b|
    ensures a[..k] == b[..k]
  {
    hide IsSelection;
    if k == 0 {
    } else {
      AgreeUpTo(h, n, a, b, k - 1);
      NotEarlier(h, n, a, b, k - 1);
      NotEarlier(h, n, b, a, k - 1);
      assert a[..k] == a[..k - 1] + [a[k - 1]] && b[..k] == b[..k - 1] + [b[k - 1]];
    }
  }

  /** The conditions leave only one selection. */
  lemma SelectionUnique(h: Spectrum, n: nat, a: seq<int>, b: seq<int>)
    requires IsSelection(h, n, a) && IsSelection(h, n, b)
    ensures a == b
  {
    hide IsSelection;
    var k := if |a| < |b| then |a| else |b|;
    AgreeUpTo(h, n, a, b, k);
    assert a[..|a|] == a && b[..|b|] == b;
    if |a| <= |b| { NotLonger(h, n, a, b); } else { NotLonger(h, n, b, a); }
  }

  /** The first pick is the tallest code, the lowest of the tallest. */
  lemma FirstIsMode(h: Spectrum, n: nat, lines: seq<int>, c: int)
    requires IsSelection(h, n, lines) && n > 0 && IsCode(h, c)
    ensures lines != [] && (c == lines[0] || Before(h, lines[0], c))
  {
    hide TwoPercentOff, Separated, Before, IsCode;
    if c in lines {
      var i :| 0 <= i < |lines| && lines[i] == c;
      assert i > 0 ==> Before(h, lines[0], lines[i]);
    } else if Shadowed(h, lines, c) {
      var i :| 0 <= i < |lines| && Before(h, lines[i], c) && !TwoPercentOff(c, lines[i]);
      if i > 0 { Transitive(h, lines[0], lines[i], c); }
    }
  }

  /** Asking for fewer lines gives the first of them: the window is set around
      the first line of the printed list. */
  lemma FewerLines(h: Spectrum, n: nat, m: nat, lines: seq<int>)
    requires IsSelection(h, n, lines) && m <= n
    ensures IsSelection(h, m, if m <= |lines| then lines[..m] else lines)
  {
    hide TwoPercentOff, IsCode, Before;
    if m < |lines| {
      var first := lines[..m];
      forall c | IsCode(h, c) && c !in first
        ensures Shadowed(h, first, c) || RanksAfterAll(h, first, c)
      {
        LaterRanksAfter(h, n, m, lines, c);
      }
    } else if m == |lines| {
      assert lines[..m] == lines;
    }
  }

  lemma LaterRanksAfter(h: Spectrum, n: nat, m: nat, lines: seq<int>, c: int)
    requires IsSelection(h, n, lines) && m < |lines| && IsCode(h, c) && c !in lines[..m]
    ensures Shadowed(h, lines[..m], c) || RanksAfterAll(h, lines[..m], c)
  {
    hide TwoPercentOff, IsCode, Before, Separated;
    forall j | 0 <= j < m
      ensures lines[j] != c
    {
      assert lines[..m][j] == lines[j];
    }
    if c in lines {
      var i :| 0 <= i < |lines| && lines[i] == c;
    } else if Shadowed(h, lines, c) {
      var i :| 0 <= i < |lines| && Before(h, lines[i], c) && !TwoPercentOff(c, lines[i]);
      if i < m {
        assert lines[..m][i] == lines[i];
      } else {
        forall j | 0 <= j < m
          ensures Before(h, lines[j], c)
        {
          Transitive(h, lines[j], lines[i], c);
        }
      }
    }
  }

  // ---- fw_lines ----

  /** Stable insertion by descending key: behind everything at least as large. */
  function Insert(key: int -> nat, c: int, s: seq<int>): (r: seq<int>)
    ensures multiset(r) == multiset(s) + multiset{c}
  {
    if s == [] then [c]
    else if key(s[0]) < key(c) then [c] + s
    else
      assert s == [s[0]] + s[1..];
      [s[0]] + Insert(key, c, s[1..])
  }

  /** `sort_by_key` with the key reversed: stable. */
  function SortByKeyDescending(key: int -> nat, codes: seq<int>): (r: seq<int>)
    ensures multiset(r) == multiset(codes)
  {
    if codes == [] then []
    else
      assert codes == codes[..|codes| - 1] + [codes[|codes| - 1]];
      Insert(key, codes[|codes| - 1], SortByKeyDescending(key, codes[..|codes| - 1]))
  }

  predicate Ascending(s: seq<int>) { forall i, j :: 0 <= i < j < |s| ==> s[i] < s[j] }

  ghost predicate IsHeight(key: int -> nat, h: Spectrum, s: seq<int>) { forall x :: x in s ==> key(x) == h[x] }

  lemma {:induction false} InsertOrdered(key: int -> nat, h: Spectrum, c: int, s: seq<int>)
    requires Ordered(h, s) && IsHeight(key, h, s) && key(c) == h[c] && forall x :: x in s ==> x < c
    ensures Ordered(h, Insert(key, c, s))
  {
    if s == [] {
    } else {
      var rest := Insert(key, c, s[1..]);
      assert s[0] in s && forall x :: x in s[1..] ==> x in s;
      if key(s[0]) >= key(c) {
        InsertOrdered(key, h, c, s[1..]);
        forall x | x in rest
          ensures Before(h, s[0], x)
        {
          InRest(h, s, c, rest, x);
        }
      } else {
        forall x | x in s
          ensures Before(h, c, x)
        {
          var i :| 0 <= i < |s| && s[i] == x;
          assert i > 0 ==> Before(h, s[0], s[i]);
        }
      }
    }
  }

  lemma InRest(h: Spectrum, s: seq<int>, c: int, rest: seq<int>, x: int)
    requires s != [] && multiset(rest) == multiset(s[1..]) + multiset{c} && x in rest
    requires Ordered(h, s) && Before(h, s[0], c)
    ensures Before(h, s[0], x)
  {
    hide Before;
    assert x in multiset(rest);
    if x != c {
      var i :| 0 <= i < |s| - 1 && s[1..][i] == x;
      assert Before(h, s[0], s[i + 1]);
    }
  }

  /** Because the codes go in ascending, stability breaks ties towards the lower code. */
  lemma {:induction false} SortOrdered(key: int -> nat, h: Spectrum, codes: seq<int>)
    requires Ascending(codes) && IsHeight(key, h, codes)
    ensures Ordered(h, SortByKeyDescending(key, codes))
  {
    if codes == [] {
    } else {
      var n := |codes| - 1;
      SortOrdered(key, h, codes[..n]);
      var earlier := SortByKeyDescending(key, codes[..n]);
      forall x | x in earlier
        ensures x < codes[n] && x in codes
      {
        assert x in multiset(codes[..n]);
      }
      InsertOrdered(key, h, codes[n], earlier);
    }
  }

  method Histogram(energies: seq<u16>) returns (hist: array<nat>)
    ensures hist.Length == 0x1_0000 && fresh(hist)
    ensures forall c :: 0 <= c < 0x1_0000 ==> hist[c] == SpectrumOf(energies)[c]
  {
    hist := new nat[0x1_0000](_ => 0);
    for i := 0 to |energies|
      invariant forall c :: 0 <= c < 0x1_0000 ==> hist[c] == SpectrumOf(energies[..i])[c]
    {
      assert energies[..i + 1] == energies[..i] + [energies[i]];
      hist[energies[i]] := hist[energies[i]] + 1;
    }
    assert energies[..|energies|] == energies;
  }

  function SpectrumOf(energies: seq<int>): (h: Spectrum) { multiset(energies) }

  /** The codes that occur, ascending. */
  method Codes(hist: array<nat>, ghost h: Spectrum) returns (codes: seq<int>)
    requires hist.Length == 0x1_0000 && forall c :: 0 <= c < 0x1_0000 ==> hist[c] == h[c]
    ensures Ascending(codes) && forall c :: c in codes <==> IsCode(h, c)
  {
    codes := [];
    for c := AUTO_MIN_CODE to AUTO_END_CODE
      invariant Ascending(codes) && forall x :: x in codes <==> IsCode(h, x) && x < c
    {
      assert forall i :: 0 <= i < |codes| ==> codes[i] in codes;
      if hist[c] > 0 { codes := codes + [c]; }
    }
  }

  /** What the loop has established about the codes it has passed. */
  ghost predicate Passed(h: Spectrum, seen: seq<int>, lines: seq<int>) {
    && Ordered(h, lines) && Separated(lines)
    && (forall i :: 0 <= i < |lines| ==> lines[i] in seen)
    && (forall c :: c in seen && c !in lines ==> Shadowed(h, lines, c))
  }

  predicate FarFromAll(lines: seq<int>, c: int) { forall i :: 0 <= i < |lines| ==> Far(c, lines[i]) }

  lemma FarIsOff(lines: seq<int>, c: int)
    ensures FarFromAll(lines, c) <==> forall i :: 0 <= i < |lines| ==> TwoPercentOff(c, lines[i])
  {
    hide Far, TwoPercentOff;
    forall i | 0 <= i < |lines|
      ensures Far(c, lines[i]) <==> TwoPercentOff(c, lines[i])
    {
      FarIsTwoPercent(c, lines[i]);
    }
  }

  lemma RanksLast(h: Spectrum, seen: seq<int>, lines: seq<int>, c: int, i: nat)
    requires Passed(h, seen, lines) && Ordered(h, seen + [c]) && i < |lines|
    ensures Before(h, lines[i], c)
  {
    hide TwoPercentOff, Before, Shadowed;
    var n := |seen|;
    assert lines[i] in seen;
    var j :| 0 <= j < n && seen[j] == lines[i];
    assert (seen + [c])[j] == lines[i] && (seen + [c])[n] == c;
  }

  lemma StillShadowed(h: Spectrum, lines: seq<int>, c: int, x: int)
    requires Shadowed(h, lines, x)
    ensures Shadowed(h, lines + [c], x)
  {
    hide TwoPercentOff, Before;
    var i :| 0 <= i < |lines| && Before(h, lines[i], x) && !TwoPercentOff(x, lines[i]);
    assert (lines + [c])[i] == lines[i];
  }

  lemma PassOne(h: Spectrum, seen: seq<int>, lines: seq<int>, c: int)
    requires Passed(h, seen, lines) && Ordered(h, seen + [c])
    ensures Passed(h, seen + [c], if FarFromAll(lines, c) then lines + [c] else lines)
  {
    hide TwoPercentOff, Far, Before, FarFromAll;
    FarIsOff(lines, c);
    forall i | 0 <= i < |lines|
      ensures Before(h, lines[i], c)
    {
      RanksLast(h, seen, lines, c, i);
    }
    if FarFromAll(lines, c) {
      forall x | x in seen && x !in lines
        ensures Shadowed(h, lines + [c], x)
      {
        StillShadowed(h, lines, c, x);
      }
    }
  }

  lemma Done(h: Spectrum, n: nat, codes: seq<int>, k: nat, lines: seq<int>)
    requires Ordered(h, codes) && (forall c :: c in codes <==> IsCode(h, c)) && k <= |codes|
    requires Passed(h, codes[..k], lines) && |lines| <= n && (k == |codes| || |lines| == n)
    ensures IsSelection(h, n, lines)
  {
    hide TwoPercentOff, Before, IsCode, Separated;
    forall c | IsCode(h, c) && c !in lines
      ensures Shadowed(h, lines, c) || (|lines| == n && RanksAfterAll(h, lines, c))
    {
      if c !in codes[..k] {
        forall j | 0 <= j < k
          ensures codes[j] != c
        {
          assert codes[..k][j] == codes[j];
        }
        var m :| 0 <= m < |codes| && codes[m] == c;
        forall i | 0 <= i < |lines|
          ensures Before(h, lines[i], c)
        {
          var j :| 0 <= j < k && codes[..k][j] == lines[i];
          assert Before(h, codes[j], codes[m]);
        }
      }
    }
  }

  lemma StartPassed(h: Spectrum, codes: seq<int>)
    ensures Passed(h, codes[..0], [])
  {
  }

  lemma OrderedPrefix(h: Spectrum, codes: seq<int>, k: nat)
    requires Ordered(h, codes) && k < |codes|
    ensures Ordered(h, codes[..k] + [codes[k]])
  {
    assert codes[..k] + [codes[k]] == codes[..k + 1];
  }

  method FwLines(energies: seq<u16>, n: nat) returns (lines: seq<int>)
    ensures IsSelection(SpectrumOf(energies), n, lines)
  {
    hide Passed, Ordered, IsSelection, SortByKeyDescending, Far;
    ghost var h := SpectrumOf(energies);
    var hist := Histogram(energies);
    var ascending := Codes(hist, h);
    var counts := hist[..];
    var key := (c: int) => if 0 <= c < |counts| then counts[c] else 0;
    SortOrdered(key, h, ascending);
    var codes := SortByKeyDescending(key, ascending);
    assert forall c :: c in codes <==> c in multiset(codes);
    lines := [];
    var k := 0;
    StartPassed(h, codes);
    while k < |codes| && |lines| < n
      invariant k <= |codes| && |lines| <= n && Passed(h, codes[..k], lines)
    {
      var e := codes[k];
      assert codes[..k + 1] == codes[..k] + [e];
      OrderedPrefix(h, codes, k);
      PassOne(h, codes[..k], lines, e);
      if FarFromAll(lines, e) { lines := lines + [e]; }
      k := k + 1;
    }
    Done(h, n, codes, k, lines);
  }

  /** The codes in question are the energies from 64 to 32766. */
  lemma CodesOf(energies: seq<int>, c: int)
    ensures IsCode(SpectrumOf(energies), c) <==> c in energies && 64 <= c <= 32766
  {
  }

  // ---- auto_fw_window ----

  datatype Window = NoLine | Window(lo: real, hi: real)

  method AutoFwWindow(energies: seq<u16>) returns (w: Window)
    ensures w.NoLine? <==> forall c :: !IsCode(SpectrumOf(energies), c)
    ensures w.Window? ==> exists mode: int ::
              && IsCode(SpectrumOf(energies), mode)
              && (forall c :: IsCode(SpectrumOf(energies), c) ==> c == mode || Before(SpectrumOf(energies), mode, c))
              && w.lo + w.hi == 2.0 * mode as real
              && w.hi - w.lo == if mode as real / 100.0 > 8.0 then mode as real / 50.0 else 16.0
  {
    hide IsCode, Before, Ordered, Separated, Shadowed;
    var lines := FwLines(energies, 1);
    ghost var h := SpectrumOf(energies);
    forall c | IsCode(h, c)
      ensures lines != [] && (c == lines[0] || Before(h, lines[0], c))
    {
      FirstIsMode(h, 1, lines, c);
    }
    if lines == [] { return NoLine; }
    var mode := lines[0] as real;
    var half := if mode / 100.0 > 8.0 then mode / 100.0 else 8.0;
    w := Window(mode - half, mode + half);
    assert IsCode(h, lines[0]);
  }
}
