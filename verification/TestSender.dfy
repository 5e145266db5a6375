/** `eb_test_sender.rs`: cutting sorted hits into time chunks, shuffling each
    chunk, and sending the shuffled stream in numbered batches. */
module TestSender {

  datatype Hit = Hit(mod: nat, channel: nat, energy: nat, energyShort: nat, timestamp: real)

  datatype Event = Event(mod: nat, channel: nat, energy: nat, energyShort: nat, timestamp: real, flags: nat)

  datatype Message = Data(sourceId: nat, sequenceNumber: nat, events: seq<Event>) | Eos(sourceId: nat, runNumber: nat)

  datatype Outcome = NoHits | Sent(messages: seq<Message>, sentHits: nat, sentBatches: nat)

  function EventOf(h: Hit): (e: Event) {
    Event(h.mod, h.channel, h.energy, h.energyShort, h.timestamp, 0)
  }

  function EventsOf(hits: seq<Hit>): (es: seq<Event>)
    ensures |es| == |hits| && forall i :: 0 <= i < |es| ==> es[i] == EventOf(hits[i])
  {
    seq(|hits|, i requires 0 <= i < |hits| => EventOf(hits[i]))
  }

  function Flatten<T>(ss: seq<seq<T>>): (s: seq<T>) {
    if ss == [] then [] else ss[0] + Flatten(ss[1..])
  }

  // ---- Sorting by time ----

  ghost predicate Sorted(hits: seq<Hit>) {
    forall i, j :: 0 <= i < j < |hits| ==> hits[i].timestamp <= hits[j].timestamp
  }

  function Insert(h: Hit, s: seq<Hit>): (r: seq<Hit>)
    requires Sorted(s)
    ensures Sorted(r) && multiset(r) == multiset(s) + multiset{h}
  {
    if s == [] || h.timestamp < s[0].timestamp then [h] + s
    else
      var rest := Insert(h, s[1..]);
      assert s == [s[0]] + s[1..];
      ConsSorted(s[0], rest, s[1..], h);
      [s[0]] + rest
  }

  lemma ConsSorted(x: Hit, rest: seq<Hit>, tail: seq<Hit>, h: Hit)
    requires Sorted(rest) && multiset(rest) == multiset(tail) + multiset{h}
    requires x.timestamp <= h.timestamp && forall y :: y in tail ==> x.timestamp <= y.timestamp
    ensures Sorted([x] + rest)
  {
    forall i | 0 <= i < |rest|
      ensures x.timestamp <= rest[i].timestamp
    {
      assert rest[i] in multiset(rest);
    }
  }

  /** The stable sort: later equals go behind. */
  function SortByTime(hits: seq<Hit>): (r: seq<Hit>)
    ensures Sorted(r) && multiset(r) == multiset(hits)
  {
    if hits == [] then []
    else
      assert hits == hits[..|hits| - 1] + [hits[|hits| - 1]];
      Insert(hits[|hits| - 1], SortByTime(hits[..|hits| - 1]))
  }

  // ---- Chunks ----

  /** A chunk runs to the last hit within `size` of its first. */
  ghost predicate IsChunk(c: seq<Hit>, size: real) {
    c != [] && forall k :: 0 < k < |c| ==> c[k].timestamp <= c[0].timestamp + size
  }

  /** Each chunk opens with the first hit beyond the reach of the one before. */
  ghost predicate AreChunks(chunks: seq<seq<Hit>>, size: real) {
    && (forall i :: 0 <= i < |chunks| ==> IsChunk(chunks[i], size))
    && (forall i :: 0 < i < |chunks| ==> chunks[i][0].timestamp > chunks[i - 1][0].timestamp + size)
  }

  ghost predicate IsChunking(sorted: seq<Hit>, size: real, chunks: seq<seq<Hit>>) {
    Flatten(chunks) == sorted && AreChunks(chunks, size)
  }

  ghost predicate Shuffled(plain: seq<seq<Hit>>, chunks: seq<seq<Hit>>) {
    |plain| == |chunks| && forall i :: 0 <= i < |plain| ==> multiset(plain[i]) == multiset(chunks[i])
  }

  ghost predicate ShuffledChunking(sorted: seq<Hit>, size: real, chunks: seq<seq<Hit>>) {
    exists plain :: IsChunking(sorted, size, plain) && Shuffled(plain, chunks)
  }

  lemma {:induction false} FlattenSnoc<T>(ss: seq<seq<T>>, s: seq<T>)
    ensures Flatten(ss + [s]) == Flatten(ss) + s
  {
    if ss == [] {
      assert ss + [s] == [s] && [s][1..] == [];
    } else {
      assert (ss + [s])[1..] == ss[1..] + [s];
      FlattenSnoc(ss[1..], s);
    }
  }

  /** Fisher-Yates with an arbitrary source of indices. */
  method Shuffle(chunk: seq<Hit>) returns (r: seq<Hit>)
    ensures multiset(r) == multiset(chunk)
  {
    r := chunk;
    var i := |chunk|;
    while i > 1
      invariant i <= |chunk| && |r| == |chunk|
      invariant multiset(r) == multiset(chunk)
    {
      i := i - 1;
      var j :| 0 <= j <= i;
      r := r[i := r[j]][j := r[i]];
    }
  }

  /** The closed chunks and the one being filled, which opened at `start`. */
  ghost predicate Open(plain: seq<seq<Hit>>, current: seq<Hit>, start: real, size: real) {
    && AreChunks(plain, size)
    && (plain != [] ==> LastStart(plain, size) + size < start)
    && (current != [] ==> current[0].timestamp == start && IsChunk(current, size))
  }

  ghost function LastStart(plain: seq<seq<Hit>>, size: real): (t: real)
    requires AreChunks(plain, size) && plain != []
  {
    assert IsChunk(plain[|plain| - 1], size);
    plain[|plain| - 1][0].timestamp
  }

  lemma ChunksSnoc(plain: seq<seq<Hit>>, current: seq<Hit>, size: real)
    requires AreChunks(plain, size) && IsChunk(current, size)
    requires plain != [] ==> LastStart(plain, size) + size < current[0].timestamp
    ensures AreChunks(plain + [current], size)
    ensures LastStart(plain + [current], size) == current[0].timestamp
  {
    var closed, n := plain + [current], |plain|;
    forall i | 0 <= i < |closed|
      ensures IsChunk(closed[i], size)
    {
      assert closed[i] == if i < n then plain[i] else current;
    }
    forall i | 0 < i < |closed|
      ensures closed[i][0].timestamp > closed[i - 1][0].timestamp + size
    {
      assert closed[i - 1] == plain[i - 1];
    }
  }

  lemma CloseChunk(plain: seq<seq<Hit>>, current: seq<Hit>, start: real, size: real, next: real)
    requires Open(plain, current, start, size) && current != [] && next > start + size
    ensures Open(plain + [current], [], next, size)
    ensures Flatten(plain + [current]) == Flatten(plain) + current
  {
    hide IsChunk, AreChunks, LastStart, Flatten;
    FlattenSnoc(plain, current);
    ChunksSnoc(plain, current, size);
  }

  lemma CloseLast(plain: seq<seq<Hit>>, current: seq<Hit>, start: real, size: real)
    requires Open(plain, current, start, size) && current != []
    ensures IsChunking(Flatten(plain) + current, size, plain + [current])
  {
    hide IsChunk, AreChunks, LastStart, Flatten;
    FlattenSnoc(plain, current);
    ChunksSnoc(plain, current, size);
  }

  lemma Grow(plain: seq<seq<Hit>>, current: seq<Hit>, start: real, size: real, h: Hit)
    requires Open(plain, current, start, size)
    requires if current == [] then h.timestamp == start else h.timestamp <= start + size
    ensures Open(plain, current + [h], start, size)
  {
    assert forall k :: 0 <= k < |current| ==> (current + [h])[k] == current[k];
  }

  lemma ShuffledSnoc(plain: seq<seq<Hit>>, chunks: seq<seq<Hit>>, p: seq<Hit>, c: seq<Hit>)
    requires Shuffled(plain, chunks) && multiset(p) == multiset(c)
    ensures Shuffled(plain + [p], chunks + [c])
  {
  }

  method Chunk(sorted: seq<Hit>, size: real) returns (chunks: seq<seq<Hit>>)
    requires sorted != []
    ensures ShuffledChunking(sorted, size, chunks)
  {
    hide Open, Shuffled, IsChunking, Flatten;
    chunks := [];
    ghost var plain: seq<seq<Hit>> := [];
    var chunkStart := sorted[0].timestamp;
    var current: seq<Hit> := [];
    StartOpen(chunkStart, size);
    for i := 0 to |sorted|
      invariant Flatten(plain) + current == sorted[..i]
      invariant Open(plain, current, chunkStart, size) && Shuffled(plain, chunks)
      invariant i == 0 ==> chunkStart == sorted[0].timestamp
      invariant current == [] <==> i == 0
    {
      var hit := sorted[i];
      assert sorted[..i + 1] == sorted[..i] + [hit];
      if hit.timestamp > chunkStart + size && current != [] {
        var shuffled := Shuffle(current);
        ShuffledSnoc(plain, chunks, current, shuffled);
        chunks := chunks + [shuffled];
        CloseChunk(plain, current, chunkStart, size, hit.timestamp);
        plain := plain + [current];
        current := [];
        chunkStart := hit.timestamp;
      }
      Grow(plain, current, chunkStart, size, hit);
      current := current + [hit];
    }
    assert sorted[..|sorted|] == sorted;
    if current != [] {
      var shuffled := Shuffle(current);
      ShuffledSnoc(plain, chunks, current, shuffled);
      chunks := chunks + [shuffled];
      CloseLast(plain, current, chunkStart, size);
      plain := plain + [current];
    }
  }

  lemma StartOpen(start: real, size: real)
    ensures Open([], [], start, size) && Shuffled([], []) && Flatten<Hit>([]) == []
  {
  }

  // ---- What the chunks determine ----

  function Max(a: real, b: real): (r: real) { if a < b then b else a }

  lemma {:induction false} FlattenIn(ss: seq<seq<Hit>>, i: nat, h: Hit)
    requires i < |ss| && h in ss[i]
    ensures h in Flatten(ss)
  {
    if i == 0 {
    } else {
      FlattenIn(ss[1..], i - 1, h);
    }
  }

  lemma {:induction false} InFlatten(ss: seq<seq<Hit>>, h: Hit)
    requires h in Flatten(ss)
    ensures exists i :: 0 <= i < |ss| && h in ss[i]
  {
    if h !in ss[0] {
      InFlatten(ss[1..], h);
      var i :| 0 <= i < |ss| - 1 && h in ss[1..][i];
      assert h in ss[i + 1];
    }
  }

  lemma {:induction false} FlattenMultiset(a: seq<seq<Hit>>, b: seq<seq<Hit>>)
    requires Shuffled(a, b)
    ensures multiset(Flatten(a)) == multiset(Flatten(b))
    decreases |a|
  {
    if a == [] {
    } else {
      FlattenMultiset(a[1..], b[1..]);
      assert multiset(a[0]) == multiset(b[0]);
    }
  }

  /** The greedy cut is the only one with these chunk bounds. */
  lemma {:induction false} ChunkingUnique(sorted: seq<Hit>, size: real, a: seq<seq<Hit>>, b: seq<seq<Hit>>)
    requires IsChunking(sorted, size, a) && IsChunking(sorted, size, b)
    ensures a == b
    decreases |a|
  {
    if a != [] && b != [] {
      FirstNotLonger(sorted, size, a, b);
      FirstNotLonger(sorted, size, b, a);
      assert a[0] == sorted[..|a[0]|] && b[0] == sorted[..|a[0]|];
      TailChunking(sorted, size, a);
      TailChunking(sorted, size, b);
      ChunkingUnique(sorted[|a[0]|..], size, a[1..], b[1..]);
    } else {
      EmptyChunking(sorted, size, a);
      EmptyChunking(sorted, size, b);
    }
  }

  lemma EmptyChunking(sorted: seq<Hit>, size: real, a: seq<seq<Hit>>)
    requires IsChunking(sorted, size, a)
    ensures sorted == [] <==> a == []
  {
    if a != [] { assert IsChunk(a[0], size) && Flatten(a) == a[0] + Flatten(a[1..]); }
  }

  lemma TailChunking(sorted: seq<Hit>, size: real, a: seq<seq<Hit>>)
    requires IsChunking(sorted, size, a) && a != []
    ensures IsChunking(sorted[|a[0]|..], size, a[1..])
  {
    assert forall i :: 0 <= i < |a| - 1 ==> a[1..][i] == a[i + 1];
  }

  /** A hit behind the first chunk opens the second. */
  lemma SecondOpens(sorted: seq<Hit>, size: real, a: seq<seq<Hit>>)
    requires IsChunking(sorted, size, a) && a != [] && |a[0]| < |sorted|
    ensures sorted[|a[0]|].timestamp > sorted[0].timestamp + size
  {
    assert IsChunk(a[0], size) && a[0][0] == sorted[0];
    TailChunking(sorted, size, a);
    EmptyChunking(sorted[|a[0]|..], size, a[1..]);
    assert IsChunk(a[1], size) && Flatten(a[1..]) == a[1] + Flatten(a[2..]) by {
      assert a[1..][0] == a[1] && a[1..][1..] == a[2..];
    }
    assert sorted[|a[0]|] == a[1][0];
  }

  lemma FirstNotLonger(sorted: seq<Hit>, size: real, a: seq<seq<Hit>>, b: seq<seq<Hit>>)
    requires IsChunking(sorted, size, a) && IsChunking(sorted, size, b) && a != [] && b != []
    ensures |b[0]| <= |a[0]|
  {
    assert IsChunk(a[0], size) && IsChunk(b[0], size);
    assert Flatten(b) == b[0] + Flatten(b[1..]);
    assert forall k :: 0 <= k < |b[0]| ==> sorted[k] == b[0][k];
    assert forall k :: 0 < k < |b[0]| ==> sorted[k].timestamp <= sorted[0].timestamp + size;
    if |a[0]| < |sorted| { SecondOpens(sorted, size, a); }
  }

  // ---- Conservation and disorder ----

  ghost predicate Disorder(s: seq<Hit>, bound: real) {
    forall p, q :: 0 <= p < q < |s| ==> s[p].timestamp - s[q].timestamp <= bound
  }

  /** A chunk spans at most `max(0, size)`. */
  lemma ChunkSpan(c: seq<Hit>, size: real, x: Hit, y: Hit)
    requires IsChunk(c, size) && Sorted(c) && x in c && y in c
    ensures x.timestamp - y.timestamp <= Max(0.0, size)
  {
    var i :| 0 <= i < |c| && c[i] == x;
    var j :| 0 <= j < |c| && c[j] == y;
    if i > 0 {
      assert c[i].timestamp <= c[0].timestamp + size;
      assert c[0].timestamp <= c[j].timestamp || j == 0;
    } else {
      assert j == 0 || c[0].timestamp <= c[j].timestamp;
    }
  }

  lemma HeadBeforeTail(sorted: seq<Hit>, m: nat, x: Hit, y: Hit)
    requires Sorted(sorted) && m <= |sorted| && x in sorted[..m] && y in sorted[m..]
    ensures x.timestamp <= y.timestamp
  {
    var i :| 0 <= i < m && sorted[..m][i] == x;
    var j :| 0 <= j < |sorted| - m && sorted[m..][j] == y;
    assert sorted[i] == x && sorted[m + j] == y;
  }

  /** Whatever the shuffles, a hit sent earlier exceeds a later one by at most
      the chunk size. */
  lemma {:induction false} DisorderBound(sorted: seq<Hit>, size: real, plain: seq<seq<Hit>>, chunks: seq<seq<Hit>>)
    requires Sorted(sorted) && IsChunking(sorted, size, plain) && Shuffled(plain, chunks)
    ensures Disorder(Flatten(chunks), Max(0.0, size))
    decreases |plain|
  {
    if plain == [] {
    } else {
      var m, f := |plain[0]|, Flatten(chunks);
      TailChunking(sorted, size, plain);
      DisorderBound(sorted[m..], size, plain[1..], chunks[1..]);
      assert Flatten(plain) == plain[0] + Flatten(plain[1..]);
      assert sorted[..m] == plain[0] && sorted[m..] == Flatten(plain[1..]);
      assert multiset(plain[0]) == multiset(chunks[0]);
      SameLength(plain[0], chunks[0]);
      FlattenMultiset(plain[1..], chunks[1..]);
      forall p, q | 0 <= p < q < |f|
        ensures f[p].timestamp - f[q].timestamp <= Max(0.0, size)
      {
        PairBound(sorted, size, m, chunks[0], Flatten(chunks[1..]), p, q);
      }
    }
  }

  lemma SameLength(a: seq<Hit>, b: seq<Hit>)
    requires multiset(a) == multiset(b)
    ensures |a| == |b|
  {
    assert |multiset(a)| == |multiset(b)|;
  }

  lemma SameMembers(a: seq<Hit>, b: seq<Hit>, x: Hit)
    requires multiset(a) == multiset(b) && x in a
    ensures x in b
  {
    assert x in multiset(a);
  }

  /** Both hits in the first chunk. */
  lemma PairInChunk(first: seq<Hit>, sent: seq<Hit>, size: real, p: nat, q: nat)
    requires IsChunk(first, size) && Sorted(first) && multiset(first) == multiset(sent) && p < |sent| && q < |sent|
    ensures sent[p].timestamp - sent[q].timestamp <= Max(0.0, size)
  {
    hide IsChunk, Sorted;
    SameMembers(sent, first, sent[p]);
    SameMembers(sent, first, sent[q]);
    ChunkSpan(first, size, sent[p], sent[q]);
  }

  /** One hit in the first chunk, the other behind it. */
  lemma PairAcross(sorted: seq<Hit>, m: nat, sent: seq<Hit>, rest: seq<Hit>, p: nat, q: nat)
    requires Sorted(sorted) && m <= |sorted|
    requires multiset(sorted[..m]) == multiset(sent) && multiset(sorted[m..]) == multiset(rest)
    requires p < |sent| && q < |rest|
    ensures sent[p].timestamp <= rest[q].timestamp
  {
    hide Sorted;
    SameMembers(sent, sorted[..m], sent[p]);
    SameMembers(rest, sorted[m..], rest[q]);
    HeadBeforeTail(sorted, m, sent[p], rest[q]);
  }

  lemma PairBound(sorted: seq<Hit>, size: real, m: nat, sent: seq<Hit>, rest: seq<Hit>, p: nat, q: nat)
    requires Sorted(sorted) && m <= |sorted| && IsChunk(sorted[..m], size) && |sent| == m
    requires multiset(sorted[..m]) == multiset(sent) && multiset(sorted[m..]) == multiset(rest)
    requires Disorder(rest, Max(0.0, size)) && p < q < |sent + rest|
    ensures (sent + rest)[p].timestamp - (sent + rest)[q].timestamp <= Max(0.0, size)
  {
    hide IsChunk;
    assert Sorted(sorted[..m]);
    if q < m {
      PairInChunk(sorted[..m], sent, size, p, q);
    } else if p < m {
      PairAcross(sorted, m, sent, rest, p, q - m);
    } else {
      assert rest[p - m].timestamp - rest[q - m].timestamp <= Max(0.0, size);
    }
  }

  // ---- The sort is stable ----

  function HitsAt(hits: seq<Hit>, t: real): (s: seq<Hit>) {
    if hits == [] then []
    else HitsAt(hits[..|hits| - 1], t) + if hits[|hits| - 1].timestamp == t then [hits[|hits| - 1]] else []
  }

  lemma {:induction false} HitsAtCons(x: Hit, rest: seq<Hit>, t: real)
    ensures HitsAt([x] + rest, t) == (if x.timestamp == t then [x] else []) + HitsAt(rest, t)
    decreases |rest|
  {
    if rest == [] {
      assert ([x] + rest)[..0] == [];
    } else {
      var n := |rest| - 1;
      assert ([x] + rest)[..n + 1] == [x] + rest[..n];
      HitsAtCons(x, rest[..n], t);
    }
  }

  lemma {:induction false} HitsAtBehind(s: seq<Hit>, t: real)
    requires forall x :: x in s ==> x.timestamp > t
    ensures HitsAt(s, t) == []
    decreases |s|
  {
    if s != [] { HitsAtBehind(s[..|s| - 1], t); }
  }

  lemma TailSorted(s: seq<Hit>)
    requires Sorted(s) && s != []
    ensures Sorted(s[1..]) && s == [s[0]] + s[1..]
    ensures forall x :: x in s ==> s[0].timestamp <= x.timestamp
  {
  }

  lemma {:induction false} InsertBehind(h: Hit, s: seq<Hit>, t: real)
    requires Sorted(s)
    ensures HitsAt(Insert(h, s), t) == HitsAt(s, t) + if h.timestamp == t then [h] else []
    decreases |s|
  {
    hide HitsAt, Sorted;
    if s == [] {
      OneHit(h, t);
    } else {
      TailSorted(s);
      var rest := s[1..];
      if h.timestamp < s[0].timestamp {
        HitsAtCons(h, s, t);
        if h.timestamp == t { HitsAtBehind(s, t); }
      } else {
        HitsAtCons(s[0], rest, t);
        HitsAtCons(s[0], Insert(h, rest), t);
        InsertBehind(h, rest, t);
        InsertLater(h, s);
      }
    }
  }

  lemma InsertLater(h: Hit, s: seq<Hit>)
    requires Sorted(s) && s != [] && s[0].timestamp <= h.timestamp
    ensures Sorted(s[1..]) && Insert(h, s) == [s[0]] + Insert(h, s[1..])
  {
  }

  lemma OneHit(h: Hit, t: real)
    ensures HitsAt([h], t) == HitsAt([], t) + if h.timestamp == t then [h] else []
    ensures Insert(h, []) == [h]
  {
    assert [h][..0] == [];
  }

  /** Hits of one time keep their order. */
  lemma {:induction false} SortStable(hits: seq<Hit>, t: real)
    ensures HitsAt(SortByTime(hits), t) == HitsAt(hits, t)
    decreases |hits|
  {
    if hits == [] {
    } else {
      var n := |hits| - 1;
      SortStable(hits[..n], t);
      InsertBehind(hits[n], SortByTime(hits[..n]), t);
    }
  }

  // ---- Batches ----

  function EventsIn(messages: seq<Message>): (es: seq<Event>) {
    if messages == [] then []
    else
      var last := messages[|messages| - 1];
      EventsIn(messages[..|messages| - 1]) + if last.Data? then last.events else []
  }

  function BatchLength(batchSize: nat): (n: nat) { if batchSize == 0 then 1 else batchSize }

  /** Full batches, then at most one shorter one, then the end-of-stream if asked for. */
  ghost predicate IsTransmission(out: Outcome, hits: seq<Hit>, batchSize: nat, sendEos: bool)
  {
    && out.Sent?
    && var k, n := out.sentBatches, BatchLength(batchSize);
    && |out.messages| == k + (if sendEos then 1 else 0)
    && (sendEos ==> out.messages[k] == Eos(0, 0))
    && out.sentHits == |hits|
    && EventsIn(out.messages[..k]) == EventsOf(hits)
    && (forall i :: 0 <= i < k ==> IsBatch(out.messages[i], i) && |out.messages[i].events| <= n)
    && (forall i :: 0 <= i < k - 1 ==> |out.messages[i].events| == n)
  }

  ghost predicate IsBatch(m: Message, i: nat) {
    m.Data? && m.sourceId == 0 && m.sequenceNumber == i && m.events != []
  }

  lemma {:induction false} EventsInSnoc(ms: seq<Message>, m: Message)
    ensures EventsIn(ms + [m]) == EventsIn(ms) + if m.Data? then m.events else []
  {
    assert (ms + [m])[..|ms|] == ms;
  }

  /** The batches sent so far and the batch being filled. */
  ghost predicate Sending(messages: seq<Message>, batch: seq<Event>, sent: seq<Hit>, n: nat) {
    && EventsIn(messages) + batch == EventsOf(sent)
    && |batch| < n
    && (forall i :: 0 <= i < |messages| ==> IsBatch(messages[i], i) && |messages[i].events| == n)
  }

  lemma EventsOfSnoc(sent: seq<Hit>, h: Hit)
    ensures EventsOf(sent + [h]) == EventsOf(sent) + [EventOf(h)]
  {
  }

  lemma Pushed(messages: seq<Message>, batch: seq<Event>, sent: seq<Hit>, n: nat, h: Hit)
    requires Sending(messages, batch, sent, n)
    ensures var b := batch + [EventOf(h)];
            if |b| < n then Sending(messages, b, sent + [h], n)
            else Sending(messages + [Data(0, |messages|, b)], [], sent + [h], n)
  {
    hide EventsIn, EventsOf;
    var b := batch + [EventOf(h)];
    EventsOfSnoc(sent, h);
    EventsInSnoc(messages, Data(0, |messages|, b));
    assert EventsIn(messages) + b == EventsOf(sent + [h]);
  }

  /** The send loop and the remainder. */
  method SendAll(chunks: seq<seq<Hit>>, batchSize: nat, sendEos: bool) returns (out: Outcome)
    ensures IsTransmission(out, Flatten(chunks), batchSize, sendEos)
  {
    hide Sending, Flatten, EventsIn, EventsOf;
    var n := BatchLength(batchSize);
    var messages: seq<Message> := [];
    var batch: seq<Event> := [];
    var sentHits, sentBatches := 0, 0;
    ghost var sent: seq<Hit> := [];
    StartSending(n);
    for i := 0 to |chunks|
      invariant Sending(messages, batch, sent, n) && sent == Flatten(chunks[..i])
      invariant sentBatches == |messages| && sentHits + |batch| == |sent|
    {
      FlattenSnoc(chunks[..i], chunks[i]);
      assert chunks[..i + 1] == chunks[..i] + [chunks[i]];
      for j := 0 to |chunks[i]|
        invariant Sending(messages, batch, sent, n) && sent == Flatten(chunks[..i]) + chunks[i][..j]
        invariant sentBatches == |messages| && sentHits + |batch| == |sent|
      {
        var h := chunks[i][j];
        assert chunks[i][..j + 1] == chunks[i][..j] + [h];
        Pushed(messages, batch, sent, n, h);
        sent := sent + [h];
        batch := batch + [EventOf(h)];
        if |batch| >= batchSize {
          messages := messages + [Data(0, sentBatches, batch)];
          sentHits := sentHits + |batch|;
          sentBatches := sentBatches + 1;
          batch := [];
        }
      }
      assert chunks[i][..|chunks[i]|] == chunks[i];
    }
    assert chunks[..|chunks|] == chunks;
    ghost var full := messages;
    if batch != [] {
      messages := messages + [Data(0, sentBatches, batch)];
      sentHits := sentHits + |batch|;
      sentBatches := sentBatches + 1;
    }
    ghost var data := messages;
    if sendEos { messages := messages + [Eos(0, 0)]; }
    assert messages[..sentBatches] == data;
    Finished(full, batch, sent, n, data);
    out := Sent(messages, sentHits, sentBatches);
  }

  lemma StartSending(n: nat)
    requires n > 0
    ensures Sending([], [], [], n) && Flatten<Hit>([]) == []
  {
  }

  lemma Finished(full: seq<Message>, batch: seq<Event>, sent: seq<Hit>, n: nat, data: seq<Message>)
    requires Sending(full, batch, sent, n)
    requires data == if batch == [] then full else full + [Data(0, |full|, batch)]
    ensures EventsIn(data) == EventsOf(sent)
    ensures forall i :: 0 <= i < |data| ==> IsBatch(data[i], i) && |data[i].events| <= n
    ensures forall i :: 0 <= i < |data| - 1 ==> |data[i].events| == n
  {
    hide EventsOf;
    EventsInSnoc(full, Data(0, |full|, batch));
    assert EventsIn(full) + [] == EventsIn(full);
  }

  // ---- Which hit an event is ----

  /** The events of the first `b` batches are the first `b * n`, if these are full. */
  lemma {:induction false} FullBatches(ms: seq<Message>, b: nat, n: nat)
    requires b <= |ms| && forall i :: 0 <= i < b ==> ms[i].Data? && |ms[i].events| == n
    ensures |EventsIn(ms[..b])| == b * n && EventsIn(ms[..b]) <= EventsIn(ms)
    decreases |ms|
  {
    if b < |ms| {
      FullBatches(ms[..|ms| - 1], b, n);
      assert ms[..|ms| - 1][..b] == ms[..b];
    } else {
      assert ms[..b] == ms;
      if b > 0 {
        FullBatches(ms[..b - 1], b - 1, n);
        assert ms[..b - 1][..b - 1] == ms[..b - 1];
        assert b * n == (b - 1) * n + n;
      }
    }
  }

  lemma {:induction false} BatchPrefix(ms: seq<Message>, b: nat)
    requires b < |ms| && ms[b].Data?
    ensures EventsIn(ms[..b]) + ms[b].events <= EventsIn(ms)
    decreases |ms|
  {
    if b + 1 == |ms| {
    } else {
      BatchPrefix(ms[..|ms| - 1], b);
      assert ms[..|ms| - 1][..b] == ms[..b];
    }
  }

  /** Event `i` of batch `b` is hit `b * n + i` in the order of sending, with its
      fields as they were read and no flags. */
  lemma SentEventIs(out: Outcome, hits: seq<Hit>, batchSize: nat, sendEos: bool, b: nat, i: nat)
    requires IsTransmission(out, hits, batchSize, sendEos)
    requires b < out.sentBatches && i < |out.messages[b].events|
    ensures var e, k := out.messages[b].events[i], b * (if batchSize == 0 then 1 else batchSize) + i;
            && k < |hits|
            && e.mod == hits[k].mod && e.channel == hits[k].channel && e.energy == hits[k].energy
            && e.energyShort == hits[k].energyShort && e.timestamp == hits[k].timestamp && e.flags == 0
  {
    hide EventsIn, IsBatch;
    var n, ms := BatchLength(batchSize), out.messages[..out.sentBatches];
    assert IsBatch(out.messages[b], b);
    forall j | 0 <= j < b
      ensures ms[j].Data? && |ms[j].events| == n
    {
      assert IsBatch(out.messages[j], j);
      BatchIsData(out.messages[j], j);
    }
    BatchIsData(out.messages[b], b);
    FullBatches(ms, b, n);
    BatchPrefix(ms, b);
    assert ms[b] == out.messages[b] && ms[..b] == out.messages[..b];
    assert (EventsIn(ms[..b]) + ms[b].events)[b * n + i] == ms[b].events[i];
  }

  lemma BatchIsData(m: Message, i: nat)
    requires IsBatch(m, i)
    ensures m.Data?
  {
  }

  /** An order the hits can be sent in. */
  ghost predicate SendOrder(hits: seq<Hit>, size: real, order: seq<Hit>) {
    multiset(order) == multiset(hits) && Disorder(order, Max(0.0, size))
  }

  lemma ChunksGiveOrder(hits: seq<Hit>, size: real, chunks: seq<seq<Hit>>)
    requires ShuffledChunking(SortByTime(hits), size, chunks)
    ensures SendOrder(hits, size, Flatten(chunks))
  {
    hide SortByTime, Shuffled, IsChunking, Flatten, Disorder;
    var sorted := SortByTime(hits);
    var plain :| IsChunking(sorted, size, plain) && Shuffled(plain, chunks);
    DisorderBound(sorted, size, plain, chunks);
    FlattenMultiset(plain, chunks);
    assert Flatten(plain) == sorted by { ChunkingFlattens(sorted, size, plain); }
  }

  lemma ChunkingFlattens(sorted: seq<Hit>, size: real, plain: seq<seq<Hit>>)
    requires IsChunking(sorted, size, plain)
    ensures Flatten(plain) == sorted
  {
  }

  /** The whole program: every hit is sent exactly once, in full numbered batches,
      and never more than the chunk size out of order. */
  method Send(files: seq<seq<Hit>>, chunkSize: real, batchSize: nat, sendEos: bool) returns (out: Outcome)
    ensures out.NoHits? <==> Flatten(files) == []
    ensures out.Sent? ==> exists order ::
              SendOrder(Flatten(files), chunkSize, order) && IsTransmission(out, order, batchSize, sendEos)
  {
    hide SortByTime, Flatten, ShuffledChunking, SendOrder;
    var hits := Flatten(files);
    if hits == [] { return NoHits; }
    var sorted := SortByTime(hits);
    assert sorted != [] by {
      assert |multiset(sorted)| == |multiset(hits)|;
    }
    var chunks := Chunk(sorted, chunkSize);
    ChunksGiveOrder(hits, chunkSize, chunks);
    out := SendAll(chunks, batchSize, sendEos);
  }
}
