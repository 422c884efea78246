/**
 The reference computation of dispatch and the stage-1 loops of the kernel, as the loops
 they are, each proved against the closed forms of routing.
 */
module DispatchGolden {
  import opened Arith
  import opened Routing
  import opened Shmem
  import opened DispatchScript
  import opened Dispatch

  function Zeros(h: nat): Val
  {
    seq(h, _ => 0)
  }

  /** The buffers hold all places before `(g, i)` and are still zero from there on. */
  ghost predicate FilledTo(j: Job, d: nat, h: nat, x: seq<Val>, a: seq<Val>, g: nat, i: nat)
    requires ValidJob(j)
  {
    && |x| == |a| == j.rt.n * Flats(j.rt)
    && RowsBefore(j, d, x, g, i) && TriplesBefore(j, d, a, g, i)
    && forall p :: Begin(j.rt, d, g) + i <= p < |x| ==> x[p] == Zeros(h) && a[p] == Zeros(3)
  }

  /** Segment `le * n + src` after looking at the first `flat` pairs of source `src`. */
  ghost predicate Scanned(j: Job, d: nat, h: nat, le: nat, src: nat, flat: nat, count: nat, x: seq<Val>, a: seq<Val>)
    requires ValidJob(j)
  {
    && src < j.rt.n && flat <= Flats(j.rt)
    && count == CountTo(j.rt.ids[src], d * j.rt.experts + le, flat)
    && FilledTo(j, d, h, x, a, le * j.rt.n + src, count)
  }

  /** Writing the next selected pair advances the filled part by one place. */
  lemma ScanHit(j: Job, d: nat, h: nat, le: nat, src: nat, token: nat, topk: nat, count: nat, x: seq<Val>, a: seq<Val>)
    requires ValidJob(j) && d < j.rt.n && le < j.rt.experts && src < j.rt.n && token < j.rt.bs && topk < j.rt.k
    requires Scanned(j, d, h, le, src, token * j.rt.k + topk, count, x, a)
    requires token * j.rt.k + topk < Flats(j.rt) && j.rt.ids[src][token * j.rt.k + topk] == d * j.rt.experts + le
    ensures var p := Begin(j.rt, d, le * j.rt.n + src) + count;
            && p < |x| == |a|
            && Scanned(j, d, h, le, src, token * j.rt.k + topk + 1, count + 1,
                       x[p := j.x[src][token]], a[p := [src, token, topk]])
  {
    hide Flats, Select, CountTo, Begin;
    var f, g := token * j.rt.k + topk, le * j.rt.n + src;
    DivMod(token, j.rt.k, topk);
    DivMod(le, j.rt.n, src);
    PackBound(le, j.rt.n, src, j.rt.experts);
    SelectAt(j.rt.ids[src], f, Flats(j.rt));
    SelectStep(j.rt.ids[src], d * j.rt.experts + le, f);
    assert RowAt(j, d, g, count) == j.x[src][token];
    assert TripleAt(j, d, g, count) == [src, token, topk];
    hide RowAt, TripleAt;
    PlaceInBuffer(j, d, g, count);
    StoreRow(j, d, x, g, count);
    StoreTriple(j, d, a, g, count);
  }

  lemma ScanMiss(j: Job, d: nat, h: nat, le: nat, src: nat, flat: nat, count: nat, x: seq<Val>, a: seq<Val>)
    requires ValidJob(j) && flat < Flats(j.rt) && Scanned(j, d, h, le, src, flat, count, x, a)
    requires j.rt.ids[src][flat] != d * j.rt.experts + le
    ensures Scanned(j, d, h, le, src, flat + 1, count, x, a)
  {
    hide FilledTo;
  }

  /** The two innermost loops of the reference: one segment. */
  method FillSegment(j: Job, d: nat, h: nat, le: nat, src: nat, running: nat, expandX: array<Val>, assist: array<Val>)
    returns (count: nat)
    requires ValidJob(j) && d < j.rt.n && le < j.rt.experts && src < j.rt.n && expandX != assist
    requires running == Begin(j.rt, d, le * j.rt.n + src)
    requires FilledTo(j, d, h, expandX[..], assist[..], le * j.rt.n + src, 0)
    modifies expandX, assist
    ensures count == Size(j.rt, d, le * j.rt.n + src)
    ensures FilledTo(j, d, h, expandX[..], assist[..], le * j.rt.n + src, count)
  {
    hide Scanned, FilledTo, Begin, Size, CountTo, Flats;
    count := 0;
    ScanStart(j, d, h, le, src, expandX[..], assist[..]);
    for token := 0 to j.rt.bs
      invariant Scanned(j, d, h, le, src, token * j.rt.k, count, expandX[..], assist[..])
    {
      count := FillToken(j, d, h, le, src, running, token, count, expandX, assist);
    }
    assert Flats(j.rt) == j.rt.bs * j.rt.k by { FlatsAre(j.rt); }
    ScannedAll(j, d, h, le, src, count, expandX[..], assist[..]);
  }

  lemma FlatsAre(rt: Routing)
    ensures Flats(rt) == rt.bs * rt.k
  {
  }

  /** The innermost loop: the pairs of one token. */
  method FillToken(j: Job, d: nat, h: nat, le: nat, src: nat, running: nat, token: nat, before: nat,
                   expandX: array<Val>, assist: array<Val>)
    returns (count: nat)
    requires ValidJob(j) && d < j.rt.n && le < j.rt.experts && src < j.rt.n && expandX != assist && token < j.rt.bs
    requires running == Begin(j.rt, d, le * j.rt.n + src)
    requires Scanned(j, d, h, le, src, token * j.rt.k, before, expandX[..], assist[..])
    modifies expandX, assist
    ensures Scanned(j, d, h, le, src, (token + 1) * j.rt.k, count, expandX[..], assist[..])
  {
    hide Scanned, FilledTo, Begin, Size, CountTo, Flats;
    count := before;
    var base := token * j.rt.k;
    FlatsAre(j.rt);
    for topk := 0 to j.rt.k
      invariant Scanned(j, d, h, le, src, base + topk, count, expandX[..], assist[..])
    {
      PackBound(token, j.rt.k, topk, j.rt.bs);
      if j.rt.ids[src][base + topk] == d * j.rt.experts + le {
        ScanHit(j, d, h, le, src, token, topk, count, expandX[..], assist[..]);
        expandX[running + count] := j.x[src][token];
        assist[running + count] := [src, token, topk];
        count := count + 1;
      } else {
        ScanMiss(j, d, h, le, src, base + topk, count, expandX[..], assist[..]);
      }
    }
    Distribute(token + 1, token, j.rt.k);
  }

  lemma ScanStart(j: Job, d: nat, h: nat, le: nat, src: nat, x: seq<Val>, a: seq<Val>)
    requires ValidJob(j) && src < j.rt.n && FilledTo(j, d, h, x, a, le * j.rt.n + src, 0)
    ensures Scanned(j, d, h, le, src, 0, 0, x, a)
  {
    hide FilledTo;
  }

  lemma ScanEnd(j: Job, d: nat, le: nat, src: nat)
    requires ValidJob(j) && src < j.rt.n
    ensures Size(j.rt, d, le * j.rt.n + src) == CountTo(j.rt.ids[src], d * j.rt.experts + le, Flats(j.rt))
  {
    DivMod(le, j.rt.n, src);
    MulLe(0, le, j.rt.n);
    SelectFacts(j.rt.ids[src], d * j.rt.experts + le, Flats(j.rt));
  }

  lemma ScannedAll(j: Job, d: nat, h: nat, le: nat, src: nat, count: nat, x: seq<Val>, a: seq<Val>)
    requires ValidJob(j) && Scanned(j, d, h, le, src, Flats(j.rt), count, x, a)
    ensures count == Size(j.rt, d, le * j.rt.n + src) && FilledTo(j, d, h, x, a, le * j.rt.n + src, count)
  {
    hide FilledTo;
    ScanEnd(j, d, le, src);
  }

  /** All segments before `g` are filled and their boundaries stored. */
  ghost predicate BuiltTo(j: Job, d: nat, h: nat, x: seq<Val>, a: seq<Val>, c: seq<int>, running: nat, g: nat)
    requires ValidJob(j)
  {
    && |c| == Segments(j.rt) && running == Begin(j.rt, d, g)
    && FilledTo(j, d, h, x, a, g, 0)
    && forall q: nat :: q < g ==> BoundaryOk(j, d, c, q)
  }

  lemma BuiltNext(j: Job, d: nat, h: nat, x: seq<Val>, a: seq<Val>, c: seq<int>, running: nat, g: nat)
    requires ValidJob(j) && |c| == Segments(j.rt) && g < |c| && running == Begin(j.rt, d, g)
    requires FilledTo(j, d, h, x, a, g, Size(j.rt, d, g)) && forall q: nat :: q < g ==> BoundaryOk(j, d, c, q)
    ensures var count := Size(j.rt, d, g);
            BuiltTo(j, d, h, x, a, c[g := running + count], running + count, g + 1)
  {
    hide FilledTo, Size, BoundaryOk, Segments, Flats;
    assert Begin(j.rt, d, g + 1) == running + Size(j.rt, d, g);
    FillSegmentEnd(j, d, h, x, a, g);
    BoundaryStore(j, d, c, c[g := running + Size(j.rt, d, g)], g);
  }

  /** The reference outputs of one destination rank, built by its nested loops. */
  method BuildGoldenRank(j: Job, d: nat, h: nat)
    returns (expandX: seq<Val>, assist: seq<Val>, recvCount: seq<int>, tokenNums: seq<int>)
    requires ValidJob(j) && d < j.rt.n
    ensures Reference(j, d, h, expandX, assist, recvCount, tokenNums)
  {
    hide ExpertOk, FilledTo, Begin, BoundaryOk, BuiltTo, Segments;
    var n, experts := j.rt.n, j.rt.experts;
    MulLe(0, n, Flats(j.rt));
    var x := new Val[n * Flats(j.rt)](_ => seq(h, _ => 0));
    var a := new Val[n * Flats(j.rt)](_ => [0, 0, 0]);
    recvCount, tokenNums := seq(Segments(j.rt), _ => 0), seq(experts, _ => 0);
    var running: nat := 0;
    BuiltStart(j, d, h, x[..], a[..], recvCount);
    for le := 0 to experts
      invariant BuiltTo(j, d, h, x[..], a[..], recvCount, running, le * n)
      invariant |tokenNums| == experts && forall q: nat :: q < le * n ==> ExpertOk(j, d, tokenNums, q)
    {
      var expertCount;
      expertCount, running, recvCount := FillExpert(j, d, h, le, running, recvCount, x, a);
      assert le * n + n == (le + 1) * n by { Distribute(le + 1, le, n); }
      ExpertStore(j, d, tokenNums, tokenNums[le := expertCount], le);
      tokenNums := tokenNums[le := expertCount];
    }
    expandX, assist := x[..], a[..];
    BuiltIsGolden(j, d, h, expandX, assist, recvCount, running, tokenNums);
  }

  /** The loop over the sources of one local expert. */
  method FillExpert(j: Job, d: nat, h: nat, le: nat, before: nat, recvCount: seq<int>, x: array<Val>, a: array<Val>)
    returns (expertCount: int, running: nat, recvCount': seq<int>)
    requires ValidJob(j) && d < j.rt.n && le < j.rt.experts && x != a
    requires BuiltTo(j, d, h, x[..], a[..], recvCount, before, le * j.rt.n)
    modifies x, a
    ensures BuiltTo(j, d, h, x[..], a[..], recvCount', running, le * j.rt.n + j.rt.n)
    ensures expertCount == Begin(j.rt, d, le * j.rt.n + j.rt.n) - Begin(j.rt, d, le * j.rt.n)
  {
    hide FilledTo, Begin, BoundaryOk, BuiltTo, Size;
    var n := j.rt.n;
    expertCount, running, recvCount' := 0, before, recvCount;
    for src := 0 to n
      invariant BuiltTo(j, d, h, x[..], a[..], recvCount', running, le * n + src)
      invariant expertCount == running - before
    {
      PackBound(le, n, src, j.rt.experts);
      BuiltParts(j, d, h, x[..], a[..], recvCount', running, le * n + src);
      var count := FillSegment(j, d, h, le, src, running, x, a);
      BuiltNext(j, d, h, x[..], a[..], recvCount', running, le * n + src);
      running := running + count;
      expertCount := expertCount + count;
      recvCount' := recvCount'[le * n + src := running];
    }
    BuiltParts(j, d, h, x[..], a[..], recvCount', running, le * n + n);
    BuiltBefore(j, d, h, recvCount, before, le * n, old(x[..]), old(a[..]));
  }

  lemma BuiltStart(j: Job, d: nat, h: nat, x: seq<Val>, a: seq<Val>, c: seq<int>)
    requires ValidJob(j) && |x| == |a| == j.rt.n * Flats(j.rt) && |c| == Segments(j.rt)
    requires forall p :: 0 <= p < |x| ==> x[p] == Zeros(h) && a[p] == Zeros(3)
    ensures BuiltTo(j, d, h, x, a, c, 0, 0)
  {
  }

  lemma BuiltParts(j: Job, d: nat, h: nat, x: seq<Val>, a: seq<Val>, c: seq<int>, running: nat, g: nat)
    requires ValidJob(j) && BuiltTo(j, d, h, x, a, c, running, g)
    ensures |c| == Segments(j.rt) && running == Begin(j.rt, d, g) && FilledTo(j, d, h, x, a, g, 0)
    ensures forall q: nat :: q < g ==> BoundaryOk(j, d, c, q)
  {
    hide FilledTo, Begin, BoundaryOk;
  }

  lemma BuiltBefore(j: Job, d: nat, h: nat, c: seq<int>, running: nat, g: nat, x: seq<Val>, a: seq<Val>)
    requires ValidJob(j) && BuiltTo(j, d, h, x, a, c, running, g)
    ensures running == Begin(j.rt, d, g)
  {
    hide FilledTo, Begin, BoundaryOk;
  }

  lemma BuiltIsGolden(j: Job, d: nat, h: nat, x: seq<Val>, a: seq<Val>, c: seq<int>, running: nat, t: seq<int>)
    requires ValidJob(j) && |t| == j.rt.experts && BuiltTo(j, d, h, x, a, c, running, j.rt.experts * j.rt.n)
    requires forall q: nat :: q < j.rt.experts * j.rt.n ==> ExpertOk(j, d, t, q)
    ensures IsGolden(j, d, x, a, c, t)
    ensures forall p :: Total(j.rt, d) <= p < |x| ==> x[p] == Zeros(h) && a[p] == Zeros(3)
  {
    hide BoundaryOk, ExpertOk, RowsBefore, TriplesBefore, Begin, IsGolden;
    FilledIsGolden(j, d, h, x, a, c, t);
  }

  lemma FillSegmentEnd(j: Job, d: nat, h: nat, x: seq<Val>, a: seq<Val>, g: nat)
    requires ValidJob(j) && FilledTo(j, d, h, x, a, g, Size(j.rt, d, g))
    ensures FilledTo(j, d, h, x, a, g + 1, 0)
  {
    NextSegment(j, d, Recv(Finished, 0, 0, [], [], x, a), g);
  }

  lemma BoundaryStore(j: Job, d: nat, c: seq<int>, c': seq<int>, g: nat)
    requires ValidJob(j) && g < |c| && c' == c[g := Begin(j.rt, d, g + 1)]
    requires forall q: nat :: q < g ==> BoundaryOk(j, d, c, q)
    ensures forall q: nat :: q < g + 1 ==> BoundaryOk(j, d, c', q)
  {
    hide Begin;
    forall q: nat | q < g + 1 ensures BoundaryOk(j, d, c', q) {
      if q < g { assert BoundaryOk(j, d, c, q); }
    }
  }

  lemma ExpertStore(j: Job, d: nat, t: seq<int>, t': seq<int>, le: nat)
    requires ValidJob(j) && le < j.rt.experts == |t| && forall q: nat :: q < le * j.rt.n ==> ExpertOk(j, d, t, q)
    requires t' == t[le := Begin(j.rt, d, le * j.rt.n + j.rt.n) - Begin(j.rt, d, le * j.rt.n)]
    ensures forall q: nat :: q < (le + 1) * j.rt.n ==> ExpertOk(j, d, t', q)
  {
    hide Begin;
    var n := j.rt.n;
    forall q: nat | q < (le + 1) * n ensures ExpertOk(j, d, t', q) {
      if q < le * n {
        assert ExpertOk(j, d, t, q);
        UnpackBound(q, n, le);
      } else if (q + 1) % n == 0 {
        Recompose(q, n);
        ModStep(q, n);
        DivMod(le, n, q - le * n);
        assert q == le * n + n - 1;
      }
    }
  }

  lemma FilledIsGolden(j: Job, d: nat, h: nat, x: seq<Val>, a: seq<Val>, c: seq<int>, t: seq<int>)
    requires ValidJob(j) && |c| == Segments(j.rt) && |t| == j.rt.experts
    requires forall q: nat :: q < Segments(j.rt) ==> BoundaryOk(j, d, c, q)
    requires forall q: nat :: q < Segments(j.rt) ==> ExpertOk(j, d, t, q)
    requires FilledTo(j, d, h, x, a, Segments(j.rt), 0)
    ensures IsGolden(j, d, x, a, c, t)
  {
    hide Segments, Size, RowOk, TripleOk;
  }

  /** What `BuildGoldenRank` promises: the rows the specification fixes, and zeros behind them. */
  ghost predicate Reference(j: Job, d: nat, h: nat, x: seq<Val>, a: seq<Val>, c: seq<int>, t: seq<int>)
    requires ValidJob(j)
  {
    && IsGolden(j, d, x, a, c, t)
    && forall p :: Total(j.rt, d) <= p < |x| ==> x[p] == Zeros(h) && a[p] == Zeros(3)
  }

  /** The host's buffers before the first round. */
  ghost predicate ZeroFilled(rv: Recv, h: nat)
  {
    && (forall p :: 0 <= p < |rv.expandX| ==> rv.expandX[p] == Zeros(h))
    && (forall p :: 0 <= p < |rv.assist| ==> rv.assist[p] == Zeros(3))
  }

  /** A finished run from zero-filled buffers leaves the reference's four outputs, entry for entry. */
  lemma FinishedMatches(j: Job, h: nat, s: State, trace: seq<Action>, t: State, d: nat,
                        x: seq<Val>, a: seq<Val>, c: seq<int>, nums: seq<int>)
    requires ValidJob(j) && Init(j, s) && Runs(j, s, trace, t) && Final(t) && d < j.rt.n
    requires ZeroFilled(s.recv[d], h) && Reference(j, d, h, x, a, c, nums)
    ensures |t.recv| == j.rt.n
    ensures var rv := t.recv[d]; rv.expandX == x && rv.assist == a && rv.recvCount == c && rv.tokenNums == nums
  {
    DispatchCorrect(j, s, trace, t);
    var rv := t.recv[d];
    assert SameTail(j, d, s.recv[d], rv);
    SameOutputs(j, h, d, s.recv[d], rv, x, a, c, nums);
  }

  lemma SameOutputs(j: Job, h: nat, d: nat, before: Recv, rv: Recv, x: seq<Val>, a: seq<Val>, c: seq<int>,
                    nums: seq<int>)
    requires ValidJob(j) && d < j.rt.n && ZeroFilled(before, h) && SameTail(j, d, before, rv)
    requires IsGolden(j, d, rv.expandX, rv.assist, rv.recvCount, rv.tokenNums) && Reference(j, d, h, x, a, c, nums)
    ensures rv.expandX == x && rv.assist == a && rv.recvCount == c && rv.tokenNums == nums
  {
    GoldenUnique(j, d, rv.expandX, rv.assist, rv.recvCount, rv.tokenNums, x, a, c, nums);
    hide BoundaryOk, ExpertOk, RowOk, TripleOk, Segments, Total, Flats;
    var total := Total(j.rt, d);
    forall p | 0 <= p < |x| ensures rv.expandX[p] == x[p] && rv.assist[p] == a[p] {
      if p < total {
        assert rv.expandX[p] == rv.expandX[..total][p] && rv.assist[p] == rv.assist[..total][p];
        assert x[p] == x[..total][p] && a[p] == a[..total][p];
      }
    }
  }

  // ---- the routing loops of the kernel ----

  /** Running counters per local expert of rank `d`, after the first `flat` pairs of rank `r`. */
  ghost predicate Offsets(j: Job, r: nat, d: nat, s: seq<int>, flat: nat)
    requires ValidJob(j) && r < j.rt.n && flat <= Flats(j.rt)
  {
    && |s| == j.rt.experts
    && forall le :: 0 <= le < |s| ==> s[le] == CountTo(j.rt.ids[r], d * j.rt.experts + le, flat)
  }

  lemma OffsetsStep(j: Job, r: nat, d: nat, s: seq<int>, flat: nat)
    requires ValidJob(j) && r < j.rt.n && flat < Flats(j.rt) && Offsets(j, r, d, s, flat)
    ensures var expert := j.rt.ids[r][flat];
            var local := expert % j.rt.experts;
            if expert / j.rt.experts == d
            then 0 <= local < |s| && s[local] == PlaceOf(j.rt, r, flat)
              && Offsets(j, r, d, s[local := s[local] + 1], flat + 1)
            else Offsets(j, r, d, s, flat + 1)
  {
    var expert := j.rt.ids[r][flat];
    Recompose(expert, j.rt.experts);
    if expert / j.rt.experts == d {
      assert Offsets(j, r, d, s[expert % j.rt.experts := s[expert % j.rt.experts] + 1], flat + 1);
    } else {
      forall le | 0 <= le < |s| ensures s[le] == CountTo(j.rt.ids[r], d * j.rt.experts + le, flat + 1) {
        DivMod(d, j.rt.experts, le);
      }
    }
  }

  /** One pair of a routing loop: skip it, or take the place its expert's counter shows and advance the counter. */
  method Bump(j: Job, r: nat, d: nat, a: array<int>, flat: nat) returns (hit: bool, place: nat)
    requires ValidJob(j) && r < j.rt.n && flat < Flats(j.rt) && Offsets(j, r, d, a[..], flat)
    modifies a
    ensures Offsets(j, r, d, a[..], flat + 1)
    ensures hit <==> Dest(j.rt, r, flat) == d
    ensures hit ==> place == PlaceOf(j.rt, r, flat)
  {
    hide Offsets, CountTo, Flats, PlaceOf;
    OffsetsStep(j, r, d, a[..], flat);
    var expert := j.rt.ids[r][flat];
    hit, place := expert / j.rt.experts == d, 0;
    if hit {
      var local := expert % j.rt.experts;
      place := a[local];
      a[local] := a[local] + 1;
    }
  }

  /** The first loop: how many pairs go to each local expert of rank `d`. */
  method CountSegments(j: Job, r: nat, d: nat) returns (counts: seq<int>)
    requires ValidJob(j) && r < j.rt.n && d < j.rt.n
    ensures |counts| == j.rt.experts
    ensures forall le :: 0 <= le < j.rt.experts ==> counts[le] == Size(j.rt, d, le * j.rt.n + r)
  {
    hide Offsets, CountTo, Size, Flats;
    var experts := j.rt.experts;
    var a := new int[experts](_ => 0);
    OffsetsStart(j, r, d, a[..]);
    for flat := 0 to Flats(j.rt)
      invariant Offsets(j, r, d, a[..], flat)
    {
      var hit, local := Bump(j, r, d, a, flat);
    }
    counts := a[..];
    OffsetsEnd(j, r, d, counts);
  }

  lemma OffsetsStart(j: Job, r: nat, d: nat, s: seq<int>)
    requires ValidJob(j) && r < j.rt.n && |s| == j.rt.experts && forall le :: 0 <= le < |s| ==> s[le] == 0
    ensures Offsets(j, r, d, s, 0)
  {
  }

  lemma OffsetsEnd(j: Job, r: nat, d: nat, s: seq<int>)
    requires ValidJob(j) && r < j.rt.n && Offsets(j, r, d, s, Flats(j.rt))
    ensures |s| == j.rt.experts && forall le :: 0 <= le < j.rt.experts ==> s[le] == Size(j.rt, d, le * j.rt.n + r)
  {
    hide CountTo, Size, Flats;
    forall le | 0 <= le < j.rt.experts ensures s[le] == Size(j.rt, d, le * j.rt.n + r) {
      ScanEnd(j, d, le, r);
    }
  }

  /** What a pass writes for one pair that goes to rank `d`, given the place its offset shows. */
  method EmitFlat(j: Job, r: nat, d: nat, p: Pass, flat: nat, place: nat) returns (ops: seq<Op>)
    requires ValidJob(j) && r < j.rt.n && flat < Flats(j.rt)
    requires Dest(j.rt, r, flat) == d && place == PlaceOf(j.rt, r, flat)
    ensures ops == FlatOps(j, r, d, p, flat)
  {
    UnpackBound(flat, j.rt.k, j.rt.bs);
    var token, topk, local := flat / j.rt.k, flat % j.rt.k, j.rt.ids[r][flat] % j.rt.experts;
    var slot := (r * j.rt.experts + local) * Flats(j.rt) + place;
    match p
    case PayloadPass =>
      ops := [Put(Direct, Loc(d, Payload, slot), j.x[r][token]), Quiet(Direct)];
    case AssistPass =>
      ops := [Put(Direct, Loc(d, AssistRank, slot), [r]), Put(Direct, Loc(d, AssistToken, slot), [token]),
              Put(Direct, Loc(d, AssistTopk, slot), [topk])];
    case ReadyPass =>
      ops := [Put(Direct, Loc(d, Ready, slot), [1, 1, 1, 1, 1, 1, 1, 1])];
  }

  /** One write pass of stage 1 with its running slot offsets; the offsets give every pair its own place. */
  method EmitPass(j: Job, r: nat, d: nat, p: Pass) returns (ops: seq<Op>)
    requires ValidJob(j) && r < j.rt.n && d < j.rt.n
    ensures ops == PassOps(j, r, d, p, Flats(j.rt))
  {
    hide FlatOps, Flats, PassOps, Offsets, CountTo, PlaceOf;
    var experts := j.rt.experts;
    var offsets := new int[experts](_ => 0);
    OffsetsStart(j, r, d, offsets[..]);
    PassStart(j, r, d, p);
    ops := [];
    for flat := 0 to Flats(j.rt)
      invariant Offsets(j, r, d, offsets[..], flat)
      invariant ops == PassOps(j, r, d, p, flat)
    {
      PassStep(j, r, d, p, flat);
      var hit, place := Bump(j, r, d, offsets, flat);
      if hit {
        var written := EmitFlat(j, r, d, p, flat, place);
        ops := ops + written;
      } else {
        SkipFlat(j, r, d, p, flat, ops);
      }
    }
  }

  lemma PassStart(j: Job, r: nat, d: nat, p: Pass)
    requires ValidJob(j) && r < j.rt.n
    ensures PassOps(j, r, d, p, 0) == []
  {
  }

  lemma PassStep(j: Job, r: nat, d: nat, p: Pass, flat: nat)
    requires ValidJob(j) && r < j.rt.n && flat < Flats(j.rt)
    ensures PassOps(j, r, d, p, flat + 1) == PassOps(j, r, d, p, flat) + FlatOps(j, r, d, p, flat)
  {
    hide FlatOps;
  }

  lemma SkipFlat(j: Job, r: nat, d: nat, p: Pass, flat: nat, ops: seq<Op>)
    requires ValidJob(j) && r < j.rt.n && flat < Flats(j.rt) && Dest(j.rt, r, flat) != d
    ensures ops + FlatOps(j, r, d, p, flat) == ops
  {
  }

  /** Stage 1 of core `d` on rank `r`, pass by pass, emits exactly the analysed script. */
  method EmitStage1(j: Job, r: nat, d: nat) returns (ops: seq<Op>)
    requires ValidJob(j) && r < j.rt.n && d < j.rt.n
    ensures ops == Script(j, r, d)
  {
    var counts := CountSegments(j, r, d);
    var payload := EmitPass(j, r, d, PayloadPass);
    var assist := EmitPass(j, r, d, AssistPass);
    var wroteAssist := assist != [];
    if wroteAssist { assist := assist + [Quiet(Direct)]; }
    var ready := EmitPass(j, r, d, ReadyPass);
    var wroteReady := ready != [];
    if wroteReady { ready := ready + [Quiet(Direct)]; }
    assert assist == PassOps(j, r, d, AssistPass, Flats(j.rt)) + Fence(PassOps(j, r, d, AssistPass, Flats(j.rt)));
    assert ready == PassOps(j, r, d, ReadyPass, Flats(j.rt)) + Fence(PassOps(j, r, d, ReadyPass, Flats(j.rt)));
    ops := [];
    for le := 0 to j.rt.experts
      invariant ops == CountOps(j, r, d, le)
    {
      ops := ops + [Put(Direct, Loc(d, Count, le * j.rt.n + r), [1, counts[le], 0, 0, 0, 0, 0, 0]), Quiet(Direct)];
    }
    ops := payload + assist + ready + (ops + [Quiet(Direct)]);
  }
}
