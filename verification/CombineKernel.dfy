/**
 The loops of the combine kernels and of the combine reference, the choice of the SDMA plane,
 and the round trip through dispatch and combine.
 */
module CombineKernel {
  import opened Arith
  import opened Routing
  import opened Shmem
  import opened CombineScript
  import opened Combine
  import D = Dispatch
  import DS = DispatchScript

  const U64: nat := 0x1_0000_0000_0000_0000
  const MIN_SDMA_BYTES: nat := 2 * 1024 * 1024

  /** The inputs a combine launch takes over from dispatch on rank `r`. */
  ghost predicate FromDispatch(j: Job, dj: DS.Job, r: nat, assist: seq<Val>, recvCount: seq<int>)
    requires ValidJob(j)
  {
    && DS.ValidJob(dj) && dj.rt == j.rt
    && |recvCount| == Segments(j.rt)
    && (forall g: nat :: g < Segments(j.rt) ==> D.BoundaryOk(dj, r, recvCount, g))
    && (forall g: nat, i: nat :: g < Segments(j.rt) ==> D.TripleOk(dj, r, assist, g, i))
  }

  /** What a finished dispatch leaves on rank `r` is what a combine launch needs there. */
  lemma GoldenFeeds(j: Job, dj: DS.Job, r: nat, x: seq<Val>, assist: seq<Val>, recvCount: seq<int>, tokenNums: seq<int>)
    requires ValidJob(j) && DS.ValidJob(dj) && dj.rt == j.rt && r < dj.rt.n
    requires D.IsGolden(dj, r, x, assist, recvCount, tokenNums)
    ensures FromDispatch(j, dj, r, assist, recvCount)
  {
    hide D.BoundaryOk, D.TripleOk, D.RowOk, D.ExpertOk;
  }

  function SegmentBegin(recvCount: seq<int>, g: nat): int
    requires g < |recvCount|
  {
    if g == 0 then 0 else recvCount[g - 1]
  }

  /** Segment bounds read from the receive counts are the segment bounds of the routing. */
  lemma SegmentBounds(j: Job, dj: DS.Job, r: nat, assist: seq<Val>, recvCount: seq<int>, g: nat)
    requires ValidJob(j) && FromDispatch(j, dj, r, assist, recvCount) && g < Segments(j.rt)
    ensures SegmentBegin(recvCount, g) == Begin(j.rt, r, g) && recvCount[g] == Begin(j.rt, r, g) + Size(j.rt, r, g)
  {
    assert D.BoundaryOk(dj, r, recvCount, g);
    if g > 0 { assert D.BoundaryOk(dj, r, recvCount, g - 1); }
  }

  /** The assist triple of an entry names the source rank and, unpacked, the window slot. */
  lemma AssistRead(j: Job, dj: DS.Job, r: nat, a: nat, assist: seq<Val>, recvCount: seq<int>, le: nat, i: nat)
    requires ValidJob(j) && FromDispatch(j, dj, r, assist, recvCount)
    requires r < j.rt.n && a < j.rt.n && le < j.rt.experts && i < Size(j.rt, r, le * j.rt.n + a)
    ensures var p := Begin(j.rt, r, le * j.rt.n + a) + i;
            && p < |assist| && |assist[p]| == 3 && assist[p][0] == a
            && assist[p][1] * j.rt.k + assist[p][2] == EntryFlat(j, r, a, le, i)
  {
    var g := le * j.rt.n + a;
    PackBound(le, j.rt.n, a, j.rt.experts);
    DivMod(le, j.rt.n, a);
    assert D.TripleOk(dj, r, assist, g, i);
    assert D.TripleAt(dj, r, g, i) == [a, EntryFlat(j, r, a, le, i) / j.rt.k, EntryFlat(j, r, a, le, i) % j.rt.k];
    Recompose(EntryFlat(j, r, a, le, i), j.rt.k);
  }

  // ---- stage 1 of the classic kernel ----

  /** The classic send loops emit exactly the analysed script. */
  method EmitClassic(j: Job, ghost dj: DS.Job, r: nat, a: nat, assist: seq<Val>, recvCount: seq<int>)
    returns (ops: seq<Op>)
    requires ValidJob(j) && FromDispatch(j, dj, r, assist, recvCount) && r < j.rt.n && a < j.rt.n
    ensures ops == ClassicScript(j, r, a)
  {
    ops := [];
    for le := 0 to j.rt.experts
      invariant ops == ClassicOps(j, r, a, le)
    {
      var segment := EmitClassicSegment(j, dj, r, a, assist, recvCount, le);
      ops := ops + segment;
    }
    ops := ops + [Quiet(Direct)];
  }

  method EmitClassicSegment(j: Job, ghost dj: DS.Job, r: nat, a: nat, assist: seq<Val>, recvCount: seq<int>, le: nat)
    returns (ops: seq<Op>)
    requires ValidJob(j) && FromDispatch(j, dj, r, assist, recvCount) && r < j.rt.n && a < j.rt.n && le < j.rt.experts
    ensures ops == ClassicSeg(j, r, a, le, Size(j.rt, r, le * j.rt.n + a))
  {
    var g := le * j.rt.n + a;
    PackBound(le, j.rt.n, a, j.rt.experts);
    SegmentBounds(j, dj, r, assist, recvCount, g);
    var begin, end := SegmentBegin(recvCount, g), recvCount[g];
    hide FromDispatch, Begin, Size, EntryFlat;
    ops := [];
    for i := begin to end
      invariant ops == SegEmit(j, r, a, DirectBoth, le, i - begin, 0).ops
    {
      AssistRead(j, dj, r, a, assist, recvCount, le, i - begin);
      EntryBound(j, r, a, le, i - begin);
      var src, slot := assist[i][0], assist[i][1] * j.rt.k + assist[i][2];
      ops := ops + ([Put(Direct, Loc(src, Data, slot), j.y[r][i]), Quiet(Direct)]
                    + [Put(Direct, Loc(src, Status, slot), READY), Quiet(Direct)]);
    }
  }

  // ---- the choice of the plane ----

  /** The kernel's test, with its 64-bit products wrapping. */
  predicate UseSdma(peer: nat, me: nat, count: int, h: nat, elemSize: nat, num: nat, den: nat)
  {
    if peer == me || count <= 0 || den == 0 then false
    else
      var bytes := count * h * elemSize % U64;
      if bytes < MIN_SDMA_BYTES then false else bytes * den % U64 > num
  }

  function ThresholdDen(n: nat, experts: nat): nat
  {
    (if n > 1 then n - 1 else 1) * experts % U64
  }

  /** Tokens rank `r` received from other ranks, in the segments before `g`. */
  function RemoteTo(rt: Routing, r: nat, g: nat): nat
    requires Valid(rt)
  {
    if g == 0 then 0 else RemoteTo(rt, r, g - 1) + if (g - 1) % rt.n != r then Size(rt, r, g - 1) else 0
  }

  function ThresholdNum(rt: Routing, r: nat, h: nat, elemSize: nat): nat
    requires Valid(rt)
  {
    RemoteTo(rt, r, Segments(rt)) * h * elemSize % U64
  }

  lemma RemoteStart(rt: Routing, r: nat)
    requires Valid(rt)
    ensures RemoteTo(rt, r, 0) == 0
  {
  }

  /** One segment's share of the remote rows, as the prefix sums of the receive counts show it. */
  lemma RemoteStep(j: Job, dj: DS.Job, r: nat, assist: seq<Val>, recvCount: seq<int>, le: nat, src: nat)
    requires ValidJob(j) && FromDispatch(j, dj, r, assist, recvCount) && le < j.rt.experts && src < j.rt.n
    ensures var g := le * j.rt.n + src;
            && 0 <= g < |recvCount| && recvCount[g] >= SegmentBegin(recvCount, g)
            && RemoteTo(j.rt, r, g + 1) == RemoteTo(j.rt, r, g)
               + if src != r then recvCount[g] - SegmentBegin(recvCount, g) else 0
  {
    PackBound(le, j.rt.n, src, j.rt.experts);
    DivMod(le, j.rt.n, src);
    SegmentBounds(j, dj, r, assist, recvCount, le * j.rt.n + src);
  }

  /** The accumulation loops over all segments. */
  method ComputeThresholdNum(j: Job, ghost dj: DS.Job, ghost assist: seq<Val>, recvCount: seq<int>, r: nat, h: nat,
                             elemSize: nat)
    returns (num: nat)
    requires ValidJob(j) && FromDispatch(j, dj, r, assist, recvCount)
    ensures num == ThresholdNum(j.rt, r, h, elemSize)
  {
    hide RemoteTo, FromDispatch, SegmentBegin, Valid;
    var n := j.rt.n;
    var remote: nat := 0;
    RemoteStart(j.rt, r);
    for le := 0 to j.rt.experts
      invariant remote == RemoteTo(j.rt, r, le * n)
    {
      for src := 0 to n
        invariant remote == RemoteTo(j.rt, r, le * n + src)
      {
        var g := le * n + src;
        RemoteStep(j, dj, r, assist, recvCount, le, src);
        if src != r {
          remote := remote + (recvCount[g] - SegmentBegin(recvCount, g));
        }
      }
      assert le * n + n == (le + 1) * n by { Distribute(le + 1, le, n); }
    }
    num := remote * h * elemSize % U64;
  }

  function PlaneAt(rt: Routing, r: nat, a: nat, h: nat, elemSize: nat, le: nat): bool
    requires Valid(rt)
  {
    UseSdma(a, r, Size(rt, r, le * rt.n + a), h, elemSize, ThresholdNum(rt, r, h, elemSize),
            ThresholdDen(rt.n, rt.experts))
  }

  function PlanesOf(rt: Routing, r: nat, a: nat, h: nat, elemSize: nat): Planes
    requires Valid(rt)
  {
    seq(rt.experts, le requires 0 <= le < rt.experts => PlaneAt(rt, r, a, h, elemSize, le))
  }

  /** The plane of segment `g`, as the core that serves its source decides it. */
  predicate OnSdma(rt: Routing, r: nat, h: nat, elemSize: nat, g: nat)
    requires Valid(rt)
  {
    PlaneAt(rt, r, g % rt.n, h, elemSize, g / rt.n)
  }

  /** A rank's own segments never take the SDMA plane, not even when there is no other rank. */
  lemma OwnSegmentDirect(rt: Routing, r: nat, g: nat, h: nat, elemSize: nat)
    requires Valid(rt) && r < rt.n && g < Segments(rt) && g % rt.n == r
    ensures !OnSdma(rt, r, h, elemSize, g)
  {
    hide Size, ThresholdNum, ThresholdDen;
  }

  /** So the core that serves its own rank uses the direct channel only. */
  lemma OwnScriptDirect(j: Job, r: nat, h: nat, elemSize: nat)
    requires ValidJob(j) && r < j.rt.n
    ensures var ops := Script(j, r, r, PlanesOf(j.rt, r, r, h, elemSize));
            forall i :: 0 <= i < |ops| ==> ops[i].ch == Direct
  {
    var planes, experts := PlanesOf(j.rt, r, r, h, elemSize), j.rt.experts;
    forall le | 0 <= le < experts ensures !planes[le] {
      PackBound(le, j.rt.n, r, experts);
      DivMod(le, j.rt.n, r);
      OwnSegmentDirect(j.rt, r, le * j.rt.n + r, h, elemSize);
    }
    assert planes == NoSdma(experts);
    ClassicIsDirect(j, r, r, experts);
    DirectChannel(j, r, r, planes, experts);
    hide PassEmit;
  }

  // ---- stage 1 of the double-plane kernel ----

  /** One entry of one pass; `out` is the kernel's count of outstanding SDMA puts. */
  method EmitEntry(j: Job, r: nat, a: nat, kind: Kind, ghost le: nat, ghost i: nat, slot: int, row: Val, out: nat)
    returns (e: Emit)
    requires ValidJob(j) && r < j.rt.n && a < j.rt.n && le < j.rt.experts && i < Size(j.rt, r, le * j.rt.n + a)
    requires slot == EntryFlat(j, r, a, le, i)
    requires Begin(j.rt, r, le * j.rt.n + a) + i < |j.y[r]| && row == j.y[r][Begin(j.rt, r, le * j.rt.n + a) + i]
    ensures e == EntryEmit(j, r, a, kind, le, i, out)
  {
    hide EntryFlat, Size, Begin;
    var ops, outstanding := [], out;
    match kind {
      case SdmaData =>
        ops := [Put(Sdma, Loc(a, Data, slot), row)];
        outstanding := outstanding + 1;
        if outstanding >= 256 {
          ops := ops + [Quiet(Sdma)];
          outstanding := 0;
        }
      case DirectBoth =>
        ops := [Put(Direct, Loc(a, Data, slot), row), Quiet(Direct)]
          + [Put(Direct, Loc(a, Status, slot), [1, 1, 1, 1, 1, 1, 1, 1]), Quiet(Direct)];
      case SdmaStatus =>
        ops := [Put(Direct, Loc(a, Status, slot), [1, 1, 1, 1, 1, 1, 1, 1])];
    }
    e := Emit(ops, outstanding);
  }

  /** The entry loop of one segment, shared by the three passes. */
  method EmitSegment(j: Job, ghost dj: DS.Job, r: nat, a: nat, assist: seq<Val>, recvCount: seq<int>, kind: Kind,
                     le: nat, out: nat)
    returns (e: Emit)
    requires ValidJob(j) && FromDispatch(j, dj, r, assist, recvCount) && r < j.rt.n && a < j.rt.n && le < j.rt.experts
    ensures e == SegEmit(j, r, a, kind, le, Size(j.rt, r, le * j.rt.n + a), out)
  {
    hide FromDispatch, Begin, Size, EntryFlat, EntryEmit, Segments, Flats;
    var g := le * j.rt.n + a;
    PackBound(le, j.rt.n, a, j.rt.experts);
    assert g < Segments(j.rt) by { SegmentInRange(j, le, a); }
    SegmentBounds(j, dj, r, assist, recvCount, g);
    SegmentsKnown(j, dj, r, assist, recvCount);
    var begin, end := SegmentBegin(recvCount, g), recvCount[g];
    e := Emit([], out);
    for i := begin to end
      invariant e == SegEmit(j, r, a, kind, le, i - begin, out)
    {
      AssistRead(j, dj, r, a, assist, recvCount, le, i - begin);
      EntryBound(j, r, a, le, i - begin);
      var x := EmitEntry(j, r, a, kind, le, i - begin, assist[i][1] * j.rt.k + assist[i][2], j.y[r][i], e.out);
      e := Emit(e.ops + x.ops, x.out);
    }
  }

  lemma SegmentInRange(j: Job, le: nat, a: nat)
    requires a < j.rt.n && le < j.rt.experts
    ensures le * j.rt.n + a < Segments(j.rt)
  {
    PackBound(le, j.rt.n, a, j.rt.experts);
  }

  lemma SegmentsKnown(j: Job, dj: DS.Job, r: nat, assist: seq<Val>, recvCount: seq<int>)
    requires ValidJob(j) && FromDispatch(j, dj, r, assist, recvCount)
    ensures |recvCount| == Segments(j.rt)
  {
  }

  method EmitPass(j: Job, ghost dj: DS.Job, r: nat, a: nat, assist: seq<Val>, recvCount: seq<int>, kind: Kind,
                  planes: Planes)
    returns (e: Emit)
    requires ValidJob(j) && FromDispatch(j, dj, r, assist, recvCount) && r < j.rt.n && a < j.rt.n
             && |planes| == j.rt.experts
    ensures e == PassEmit(j, r, a, kind, planes, j.rt.experts)
  {
    hide FromDispatch, SegEmit;
    e := Emit([], 0);
    for le := 0 to j.rt.experts
      invariant e == PassEmit(j, r, a, kind, planes, le)
    {
      if Takes(kind, planes, le) {
        var s := EmitSegment(j, dj, r, a, assist, recvCount, kind, le, e.out);
        var wrote := s.ops != [];
        var fence := if kind == SdmaStatus && wrote then [Quiet(Direct)] else [];
        e := Emit(e.ops + (s.ops + fence), s.out);
      }
    }
  }

  /** The plane of every local expert's segment, by the threshold test. */
  method ChoosePlanes(j: Job, ghost dj: DS.Job, r: nat, a: nat, assist: seq<Val>, recvCount: seq<int>, h: nat,
                      elemSize: nat)
    returns (planes: Planes)
    requires ValidJob(j) && FromDispatch(j, dj, r, assist, recvCount) && r < j.rt.n && a < j.rt.n
    ensures planes == PlanesOf(j.rt, r, a, h, elemSize) && |planes| == j.rt.experts
  {
    var num := ComputeThresholdNum(j, dj, assist, recvCount, r, h, elemSize);
    var den := ThresholdDen(j.rt.n, j.rt.experts);
    planes := [];
    for le := 0 to j.rt.experts
      invariant |planes| == le
      invariant forall q :: 0 <= q < le ==> planes[q] == PlaneAt(j.rt, r, a, h, elemSize, q)
    {
      var g := le * j.rt.n + a;
      PackBound(le, j.rt.n, a, j.rt.experts);
      SegmentBounds(j, dj, r, assist, recvCount, g);
      var use := UseSdma(a, r, recvCount[g] - SegmentBegin(recvCount, g), h, elemSize, num, den);
      planes := planes + [use];
    }
    assert planes == PlanesOf(j.rt, r, a, h, elemSize);
  }

  /** The three passes of the double-plane kernel emit the analysed script, on the planes the test chooses. */
  method EmitDoublePlane(j: Job, ghost dj: DS.Job, r: nat, a: nat, assist: seq<Val>, recvCount: seq<int>, h: nat,
                         elemSize: nat)
    returns (ops: seq<Op>)
    requires ValidJob(j) && FromDispatch(j, dj, r, assist, recvCount) && r < j.rt.n && a < j.rt.n
    ensures ops == Script(j, r, a, PlanesOf(j.rt, r, a, h, elemSize))
    ensures a == r ==> forall i :: 0 <= i < |ops| ==> ops[i].ch == Direct
  {
    hide PassEmit, PlanesOf, FromDispatch;
    var planes := ChoosePlanes(j, dj, r, a, assist, recvCount, h, elemSize);
    var sdma := EmitPass(j, dj, r, a, assist, recvCount, SdmaData, planes);
    var direct := EmitPass(j, dj, r, a, assist, recvCount, DirectBoth, planes);
    var quiet := if sdma.out > 0 then [Quiet(Sdma)] else [];
    var status := EmitPass(j, dj, r, a, assist, recvCount, SdmaStatus, planes);
    ops := sdma.ops + direct.ops + quiet + (status.ops + [Quiet(Direct)]);
    if a == r { OwnScriptDirect(j, r, h, elemSize); }
  }

  // ---- the threshold is the average of the remote segments ----

  ghost function RemoteCount(n: nat, r: nat, g: nat): nat
    requires n > 0
  {
    if g == 0 then 0 else RemoteCount(n, r, g - 1) + if (g - 1) % n != r then 1 else 0
  }

  lemma {:induction false} RemoteCountBlock(n: nat, r: nat, le: nat, src: nat)
    requires r < n && src <= n
    ensures RemoteCount(n, r, le * n + src) == RemoteCount(n, r, le * n) + (if src > r then src - 1 else src)
  {
    MulLe(0, le, n);
    if src > 0 {
      RemoteCountBlock(n, r, le, src - 1);
      DivMod(le, n, src - 1);
    }
  }

  /** There are exactly as many remote segments as the threshold divides by. */
  lemma {:induction false} RemoteCountAll(n: nat, r: nat, le: nat)
    requires r < n
    ensures RemoteCount(n, r, le * n) == (n - 1) * le
  {
    if le > 0 {
      RemoteCountAll(n, r, le - 1);
      RemoteCountBlock(n, r, le - 1, n);
      assert (le - 1) * n + n == le * n;
      assert (n - 1) * (le - 1) + (n - 1) == (n - 1) * le;
    }
  }

  lemma OneMoreAbove(before: nat, size: nat, w: nat, den: nat, count: nat, num: nat)
    requires before * w * den >= count * (num + 1) && size * w * den > num
    ensures (before + size) * w * den >= (count + 1) * (num + 1)
  {
    var p, q := before * w, size * w;
    assert (before + size) * w == p + q;
    assert (p + q) * den == p * den + q * den;
    assert (count + 1) * (num + 1) == count * (num + 1) + (num + 1);
  }

  /** If every remote segment were above the threshold, their sum would be too. */
  lemma {:induction false} AllAbove(rt: Routing, r: nat, g: nat, w: nat, num: nat, den: nat)
    requires Valid(rt)
    requires forall q: nat :: q < g && q % rt.n != r ==> Size(rt, r, q) * w * den > num
    ensures RemoteTo(rt, r, g) * w * den >= RemoteCount(rt.n, r, g) * (num + 1)
  {
    hide Size;
    if g > 0 {
      AllAbove(rt, r, g - 1, w, num, den);
      if (g - 1) % rt.n != r {
        OneMoreAbove(RemoteTo(rt, r, g - 1), Size(rt, r, g - 1), w, den, RemoteCount(rt.n, r, g - 1), num);
      }
    }
  }

  /**
   The widths of the source: 32-bit receive counts, a 32-bit row length, elements of at most four
   bytes and a 32-bit number of experts.
   */
  ghost predicate Widths(rt: Routing, r: nat, h: nat, elemSize: nat)
    requires Valid(rt)
  {
    && Total(rt, r) < 0x8000_0000 && h < 0x8000_0000 && 0 < elemSize <= 4
    && rt.n * rt.experts < 0x8000_0000
  }

  /** Segments from other ranks hold no more than all segments together. */
  lemma {:induction false} RemoteAtMost(rt: Routing, r: nat, g: nat)
    requires Valid(rt)
    ensures RemoteTo(rt, r, g) <= Begin(rt, r, g)
  {
    if g > 0 { RemoteAtMost(rt, r, g - 1); }
  }

  lemma BytesFit(rows: nat, h: nat, elemSize: nat)
    requires rows < 0x8000_0000 && h < 0x8000_0000 && 0 < elemSize <= 4
    ensures 0 <= rows * (h * elemSize) < U64 && rows * h * elemSize == rows * (h * elemSize)
  {
    MulLe(0, h, elemSize);
    MulLe(h, 0x7FFF_FFFF, elemSize);
    MulLe(rows, 0x7FFF_FFFF, h * elemSize);
    MulLe(0, rows, h * elemSize);
  }

  lemma {:induction false} SizeInRemote(rt: Routing, r: nat, q: nat, g: nat)
    requires Valid(rt) && q < g && q % rt.n != r
    ensures Size(rt, r, q) <= RemoteTo(rt, r, g)
    decreases g
  {
    if q < g - 1 { SizeInRemote(rt, r, q, g - 1); }
  }

  /** With these widths only the last product of the plane test can wrap. */
  lemma OnlyProductWraps(rt: Routing, r: nat, q: nat, h: nat, elemSize: nat)
    requires Valid(rt) && r < rt.n && rt.n > 1 && q < Segments(rt) && q % rt.n != r && Widths(rt, r, h, elemSize)
    ensures ThresholdNum(rt, r, h, elemSize) == RemoteTo(rt, r, Segments(rt)) * (h * elemSize)
    ensures 0 < ThresholdDen(rt.n, rt.experts) == (rt.n - 1) * rt.experts
    ensures 0 <= Size(rt, r, q) * h * elemSize % U64 == Size(rt, r, q) * (h * elemSize)
  {
    var den, all := (rt.n - 1) * rt.experts, Segments(rt);
    var total, size := RemoteTo(rt, r, all), Size(rt, r, q);
    RemoteAtMost(rt, r, all);
    SizeInRemote(rt, r, q, all);
    BytesFit(total, h, elemSize);
    BytesFit(size, h, elemSize);
    SmallMod(total * (h * elemSize), U64);
    SmallMod(size * (h * elemSize), U64);
    MulAtLeast(rt.n - 1, rt.experts);
    MulLe(rt.n - 1, rt.n, rt.experts);
    SmallMod(den, U64);
  }

  /** The segment is large enough for SDMA and above the average of the remote segments. */
  ghost predicate LargeAndAbove(rt: Routing, r: nat, q: nat, h: nat, elemSize: nat)
    requires Valid(rt) && rt.n > 0
  {
    && Size(rt, r, q) * (h * elemSize) >= 2 * 1024 * 1024
    && Size(rt, r, q) * (h * elemSize) * ((rt.n - 1) * rt.experts) > RemoteTo(rt, r, Segments(rt)) * (h * elemSize)
  }

  /** What the kernel decides, with its one product that can wrap. */
  lemma PlaneTest(rt: Routing, r: nat, q: nat, h: nat, elemSize: nat)
    requires Valid(rt) && r < rt.n && rt.n > 1 && q < Segments(rt) && q % rt.n != r && Widths(rt, r, h, elemSize)
    ensures OnSdma(rt, r, h, elemSize, q) <==>
            && Size(rt, r, q) * (h * elemSize) >= 2 * 1024 * 1024
            && Size(rt, r, q) * (h * elemSize) * ((rt.n - 1) * rt.experts) % 0x1_0000_0000_0000_0000
               > RemoteTo(rt, r, Segments(rt)) * (h * elemSize)
  {
    OnlyProductWraps(rt, r, q, h, elemSize);
    Recompose(q, rt.n);
    assert q / rt.n * rt.n + q % rt.n == q;
    hide RemoteTo, Size, Segments, ThresholdDen, ThresholdNum, Widths;
    if Size(rt, r, q) == 0 { assert Size(rt, r, q) * (h * elemSize) == 0; }
  }

  /**
   A remote segment takes the SDMA plane exactly if it is large and above the average, if and only
   if its size times the number of remote segments fits 64 bits, or what is left of it still
   exceeds the sum, or it is too small for SDMA anyway.
   */
  lemma AboveThresholdExactly(rt: Routing, r: nat, q: nat, h: nat, elemSize: nat)
    requires Valid(rt) && r < rt.n && rt.n > 1 && q < Segments(rt) && q % rt.n != r && Widths(rt, r, h, elemSize)
    ensures var bytes := Size(rt, r, q) * (h * elemSize);
            var product := bytes * ((rt.n - 1) * rt.experts);
            (OnSdma(rt, r, h, elemSize, q) <==> LargeAndAbove(rt, r, q, h, elemSize))
            <==> || product < 0x1_0000_0000_0000_0000
                 || product % 0x1_0000_0000_0000_0000 > RemoteTo(rt, r, Segments(rt)) * (h * elemSize)
                 || bytes < 2 * 1024 * 1024
  {
    PlaneTest(rt, r, q, h, elemSize);
    var total := RemoteTo(rt, r, Segments(rt));
    var product := Size(rt, r, q) * (h * elemSize) * ((rt.n - 1) * rt.experts);
    RemoteAtMost(rt, r, Segments(rt));
    BytesFit(total, h, elemSize);
    ProductNonNegative(Size(rt, r, q), h, elemSize, (rt.n - 1) * rt.experts);
    if product < U64 { SmallMod(product, U64); }
  }

  lemma ProductNonNegative(a: nat, h: nat, elemSize: nat, den: int)
    requires den >= 0
    ensures a * (h * elemSize) * den >= 0
  {
    MulLe(0, h, elemSize);
    MulLe(0, a, h * elemSize);
    MulLe(0, a * (h * elemSize), den);
  }

  /** Not every remote segment can lie above the average of the remote segments. */
  lemma SomeNotAbove(rt: Routing, r: nat, w: nat, den: nat)
    requires Valid(rt) && 0 < den == RemoteCount(rt.n, r, Segments(rt))
    ensures exists q: nat :: q < Segments(rt) && q % rt.n != r
                             && Size(rt, r, q) * w * den <= RemoteTo(rt, r, Segments(rt)) * w
  {
    var num := RemoteTo(rt, r, Segments(rt)) * w;
    hide Size, Segments, RemoteTo, RemoteCount;
    if forall q: nat :: q < Segments(rt) && q % rt.n != r ==> Size(rt, r, q) * w * den > num {
      AllAbove(rt, r, Segments(rt), w, num, den);
      AverageIsNotBelow(num, den);
      assert false;
    }
  }

  /**
   Some remote segment of every rank stays on the direct plane, on all shapes: the product of a
   segment at or below the average cannot wrap.
   */
  lemma SomeRemoteDirect(rt: Routing, r: nat, h: nat, elemSize: nat)
    requires Valid(rt) && r < rt.n && rt.n > 1 && Widths(rt, r, h, elemSize)
    ensures exists g: nat :: g < Segments(rt) && g % rt.n != r && !OnSdma(rt, r, h, elemSize, g)
  {
    hide Segments, RemoteTo, Size, Widths, OnSdma, RemoteCount, Flats, Valid;
    var w, den := h * elemSize, (rt.n - 1) * rt.experts;
    RemoteSegments(rt, r);
    SomeNotAbove(rt, r, w, den);
    var q: nat :| q < Segments(rt) && q % rt.n != r && Size(rt, r, q) * w * den <= RemoteTo(rt, r, Segments(rt)) * w;
    DirectIfNotAbove(rt, r, q, h, elemSize);
  }

  lemma RemoteSegments(rt: Routing, r: nat)
    requires Valid(rt) && r < rt.n && rt.n > 1
    ensures RemoteCount(rt.n, r, Segments(rt)) == (rt.n - 1) * rt.experts > 0
  {
    hide RemoteCount;
    RemoteCountAll(rt.n, r, rt.experts);
    MulAtLeast(rt.n - 1, rt.experts);
  }

  /** A segment at or below the average has a product that fits, and fails the test. */
  lemma DirectIfNotAbove(rt: Routing, r: nat, q: nat, h: nat, elemSize: nat)
    requires Valid(rt) && r < rt.n && rt.n > 1 && q < Segments(rt) && q % rt.n != r && Widths(rt, r, h, elemSize)
    requires Size(rt, r, q) * (h * elemSize) * ((rt.n - 1) * rt.experts)
             <= RemoteTo(rt, r, Segments(rt)) * (h * elemSize)
    ensures !OnSdma(rt, r, h, elemSize, q)
  {
    RemoteAtMost(rt, r, Segments(rt));
    BytesFit(RemoteTo(rt, r, Segments(rt)), h, elemSize);
    hide RemoteTo, Size, Segments, OnSdma, Valid, Widths;
    PlaneTest(rt, r, q, h, elemSize);
    var den := (rt.n - 1) * rt.experts;
    MulLe(0, rt.n - 1, rt.experts);
    ProductNonNegative(Size(rt, r, q), h, elemSize, den);
    SmallMod(Size(rt, r, q) * (h * elemSize) * den, U64);
  }

  // ---- a segment whose product wraps ----

  /** Two ranks with `experts` experts each; all tokens of both choose expert 0. */
  function Lopsided(tokens: nat, experts: nat): Routing
  {
    Routing(2, experts, tokens, 1, seq(2, _ => seq(tokens, _ => 0)))
  }

  lemma {:induction false} AllTheSame(s: seq<nat>, e: int, f: nat)
    requires f <= |s| && forall i :: 0 <= i < f ==> s[i] == 0
    ensures CountTo(s, e, f) == if e == 0 then f else 0
  {
    if f > 0 { AllTheSame(s, e, f - 1); }
  }

  lemma LopsidedSize(tokens: nat, experts: nat, q: nat)
    requires experts > 0 && Valid(Lopsided(tokens, experts))
    ensures Size(Lopsided(tokens, experts), 0, q) == if q / 2 == 0 then tokens else 0
  {
    var rt := Lopsided(tokens, experts);
    SelectFacts(rt.ids[q % 2], 0 * experts + q / 2, Flats(rt));
    AllTheSame(rt.ids[q % 2], 0 * experts + q / 2, Flats(rt));
  }

  lemma {:induction false} LopsidedSums(tokens: nat, experts: nat, g: nat)
    requires experts > 0 && Valid(Lopsided(tokens, experts))
    ensures RemoteTo(Lopsided(tokens, experts), 0, g) == if g <= 1 then 0 else tokens
    ensures Begin(Lopsided(tokens, experts), 0, g) == if g == 0 then 0 else if g == 1 then tokens else 2 * tokens
  {
    hide Size, Valid;
    if g > 0 {
      LopsidedSums(tokens, experts, g - 1);
      LopsidedSize(tokens, experts, g - 1);
    }
  }

  /**
   1024 rows of 4 GiB and 2 to the 22 remote segments: the product is 2 to the 64, which wraps to
   0, and the only non-empty remote segment stays on the direct plane.
   */
  lemma WrappedStaysDirect()
    ensures var rt := Lopsided(1024, 0x40_0000);
            && Valid(rt) && Widths(rt, 0, 0x4000_0000, 4) && 1 < Segments(rt)
            && LargeAndAbove(rt, 0, 1, 0x4000_0000, 4) && !OnSdma(rt, 0, 0x4000_0000, 4, 1)
  {
    hide Size, RemoteTo, Total, OnSdma, Valid, Lopsided, Segments;
    var rt := Lopsided(1024, 0x40_0000);
    LopsidedFacts(1024, 0x40_0000);
    PlaneTest(rt, 0, 1, 0x4000_0000, 4);
    WrappedNumbers(Size(rt, 0, 1), RemoteTo(rt, 0, Segments(rt)));
  }

  lemma WrappedNumbers(size: nat, total: nat)
    requires size == total == 1024
    ensures var w := 0x4000_0000 * 4;
            && size * w >= MIN_SDMA_BYTES && size * w * ((2 - 1) * 0x40_0000) > total * w
            && size * w * ((2 - 1) * 0x40_0000) % U64 == 0 && total * w >= 0
  {
  }

  lemma LopsidedFacts(tokens: nat, experts: nat)
    requires experts > 0
    ensures var rt := Lopsided(tokens, experts);
            && Valid(rt) && rt.n == 2 && rt.experts == experts && Segments(rt) == experts * 2
            && Size(rt, 0, 1) == tokens && RemoteTo(rt, 0, experts * 2) == tokens && Total(rt, 0) == 2 * tokens
  {
    LopsidedValid(tokens, experts);
    var rt := Lopsided(tokens, experts);
    hide Size, RemoteTo, Begin, Valid;
    LopsidedSize(tokens, experts, 1);
    LopsidedSums(tokens, experts, experts * 2);
  }

  lemma LopsidedValid(tokens: nat, experts: nat)
    requires experts > 0
    ensures Valid(Lopsided(tokens, experts))
  {
  }

  lemma AverageIsNotBelow(sum: nat, den: nat)
    requires den > 0
    ensures sum * den < den * (sum + 1)
  {
  }

  // ---- stage 2 and its reference ----

  /** The inner loop of stage 2: one column of one token. */
  method ReduceColumn(su: Setup, o: nat, token: nat, rows: seq<Val>, c: nat) returns (acc: int)
    requires ValidSetup(su) && o < su.j.rt.n && token < su.j.rt.bs && |rows| == su.j.rt.k
    ensures acc == Fold(su, o, token, rows, c, su.j.rt.k)
  {
    acc := su.alg.zero;
    for topk := 0 to su.j.rt.k
      invariant acc == Fold(su, o, token, rows, c, topk)
    {
      PackBound(token, su.j.rt.k, topk, su.j.rt.bs);
      var slot := token * su.j.rt.k + topk;
      if su.j.rt.ids[o][slot] < su.j.rt.n * su.j.rt.experts {
        acc := su.alg.step(acc, Elem(rows[topk], c), su.scales[o][slot]);
      }
    }
  }

  /** The reduction loops of stage 2 for one token. */
  method ReduceToken(su: Setup, o: nat, token: nat, rows: seq<Val>) returns (out: Val)
    requires ValidSetup(su) && o < su.j.rt.n && token < su.j.rt.bs && |rows| == su.j.rt.k
    ensures out == ReduceRow(su, o, token, rows) && Columns(su, o, token, rows, out)
  {
    ReduceColumns(su, o, token, rows);
    hide Fold, Columns;
    var a := new int[su.h];
    for c := 0 to su.h
      invariant forall q :: 0 <= q < c ==> a[q] == su.alg.narrow(Fold(su, o, token, rows, q, su.j.rt.k))
    {
      var acc := ReduceColumn(su, o, token, rows, c);
      a[c] := su.alg.narrow(acc);
    }
    out := a[..];
  }

  function Repeat(row: Val, k: nat): seq<Val>
  {
    seq(k, _ => row)
  }

  /** One element with all scales of a token. */
  function OwnPairs(su: Setup, o: nat, token: nat, v: int): seq<(int, int)>
    requires ValidSetup(su) && o < su.j.rt.n && token < su.j.rt.bs
  {
    seq(su.j.rt.k, i requires 0 <= i < su.j.rt.k =>
      (PackBound(token, su.j.rt.k, i, su.j.rt.bs); (v, su.scales[o][token * su.j.rt.k + i])))
  }

  /** Column by column, `out` is the narrowed fold of the row's own element with the token's scales. */
  ghost predicate OwnColumns(su: Setup, o: nat, token: nat, row: Val, out: Val)
    requires ValidSetup(su) && o < su.j.rt.n && token < su.j.rt.bs
  {
    && |out| == |row|
    && forall c: nat :: c < |row| ==> out[c] == su.alg.narrow(Weighted(su.alg, OwnPairs(su, o, token, row[c])))
  }

  lemma OwnReduced(su: Setup, o: nat, token: nat, row: Val)
    requires ValidSetup(su) && o < su.j.rt.n && token < su.j.rt.bs
    ensures |row| == su.h ==> OwnColumns(su, o, token, row, ReduceRow(su, o, token, Repeat(row, su.j.rt.k)))
  {
    var rows := Repeat(row, su.j.rt.k);
    ReduceColumns(su, o, token, rows);
    if |row| == su.h {
      var out := ReduceRow(su, o, token, rows);
      hide ReduceRow;
      forall c: nat | c < |row|
        ensures out[c] == su.alg.narrow(Weighted(su.alg, OwnPairs(su, o, token, row[c])))
      {
        assert ColumnPairs(su, o, token, rows, c, su.j.rt.k) == OwnPairs(su, o, token, row[c]);
      }
    }
  }

  /** The reference of one token: whole rows are accumulated, one topK choice after the other. */
  method CombineGoldenToken(su: Setup, o: nat, token: nat, row: Val) returns (out: Val)
    requires ValidSetup(su) && o < su.j.rt.n && token < su.j.rt.bs
    ensures out == ReduceRow(su, o, token, Repeat(row, su.j.rt.k))
    ensures |row| == su.h ==> OwnColumns(su, o, token, row, out)
  {
    OwnReduced(su, o, token, row);
    hide OwnColumns;
    ghost var rows := Repeat(row, su.j.rt.k);
    var acc: seq<int> := seq(su.h, _ => su.alg.zero);
    for topk := 0 to su.j.rt.k
      invariant |acc| == su.h
      invariant forall c :: 0 <= c < su.h ==> acc[c] == Fold(su, o, token, rows, c, topk)
    {
      PackBound(token, su.j.rt.k, topk, su.j.rt.bs);
      var scale := su.scales[o][token * su.j.rt.k + topk];
      acc := seq(su.h, c requires 0 <= c < su.h && |acc| == su.h => su.alg.step(acc[c], Elem(row, c), scale));
    }
    out := seq(su.h, c requires 0 <= c < su.h && |acc| == su.h => su.alg.narrow(acc[c]));
  }

  // ---- the round trip ----

  ghost predicate FedBy(su: Setup, dj: DS.Job, t: D.State)
    requires DS.ValidJob(dj)
  {
    && su.j.rt == dj.rt && |t.recv| == dj.rt.n
    && |su.j.y| == dj.rt.n && forall d :: 0 <= d < dj.rt.n ==> su.j.y[d] == t.recv[d].expandX
  }

  /** With identity experts, the answer to a pair is the pair's own token row. */
  lemma AnswerIsRow(su: Setup, dj: DS.Job, t: D.State, o: nat, f: nat)
    requires ValidSetup(su) && DS.ValidJob(dj) && FedBy(su, dj, t) && D.GoldenState(dj, t) && IsSlot(su.j, o, f)
    ensures 0 <= f / dj.rt.k < dj.rt.bs && Answer(su.j, o, f) == dj.x[o][f / dj.rt.k]
  {
    var rt := dj.rt;
    var d, g, i := Dest(rt, o, f), SegmentOf(rt, o, f), PlaceOf(rt, o, f);
    HomeOf(rt, o, f);
    UnpackBound(f, rt.k, rt.bs);
    var rv := t.recv[d];
    assert D.IsGolden(dj, d, rv.expandX, rv.assist, rv.recvCount, rv.tokenNums);
    assert D.RowOk(dj, d, rv.expandX, g, i);
    assert D.RowAt(dj, d, g, i) == dj.x[o][f / rt.k];
  }

  /** Round trip: dispatch, identity experts and combine give every token the weighted fold of its own row. */
  lemma RoundTrip(dj: DS.Job, ds: D.State, dtrace: seq<D.Action>, dt: D.State,
                  su: Setup, s: State, trace: seq<Action>, t: State, o: nat, token: nat)
    requires DS.ValidJob(dj) && D.Init(dj, ds) && D.Runs(dj, ds, dtrace, dt) && D.Final(dt)
    requires ValidSetup(su) && FedBy(su, dj, dt) && Init(su, s) && Runs(su, s, trace, t) && Final(su, t)
    requires o < su.j.rt.n == dj.rt.n && token < su.j.rt.bs == dj.rt.bs && su.j.rt.k == dj.rt.k
    ensures |t.xOut| == dj.rt.n && |t.xOut[o]| == dj.rt.bs
    ensures t.xOut[o][token] == ReduceRow(su, o, token, Repeat(dj.x[o][token], dj.rt.k))
    ensures |dj.x[o][token]| == su.h ==> OwnColumns(su, o, token, dj.x[o][token], t.xOut[o][token])
  {
    OwnReduced(su, o, token, dj.x[o][token]);
    hide OwnColumns;
    hide D.Runs, D.Init, D.Final, Runs, Init, Final, D.GoldenState, ReduceRow, FedBy, Answers;
    GoldenOf(dj, ds, dtrace, dt);
    assert su.j.rt == dj.rt by { FedRouting(su, dj, dt); }
    FinalRow(su, s, trace, t, o, token);
    AnswersAreRow(su, dj, dt, o, token);
  }

  lemma FedRouting(su: Setup, dj: DS.Job, t: D.State)
    requires DS.ValidJob(dj) && FedBy(su, dj, t)
    ensures su.j.rt == dj.rt
  {
  }

  lemma GoldenOf(dj: DS.Job, ds: D.State, dtrace: seq<D.Action>, dt: D.State)
    requires DS.ValidJob(dj) && D.Init(dj, ds) && D.Runs(dj, ds, dtrace, dt) && D.Final(dt)
    ensures D.GoldenState(dj, dt)
  {
    hide D.Runs, D.Init, D.Final, D.GoldenState;
    D.DispatchCorrect(dj, ds, dtrace, dt);
  }

  lemma FinalRow(su: Setup, s: State, trace: seq<Action>, t: State, o: nat, token: nat)
    requires ValidSetup(su) && Init(su, s) && Runs(su, s, trace, t) && Final(su, t)
    requires o < su.j.rt.n && token < su.j.rt.bs
    ensures |t.xOut| == su.j.rt.n && |t.xOut[o]| == su.j.rt.bs && t.xOut[o][token] == Expected(su, o, token)
  {
    hide Runs, Init, Final;
    CombineCorrect(su, s, trace, t);
    hide Expected;
    assert t.xOut[o][token] == Expected(su, o, token);
  }

  lemma AnswersAreRow(su: Setup, dj: DS.Job, t: D.State, o: nat, token: nat)
    requires ValidSetup(su) && DS.ValidJob(dj) && FedBy(su, dj, t) && D.GoldenState(dj, t)
    requires o < dj.rt.n && token < dj.rt.bs
    ensures Answers(su, o, token) == Repeat(dj.x[o][token], dj.rt.k)
  {
    forall i | 0 <= i < dj.rt.k ensures Answers(su, o, token)[i] == dj.x[o][token] {
      StatusIsSlot(su, o, token, i);
      AnswerIsRow(su, dj, t, o, token * dj.rt.k + i);
      DivMod(token, dj.rt.k, i);
    }
  }
}
