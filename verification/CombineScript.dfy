/**
 What each core of the combine kernels sends in stage 1. One description covers both
 kernels: a plane per segment says whether its rows take the SDMA channel. The classic
 kernel is the case in which no segment does.
 */
module CombineScript {
  import opened Arith
  import opened Routing
  import opened Shmem

  /** One combine launch: the routing and, per rank, the expert output rows in dispatch order. */
  datatype Job = Job(rt: Routing, y: seq<seq<Val>>)

  ghost predicate ValidJob(j: Job)
  {
    && Valid(j.rt)
    && |j.y| == j.rt.n
    && forall d :: 0 <= d < j.rt.n ==> Total(j.rt, d) <= |j.y[d]|
  }

  const SDMA_ISSUE_LIMIT: nat := 256

  predicate IsSlot(j: Job, o: int, f: int)
  {
    0 <= o < j.rt.n && 0 <= f < Flats(j.rt)
  }

  function LocalExpert(j: Job, o: nat, f: nat): nat
    requires ValidJob(j) && IsSlot(j, o, f)
  {
    j.rt.ids[o][f] % j.rt.experts
  }

  lemma RowInBuffer(j: Job, d: nat, g: nat, i: nat)
    requires ValidJob(j) && d < j.rt.n && g < Segments(j.rt) && i < Size(j.rt, d, g)
    ensures Begin(j.rt, d, g) + i < |j.y[d]|
  {
    BeginMonotone(j.rt, d, g + 1, Segments(j.rt));
  }

  /** The expert output that answers pair `(o, f)`. */
  ghost function Answer(j: Job, o: nat, f: nat): Val
    requires ValidJob(j) && IsSlot(j, o, f)
  {
    HomeOf(j.rt, o, f);
    RowInBuffer(j, Dest(j.rt, o, f), SegmentOf(j.rt, o, f), PlaceOf(j.rt, o, f));
    j.y[Dest(j.rt, o, f)][Begin(j.rt, Dest(j.rt, o, f), SegmentOf(j.rt, o, f)) + PlaceOf(j.rt, o, f)]
  }

  ghost function Content(j: Job, l: Loc): Val
    requires ValidJob(j)
  {
    if l.region == Status then READY
    else if l.region == Data && IsSlot(j, l.pe, l.slot) then Answer(j, l.pe, l.slot)
    else []
  }

  ghost function Needs(l: Loc): set<Loc>
  {
    if l.region == Status then {Loc(l.pe, Data, l.slot)} else {}
  }

  ghost function Owner(j: Job, l: Loc): Id
    requires ValidJob(j)
  {
    if IsSlot(j, l.pe, l.slot) then Id(Dest(j.rt, l.pe, l.slot), l.pe) else Id(-1, -1)
  }

  ghost function PlanOf(j: Job): Plan
    requires ValidJob(j)
  {
    Plan(l => Needs(l), l => Content(j, l), l => Owner(j, l))
  }

  // ---- the script of core `a` on rank `r`, which answers source rank `a` ----

  datatype Kind = SdmaData | DirectBoth | SdmaStatus

  /** Emitted operations and the kernel's count of outstanding SDMA puts. */
  datatype Emit = Emit(ops: seq<Op>, out: nat)

  predicate Writes(kind: Kind, region: Region)
  {
    match kind
    case SdmaData => region == Data
    case DirectBoth => region == Data || region == Status
    case SdmaStatus => region == Status
  }

  function EntryFlat(j: Job, r: nat, a: nat, le: nat, i: nat): nat
    requires ValidJob(j) && i < Size(j.rt, r, le * j.rt.n + a)
  {
    Segment(j.rt, r, le * j.rt.n + a)[i]
  }

  lemma EntryBound(j: Job, r: nat, a: nat, le: nat, i: nat)
    requires ValidJob(j) && r < j.rt.n && a < j.rt.n && le < j.rt.experts && i < Size(j.rt, r, le * j.rt.n + a)
    ensures Begin(j.rt, r, le * j.rt.n + a) + i < |j.y[r]|
  {
    PackBound(le, j.rt.n, a, j.rt.experts);
    RowInBuffer(j, r, le * j.rt.n + a, i);
  }

  function EntryEmit(j: Job, r: nat, a: nat, kind: Kind, le: nat, i: nat, out: nat): Emit
    requires ValidJob(j) && r < j.rt.n && a < j.rt.n && le < j.rt.experts && i < Size(j.rt, r, le * j.rt.n + a)
  {
    EntryBound(j, r, a, le, i);
    var f := EntryFlat(j, r, a, le, i);
    var row := j.y[r][Begin(j.rt, r, le * j.rt.n + a) + i];
    match kind
    case SdmaData =>
      if out + 1 >= SDMA_ISSUE_LIMIT then Emit([Put(Sdma, Loc(a, Data, f), row), Quiet(Sdma)], 0)
      else Emit([Put(Sdma, Loc(a, Data, f), row)], out + 1)
    case DirectBoth =>
      Emit([Put(Direct, Loc(a, Data, f), row), Quiet(Direct)] + [Put(Direct, Loc(a, Status, f), READY), Quiet(Direct)],
           out)
    case SdmaStatus =>
      Emit([Put(Direct, Loc(a, Status, f), READY)], out)
  }

  function SegEmit(j: Job, r: nat, a: nat, kind: Kind, le: nat, m: nat, out: nat): Emit
    requires ValidJob(j) && r < j.rt.n && a < j.rt.n && le < j.rt.experts && m <= Size(j.rt, r, le * j.rt.n + a)
    decreases m
  {
    if m == 0 then Emit([], out)
    else
      var e := SegEmit(j, r, a, kind, le, m - 1, out);
      var x := EntryEmit(j, r, a, kind, le, m - 1, e.out);
      Emit(e.ops + x.ops, x.out)
  }

  type Planes = seq<bool>

  predicate Takes(kind: Kind, planes: Planes, le: nat)
    requires le < |planes|
  {
    planes[le] <==> kind != DirectBoth
  }

  function Fence(kind: Kind, ops: seq<Op>): seq<Op>
  {
    if kind == SdmaStatus && ops != [] then [Quiet(Direct)] else []
  }

  function PassEmit(j: Job, r: nat, a: nat, kind: Kind, planes: Planes, le: nat): Emit
    requires ValidJob(j) && r < j.rt.n && a < j.rt.n && le <= |planes| == j.rt.experts
    decreases le
  {
    if le == 0 then Emit([], 0)
    else
      var e := PassEmit(j, r, a, kind, planes, le - 1);
      if Takes(kind, planes, le - 1) then
        var s := SegEmit(j, r, a, kind, le - 1, Size(j.rt, r, (le - 1) * j.rt.n + a), e.out);
        Emit(e.ops + (s.ops + Fence(kind, s.ops)), s.out)
      else e
  }

  function SdmaFence(out: nat): seq<Op>
  {
    if out > 0 then [Quiet(Sdma)] else []
  }

  function DataScript(j: Job, r: nat, a: nat, planes: Planes): seq<Op>
    requires ValidJob(j) && r < j.rt.n && a < j.rt.n && |planes| == j.rt.experts
  {
    var sdma := PassEmit(j, r, a, SdmaData, planes, j.rt.experts);
    sdma.ops + PassEmit(j, r, a, DirectBoth, planes, j.rt.experts).ops + SdmaFence(sdma.out)
  }

  function Script(j: Job, r: nat, a: nat, planes: Planes): seq<Op>
    requires ValidJob(j) && r < j.rt.n && a < j.rt.n && |planes| == j.rt.experts
  {
    DataScript(j, r, a, planes) + (PassEmit(j, r, a, SdmaStatus, planes, j.rt.experts).ops + [Quiet(Direct)])
  }

  /** The classic kernel: data, quiet, status, quiet for every entry, on one channel. */
  function ClassicSeg(j: Job, r: nat, a: nat, le: nat, m: nat): seq<Op>
    requires ValidJob(j) && r < j.rt.n && a < j.rt.n && le < j.rt.experts && m <= Size(j.rt, r, le * j.rt.n + a)
  {
    SegEmit(j, r, a, DirectBoth, le, m, 0).ops
  }

  function ClassicOps(j: Job, r: nat, a: nat, le: nat): seq<Op>
    requires ValidJob(j) && r < j.rt.n && a < j.rt.n && le <= j.rt.experts
  {
    if le == 0 then []
    else ClassicOps(j, r, a, le - 1) + ClassicSeg(j, r, a, le - 1, Size(j.rt, r, (le - 1) * j.rt.n + a))
  }

  function ClassicScript(j: Job, r: nat, a: nat): seq<Op>
    requires ValidJob(j) && r < j.rt.n && a < j.rt.n
  {
    ClassicOps(j, r, a, j.rt.experts) + [Quiet(Direct)]
  }

  function NoSdma(experts: nat): Planes
  {
    seq(experts, _ => false)
  }

  // ---- which slots a pass covers ----

  ghost predicate Handled(j: Job, r: nat, a: nat, l: Loc)
    requires ValidJob(j)
  {
    l.pe == a && IsSlot(j, l.pe, l.slot) && Dest(j.rt, l.pe, l.slot) == r
  }

  /** An entry is the home of the pair it holds, and answers it. */
  lemma EntryHome(j: Job, r: nat, a: nat, le: nat, i: nat)
    requires ValidJob(j) && r < j.rt.n && a < j.rt.n && le < j.rt.experts && i < Size(j.rt, r, le * j.rt.n + a)
    ensures var f := EntryFlat(j, r, a, le, i);
            && IsSlot(j, a, f) && Dest(j.rt, a, f) == r && LocalExpert(j, a, f) == le && PlaceOf(j.rt, a, f) == i
            && SegmentOf(j.rt, a, f) == le * j.rt.n + a
  {
    var rt := j.rt;
    var g := le * rt.n + a;
    PackBound(le, rt.n, a, rt.experts);
    DivMod(le, rt.n, a);
    HomeIs(rt, r, g, i);
    SegmentFacts(rt, r, g, i);
    DivMod(r, rt.experts, le);
  }

  lemma EntryAnswer(j: Job, r: nat, a: nat, le: nat, i: nat)
    requires ValidJob(j) && r < j.rt.n && a < j.rt.n && le < j.rt.experts && i < Size(j.rt, r, le * j.rt.n + a)
    ensures var f := EntryFlat(j, r, a, le, i);
            && IsSlot(j, a, f) && Begin(j.rt, r, le * j.rt.n + a) + i < |j.y[r]|
            && Answer(j, a, f) == j.y[r][Begin(j.rt, r, le * j.rt.n + a) + i]
  {
    EntryHome(j, r, a, le, i);
    EntryBound(j, r, a, le, i);
    hide Size, Flats, Begin, Dest, SegmentOf, PlaceOf, EntryFlat;
  }

  /** An entry of a segment and its slot determine each other. */
  lemma EntryIff(j: Job, r: nat, a: nat, le: nat, i: nat, l: Loc)
    requires ValidJob(j) && r < j.rt.n && a < j.rt.n && le < j.rt.experts && i < Size(j.rt, r, le * j.rt.n + a)
    ensures Handled(j, r, a, l) && LocalExpert(j, l.pe, l.slot) == le && PlaceOf(j.rt, l.pe, l.slot) == i
            <==> (l.pe == a && l.slot == EntryFlat(j, r, a, le, i))
  {
    EntryHome(j, r, a, le, i);
    if Handled(j, r, a, l) && LocalExpert(j, l.pe, l.slot) == le { HomeOf(j.rt, a, l.slot); }
  }

  lemma EntryLocs(j: Job, r: nat, a: nat, kind: Kind, le: nat, i: nat, out: nat, l: Loc)
    requires ValidJob(j) && r < j.rt.n && a < j.rt.n && le < j.rt.experts && i < Size(j.rt, r, le * j.rt.n + a)
    ensures l in PutLocs(EntryEmit(j, r, a, kind, le, i, out).ops)
            <==> (Writes(kind, l.region) && l.pe == a && l.slot == EntryFlat(j, r, a, le, i))
  {
    var ops := EntryEmit(j, r, a, kind, le, i, out).ops;
    var f := EntryFlat(j, r, a, le, i);
    if kind == DirectBoth {
      assert ops[0].loc == Loc(a, Data, f) && ops[2].loc == Loc(a, Status, f);
    } else {
      assert ops[0].loc == Loc(a, if kind == SdmaData then Data else Status, f);
    }
  }

  lemma {:induction false} SegLocs(j: Job, r: nat, a: nat, kind: Kind, le: nat, m: nat, out: nat, l: Loc)
    requires ValidJob(j) && r < j.rt.n && a < j.rt.n && le < j.rt.experts && m <= Size(j.rt, r, le * j.rt.n + a)
    ensures l in PutLocs(SegEmit(j, r, a, kind, le, m, out).ops)
            <==> (Writes(kind, l.region) && Handled(j, r, a, l)
                  && LocalExpert(j, l.pe, l.slot) == le && PlaceOf(j.rt, l.pe, l.slot) < m)
    decreases m
  {
    hide EntryEmit, Size, EntryFlat, Flats;
    if m > 0 {
      var e := SegEmit(j, r, a, kind, le, m - 1, out);
      SegLocs(j, r, a, kind, le, m - 1, out, l);
      PutLocsConcat(e.ops, EntryEmit(j, r, a, kind, le, m - 1, e.out).ops);
      EntryLocs(j, r, a, kind, le, m - 1, e.out, l);
      EntryIff(j, r, a, le, m - 1, l);
    }
  }

  /** A handled slot's place lies inside its segment. */
  lemma HandledPlace(j: Job, r: nat, a: nat, l: Loc)
    requires ValidJob(j) && r < j.rt.n && a < j.rt.n && Handled(j, r, a, l)
    ensures LocalExpert(j, l.pe, l.slot) < j.rt.experts
    ensures PlaceOf(j.rt, l.pe, l.slot) < Size(j.rt, r, LocalExpert(j, l.pe, l.slot) * j.rt.n + a)
  {
    HomeOf(j.rt, a, l.slot);
  }

  lemma {:induction false} PassLocs(j: Job, r: nat, a: nat, kind: Kind, planes: Planes, le: nat, l: Loc)
    requires ValidJob(j) && r < j.rt.n && a < j.rt.n && le <= |planes| == j.rt.experts
    ensures l in PutLocs(PassEmit(j, r, a, kind, planes, le).ops)
            <==> (Writes(kind, l.region) && Handled(j, r, a, l)
                  && LocalExpert(j, l.pe, l.slot) < le && Takes(kind, planes, LocalExpert(j, l.pe, l.slot)))
    decreases le
  {
    hide Size, Flats, SegEmit, LocalExpert, Dest, IsSlot;
    if le > 0 {
      PassLocs(j, r, a, kind, planes, le - 1, l);
      if Takes(kind, planes, le - 1) {
        var e := PassEmit(j, r, a, kind, planes, le - 1);
        var size := Size(j.rt, r, (le - 1) * j.rt.n + a);
        var s := SegEmit(j, r, a, kind, le - 1, size, e.out);
        PutLocsConcat(s.ops, Fence(kind, s.ops));
        PutLocsConcat(e.ops, s.ops + Fence(kind, s.ops));
        SegLocs(j, r, a, kind, le - 1, size, e.out, l);
        if Handled(j, r, a, l) { HandledPlace(j, r, a, l); }
      }
    }
  }

  // ---- every script follows the plan ----

  ghost predicate All(pend: set<Op>, ch: Channel)
  {
    forall o :: o in pend ==> o.Put? && o.ch == ch
  }

  /** What may be in flight while a pass of this kind runs. */
  ghost predicate PendOk(kind: Kind, pend: set<Op>, out: nat)
  {
    match kind
    case SdmaData => All(pend, Sdma) && |pend| == out < SDMA_ISSUE_LIMIT
    case DirectBoth => All(pend, Sdma)
    case SdmaStatus => All(pend, Direct)
  }

  /** Both puts of an entry belong to this core and carry what the plan says. */
  lemma EntryPlan(j: Job, r: nat, a: nat, kind: Kind, le: nat, i: nat, out: nat)
    requires ValidJob(j) && r < j.rt.n && a < j.rt.n && le < j.rt.experts && i < Size(j.rt, r, le * j.rt.n + a)
    ensures var f := EntryFlat(j, r, a, le, i);
            var x := EntryEmit(j, r, a, kind, le, i, out);
            var pl := PlanOf(j);
            && pl.owner(Loc(a, Data, f)) == Id(r, a) && pl.owner(Loc(a, Status, f)) == Id(r, a)
            && pl.needs(Loc(a, Data, f)) == {} && pl.needs(Loc(a, Status, f)) == {Loc(a, Data, f)}
            && match kind
               case SdmaData =>
                 x == (if out + 1 >= SDMA_ISSUE_LIMIT
                       then Emit([Put(Sdma, Loc(a, Data, f), pl.content(Loc(a, Data, f))), Quiet(Sdma)], 0)
                       else Emit([Put(Sdma, Loc(a, Data, f), pl.content(Loc(a, Data, f)))], out + 1))
               case DirectBoth =>
                 x == Emit([Put(Direct, Loc(a, Data, f), pl.content(Loc(a, Data, f))), Quiet(Direct)]
                           + [Put(Direct, Loc(a, Status, f), pl.content(Loc(a, Status, f))), Quiet(Direct)], out)
               case SdmaStatus =>
                 x == Emit([Put(Direct, Loc(a, Status, f), pl.content(Loc(a, Status, f)))], out)
  {
    EntryHome(j, r, a, le, i);
    EntryAnswer(j, r, a, le, i);
    hide EntryFlat, Answer, Size, Begin, Dest, Flats;
  }

  lemma SdmaPutSafe(pl: Plan, c: Id, put: Op, out: nat, pend: set<Op>, done: set<Loc>)
    requires MayPut(pl, c, put, pend, done) && put.ch == Sdma && PendOk(SdmaData, pend, out)
    ensures var x := if out + 1 >= SDMA_ISSUE_LIMIT then Emit([put, Quiet(Sdma)], 0) else Emit([put], out + 1);
            Safe(pl, c, x.ops, pend, done) && PendOk(SdmaData, PendAfter(x.ops, pend), x.out)
  {
    assert put !in pend;
    SafePuts(pl, c, [put], pend, done);
    var pend' := PendAfter([put], pend);
    assert pend' == pend + {put} by {
      assert (set i | 0 <= i < 1 :: [put][i]) == {put} by { assert [put][0] == put; }
    }
    if out + 1 >= SDMA_ISSUE_LIMIT {
      QuietAll(pl, c, Sdma, pend', done);
      SafeConcat(pl, c, [put], [Quiet(Sdma)], pend, done);
      assert [put, Quiet(Sdma)] == [put] + [Quiet(Sdma)];
    }
  }

  lemma BothPutsSafe(pl: Plan, c: Id, put: Op, status: Op, pend: set<Op>, done: set<Loc>)
    requires MayPut(pl, c, put, pend, done) && MayPut(pl, c, status, pend, done + {put.loc})
    requires put.ch == status.ch == Direct && All(pend, Sdma)
    ensures var ops := [put, Quiet(Direct)] + [status, Quiet(Direct)];
            Safe(pl, c, ops, pend, done) && PendAfter(ops, pend) == pend
  {
    SafePutQuiet(pl, c, put, pend, done);
    SafePutQuiet(pl, c, status, pend, done + {put.loc});
    SafeConcat(pl, c, [put, Quiet(Direct)], [status, Quiet(Direct)], pend, done);
  }

  lemma EntrySafe(j: Job, r: nat, a: nat, kind: Kind, le: nat, i: nat, out: nat, pend: set<Op>, done: set<Loc>)
    requires ValidJob(j) && r < j.rt.n && a < j.rt.n && le < j.rt.experts && i < Size(j.rt, r, le * j.rt.n + a)
    requires PendOk(kind, pend, out)
    requires var f := EntryFlat(j, r, a, le, i);
             && (forall region :: Writes(kind, region) ==> Loc(a, region, f) !in done + Locs(pend))
             && (kind == SdmaStatus ==> Loc(a, Data, f) in done)
    ensures var x := EntryEmit(j, r, a, kind, le, i, out);
            && Safe(PlanOf(j), Id(r, a), x.ops, pend, done)
            && PendOk(kind, PendAfter(x.ops, pend), x.out)
            && (kind == DirectBoth ==> PendAfter(x.ops, pend) == pend)
  {
    EntryPlan(j, r, a, kind, le, i, out);
    var f := EntryFlat(j, r, a, le, i);
    var x := EntryEmit(j, r, a, kind, le, i, out);
    hide EntryEmit, EntryFlat, Size, PlanOf;
    var pl, c := PlanOf(j), Id(r, a);
    match kind
    case SdmaData =>
      SdmaPutSafe(pl, c, x.ops[0], out, pend, done);
    case DirectBoth =>
      assert MayPut(pl, c, x.ops[0], pend, done);
      assert MayPut(pl, c, x.ops[2], pend, done + {x.ops[0].loc});
      BothPutsSafe(pl, c, x.ops[0], x.ops[2], pend, done);
    case SdmaStatus =>
      assert MayPut(pl, c, x.ops[0], pend, done);
      SafePuts(pl, c, x.ops, pend, done);
  }

  /** The slots of segment `le` are untouched, and what their status relies on is visible. */
  ghost predicate SegReady(j: Job, r: nat, a: nat, kind: Kind, le: nat, pend: set<Op>, done: set<Loc>)
    requires ValidJob(j)
  {
    forall l: Loc :: Handled(j, r, a, l) && LocalExpert(j, l.pe, l.slot) == le ==>
      && (Writes(kind, l.region) ==> l !in done + Locs(pend))
      && (kind == SdmaStatus && l.region == Data ==> l in done)
  }

  lemma SegReadyEntry(j: Job, r: nat, a: nat, kind: Kind, le: nat, i: nat, out: nat, pend: set<Op>, done: set<Loc>)
    requires ValidJob(j) && r < j.rt.n && a < j.rt.n && le < j.rt.experts && i < Size(j.rt, r, le * j.rt.n + a)
    requires SegReady(j, r, a, kind, le, pend, done)
    ensures var f, ops := EntryFlat(j, r, a, le, i), SegEmit(j, r, a, kind, le, i, out).ops;
            var pend', done' := PendAfter(ops, pend), DoneAfter(ops, pend, done);
            && (forall region :: Writes(kind, region) ==> Loc(a, region, f) !in done' + Locs(pend'))
            && (kind == SdmaStatus ==> Loc(a, Data, f) in done')
  {
    var f, ops := EntryFlat(j, r, a, le, i), SegEmit(j, r, a, kind, le, i, out).ops;
    EntryHome(j, r, a, le, i);
    UsedAfter(ops, pend, done);
    DoneGrows(ops, pend, done);
    assert Handled(j, r, a, Loc(a, Data, f));
    forall region | Writes(kind, region) ensures Loc(a, region, f) !in done + Locs(pend) + PutLocs(ops) {
      SegLocs(j, r, a, kind, le, i, out, Loc(a, region, f));
      assert Handled(j, r, a, Loc(a, region, f));
    }
  }

  lemma {:induction false} SegSafe(j: Job, r: nat, a: nat, kind: Kind, le: nat, m: nat, out: nat, pend: set<Op>,
                                   done: set<Loc>)
    requires ValidJob(j) && r < j.rt.n && a < j.rt.n && le < j.rt.experts && m <= Size(j.rt, r, le * j.rt.n + a)
    requires PendOk(kind, pend, out) && SegReady(j, r, a, kind, le, pend, done)
    ensures var e := SegEmit(j, r, a, kind, le, m, out);
            && Safe(PlanOf(j), Id(r, a), e.ops, pend, done)
            && PendOk(kind, PendAfter(e.ops, pend), e.out)
            && (kind == DirectBoth ==> PendAfter(e.ops, pend) == pend)
    decreases m
  {
    hide EntryEmit, EntryFlat, Size, PlanOf, SegReady, Safe, PendAfter, DoneAfter, PendOk, Writes;
    if m == 0 {
      SafeNone(PlanOf(j), Id(r, a), pend, done);
    } else {
      SegSafe(j, r, a, kind, le, m - 1, out, pend, done);
      SegReadyEntry(j, r, a, kind, le, m - 1, out, pend, done);
      var e := SegEmit(j, r, a, kind, le, m - 1, out);
      var pend', done' := PendAfter(e.ops, pend), DoneAfter(e.ops, pend, done);
      EntrySafe(j, r, a, kind, le, m - 1, e.out, pend', done');
      SafeConcat(PlanOf(j), Id(r, a), e.ops, EntryEmit(j, r, a, kind, le, m - 1, e.out).ops, pend, done);
    }
  }

  /** The slots this pass has still to write are untouched, and what it relies on is visible. */
  ghost predicate PassReady(j: Job, r: nat, a: nat, kind: Kind, planes: Planes, pend: set<Op>, done: set<Loc>)
    requires ValidJob(j) && |planes| == j.rt.experts
  {
    forall le: nat :: le < |planes| && Takes(kind, planes, le) ==> SegReady(j, r, a, kind, le, pend, done)
  }

  /** The segments before `le` do not touch the slots of segment `le`. */
  lemma PassReadySeg(j: Job, r: nat, a: nat, kind: Kind, planes: Planes, le: nat, pend: set<Op>, done: set<Loc>)
    requires ValidJob(j) && r < j.rt.n && a < j.rt.n && le < |planes| == j.rt.experts
    requires SegReady(j, r, a, kind, le, pend, done)
    ensures var ops := PassEmit(j, r, a, kind, planes, le).ops;
            SegReady(j, r, a, kind, le, PendAfter(ops, pend), DoneAfter(ops, pend, done))
  {
    var ops := PassEmit(j, r, a, kind, planes, le).ops;
    UsedAfter(ops, pend, done);
    DoneGrows(ops, pend, done);
    hide PassEmit, IsSlot, Flats;
    forall l: Loc | Handled(j, r, a, l) && LocalExpert(j, l.pe, l.slot) == le && Writes(kind, l.region)
      ensures l !in done + Locs(pend) + PutLocs(ops)
    {
      PassLocs(j, r, a, kind, planes, le, l);
    }
  }

  lemma SegFenceSafe(j: Job, r: nat, a: nat, kind: Kind, ops: seq<Op>, out: nat, pend: set<Op>, done: set<Loc>)
    requires ValidJob(j) && Safe(PlanOf(j), Id(r, a), ops, pend, done) && PendOk(kind, PendAfter(ops, pend), out)
    ensures var all := ops + Fence(kind, ops);
            && Safe(PlanOf(j), Id(r, a), all, pend, done) && PendOk(kind, PendAfter(all, pend), out)
            && (kind == DirectBoth ==> PendAfter(all, pend) == PendAfter(ops, pend))
  {
    hide PlanOf;
    if Fence(kind, ops) == [] {
      assert ops + [] == ops;
    } else {
      QuietAll(PlanOf(j), Id(r, a), Direct, PendAfter(ops, pend), DoneAfter(ops, pend, done));
      SafeConcat(PlanOf(j), Id(r, a), ops, [Quiet(Direct)], pend, done);
    }
  }

  lemma {:induction false} PassSafe(j: Job, r: nat, a: nat, kind: Kind, planes: Planes, le: nat, pend: set<Op>,
                                    done: set<Loc>)
    requires ValidJob(j) && r < j.rt.n && a < j.rt.n && le <= |planes| == j.rt.experts
    requires PendOk(kind, pend, 0) && PassReady(j, r, a, kind, planes, pend, done)
    ensures var e := PassEmit(j, r, a, kind, planes, le);
            && Safe(PlanOf(j), Id(r, a), e.ops, pend, done)
            && PendOk(kind, PendAfter(e.ops, pend), e.out)
            && (kind == DirectBoth ==> PendAfter(e.ops, pend) == pend)
    decreases le
  {
    hide SegEmit, Size, PlanOf, SegReady, Fence;
    if le > 0 {
      PassSafe(j, r, a, kind, planes, le - 1, pend, done);
      if Takes(kind, planes, le - 1) {
        var e := PassEmit(j, r, a, kind, planes, le - 1);
        var pend', done' := PendAfter(e.ops, pend), DoneAfter(e.ops, pend, done);
        PassReadySeg(j, r, a, kind, planes, le - 1, pend, done);
        var size := Size(j.rt, r, (le - 1) * j.rt.n + a);
        var s := SegEmit(j, r, a, kind, le - 1, size, e.out);
        SegSafe(j, r, a, kind, le - 1, size, e.out, pend', done');
        SegFenceSafe(j, r, a, kind, s.ops, s.out, pend', done');
        SafeConcat(PlanOf(j), Id(r, a), e.ops, s.ops + Fence(kind, s.ops), pend, done);
      }
    }
  }

  lemma NothingReady(j: Job, r: nat, a: nat, planes: Planes)
    requires ValidJob(j) && r < j.rt.n && a < j.rt.n && |planes| == j.rt.experts
    ensures PassReady(j, r, a, SdmaData, planes, {}, {})
  {
  }

  /** After the SDMA and direct passes and the SDMA quiet, nothing is in flight. */
  lemma DataScriptSafe(j: Job, r: nat, a: nat, planes: Planes)
    requires ValidJob(j) && r < j.rt.n && a < j.rt.n && |planes| == j.rt.experts
    ensures var ops := DataScript(j, r, a, planes);
            && Safe(PlanOf(j), Id(r, a), ops, {}, {}) && PendAfter(ops, {}) == {}
            && DoneAfter(ops, {}, {}) == PutLocs(ops)
  {
    hide Safe, PendAfter, DoneAfter, PassEmit, PlanOf, PassReady;
    var pl, c, experts := PlanOf(j), Id(r, a), j.rt.experts;
    var sdma, direct := PassEmit(j, r, a, SdmaData, planes, experts), PassEmit(j, r, a, DirectBoth, planes, experts);
    var ops := sdma.ops + direct.ops;
    NothingReady(j, r, a, planes);
    PassSafe(j, r, a, SdmaData, planes, experts, {}, {});
    var pend, done := PendAfter(sdma.ops, {}), DoneAfter(sdma.ops, {}, {});
    DirectReady(j, r, a, planes);
    PassSafe(j, r, a, DirectBoth, planes, experts, pend, done);
    SafeConcat(pl, c, sdma.ops, direct.ops, {}, {});
    var done2 := DoneAfter(ops, {}, {});
    if sdma.out > 0 {
      QuietAll(pl, c, Sdma, pend, done2);
      SafeConcat(pl, c, ops, [Quiet(Sdma)], {}, {});
    } else {
      assert pend == {};
      assert ops + [] == ops;
    }
    UsedAfter(DataScript(j, r, a, planes), {}, {});
    assert Locs({}) == {};
  }

  lemma DirectReady(j: Job, r: nat, a: nat, planes: Planes)
    requires ValidJob(j) && r < j.rt.n && a < j.rt.n && |planes| == j.rt.experts
    ensures var ops := PassEmit(j, r, a, SdmaData, planes, j.rt.experts).ops;
            PassReady(j, r, a, DirectBoth, planes, PendAfter(ops, {}), DoneAfter(ops, {}, {}))
  {
    var ops := PassEmit(j, r, a, SdmaData, planes, j.rt.experts).ops;
    UsedAfter(ops, {}, {});
    assert Locs({}) == {};
    hide PassEmit, Flats, Dest;
    forall l: Loc | Handled(j, r, a, l) && l in PutLocs(ops)
      ensures l.region == Data && LocalExpert(j, l.pe, l.slot) < |planes| && planes[LocalExpert(j, l.pe, l.slot)]
    {
      PassLocs(j, r, a, SdmaData, planes, j.rt.experts, l);
    }
  }

  /** Exactly the data slots of all handled pairs, and the statuses of the direct ones. */
  lemma DataScriptLocs(j: Job, r: nat, a: nat, planes: Planes, l: Loc)
    requires ValidJob(j) && r < j.rt.n && a < j.rt.n && |planes| == j.rt.experts
    ensures l in PutLocs(DataScript(j, r, a, planes))
            <==> (Handled(j, r, a, l)
                  && (l.region == Data || (l.region == Status && LocalExpert(j, l.pe, l.slot) < |planes|
                                           && !planes[LocalExpert(j, l.pe, l.slot)])))
  {
    hide PassEmit, Flats, IsSlot, LocalExpert;
    var experts := j.rt.experts;
    var sdma, direct := PassEmit(j, r, a, SdmaData, planes, experts), PassEmit(j, r, a, DirectBoth, planes, experts);
    PutLocsConcat(sdma.ops, direct.ops);
    PutLocsConcat(sdma.ops + direct.ops, SdmaFence(sdma.out));
    assert PutLocs(SdmaFence(sdma.out)) == {};
    PassLocs(j, r, a, SdmaData, planes, experts, l);
    PassLocs(j, r, a, DirectBoth, planes, experts, l);
    if Handled(j, r, a, l) { HandledPlace(j, r, a, l); }
  }

  lemma StatusReady(j: Job, r: nat, a: nat, planes: Planes)
    requires ValidJob(j) && r < j.rt.n && a < j.rt.n && |planes| == j.rt.experts
    ensures PassReady(j, r, a, SdmaStatus, planes, {}, PutLocs(DataScript(j, r, a, planes)))
  {
    hide DataScript, Flats, Dest;
    assert Locs({}) == {};
    forall l: Loc | Handled(j, r, a, l)
      ensures l in PutLocs(DataScript(j, r, a, planes))
        <==> (l.region == Data || (l.region == Status && LocalExpert(j, l.pe, l.slot) < |planes|
                                   && !planes[LocalExpert(j, l.pe, l.slot)]))
    {
      DataScriptLocs(j, r, a, planes, l);
    }
  }

  /** Both kernels follow the plan: no status is published before its row, on any plane assignment. */
  lemma ScriptSafe(j: Job, r: nat, a: nat, planes: Planes)
    requires ValidJob(j) && r < j.rt.n && a < j.rt.n && |planes| == j.rt.experts
    ensures Safe(PlanOf(j), Id(r, a), Script(j, r, a, planes), {}, {})
  {
    hide PassEmit, DataScript, PlanOf, PassReady;
    var pl, c := PlanOf(j), Id(r, a);
    var data := DataScript(j, r, a, planes);
    var status := PassEmit(j, r, a, SdmaStatus, planes, j.rt.experts).ops;
    DataScriptSafe(j, r, a, planes);
    StatusReady(j, r, a, planes);
    PassSafe(j, r, a, SdmaStatus, planes, j.rt.experts, {}, PutLocs(data));
    QuietAll(pl, c, Direct, PendAfter(status, {}), DoneAfter(status, {}, PutLocs(data)));
    SafeConcat(pl, c, status, [Quiet(Direct)], {}, PutLocs(data));
    SafeConcat(pl, c, data, status + [Quiet(Direct)], {}, {});
  }

  /** Exactly once: a core writes the data and the status slot of precisely the pairs it handles. */
  lemma ScriptLocs(j: Job, r: nat, a: nat, planes: Planes, l: Loc)
    requires ValidJob(j) && r < j.rt.n && a < j.rt.n && |planes| == j.rt.experts
    ensures l in PutLocs(Script(j, r, a, planes)) <==> (Handled(j, r, a, l) && (l.region == Data || l.region == Status))
  {
    hide PassEmit, DataScript, Flats, IsSlot, LocalExpert;
    var data := DataScript(j, r, a, planes);
    var status := PassEmit(j, r, a, SdmaStatus, planes, j.rt.experts).ops;
    PutLocsConcat(status, [Quiet(Direct)]);
    PutLocsConcat(data, status + [Quiet(Direct)]);
    assert PutLocs([Quiet(Direct)]) == {};
    DataScriptLocs(j, r, a, planes, l);
    PassLocs(j, r, a, SdmaStatus, planes, j.rt.experts, l);
    if Handled(j, r, a, l) { HandledPlace(j, r, a, l); }
  }

  // ---- the classic kernel is the double-plane kernel without SDMA segments ----

  lemma {:induction false} ClassicIsDirect(j: Job, r: nat, a: nat, le: nat)
    requires ValidJob(j) && r < j.rt.n && a < j.rt.n && le <= j.rt.experts
    ensures PassEmit(j, r, a, DirectBoth, NoSdma(j.rt.experts), le) == Emit(ClassicOps(j, r, a, le), 0)
    ensures PassEmit(j, r, a, SdmaData, NoSdma(j.rt.experts), le) == Emit([], 0)
    ensures PassEmit(j, r, a, SdmaStatus, NoSdma(j.rt.experts), le) == Emit([], 0)
    decreases le
  {
    hide SegEmit, Size;
    if le > 0 {
      ClassicIsDirect(j, r, a, le - 1);
      DirectOut(j, r, a, le - 1, Size(j.rt, r, (le - 1) * j.rt.n + a), 0);
      var s := ClassicSeg(j, r, a, le - 1, Size(j.rt, r, (le - 1) * j.rt.n + a));
      assert s + [] == s;
    }
  }

  lemma {:induction false} DirectOut(j: Job, r: nat, a: nat, le: nat, m: nat, out: nat)
    requires ValidJob(j) && r < j.rt.n && a < j.rt.n && le < j.rt.experts && m <= Size(j.rt, r, le * j.rt.n + a)
    ensures SegEmit(j, r, a, DirectBoth, le, m, out).out == out
    decreases m
  {
    if m > 0 { DirectOut(j, r, a, le, m - 1, out); }
  }

  lemma ClassicIsScript(j: Job, r: nat, a: nat)
    requires ValidJob(j) && r < j.rt.n && a < j.rt.n
    ensures Script(j, r, a, NoSdma(j.rt.experts)) == ClassicScript(j, r, a)
  {
    ClassicIsDirect(j, r, a, j.rt.experts);
    hide PassEmit, ClassicOps;
    var ops := ClassicOps(j, r, a, j.rt.experts);
    assert [] + ops + [] == ops && [] + [Quiet(Direct)] == [Quiet(Direct)];
  }

  // ---- how many SDMA puts can be outstanding ----

  /** Issuing `todo` from `out` outstanding SDMA puts never exceeds the limit. */
  ghost predicate Bounded(todo: seq<Op>, out: nat)
    decreases |todo|
  {
    && out <= SDMA_ISSUE_LIMIT
    && (todo == [] ||
        if todo[0].ch == Direct then Bounded(todo[1..], out)
        else if todo[0].Put? then Bounded(todo[1..], out + 1)
        else Bounded(todo[1..], 0))
  }

  lemma {:induction false} BoundedMonotone(todo: seq<Op>, out: nat, out': nat)
    requires Bounded(todo, out) && out' <= out
    ensures Bounded(todo, out')
    decreases |todo|
  {
    if todo != [] {
      if todo[0].ch == Direct { BoundedMonotone(todo[1..], out, out'); }
      else if todo[0].Put? { BoundedMonotone(todo[1..], out + 1, out' + 1); }
    }
  }

  ghost function OutAfter(ops: seq<Op>, out: nat): nat
    decreases |ops|
  {
    if ops == [] then out
    else if ops[0].ch == Direct then OutAfter(ops[1..], out)
    else if ops[0].Put? then OutAfter(ops[1..], out + 1)
    else OutAfter(ops[1..], 0)
  }

  lemma {:induction false} BoundedConcat(a: seq<Op>, b: seq<Op>, out: nat)
    requires Bounded(a, out) && Bounded(b, OutAfter(a, out))
    ensures Bounded(a + b, out) && OutAfter(a + b, out) == OutAfter(b, OutAfter(a, out))
    decreases |a|
  {
    if a == [] {
      assert a + b == b;
    } else {
      assert (a + b)[1..] == a[1..] + b;
      if a[0].ch == Direct { BoundedConcat(a[1..], b, out); }
      else if a[0].Put? { BoundedConcat(a[1..], b, out + 1); }
      else { BoundedConcat(a[1..], b, 0); }
    }
  }

  lemma {:induction false} BoundedDirect(ops: seq<Op>, out: nat)
    requires out <= SDMA_ISSUE_LIMIT && forall i :: 0 <= i < |ops| ==> ops[i].ch == Direct
    ensures Bounded(ops, out) && OutAfter(ops, out) == out
    decreases |ops|
  {
    if ops != [] { BoundedDirect(ops[1..], out); }
  }

  lemma SdmaPutBounded(put: Op, out: nat)
    requires put.Put? && put.ch == Sdma && out < SDMA_ISSUE_LIMIT
    ensures Bounded([put], out) && OutAfter([put], out) == out + 1
    ensures Bounded([put, Quiet(Sdma)], out) && OutAfter([put, Quiet(Sdma)], out) == 0
  {
    assert [put][1..] == [] && [put, Quiet(Sdma)][1..] == [Quiet(Sdma)] && [Quiet(Sdma)][1..] == [];
    assert Bounded([Quiet(Sdma)], out + 1) && OutAfter([Quiet(Sdma)], out + 1) == 0;
  }

  lemma EntryBounded(j: Job, r: nat, a: nat, kind: Kind, le: nat, i: nat, out: nat)
    requires ValidJob(j) && r < j.rt.n && a < j.rt.n && le < j.rt.experts && i < Size(j.rt, r, le * j.rt.n + a)
    requires out < SDMA_ISSUE_LIMIT
    ensures var e := EntryEmit(j, r, a, kind, le, i, out);
            e.out < SDMA_ISSUE_LIMIT && Bounded(e.ops, out) && OutAfter(e.ops, out) == e.out
  {
    hide Bounded, OutAfter, EntryFlat;
    var e := EntryEmit(j, r, a, kind, le, i, out);
    if kind == SdmaData {
      SdmaPutBounded(e.ops[0], out);
    } else {
      BoundedDirect(e.ops, out);
    }
  }

  /** The kernel's counter is the number of SDMA puts since its last SDMA quiet, and stays under the limit. */
  lemma {:induction false} SegBounded(j: Job, r: nat, a: nat, kind: Kind, le: nat, m: nat, out: nat)
    requires ValidJob(j) && r < j.rt.n && a < j.rt.n && le < j.rt.experts && m <= Size(j.rt, r, le * j.rt.n + a)
    requires out < SDMA_ISSUE_LIMIT
    ensures var e := SegEmit(j, r, a, kind, le, m, out);
            e.out < SDMA_ISSUE_LIMIT && Bounded(e.ops, out) && OutAfter(e.ops, out) == e.out
    decreases m
  {
    hide EntryEmit, Size;
    if m > 0 {
      SegBounded(j, r, a, kind, le, m - 1, out);
      var e := SegEmit(j, r, a, kind, le, m - 1, out);
      EntryBounded(j, r, a, kind, le, m - 1, e.out);
      BoundedConcat(e.ops, EntryEmit(j, r, a, kind, le, m - 1, e.out).ops, out);
    }
  }

  lemma {:induction false} PassBounded(j: Job, r: nat, a: nat, kind: Kind, planes: Planes, le: nat)
    requires ValidJob(j) && r < j.rt.n && a < j.rt.n && le <= |planes| == j.rt.experts
    ensures var e := PassEmit(j, r, a, kind, planes, le);
            e.out < SDMA_ISSUE_LIMIT && Bounded(e.ops, 0) && OutAfter(e.ops, 0) == e.out
    decreases le
  {
    hide SegEmit, Size;
    if le > 0 {
      PassBounded(j, r, a, kind, planes, le - 1);
      if Takes(kind, planes, le - 1) {
        var e := PassEmit(j, r, a, kind, planes, le - 1);
        var size := Size(j.rt, r, (le - 1) * j.rt.n + a);
        var s := SegEmit(j, r, a, kind, le - 1, size, e.out);
        SegBounded(j, r, a, kind, le - 1, size, e.out);
        BoundedDirect(Fence(kind, s.ops), s.out);
        BoundedConcat(s.ops, Fence(kind, s.ops), e.out);
        BoundedConcat(e.ops, s.ops + Fence(kind, s.ops), 0);
      }
    }
  }

  lemma {:induction false} DirectChannel(j: Job, r: nat, a: nat, planes: Planes, le: nat)
    requires ValidJob(j) && r < j.rt.n && a < j.rt.n && le <= |planes| == j.rt.experts
    ensures forall i :: 0 <= i < |PassEmit(j, r, a, DirectBoth, planes, le).ops| ==>
            PassEmit(j, r, a, DirectBoth, planes, le).ops[i].ch == Direct
    decreases le
  {
    if le > 0 {
      DirectChannel(j, r, a, planes, le - 1);
      if Takes(DirectBoth, planes, le - 1) {
        SegChannel(j, r, a, le - 1, Size(j.rt, r, (le - 1) * j.rt.n + a),
                   PassEmit(j, r, a, DirectBoth, planes, le - 1).out);
      }
    }
  }

  lemma {:induction false} SegChannel(j: Job, r: nat, a: nat, le: nat, m: nat, out: nat)
    requires ValidJob(j) && r < j.rt.n && a < j.rt.n && le < j.rt.experts && m <= Size(j.rt, r, le * j.rt.n + a)
    ensures forall i :: 0 <= i < |SegEmit(j, r, a, DirectBoth, le, m, out).ops| ==>
            SegEmit(j, r, a, DirectBoth, le, m, out).ops[i].ch == Direct
    decreases m
  {
    if m > 0 { SegChannel(j, r, a, le, m - 1, out); }
  }

  /** The fence before the status pass leaves nothing outstanding. */
  lemma FenceBounded(out: nat)
    requires out <= SDMA_ISSUE_LIMIT
    ensures Bounded(SdmaFence(out), out) && OutAfter(SdmaFence(out), out) == 0
  {
    if out > 0 { assert SdmaFence(out)[1..] == []; }
  }

  lemma ScriptBounded(j: Job, r: nat, a: nat, planes: Planes)
    requires ValidJob(j) && r < j.rt.n && a < j.rt.n && |planes| == j.rt.experts
    ensures Bounded(Script(j, r, a, planes), 0)
  {
    hide PassEmit;
    var experts := j.rt.experts;
    var sdma, direct := PassEmit(j, r, a, SdmaData, planes, experts), PassEmit(j, r, a, DirectBoth, planes, experts);
    var status := PassEmit(j, r, a, SdmaStatus, planes, experts);
    PassBounded(j, r, a, SdmaData, planes, experts);
    DirectChannel(j, r, a, planes, experts);
    BoundedDirect(direct.ops, sdma.out);
    BoundedConcat(sdma.ops, direct.ops, 0);
    var fence := SdmaFence(sdma.out);
    FenceBounded(sdma.out);
    BoundedConcat(sdma.ops + direct.ops, fence, 0);
    PassBounded(j, r, a, SdmaStatus, planes, experts);
    BoundedDirect([Quiet(Direct)], status.out);
    BoundedConcat(status.ops, [Quiet(Direct)], 0);
    BoundedConcat(DataScript(j, r, a, planes), status.ops + [Quiet(Direct)], 0);
  }
}
