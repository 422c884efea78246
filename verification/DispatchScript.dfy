/**
 What each core of the dispatch kernel sends in stage 1, and the plan it follows: payload
 before assist words, both before the ready slot, all ready slots before the count slot.
 */
module DispatchScript {
  import opened Arith
  import opened Routing
  import opened Shmem

  /** One dispatch launch: the routing and every rank's token rows. */
  datatype Job = Job(rt: Routing, x: seq<seq<Val>>)

  ghost predicate ValidJob(j: Job)
  {
    && Valid(j.rt)
    && |j.x| == j.rt.n
    && forall r :: 0 <= r < j.rt.n ==> |j.x[r]| == j.rt.bs
  }

  const COUNT_INIT: Val := Filled(-1)

  function CountSlot(count: int): Val
  {
    [1, count, 0, 0, 0, 0, 0, 0]
  }

  // ---- the plan ----

  predicate HoldsRow(j: Job, pe: int, slot: int)
    requires ValidJob(j)
  {
    && 0 <= pe < j.rt.n && 0 <= slot && Flats(j.rt) > 0
    && SlotSource(j.rt, slot) < j.rt.n
    && SlotPlace(j.rt, slot) < |Select(j.rt.ids[SlotSource(j.rt, slot)], pe * j.rt.experts + SlotExpert(j.rt, slot),
                                       Flats(j.rt))|
  }

  /** The flat index whose row belongs into a payload slot. */
  function FlatAt(j: Job, pe: int, slot: int): nat
    requires ValidJob(j) && HoldsRow(j, pe, slot)
  {
    Select(j.rt.ids[SlotSource(j.rt, slot)], pe * j.rt.experts + SlotExpert(j.rt, slot),
           Flats(j.rt))[SlotPlace(j.rt, slot)]
  }

  lemma FlatAtFacts(j: Job, pe: int, slot: int)
    requires ValidJob(j) && HoldsRow(j, pe, slot)
    ensures FlatAt(j, pe, slot) < Flats(j.rt) && j.rt.k > 0 && 0 <= FlatAt(j, pe, slot) / j.rt.k < j.rt.bs
  {
    SelectFacts(j.rt.ids[SlotSource(j.rt, slot)], pe * j.rt.experts + SlotExpert(j.rt, slot), Flats(j.rt));
    UnpackBound(FlatAt(j, pe, slot), j.rt.k, j.rt.bs);
  }

  function PairContent(j: Job, region: Region, src: nat, f: nat): Val
    requires ValidJob(j) && src < j.rt.n && j.rt.k > 0 && f / j.rt.k < j.rt.bs
  {
    match region
    case Payload => j.x[src][f / j.rt.k]
    case AssistRank => [src]
    case AssistToken => [f / j.rt.k]
    case AssistTopk => [f % j.rt.k]
    case _ => []
  }

  ghost function RowContent(j: Job, l: Loc): Val
    requires ValidJob(j) && HoldsRow(j, l.pe, l.slot)
  {
    FlatAtFacts(j, l.pe, l.slot);
    PairContent(j, l.region, SlotSource(j.rt, l.slot), FlatAt(j, l.pe, l.slot))
  }

  ghost function Content(j: Job, l: Loc): Val
    requires ValidJob(j)
  {
    if l.region == Ready then READY
    else if l.region == Count then
      if l.pe >= 0 && l.slot >= 0 then CountSlot(Size(j.rt, l.pe, l.slot)) else []
    else if HoldsRow(j, l.pe, l.slot) then RowContent(j, l)
    else []
  }

  ghost function Needs(j: Job, l: Loc): set<Loc>
    requires ValidJob(j)
  {
    if l.region == Ready then
      {Loc(l.pe, Payload, l.slot), Loc(l.pe, AssistRank, l.slot),
       Loc(l.pe, AssistToken, l.slot), Loc(l.pe, AssistTopk, l.slot)}
    else if l.region == Count && l.pe >= 0 && l.slot >= 0 then
      set i | 0 <= i < Size(j.rt, l.pe, l.slot) :: Loc(l.pe, Ready, Slot(j.rt, l.slot % j.rt.n, l.slot / j.rt.n, i))
    else {}
  }

  ghost function Owner(j: Job, l: Loc): Id
    requires ValidJob(j)
  {
    if l.region == Count then Id(l.slot % j.rt.n, l.pe)
    else if Flats(j.rt) > 0 then Id(SlotSource(j.rt, l.slot), l.pe)
    else Id(-1, -1)
  }

  ghost function PlanOf(j: Job): Plan
    requires ValidJob(j)
  {
    Plan(l => Needs(j, l), l => Content(j, l), l => Owner(j, l))
  }

  // ---- the script of core `d` on rank `r`, which serves destination rank `d` ----

  datatype Pass = PayloadPass | AssistPass | ReadyPass

  function Regions(p: Pass): set<Region>
  {
    match p
    case PayloadPass => {Payload}
    case AssistPass => {AssistRank, AssistToken, AssistTopk}
    case ReadyPass => {Ready}
  }

  /** The regions that hold what belongs to one routed row. */
  predicate IsRow(region: Region)
  {
    region.Payload? || region.AssistRank? || region.AssistToken? || region.AssistTopk? || region.Ready?
  }

  function FlatOps(j: Job, r: nat, d: nat, p: Pass, f: nat): seq<Op>
    requires ValidJob(j) && r < j.rt.n && f < Flats(j.rt)
  {
    if Dest(j.rt, r, f) != d then []
    else
      UnpackBound(f, j.rt.k, j.rt.bs);
      var slot := SlotOf(j.rt, r, f);
      match p
      case PayloadPass => [Put(Direct, Loc(d, Payload, slot), j.x[r][f / j.rt.k]), Quiet(Direct)]
      case AssistPass => [Put(Direct, Loc(d, AssistRank, slot), [r]),
                          Put(Direct, Loc(d, AssistToken, slot), [f / j.rt.k]),
                          Put(Direct, Loc(d, AssistTopk, slot), [f % j.rt.k])]
      case ReadyPass => [Put(Direct, Loc(d, Ready, slot), READY)]
  }

  function PassOps(j: Job, r: nat, d: nat, p: Pass, f: nat): seq<Op>
    requires ValidJob(j) && r < j.rt.n && f <= Flats(j.rt)
  {
    if f == 0 then [] else PassOps(j, r, d, p, f - 1) + FlatOps(j, r, d, p, f - 1)
  }

  /** A quiet, but only after a pass that wrote something. */
  function Fence(ops: seq<Op>): seq<Op>
  {
    if ops == [] then [] else [Quiet(Direct)]
  }

  function CountPut(j: Job, r: nat, d: nat, le: nat): Op
    requires ValidJob(j) && r < j.rt.n
  {
    Put(Direct, Loc(d, Count, le * j.rt.n + r), CountSlot(Size(j.rt, d, le * j.rt.n + r)))
  }

  function CountOps(j: Job, r: nat, d: nat, le: nat): seq<Op>
    requires ValidJob(j) && r < j.rt.n
  {
    if le == 0 then []
    else CountOps(j, r, d, le - 1)
         + [CountPut(j, r, d, le - 1), Quiet(Direct)]
  }

  function RowScript(j: Job, r: nat, d: nat): seq<Op>
    requires ValidJob(j) && r < j.rt.n
  {
    var b := Flats(j.rt);
    var assist, ready := PassOps(j, r, d, AssistPass, b), PassOps(j, r, d, ReadyPass, b);
    PassOps(j, r, d, PayloadPass, b) + (assist + Fence(assist)) + (ready + Fence(ready))
  }

  function Script(j: Job, r: nat, d: nat): seq<Op>
    requires ValidJob(j) && r < j.rt.n
  {
    RowScript(j, r, d) + (CountOps(j, r, d, j.rt.experts) + [Quiet(Direct)])
  }

  function ScriptsOf(j: Job): Scripts
    requires ValidJob(j)
  {
    seq(j.rt.n, r requires 0 <= r < j.rt.n => seq(j.rt.n, d requires 0 <= d < j.rt.n => Script(j, r, d)))
  }

  // ---- which locations a pass covers ----

  /** The slots that the pairs below `f` of source `r` take in the window of rank `d`. */
  ghost predicate Covered(j: Job, r: nat, d: nat, f: nat, slot: int)
    requires ValidJob(j) && r < j.rt.n && f <= Flats(j.rt)
  {
    && slot >= 0 && Flats(j.rt) > 0 && SlotSource(j.rt, slot) == r
    && SlotPlace(j.rt, slot) < CountTo(j.rt.ids[r], d * j.rt.experts + SlotExpert(j.rt, slot), f)
  }

  /** One more pair covers exactly its own slot more, and nothing if it goes elsewhere. */
  lemma CoveredStep(j: Job, r: nat, d: nat, f: nat, slot: int)
    requires ValidJob(j) && r < j.rt.n && f < Flats(j.rt)
    ensures Covered(j, r, d, f + 1, slot)
            <==> (Covered(j, r, d, f, slot) || (Dest(j.rt, r, f) == d && slot == SlotOf(j.rt, r, f)))
    ensures !Covered(j, r, Dest(j.rt, r, f), f, SlotOf(j.rt, r, f))
  {
    var rt := j.rt;
    var e := rt.ids[r][f];
    HomeOf(rt, r, f);
    SelectFacts(rt.ids[r], e, f);
    SlotCodec(rt, r, e % rt.experts, PlaceOf(rt, r, f));
    Recompose(e, rt.experts);
    if slot >= 0 && SlotSource(rt, slot) == r {
      Recompose(slot, Flats(rt));
      Recompose(slot / Flats(rt), rt.experts);
      if d * rt.experts + SlotExpert(rt, slot) == e {
        DivMod(d, rt.experts, SlotExpert(rt, slot));
      }
    }
  }

  lemma {:induction false} PassCovers(j: Job, r: nat, d: nat, p: Pass, f: nat, l: Loc)
    requires ValidJob(j) && r < j.rt.n && f <= Flats(j.rt)
    ensures l in PutLocs(PassOps(j, r, d, p, f))
            <==> (l.pe == d && l.region in Regions(p) && Covered(j, r, d, f, l.slot))
  {
    if f > 0 {
      PassCovers(j, r, d, p, f - 1, l);
      PutLocsConcat(PassOps(j, r, d, p, f - 1), FlatOps(j, r, d, p, f - 1));
      CoveredStep(j, r, d, f - 1, l.slot);
      FlatLocs(j, r, d, p, f - 1, l);
    }
  }

  lemma FlatLocs(j: Job, r: nat, d: nat, p: Pass, f: nat, l: Loc)
    requires ValidJob(j) && r < j.rt.n && f < Flats(j.rt)
    ensures l in PutLocs(FlatOps(j, r, d, p, f))
            <==> (Dest(j.rt, r, f) == d && l.pe == d && l.region in Regions(p) && l.slot == SlotOf(j.rt, r, f))
  {
    var ops := FlatOps(j, r, d, p, f);
    if Dest(j.rt, r, f) == d {
      var slot := SlotOf(j.rt, r, f);
      if p == AssistPass {
        assert ops[0].loc == Loc(d, AssistRank, slot);
        assert ops[1].loc == Loc(d, AssistToken, slot);
        assert ops[2].loc == Loc(d, AssistTopk, slot);
      } else {
        assert ops[0].loc == Loc(d, if p == PayloadPass then Payload else Ready, slot);
      }
    }
  }

  lemma {:induction false} CountCovers(j: Job, r: nat, d: nat, le: nat, l: Loc)
    requires ValidJob(j) && r < j.rt.n
    ensures l in PutLocs(CountOps(j, r, d, le))
            <==> (l.pe == d && l.region == Count && l.slot >= 0 && l.slot % j.rt.n == r && l.slot / j.rt.n < le)
  {
    if l.slot >= 0 { PackIff(l.slot, j.rt.n, le - 1, r); }
    if le > 0 {
      CountCovers(j, r, d, le - 1, l);
      var put := CountPut(j, r, d, le - 1);
      PutLocsConcat(CountOps(j, r, d, le - 1), [put, Quiet(Direct)]);
      assert PutLocs([put, Quiet(Direct)]) == {put.loc} by { assert [put, Quiet(Direct)][0].loc == put.loc; }
      assert put.loc.slot >= 0 by { MulLe(0, le - 1, j.rt.n); }
    }
  }

  // ---- every script follows the plan ----

  lemma FlatContent(j: Job, r: nat, f: nat)
    requires ValidJob(j) && r < j.rt.n && f < Flats(j.rt)
    ensures var d, slot := Dest(j.rt, r, f), SlotOf(j.rt, r, f);
            && 0 <= f / j.rt.k < j.rt.bs
            && Content(j, Loc(d, Payload, slot)) == j.x[r][f / j.rt.k]
            && Content(j, Loc(d, AssistRank, slot)) == [r]
            && Content(j, Loc(d, AssistToken, slot)) == [f / j.rt.k]
            && Content(j, Loc(d, AssistTopk, slot)) == [f % j.rt.k]
            && forall region :: region != Count ==> Owner(j, Loc(d, region, slot)) == Id(r, d)
  {
    var rt := j.rt;
    UnpackBound(f, rt.k, rt.bs);
    HomeOf(rt, r, f);
    SelectFacts(rt.ids[r], rt.ids[r][f], f);
    SlotCodec(rt, r, rt.ids[r][f] % rt.experts, PlaceOf(rt, r, f));
    var d, slot := Dest(rt, r, f), SlotOf(rt, r, f);
    assert HoldsRow(j, d, slot) && FlatAt(j, d, slot) == f;
  }

  ghost predicate AllDirect(pend: set<Op>)
  {
    forall o :: o in pend ==> o.Put? && o.ch == Direct
  }

  lemma FlatSafe(j: Job, r: nat, p: Pass, f: nat, pend: set<Op>, done: set<Loc>)
    requires ValidJob(j) && r < j.rt.n && f < Flats(j.rt) && AllDirect(pend)
    requires var d, slot := Dest(j.rt, r, f), SlotOf(j.rt, r, f);
             && (forall region :: region in Regions(p) ==> Loc(d, region, slot) !in done + Locs(pend))
             && (p == ReadyPass ==> Needs(j, Loc(d, Ready, slot)) <= done)
    requires p == PayloadPass ==> pend == {}
    ensures var d := Dest(j.rt, r, f);
            var ops := FlatOps(j, r, d, p, f);
            && Safe(PlanOf(j), Id(r, d), ops, pend, done)
            && AllDirect(PendAfter(ops, pend)) && (p == PayloadPass ==> PendAfter(ops, pend) == {})
  {
    FlatContent(j, r, f);
    var d := Dest(j.rt, r, f);
    var ops := FlatOps(j, r, d, p, f);
    var pl, c := PlanOf(j), Id(r, d);
    if p == PayloadPass {
      assert MayPut(pl, c, ops[0], pend, done);
      SafePutQuiet(pl, c, ops[0], pend, done);
    } else {
      forall i | 0 <= i < |ops| ensures MayPut(pl, c, ops[i], pend, done) {
        assert ops[i].loc.region in Regions(p);
      }
      SafePuts(pl, c, ops, pend, done);
    }
  }

  lemma FlatOther(j: Job, r: nat, d: nat, p: Pass, f: nat)
    requires ValidJob(j) && r < j.rt.n && f < Flats(j.rt) && Dest(j.rt, r, f) != d
    ensures FlatOps(j, r, d, p, f) == []
  {
  }

  lemma {:induction false} PassSafe(j: Job, r: nat, d: nat, p: Pass, f: nat, done: set<Loc>)
    requires ValidJob(j) && r < j.rt.n && f <= Flats(j.rt)
    requires forall l :: l in done ==> l.region !in Regions(p)
    requires p == ReadyPass ==>
               forall slot :: Covered(j, r, d, Flats(j.rt), slot) ==> Needs(j, Loc(d, Ready, slot)) <= done
    ensures var ops := PassOps(j, r, d, p, f);
            && Safe(PlanOf(j), Id(r, d), ops, {}, done)
            && AllDirect(PendAfter(ops, {})) && (p == PayloadPass ==> PendAfter(ops, {}) == {})
  {
    hide Safe, PendAfter, DoneAfter, Needs, FlatOps, Covered, Dest, SlotOf;
    if f == 0 {
      SafeNone(PlanOf(j), Id(r, d), {}, done);
    } else {
      PassSafe(j, r, d, p, f - 1, done);
      var before := PassOps(j, r, d, p, f - 1);
      if Dest(j.rt, r, f - 1) != d {
        assert FlatOps(j, r, d, p, f - 1) == [] by { FlatOther(j, r, d, p, f - 1); }
        assert PassOps(j, r, d, p, f) == before;
      } else {
        PassFresh(j, r, p, f - 1, done);
        if p == ReadyPass { CoveredToEnd(j, r, f - 1); }
        DoneGrows(before, {}, done);
        FlatSafe(j, r, p, f - 1, PendAfter(before, {}), DoneAfter(before, {}, done));
        SafeConcat(PlanOf(j), Id(r, d), before, FlatOps(j, r, d, p, f - 1), {}, done);
      }
    }
  }

  /** The locations of the next pair are not used by the pairs before it. */
  lemma PassFresh(j: Job, r: nat, p: Pass, f: nat, done: set<Loc>)
    requires ValidJob(j) && r < j.rt.n && f < Flats(j.rt)
    requires forall l :: l in done ==> l.region !in Regions(p)
    ensures var d, slot := Dest(j.rt, r, f), SlotOf(j.rt, r, f);
            var before := PassOps(j, r, d, p, f);
            forall region :: region in Regions(p) ==>
              Loc(d, region, slot) !in DoneAfter(before, {}, done) + Locs(PendAfter(before, {}))
  {
    var d, slot := Dest(j.rt, r, f), SlotOf(j.rt, r, f);
    UsedAfter(PassOps(j, r, d, p, f), {}, done);
    assert Locs({}) == {};
    forall region | region in Regions(p) ensures Loc(d, region, slot) !in done + PutLocs(PassOps(j, r, d, p, f)) {
      PassCovers(j, r, d, p, f, Loc(d, region, slot));
      CoveredStep(j, r, d, f, slot);
    }
  }

  lemma CoveredToEnd(j: Job, r: nat, f: nat)
    requires ValidJob(j) && r < j.rt.n && f < Flats(j.rt)
    ensures Covered(j, r, Dest(j.rt, r, f), Flats(j.rt), SlotOf(j.rt, r, f))
  {
    HomeOf(j.rt, r, f);
    SelectAt(j.rt.ids[r], f, Flats(j.rt));
    SelectFacts(j.rt.ids[r], j.rt.ids[r][f], f);
    SlotCodec(j.rt, r, j.rt.ids[r][f] % j.rt.experts, PlaceOf(j.rt, r, f));
  }

  /** A whole pass with its fence leaves nothing in flight. */
  lemma FencedPass(j: Job, r: nat, d: nat, p: Pass, done: set<Loc>)
    requires ValidJob(j) && r < j.rt.n
    requires forall l :: l in done ==> l.region !in Regions(p)
    requires p == ReadyPass ==>
               forall slot :: Covered(j, r, d, Flats(j.rt), slot) ==> Needs(j, Loc(d, Ready, slot)) <= done
    ensures var ops := PassOps(j, r, d, p, Flats(j.rt));
            var fenced := if p == PayloadPass then ops else ops + Fence(ops);
            && Safe(PlanOf(j), Id(r, d), fenced, {}, done)
            && PendAfter(fenced, {}) == {} && DoneAfter(fenced, {}, done) == done + PutLocs(ops)
            && PutLocs(fenced) == PutLocs(ops)
  {
    var ops := PassOps(j, r, d, p, Flats(j.rt));
    PassSafe(j, r, d, p, Flats(j.rt), done);
    UsedAfter(ops, {}, done);
    assert Locs({}) == {};
    if p != PayloadPass && ops != [] {
      QuietAll(PlanOf(j), Id(r, d), Direct, PendAfter(ops, {}), DoneAfter(ops, {}, done));
      SafeConcat(PlanOf(j), Id(r, d), ops, [Quiet(Direct)], {}, done);
      PutLocsConcat(ops, [Quiet(Direct)]);
    } else {
      assert ops + [] == ops;
    }
  }

  ghost predicate RowsPublished(j: Job, r: nat, d: nat, done: set<Loc>)
    requires ValidJob(j) && r < j.rt.n
  {
    && (forall l :: l in done ==> IsRow(l.region))
    && forall l: Loc | l.pe == d && IsRow(l.region) && Covered(j, r, d, Flats(j.rt), l.slot) :: l in done
  }

  lemma FenceLocs(ops: seq<Op>)
    ensures PutLocs(ops + Fence(ops)) == PutLocs(ops)
  {
    PutLocsConcat(ops, Fence(ops));
  }

  lemma RowScriptLocs(j: Job, r: nat, d: nat, l: Loc)
    requires ValidJob(j) && r < j.rt.n
    ensures l in PutLocs(RowScript(j, r, d))
            <==> (l.pe == d && IsRow(l.region) && Covered(j, r, d, Flats(j.rt), l.slot))
  {
    hide Covered;
    var b := Flats(j.rt);
    var payload := PassOps(j, r, d, PayloadPass, b);
    var assist := PassOps(j, r, d, AssistPass, b);
    var ready := PassOps(j, r, d, ReadyPass, b);
    FenceLocs(assist);
    FenceLocs(ready);
    PutLocsConcat(payload, assist + Fence(assist));
    PutLocsConcat(payload + (assist + Fence(assist)), ready + Fence(ready));
    PassCovers(j, r, d, PayloadPass, b, l);
    PassCovers(j, r, d, AssistPass, b, l);
    PassCovers(j, r, d, ReadyPass, b, l);
    assert RowScript(j, r, d) == payload + (assist + Fence(assist)) + (ready + Fence(ready));
    assert l in PutLocs(RowScript(j, r, d)) <==> l in PutLocs(payload) || l in PutLocs(assist) || l in PutLocs(ready);
  }

  /** Once payload and assist words are done, a ready slot may be published. */
  lemma ReadyNeeds(j: Job, r: nat, d: nat)
    requires ValidJob(j) && r < j.rt.n
    ensures var b := Flats(j.rt);
            var done := PutLocs(PassOps(j, r, d, PayloadPass, b)) + PutLocs(PassOps(j, r, d, AssistPass, b));
            && (forall slot :: Covered(j, r, d, b, slot) ==> Needs(j, Loc(d, Ready, slot)) <= done)
            && (forall l :: l in done ==> l.region != Ready)
            && (forall l :: l in PutLocs(PassOps(j, r, d, PayloadPass, b)) ==> l.region == Payload)
  {
    var b := Flats(j.rt);
    var payload, assist := PassOps(j, r, d, PayloadPass, b), PassOps(j, r, d, AssistPass, b);
    forall slot | Covered(j, r, d, b, slot)
      ensures Needs(j, Loc(d, Ready, slot)) <= PutLocs(payload) + PutLocs(assist)
    {
      PassCovers(j, r, d, PayloadPass, b, Loc(d, Payload, slot));
      PassCovers(j, r, d, AssistPass, b, Loc(d, AssistRank, slot));
      PassCovers(j, r, d, AssistPass, b, Loc(d, AssistToken, slot));
      PassCovers(j, r, d, AssistPass, b, Loc(d, AssistTopk, slot));
    }
    forall l | l in PutLocs(payload) ensures l.region == Payload {
      PassCovers(j, r, d, PayloadPass, b, l);
    }
    forall l | l in PutLocs(assist) ensures l.region in Regions(AssistPass) {
      PassCovers(j, r, d, AssistPass, b, l);
    }
  }

  lemma RowScriptSafe(j: Job, r: nat, d: nat)
    requires ValidJob(j) && r < j.rt.n
    ensures var ops := RowScript(j, r, d);
            && Safe(PlanOf(j), Id(r, d), ops, {}, {}) && PendAfter(ops, {}) == {}
            && DoneAfter(ops, {}, {}) == PutLocs(ops)
            && RowsPublished(j, r, d, PutLocs(ops))
  {
    var pl, c, b := PlanOf(j), Id(r, d), Flats(j.rt);
    var payload := PassOps(j, r, d, PayloadPass, b);
    var assist := PassOps(j, r, d, AssistPass, b);
    var ready := PassOps(j, r, d, ReadyPass, b);
    ReadyNeeds(j, r, d);
    FencedPass(j, r, d, PayloadPass, {});
    assert {} + PutLocs(payload) == PutLocs(payload);
    FencedPass(j, r, d, AssistPass, PutLocs(payload));
    FencedPass(j, r, d, ReadyPass, PutLocs(payload) + PutLocs(assist));
    var assist', ready' := assist + Fence(assist), ready + Fence(ready);
    SafeConcat(pl, c, payload, assist', {}, {});
    SafeConcat(pl, c, payload + assist', ready', {}, {});
    PutLocsConcat(payload, assist');
    PutLocsConcat(payload + assist', ready');
    forall l ensures l in PutLocs(RowScript(j, r, d))
      <==> (l.pe == d && IsRow(l.region) && Covered(j, r, d, b, l.slot))
    {
      RowScriptLocs(j, r, d, l);
    }
  }

  /** The ready slots behind a count slot are exactly covered ones. */
  lemma CountNeeds(j: Job, r: nat, d: nat, le: nat, done: set<Loc>)
    requires ValidJob(j) && r < j.rt.n && le < j.rt.experts && RowsPublished(j, r, d, done)
    ensures var slot := le * j.rt.n + r;
            slot % j.rt.n == r && slot / j.rt.n == le && Needs(j, Loc(d, Count, slot)) <= done
  {
    var slot := le * j.rt.n + r;
    DivMod(le, j.rt.n, r);
    MulLe(0, le, j.rt.n);
    SelectFacts(j.rt.ids[r], d * j.rt.experts + le, Flats(j.rt));
    forall i | 0 <= i < Size(j.rt, d, slot) ensures Loc(d, Ready, Slot(j.rt, r, le, i)) in done {
      SlotCodec(j.rt, r, le, i);
    }
  }

  lemma {:induction false} CountSafe(j: Job, r: nat, d: nat, le: nat, done: set<Loc>)
    requires ValidJob(j) && r < j.rt.n && le <= j.rt.experts && RowsPublished(j, r, d, done)
    ensures var ops := CountOps(j, r, d, le);
            && Safe(PlanOf(j), Id(r, d), ops, {}, done) && PendAfter(ops, {}) == {}
            && DoneAfter(ops, {}, done) == done + PutLocs(ops)
  {
    hide RowsPublished, Size, Safe, PendAfter, DoneAfter, MayPut, CountPut;
    if le == 0 {
      SafeNone(PlanOf(j), Id(r, d), {}, done);
    } else {
      CountSafe(j, r, d, le - 1, done);
      var before := CountOps(j, r, d, le - 1);
      var put := CountPut(j, r, d, le - 1);
      CountMayPut(j, r, d, le - 1, done);
      CountPutFacts(j, r, d, le - 1, done);
      SafePutQuiet(PlanOf(j), Id(r, d), put, {}, done + PutLocs(before));
      SafeConcat(PlanOf(j), Id(r, d), before, [put, Quiet(Direct)], {}, done);
      PutLocsConcat(before, [put, Quiet(Direct)]);
    }
  }

  /** A count location is no row, and its put carries the planned content. */
  lemma CountPutFacts(j: Job, r: nat, d: nat, le: nat, done: set<Loc>)
    requires ValidJob(j) && r < j.rt.n && le < j.rt.experts && RowsPublished(j, r, d, done)
    ensures var slot := le * j.rt.n + r;
            var o, l := CountPut(j, r, d, le), Loc(d, Count, slot);
            && o.Put? && o.ch == Direct && o.loc == l && l !in done && Content(j, l) == o.val && Owner(j, l) == Id(r, d)
  {
    CountNeeds(j, r, d, le, done);
    hide Needs, Size;
    MulLe(0, le, j.rt.n);
  }

  lemma CountMayPut(j: Job, r: nat, d: nat, le: nat, done: set<Loc>)
    requires ValidJob(j) && r < j.rt.n && le < j.rt.experts && RowsPublished(j, r, d, done)
    ensures MayPut(PlanOf(j), Id(r, d), CountPut(j, r, d, le), {}, done + PutLocs(CountOps(j, r, d, le)))
  {
    hide Needs, Size, RowsPublished, CountOps, CountPut, Content, Owner;
    var l := Loc(d, Count, le * j.rt.n + r);
    CountNeeds(j, r, d, le, done);
    CountCovers(j, r, d, le, l);
    CountPutFacts(j, r, d, le, done);
    assert Locs({}) == {};
  }

  /** Stage 1 follows the publication plan on every core, for every routing. */
  lemma ScriptSafe(j: Job, r: nat, d: nat)
    requires ValidJob(j) && r < j.rt.n
    ensures Safe(PlanOf(j), Id(r, d), Script(j, r, d), {}, {})
    ensures PutLocs(Script(j, r, d)) == PutLocs(RowScript(j, r, d)) + PutLocs(CountOps(j, r, d, j.rt.experts))
  {
    var pl, c := PlanOf(j), Id(r, d);
    var rows, counts := RowScript(j, r, d), CountOps(j, r, d, j.rt.experts);
    RowScriptSafe(j, r, d);
    CountSafe(j, r, d, j.rt.experts, PutLocs(rows));
    QuietAll(pl, c, Direct, {}, PutLocs(rows) + PutLocs(counts));
    SafeConcat(pl, c, counts, [Quiet(Direct)], {}, PutLocs(rows));
    SafeConcat(pl, c, rows, counts + [Quiet(Direct)], {}, {});
    PutLocsConcat(counts, [Quiet(Direct)]);
    PutLocsConcat(rows, counts + [Quiet(Direct)]);
  }

  lemma ScriptsSafe(j: Job)
    requires ValidJob(j)
    ensures SafeScripts(PlanOf(j), ScriptsOf(j))
  {
    forall r, d | 0 <= r < j.rt.n && 0 <= d < j.rt.n ensures Safe(PlanOf(j), Id(r, d), Script(j, r, d), {}, {}) {
      ScriptSafe(j, r, d);
    }
  }

  /** Every count slot of a destination is put by some core. */
  lemma CountIsPut(j: Job, d: nat, g: nat)
    requires ValidJob(j) && d < j.rt.n && g < Segments(j.rt)
    ensures g % j.rt.n < j.rt.n && Loc(d, Count, g) in PutLocs(Script(j, g % j.rt.n, d))
  {
    UnpackBound(g, j.rt.n, j.rt.experts);
    ScriptSafe(j, g % j.rt.n, d);
    CountCovers(j, g % j.rt.n, d, j.rt.experts, Loc(d, Count, g));
  }
}
