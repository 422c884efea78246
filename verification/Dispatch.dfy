/**
 The dispatch kernel as a state machine: every rank's cores send (stage 1) while every rank's
 core 0 waits for counts (stage 2) and compacts its window (stage 3), in any interleaving.
 */
module Dispatch {
  import opened Arith
  import opened Routing
  import opened Shmem
  import opened DispatchScript

  datatype Sub = AwaitReady | CopyRow | CopyAssist | ResetReady

  datatype Phase = Counting(g: nat) | Compacting(g: nat, i: nat, sub: Sub) | Finished

  /** Core 0 of one rank, with the four output buffers it fills. */
  datatype Recv = Recv(phase: Phase, running: int, expertCount: int,
                       recvCount: seq<int>, tokenNums: seq<int>, expandX: seq<Val>, assist: seq<Val>)

  datatype State = State(net: Net, recv: seq<Recv>)

  datatype Action = Issue(c: Id) | Land(c: Id, o: Op) | Receive(d: nat)

  function Word(v: Val, i: nat): int
  {
    if i < |v| then v[i] else 0
  }

  function Store<T>(s: seq<T>, i: int, v: T): seq<T>
  {
    if 0 <= i < |s| then s[i := v] else s
  }

  /** The window slot the receiver computes for place `i` of segment `g`. */
  function RecvSlot(rt: Routing, g: nat, i: nat): nat
    requires rt.n > 0
  {
    Slot(rt, g % rt.n, g / rt.n, i)
  }

  function CountLoc(d: nat, g: nat): Loc
  {
    Loc(d, Count, g)
  }

  function ReadyLoc(rt: Routing, d: nat, g: nat, i: nat): Loc
    requires rt.n > 0
  {
    Loc(d, Ready, RecvSlot(rt, g, i))
  }

  // ---- steps ----

  /** The core barrier between stages 1 and 2: every core of the rank has run its script. */
  predicate SendersDone(net: Net, d: nat)
    requires d < |net.cores|
  {
    forall a :: 0 <= a < |net.cores[d]| ==> net.cores[d][a].todo == []
  }

  predicate CanReceive(j: Job, s: State, d: nat)
    requires ValidJob(j)
  {
    && d < |s.recv| && d < |s.net.cores|
    && match s.recv[d].phase
       case Counting(g) =>
         && SendersDone(s.net, d)
         && (g < Segments(j.rt) ==> Word(Read(s.net.mem, CountLoc(d, g)), 0) == 1)
       case Compacting(g, i, sub) =>
         g < Segments(j.rt) && sub == AwaitReady && i < Word(Read(s.net.mem, CountLoc(d, g)), 1)
         ==> Read(s.net.mem, ReadyLoc(j.rt, d, g, i)) == READY
       case Finished => false
  }

  /** Stage 2 for one segment: add its count and store the boundary. */
  function AddCount(rt: Routing, rv: Recv, g: nat, count: int): Recv
    requires rt.n > 0
  {
    var running, expertCount := rv.running + count, rv.expertCount + count;
    var rv' := rv.(phase := Counting(g + 1), running := running, expertCount := expertCount,
                   recvCount := Store(rv.recvCount, g, running));
    if (g + 1) % rt.n == 0
    then rv'.(expertCount := 0, tokenNums := Store(rv.tokenNums, g / rt.n, expertCount))
    else rv'
  }

  function CountStep(j: Job, net: Net, d: nat, rv: Recv): Recv
    requires ValidJob(j) && rv.phase.Counting?
  {
    var g := rv.phase.g;
    if g == Segments(j.rt) then rv.(phase := Compacting(0, 0, AwaitReady))
    else AddCount(j.rt, rv, g, Word(Read(net.mem, CountLoc(d, g)), 1))
  }

  /** Stage 3, one memory action at a time: the rank's new registers and its new network. */
  function CompactStep(j: Job, net: Net, d: nat, rv: Recv): (Recv, Net)
    requires ValidJob(j) && rv.phase.Compacting?
  {
    var Compacting(g, i, sub) := rv.phase;
    if g == Segments(j.rt) then (rv.(phase := Finished), net)
    else
      var begin := if 0 < g <= |rv.recvCount| then rv.recvCount[g - 1] else 0;
      var slot := RecvSlot(j.rt, g, i);
      match sub
      case AwaitReady =>
        if i < Word(Read(net.mem, CountLoc(d, g)), 1) then (rv.(phase := Compacting(g, i, CopyRow)), net)
        else (rv.(phase := Compacting(g + 1, 0, AwaitReady)), Consume(net, CountLoc(d, g), COUNT_INIT))
      case CopyRow =>
        (rv.(phase := Compacting(g, i, CopyAssist),
             expandX := Store(rv.expandX, begin + i, Read(net.mem, Loc(d, Payload, slot)))), net)
      case CopyAssist =>
        var triple := Read(net.mem, Loc(d, AssistRank, slot)) + Read(net.mem, Loc(d, AssistToken, slot))
                      + Read(net.mem, Loc(d, AssistTopk, slot));
        (rv.(phase := Compacting(g, i, ResetReady), assist := Store(rv.assist, begin + i, triple)), net)
      case ResetReady =>
        (rv.(phase := Compacting(g, i + 1, AwaitReady)), Consume(net, ReadyLoc(j.rt, d, g, i), NOT_READY))
  }

  predicate Enabled(j: Job, s: State, a: Action)
    requires ValidJob(j)
  {
    match a
    case Issue(c) => CanIssue(s.net, c)
    case Land(c, o) => CanLand(s.net, c, o)
    case Receive(d) => CanReceive(j, s, d)
  }

  function Next(j: Job, s: State, a: Action): State
    requires ValidJob(j) && Enabled(j, s, a)
  {
    match a
    case Issue(c) => s.(net := Shmem.Issue(s.net, c))
    case Land(c, o) => s.(net := Shmem.Land(s.net, c, o))
    case Receive(d) =>
      if s.recv[d].phase.Counting? then s.(recv := s.recv[d := CountStep(j, s.net, d, s.recv[d])])
      else
        var (rv, net) := CompactStep(j, s.net, d, s.recv[d]);
        State(net, s.recv[d := rv])
  }

  /** `trace` leads from `s` to `t`, every action being enabled when it is taken. */
  predicate Runs(j: Job, s: State, trace: seq<Action>, t: State)
    requires ValidJob(j)
    decreases |trace|
  {
    if trace == [] then s == t
    else Enabled(j, s, trace[0]) && Runs(j, Next(j, s, trace[0]), trace[1..], t)
  }

  /** The window as the host initialises it and as every round must leave it. */
  ghost predicate Clean(j: Job, mem: map<Loc, Val>)
  {
    forall l :: InWindow(j, l) ==>
      && (l.region == Ready ==> Read(mem, l) == NOT_READY)
      && (l.region == Count ==> Read(mem, l) == COUNT_INIT)
  }

  ghost predicate InWindow(j: Job, l: Loc)
  {
    && 0 <= l.pe < j.rt.n
    && if l.region == Count then 0 <= l.slot < Segments(j.rt)
       else 0 <= l.slot < j.rt.n * j.rt.experts * Flats(j.rt)
  }

  /** A launch starts from any buffer contents of the right sizes and a clean window. */
  ghost predicate Init(j: Job, s: State)
    requires ValidJob(j)
  {
    && Clean(j, s.net.mem) && s.net == Launch(s.net.mem, ScriptsOf(j))
    && |s.recv| == j.rt.n
    && forall d :: 0 <= d < j.rt.n ==>
         s.recv[d].phase == Counting(0) && s.recv[d].running == 0 && s.recv[d].expertCount == 0
           && BufferSizes(j, s.recv[d])
  }

  /** The window after the host's two fills: zero, then -1 in the count slots. */
  ghost function HostMemory(j: Job): map<Loc, Val>
  {
    var cells := set d, region, i | 0 <= d < j.rt.n && region in {Ready, Count}
                   && 0 <= i < (if region == Count then Segments(j.rt) else j.rt.n * j.rt.experts * Flats(j.rt))
                      :: Loc(d, region, i);
    map l | l in cells :: if l.region == Count then COUNT_INIT else NOT_READY
  }

  /** The host's fills make a launch possible, with any buffers of the right sizes. */
  lemma HostInit(j: Job, recv: seq<Recv>)
    requires ValidJob(j) && |recv| == j.rt.n && forall d :: 0 <= d < j.rt.n ==> BufferSizes(j, recv[d])
    requires forall d :: 0 <= d < j.rt.n ==>
             recv[d].phase == Counting(0) && recv[d].running == 0 && recv[d].expertCount == 0
    ensures Init(j, State(Launch(HostMemory(j), ScriptsOf(j)), recv))
  {
    hide BufferSizes, ScriptsOf, Flats, Segments;
    var mem := HostMemory(j);
    forall l | InWindow(j, l) && (l.region == Ready || l.region == Count)
      ensures Read(mem, l) == if l.region == Count then COUNT_INIT else NOT_READY
    {
      assert l == Loc(l.pe, l.region, l.slot) && l in mem;
    }
  }

  ghost predicate BufferSizes(j: Job, rv: Recv)
  {
    && |rv.recvCount| == Segments(j.rt) && |rv.tokenNums| == j.rt.experts
    && |rv.expandX| == |rv.assist| == j.rt.n * Flats(j.rt)
  }

  // ---- what the outputs mean ----

  /** The row and the (rank, token, topk) triple that belong at place `i` of segment `g`. */
  function RowAt(j: Job, d: nat, g: nat, i: nat): Val
    requires ValidJob(j) && i < Size(j.rt, d, g)
  {
    SegmentFacts(j.rt, d, g, i);
    UnpackBound(Segment(j.rt, d, g)[i], j.rt.k, j.rt.bs);
    j.x[g % j.rt.n][Segment(j.rt, d, g)[i] / j.rt.k]
  }

  function TripleAt(j: Job, d: nat, g: nat, i: nat): Val
    requires ValidJob(j) && i < Size(j.rt, d, g)
  {
    [g % j.rt.n, Segment(j.rt, d, g)[i] / j.rt.k, Segment(j.rt, d, g)[i] % j.rt.k]
  }

  ghost predicate BoundaryOk(j: Job, d: nat, recvCount: seq<int>, g: nat)
    requires ValidJob(j)
  {
    g < |recvCount| && recvCount[g] == Begin(j.rt, d, g + 1)
  }

  /** At the last source of an expert: the expert's count is the length of its run of segments. */
  ghost predicate ExpertOk(j: Job, d: nat, tokenNums: seq<int>, g: nat)
    requires ValidJob(j)
  {
    (g + 1) % j.rt.n == 0 && g + 1 >= j.rt.n ==>
      0 <= g / j.rt.n < |tokenNums| && tokenNums[g / j.rt.n] == Begin(j.rt, d, g + 1) - Begin(j.rt, d, g + 1 - j.rt.n)
  }

  ghost predicate RowOk(j: Job, d: nat, expandX: seq<Val>, g: nat, i: nat)
    requires ValidJob(j)
  {
    i < Size(j.rt, d, g) ==>
      Begin(j.rt, d, g) + i < |expandX| && expandX[Begin(j.rt, d, g) + i] == RowAt(j, d, g, i)
  }

  ghost predicate TripleOk(j: Job, d: nat, assist: seq<Val>, g: nat, i: nat)
    requires ValidJob(j)
  {
    i < Size(j.rt, d, g) ==>
      Begin(j.rt, d, g) + i < |assist| && assist[Begin(j.rt, d, g) + i] == TripleAt(j, d, g, i)
  }

  /** Place `(q, p)` comes before the cursor `(g, i)` in output order. */
  predicate Before(q: nat, p: nat, g: nat, i: nat)
  {
    q < g || (q == g && p < i)
  }

  ghost predicate Counted(j: Job, d: nat, rv: Recv, g: nat)
    requires ValidJob(j)
  {
    && (forall q: nat :: q < g ==> BoundaryOk(j, d, rv.recvCount, q))
    && (forall q: nat :: q < g ==> ExpertOk(j, d, rv.tokenNums, q))
  }

  ghost predicate RowsBefore(j: Job, d: nat, expandX: seq<Val>, g: nat, i: nat)
    requires ValidJob(j)
  {
    forall q: nat, p: nat :: q < Segments(j.rt) && Before(q, p, g, i) ==> RowOk(j, d, expandX, q, p)
  }

  ghost predicate TriplesBefore(j: Job, d: nat, assist: seq<Val>, g: nat, i: nat)
    requires ValidJob(j)
  {
    forall q: nat, p: nat :: q < Segments(j.rt) && Before(q, p, g, i) ==> TripleOk(j, d, assist, q, p)
  }

  /** The four output buffers of rank `d` hold what the reference computes. */
  ghost predicate IsGolden(j: Job, d: nat, expandX: seq<Val>, assist: seq<Val>, recvCount: seq<int>,
                           tokenNums: seq<int>)
    requires ValidJob(j)
  {
    && |recvCount| == Segments(j.rt) && |tokenNums| == j.rt.experts
    && |expandX| == |assist| == j.rt.n * Flats(j.rt)
    && (forall g: nat :: g < Segments(j.rt) ==> BoundaryOk(j, d, recvCount, g))
    && (forall g: nat :: g < Segments(j.rt) ==> ExpertOk(j, d, tokenNums, g))
    && (forall g: nat, i: nat :: g < Segments(j.rt) ==> RowOk(j, d, expandX, g, i))
    && (forall g: nat, i: nat :: g < Segments(j.rt) ==> TripleOk(j, d, assist, g, i))
  }

  // ---- the invariant ----

  ghost predicate ConsumedTo(j: Job, d: nat, net: Net, g: nat, i: nat)
    requires ValidJob(j)
  {
    && (forall q: nat :: q < Segments(j.rt) ==> (CountLoc(d, q) in net.consumed <==> q < g))
    && (forall q: nat, p: nat :: q < Segments(j.rt) && p < Size(j.rt, d, q) ==>
          (ReadyLoc(j.rt, d, q, p) in net.consumed <==> Before(q, p, g, i)))
  }

  ghost predicate CountsVisible(j: Job, d: nat, net: Net, g: nat)
    requires ValidJob(j)
  {
    forall q: nat :: q < g ==> Visible(PlanOf(j), net, CountLoc(d, q))
  }

  /** The first segment of the expert that segment `g` belongs to. */
  function ExpertStart(rt: Routing, g: nat): nat
    requires rt.n > 0
  {
    Recompose(g, rt.n);
    MulLe(0, g / rt.n, rt.n);
    g - g % rt.n
  }

  ghost predicate Sums(j: Job, d: nat, rv: Recv, g: nat)
    requires ValidJob(j)
  {
    && rv.running == Begin(j.rt, d, g)
    && rv.expertCount == Begin(j.rt, d, g) - Begin(j.rt, d, ExpertStart(j.rt, g))
  }

  ghost predicate RankInv(j: Job, d: nat, net: Net, rv: Recv)
    requires ValidJob(j)
  {
    var all := Segments(j.rt);
    && BufferSizes(j, rv)
    && match rv.phase
       case Counting(g) =>
         && g <= all && Counted(j, d, rv, g) && CountsVisible(j, d, net, g) && ConsumedTo(j, d, net, 0, 0)
         && Sums(j, d, rv, g)
       case Compacting(g, i, sub) =>
         && g <= all && Counted(j, d, rv, all) && CountsVisible(j, d, net, all) && ConsumedTo(j, d, net, g, i)
         && (g < all ==> i <= Size(j.rt, d, g)) && (g == all ==> i == 0 && sub == AwaitReady)
         && (sub != AwaitReady ==> i < Size(j.rt, d, g))
         && RowsBefore(j, d, rv.expandX, g, if sub in {CopyAssist, ResetReady} then i + 1 else i)
         && TriplesBefore(j, d, rv.assist, g, if sub == ResetReady then i + 1 else i)
       case Finished =>
         && Counted(j, d, rv, all) && ConsumedTo(j, d, net, all, 0)
         && RowsBefore(j, d, rv.expandX, all, 0) && TriplesBefore(j, d, rv.assist, all, 0)
  }

  ghost predicate Base(j: Job, init: map<Loc, Val>, net: Net)
    requires ValidJob(j)
  {
    && Clean(j, init)
    && NetInv(PlanOf(j), ScriptsOf(j), init, net)
    && (forall l :: l in net.consumed ==> l.region == Ready || l.region == Count)
  }

  ghost predicate Inv(j: Job, init: map<Loc, Val>, s: State)
    requires ValidJob(j)
  {
    && Base(j, init, s.net)
    && |s.recv| == j.rt.n
    && forall d :: 0 <= d < j.rt.n ==> RankInv(j, d, s.net, s.recv[d])
  }

  lemma InitInv(j: Job, s: State)
    requires ValidJob(j) && Init(j, s)
    ensures Inv(j, s.net.mem, s)
  {
    ScriptsSafe(j);
    LaunchInv(PlanOf(j), ScriptsOf(j), s.net.mem);
    forall d | 0 <= d < j.rt.n ensures RankInv(j, d, s.net, s.recv[d]) {
      assert 0 % j.rt.n == 0;
    }
  }

  // ---- what a receiver may conclude from its window ----

  lemma SegmentBounds(j: Job, g: nat)
    requires ValidJob(j) && g < Segments(j.rt)
    ensures g % j.rt.n < j.rt.n && g / j.rt.n < j.rt.experts
  {
    UnpackBound(g, j.rt.n, j.rt.experts);
  }

  /** The receiver's slot of a place decodes to the place's source and pair. */
  lemma PlaceSlot(j: Job, d: nat, g: nat, i: nat)
    requires ValidJob(j) && d < j.rt.n && g < Segments(j.rt) && i < Size(j.rt, d, g)
    ensures var slot := RecvSlot(j.rt, g, i);
            && 0 <= slot < j.rt.n * j.rt.experts * Flats(j.rt)
            && HoldsRow(j, d, slot) && FlatAt(j, d, slot) == Segment(j.rt, d, g)[i]
               && SlotSource(j.rt, slot) == g % j.rt.n
  {
    hide HoldsRow, FlatAt, Flats, Slot, SlotSource, Select;
    SegmentBounds(j, g);
    PairSlot(j, d, g % j.rt.n, g / j.rt.n, i);
  }

  lemma PairSlot(j: Job, d: nat, src: nat, le: nat, i: nat)
    requires ValidJob(j) && d < j.rt.n && src < j.rt.n && le < j.rt.experts
    requires i < |Select(j.rt.ids[src], d * j.rt.experts + le, Flats(j.rt))|
    ensures var slot := Slot(j.rt, src, le, i);
            && 0 <= slot < j.rt.n * j.rt.experts * Flats(j.rt) && HoldsRow(j, d, slot) && SlotSource(j.rt, slot) == src
            && FlatAt(j, d, slot) == Select(j.rt.ids[src], d * j.rt.experts + le, Flats(j.rt))[i]
  {
    hide Flats, Slot, SlotSource, SlotExpert, SlotPlace, Select;
    SelectFacts(j.rt.ids[src], d * j.rt.experts + le, Flats(j.rt));
    SlotCodec(j.rt, src, le, i);
  }

  /** The receiver's slot of a place lies in the window and holds that place's row. */
  lemma PlaceContent(j: Job, d: nat, g: nat, i: nat)
    requires ValidJob(j) && d < j.rt.n && g < Segments(j.rt) && i < Size(j.rt, d, g)
    ensures var slot := RecvSlot(j.rt, g, i);
            && 0 <= slot < j.rt.n * j.rt.experts * Flats(j.rt)
            && Content(j, Loc(d, Payload, slot)) == RowAt(j, d, g, i)
            && Content(j, Loc(d, AssistRank, slot)) + Content(j, Loc(d, AssistToken, slot))
               + Content(j, Loc(d, AssistTopk, slot)) == TripleAt(j, d, g, i)
  {
    PlaceSlot(j, d, g, i);
    hide HoldsRow, FlatAt, SlotSource, Segment, RecvSlot, Size, Flats, Segments;
  }

  lemma RecvSlotsInjective(rt: Routing, g: nat, i: nat, q: nat, p: nat)
    requires rt.n > 0 && g / rt.n < rt.experts && q / rt.n < rt.experts && i < Flats(rt) && p < Flats(rt)
    requires RecvSlot(rt, g, i) == RecvSlot(rt, q, p)
    ensures g == q && i == p
  {
    hide Slot, Flats;
    SlotsInjective(rt, g % rt.n, g / rt.n, i, q % rt.n, q / rt.n, p);
    SameDivMod(g, q, rt.n);
  }

  /** Distinct places have distinct ready slots. */
  lemma ReadyLocsDistinct(j: Job, d: nat, g: nat, i: nat, q: nat, p: nat)
    requires ValidJob(j) && d < j.rt.n
    requires g < Segments(j.rt) && i < Size(j.rt, d, g) && q < Segments(j.rt) && p < Size(j.rt, d, q)
    requires ReadyLoc(j.rt, d, g, i) == ReadyLoc(j.rt, d, q, p)
    ensures g == q && i == p
  {
    PlaceBound(j, d, g, i);
    PlaceBound(j, d, q, p);
    assert RecvSlot(j.rt, g, i) == RecvSlot(j.rt, q, p);
    RecvSlotsInjective(j.rt, g, i, q, p);
  }

  lemma PlaceBound(j: Job, d: nat, g: nat, i: nat)
    requires ValidJob(j) && g < Segments(j.rt) && i < Size(j.rt, d, g)
    ensures g % j.rt.n < j.rt.n && g / j.rt.n < j.rt.experts && i < Flats(j.rt)
  {
    SegmentBounds(j, g);
    SelectFacts(j.rt.ids[g % j.rt.n], d * j.rt.experts + g / j.rt.n, Flats(j.rt));
  }

  /** A count slot that shows the ready word carries the true count of its segment. */
  lemma CountRead(j: Job, init: map<Loc, Val>, net: Net, d: nat, g: nat)
    requires ValidJob(j) && Base(j, init, net) && d < j.rt.n && g < Segments(j.rt)
    requires CountLoc(d, g) !in net.consumed
    ensures Word(Read(net.mem, CountLoc(d, g)), 0) == 1 <==> Visible(PlanOf(j), net, CountLoc(d, g))
    ensures Visible(PlanOf(j), net, CountLoc(d, g)) ==> Word(Read(net.mem, CountLoc(d, g)), 1) == Size(j.rt, d, g)
  {
    hide Size, CoresInv;
    var l := CountLoc(d, g);
    assert InWindow(j, l);
    assert PlanOf(j).content(l) == CountSlot(Size(j.rt, d, g));
  }

  /** Publication order: behind a visible count, every row of the segment is ready and complete. */
  lemma RowRead(j: Job, init: map<Loc, Val>, net: Net, d: nat, g: nat, i: nat)
    requires ValidJob(j) && Base(j, init, net) && d < j.rt.n && g < Segments(j.rt) && i < Size(j.rt, d, g)
    requires Visible(PlanOf(j), net, CountLoc(d, g))
    ensures var slot := RecvSlot(j.rt, g, i);
            && Visible(PlanOf(j), net, ReadyLoc(j.rt, d, g, i))
            && (ReadyLoc(j.rt, d, g, i) !in net.consumed ==> Read(net.mem, ReadyLoc(j.rt, d, g, i)) == READY)
            && Read(net.mem, Loc(d, Payload, slot)) == RowAt(j, d, g, i)
            && Read(net.mem, Loc(d, AssistRank, slot)) + Read(net.mem, Loc(d, AssistToken, slot))
               + Read(net.mem, Loc(d, AssistTopk, slot)) == TripleAt(j, d, g, i)
  {
    var pl, slot := PlanOf(j), RecvSlot(j.rt, g, i);
    var ready := ReadyLoc(j.rt, d, g, i);
    assert ready in pl.needs(CountLoc(d, g));
    PlaceContent(j, d, g, i);
    hide Size, CoresInv, RecvSlot, RowAt, TripleAt, Content;
    Published(pl, ScriptsOf(j), init, net, CountLoc(d, g), ready);
    Published(pl, ScriptsOf(j), init, net, ready, Loc(d, Payload, slot));
    Published(pl, ScriptsOf(j), init, net, ready, Loc(d, AssistRank, slot));
    Published(pl, ScriptsOf(j), init, net, ready, Loc(d, AssistToken, slot));
    Published(pl, ScriptsOf(j), init, net, ready, Loc(d, AssistTopk, slot));
    assert Content(j, ready) == READY;
  }

  // ---- every step keeps the invariant ----

  /** A step elsewhere cannot take anything away from rank `d`. */
  lemma RankFrame(j: Job, d: nat, net: Net, net': Net, rv: Recv)
    requires ValidJob(j) && RankInv(j, d, net, rv)
    requires forall l :: Visible(PlanOf(j), net, l) ==> Visible(PlanOf(j), net', l)
    requires forall l: Loc :: l.pe == d ==> (l in net.consumed <==> l in net'.consumed)
    ensures RankInv(j, d, net', rv)
  {
    hide Counted, RowsBefore, TriplesBefore, BufferSizes, Size, RecvSlot;
    var all := Segments(j.rt);
    forall g | CountsVisible(j, d, net, g) ensures CountsVisible(j, d, net', g) {
    }
    forall g, i | ConsumedTo(j, d, net, g, i) ensures ConsumedTo(j, d, net', g, i) {
      assert forall q: nat :: CountLoc(d, q).pe == d;
      assert forall q: nat, p: nat :: ReadyLoc(j.rt, d, q, p).pe == d;
    }
  }

  /** Adding the true count of segment `g` extends boundaries, expert counts and running sums. */
  lemma AddCountOk(j: Job, d: nat, rv: Recv, g: nat)
    requires ValidJob(j) && BufferSizes(j, rv) && g < Segments(j.rt)
    requires Counted(j, d, rv, g) && Sums(j, d, rv, g)
    ensures var rv' := AddCount(j.rt, rv, g, Size(j.rt, d, g));
            BufferSizes(j, rv') && Counted(j, d, rv', g + 1) && Sums(j, d, rv', g + 1)
  {
    var rv' := AddCount(j.rt, rv, g, Size(j.rt, d, g));
    assert rv'.running == Begin(j.rt, d, g + 1);
    hide Size, Segments, Flats, Begin;
    forall q: nat | q <= g ensures BoundaryOk(j, d, rv'.recvCount, q) {
      if q < g { assert BoundaryOk(j, d, rv.recvCount, q); }
    }
    AddCountExperts(j, d, rv, g);
    ModStep(g, j.rt.n);
  }

  lemma AddCountExperts(j: Job, d: nat, rv: Recv, g: nat)
    requires ValidJob(j) && BufferSizes(j, rv) && g < Segments(j.rt)
    requires Counted(j, d, rv, g) && Sums(j, d, rv, g)
    ensures var rv' := AddCount(j.rt, rv, g, Size(j.rt, d, g));
            forall q: nat :: q <= g ==> ExpertOk(j, d, rv'.tokenNums, q)
  {
    var rv' := AddCount(j.rt, rv, g, Size(j.rt, d, g));
    assert rv.expertCount + Size(j.rt, d, g) == Begin(j.rt, d, g + 1) - Begin(j.rt, d, ExpertStart(j.rt, g));
    SegmentBounds(j, g);
    hide Size, Segments, Flats, Begin;
    ModStep(g, j.rt.n);
    forall q: nat | q <= g ensures ExpertOk(j, d, rv'.tokenNums, q) {
      if q < g {
        assert ExpertOk(j, d, rv.tokenNums, q);
        ModStep(q, j.rt.n);
        if (q + 1) % j.rt.n == 0 && (g + 1) % j.rt.n == 0 && q / j.rt.n == g / j.rt.n { SameDivMod(q, g, j.rt.n); }
      }
    }
  }

  lemma CountStillThere(j: Job, d: nat, net: Net, g: nat, i: nat, q: nat)
    requires ValidJob(j) && ConsumedTo(j, d, net, g, i) && g <= q < Segments(j.rt)
    ensures CountLoc(d, q) !in net.consumed
  {
  }

  lemma CountStepInv(j: Job, init: map<Loc, Val>, net: Net, d: nat, rv: Recv)
    requires ValidJob(j) && Base(j, init, net) && RankInv(j, d, net, rv) && d < j.rt.n && rv.phase.Counting?
    requires rv.phase.g < Segments(j.rt) ==> Word(Read(net.mem, CountLoc(d, rv.phase.g)), 0) == 1
    ensures RankInv(j, d, net, CountStep(j, net, d, rv))
  {
    hide Base, Slot, Flats, Segments, Size, Begin, RowAt, TripleAt, ConsumedTo, RowsBefore, TriplesBefore, Counted,
         Sums, InWindow;
    var g := rv.phase.g;
    if g < Segments(j.rt) {
      CountStillThere(j, d, net, 0, 0, g);
      CountRead(j, init, net, d, g);
      AddCountOk(j, d, rv, g);
    } else {
      StartCompacting(j, d, net, rv);
    }
  }

  lemma StartCompacting(j: Job, d: nat, net: Net, rv: Recv)
    requires ValidJob(j) && RankInv(j, d, net, rv) && rv.phase == Counting(Segments(j.rt))
    ensures RankInv(j, d, net, rv.(phase := Compacting(0, 0, AwaitReady)))
  {
    hide Counted, ConsumedTo, CountsVisible, Size;
    CountedFrame(j, d, rv, rv.(phase := Compacting(0, 0, AwaitReady)), Segments(j.rt));
  }

  /** A place before the cursor lies strictly before it in the output buffers. */
  lemma PlacesOrdered(j: Job, d: nat, q: nat, p: nat, g: nat, i: nat)
    requires ValidJob(j) && Before(q, p, g, i) && p < Size(j.rt, d, q)
    ensures Begin(j.rt, d, q) + p < Begin(j.rt, d, g) + i
  {
    if q < g { BeginMonotone(j.rt, d, q + 1, g); }
  }

  lemma PlaceInBuffer(j: Job, d: nat, g: nat, i: nat)
    requires ValidJob(j) && d < j.rt.n && g < Segments(j.rt) && i < Size(j.rt, d, g)
    ensures Begin(j.rt, d, g) + i < j.rt.n * Flats(j.rt)
  {
    BeginMonotone(j.rt, d, g + 1, Segments(j.rt));
    TotalBound(j.rt, d);
  }

  /** Storing the row at the cursor extends the finished rows by one place. */
  lemma StoreRow(j: Job, d: nat, expandX: seq<Val>, g: nat, i: nat)
    requires ValidJob(j) && d < j.rt.n && g < Segments(j.rt) && i < Size(j.rt, d, g)
    requires |expandX| == j.rt.n * Flats(j.rt) && RowsBefore(j, d, expandX, g, i)
    ensures RowsBefore(j, d, Store(expandX, Begin(j.rt, d, g) + i, RowAt(j, d, g, i)), g, i + 1)
  {
    PlaceInBuffer(j, d, g, i);
    var out := Store(expandX, Begin(j.rt, d, g) + i, RowAt(j, d, g, i));
    hide RowAt;
    forall q: nat, p: nat | q < Segments(j.rt) && Before(q, p, g, i + 1) ensures RowOk(j, d, out, q, p) {
      if Before(q, p, g, i) {
        assert RowOk(j, d, expandX, q, p);
        if p < Size(j.rt, d, q) { PlacesOrdered(j, d, q, p, g, i); }
      }
    }
  }

  lemma StoreTriple(j: Job, d: nat, assist: seq<Val>, g: nat, i: nat)
    requires ValidJob(j) && d < j.rt.n && g < Segments(j.rt) && i < Size(j.rt, d, g)
    requires |assist| == j.rt.n * Flats(j.rt) && TriplesBefore(j, d, assist, g, i)
    ensures TriplesBefore(j, d, Store(assist, Begin(j.rt, d, g) + i, TripleAt(j, d, g, i)), g, i + 1)
  {
    PlaceInBuffer(j, d, g, i);
    var out := Store(assist, Begin(j.rt, d, g) + i, TripleAt(j, d, g, i));
    hide TripleAt, Begin, Size;
    forall q: nat, p: nat | q < Segments(j.rt) && Before(q, p, g, i + 1) ensures TripleOk(j, d, out, q, p) {
      if Before(q, p, g, i) {
        assert TripleOk(j, d, assist, q, p);
        if p < Size(j.rt, d, q) { PlacesOrdered(j, d, q, p, g, i); }
      }
    }
  }

  /** Passing the last place of a segment is the same as standing at the next segment's start. */
  lemma NextSegment(j: Job, d: nat, rv: Recv, g: nat)
    requires ValidJob(j)
    ensures RowsBefore(j, d, rv.expandX, g, Size(j.rt, d, g)) ==> RowsBefore(j, d, rv.expandX, g + 1, 0)
    ensures TriplesBefore(j, d, rv.assist, g, Size(j.rt, d, g)) ==> TriplesBefore(j, d, rv.assist, g + 1, 0)
  {
    var size := Size(j.rt, d, g);
    if RowsBefore(j, d, rv.expandX, g, size) {
      forall q: nat, p: nat | q < Segments(j.rt) && Before(q, p, g + 1, 0) ensures RowOk(j, d, rv.expandX, q, p) {
        if q < g || p < size { assert Before(q, p, g, size); }
      }
    }
    if TriplesBefore(j, d, rv.assist, g, size) {
      forall q: nat, p: nat | q < Segments(j.rt) && Before(q, p, g + 1, 0) ensures TripleOk(j, d, rv.assist, q, p) {
        if q < g || p < size { assert Before(q, p, g, size); }
      }
    }
  }

  /** Where the kernel reads a segment's start is where the segment starts. */
  lemma BeginRead(j: Job, d: nat, rv: Recv, g: nat)
    requires ValidJob(j) && BufferSizes(j, rv) && Counted(j, d, rv, Segments(j.rt)) && g < Segments(j.rt)
    ensures (if 0 < g <= |rv.recvCount| then rv.recvCount[g - 1] else 0) == Begin(j.rt, d, g)
  {
    if g > 0 { assert BoundaryOk(j, d, rv.recvCount, g - 1); }
  }

  /** The two copies of stage 3 leave the window alone and extend the outputs. */
  lemma CopyRowInv(j: Job, init: map<Loc, Val>, net: Net, d: nat, rv: Recv)
    requires ValidJob(j) && Base(j, init, net) && RankInv(j, d, net, rv) && d < j.rt.n
    requires rv.phase.Compacting? && rv.phase.sub == CopyRow
    ensures var (rv', net') := CompactStep(j, net, d, rv);
            net' == net && RankInv(j, d, net, rv')
  {
    hide Base, Slot, Flats, Segments, Size, Begin, RowAt, TripleAt, ConsumedTo, RowsBefore, TriplesBefore, Counted,
         Sums, InWindow;
    var Compacting(g, i, _) := rv.phase;
    BeginRead(j, d, rv, g);
    RowRead(j, init, net, d, g, i);
    StoreRow(j, d, rv.expandX, g, i);
    CountedFrame(j, d, rv, CompactStep(j, net, d, rv).0, Segments(j.rt));
  }

  lemma CopyAssistInv(j: Job, init: map<Loc, Val>, net: Net, d: nat, rv: Recv)
    requires ValidJob(j) && Base(j, init, net) && RankInv(j, d, net, rv) && d < j.rt.n
    requires rv.phase.Compacting? && rv.phase.sub == CopyAssist
    ensures var (rv', net') := CompactStep(j, net, d, rv);
            net' == net && RankInv(j, d, net, rv')
  {
    hide Base, Slot, Flats, Segments, Size, Begin, RowAt, TripleAt, ConsumedTo, RowsBefore, TriplesBefore, Counted,
         Sums, InWindow;
    var Compacting(g, i, _) := rv.phase;
    BeginRead(j, d, rv, g);
    RowRead(j, init, net, d, g, i);
    StoreTriple(j, d, rv.assist, g, i);
    CountedFrame(j, d, rv, CompactStep(j, net, d, rv).0, Segments(j.rt));
  }

  /** Consuming the ready slot at the cursor moves the cursor one place on. */
  lemma ConsumeReady(j: Job, d: nat, net: Net, g: nat, i: nat)
    requires ValidJob(j) && d < j.rt.n && g < Segments(j.rt) && i < Size(j.rt, d, g) && ConsumedTo(j, d, net, g, i)
    ensures ConsumedTo(j, d, Consume(net, ReadyLoc(j.rt, d, g, i), NOT_READY), g, i + 1)
  {
    var l := ReadyLoc(j.rt, d, g, i);
    var net' := Consume(net, l, NOT_READY);
    forall q: nat, p: nat | q < Segments(j.rt) && p < Size(j.rt, d, q)
      ensures ReadyLoc(j.rt, d, q, p) in net'.consumed <==> Before(q, p, g, i + 1)
    {
      if ReadyLoc(j.rt, d, q, p) == l { ReadyLocsDistinct(j, d, g, i, q, p); }
      assert ReadyLoc(j.rt, d, q, p) in net.consumed <==> Before(q, p, g, i);
    }
  }

  lemma ConsumeCount(j: Job, d: nat, net: Net, g: nat)
    requires ValidJob(j) && g < Segments(j.rt) && ConsumedTo(j, d, net, g, Size(j.rt, d, g))
    ensures ConsumedTo(j, d, Consume(net, CountLoc(d, g), COUNT_INIT), g + 1, 0)
  {
    var net' := Consume(net, CountLoc(d, g), COUNT_INIT);
    forall q: nat, p: nat | q < Segments(j.rt) && p < Size(j.rt, d, q)
      ensures ReadyLoc(j.rt, d, q, p) in net'.consumed <==> Before(q, p, g + 1, 0)
    {
      assert ReadyLoc(j.rt, d, q, p) in net.consumed <==> Before(q, p, g, Size(j.rt, d, g));
    }
  }

  /** A store by rank `d` into its own window keeps the network invariant and all other ranks. */
  lemma ConsumeBase(j: Job, init: map<Loc, Val>, net: Net, l: Loc, v: Val)
    requires ValidJob(j) && Base(j, init, net) && Visible(PlanOf(j), net, l) && InWindow(j, l)
    requires (l.region == Ready && v == NOT_READY) || (l.region == Count && v == COUNT_INIT)
    ensures Base(j, init, Consume(net, l, v))
    ensures forall m :: Visible(PlanOf(j), net, m) <==> Visible(PlanOf(j), Consume(net, l, v), m)
  {
    ConsumeInv(PlanOf(j), ScriptsOf(j), init, net, l, v);
  }

  lemma ResetReadyInv(j: Job, init: map<Loc, Val>, net: Net, d: nat, rv: Recv)
    requires ValidJob(j) && Base(j, init, net) && RankInv(j, d, net, rv) && d < j.rt.n
    requires rv.phase.Compacting? && rv.phase.sub == ResetReady
    ensures var (rv', net') := CompactStep(j, net, d, rv);
            && Base(j, init, net') && RankInv(j, d, net', rv')
            && (forall l :: Visible(PlanOf(j), net, l) <==> Visible(PlanOf(j), net', l))
            && forall l: Loc :: l.pe != d ==> (l in net.consumed <==> l in net'.consumed)
  {
    hide Base, Slot, Flats, Segments, Size, Begin, RowAt, TripleAt, ConsumedTo, RowsBefore, TriplesBefore, Counted,
         Sums, InWindow;
    var Compacting(g, i, _) := rv.phase;
    var l := ReadyLoc(j.rt, d, g, i);
    RowRead(j, init, net, d, g, i);
    PlaceContent(j, d, g, i);
    ConsumeBase(j, init, net, l, NOT_READY);
    ConsumeReady(j, d, net, g, i);
    CountedFrame(j, d, rv, CompactStep(j, net, d, rv).0, Segments(j.rt));
  }

  lemma AwaitInv(j: Job, init: map<Loc, Val>, net: Net, d: nat, rv: Recv)
    requires ValidJob(j) && Base(j, init, net) && RankInv(j, d, net, rv) && d < j.rt.n
    requires rv.phase.Compacting? && rv.phase.sub == AwaitReady && rv.phase.g < Segments(j.rt)
    ensures var (rv', net') := CompactStep(j, net, d, rv);
            && Base(j, init, net') && RankInv(j, d, net', rv')
            && (forall l :: Visible(PlanOf(j), net, l) <==> Visible(PlanOf(j), net', l))
            && forall l: Loc :: l.pe != d ==> (l in net.consumed <==> l in net'.consumed)
  {
    hide Base, Slot, Flats, Segments, Size, Begin, RowAt, TripleAt, ConsumedTo, RowsBefore, TriplesBefore, Counted,
         Sums, InWindow;
    var Compacting(g, i, _) := rv.phase;
    CountStillThere(j, d, net, g, i, g);
    CountRead(j, init, net, d, g);
    if i == Size(j.rt, d, g) {
      ConsumeBase(j, init, net, CountLoc(d, g), COUNT_INIT);
      ConsumeCount(j, d, net, g);
      NextSegment(j, d, rv, g);
    }
    CountedFrame(j, d, rv, CompactStep(j, net, d, rv).0, Segments(j.rt));
  }

  lemma CountedFrame(j: Job, d: nat, rv: Recv, rv': Recv, g: nat)
    requires ValidJob(j) && Counted(j, d, rv, g)
    requires rv'.recvCount == rv.recvCount && rv'.tokenNums == rv.tokenNums
    ensures Counted(j, d, rv', g)
  {
    forall q: nat | q < g ensures BoundaryOk(j, d, rv'.recvCount, q) && ExpertOk(j, d, rv'.tokenNums, q) {
      assert BoundaryOk(j, d, rv.recvCount, q) && ExpertOk(j, d, rv.tokenNums, q);
    }
  }

  lemma ReceiveInv(j: Job, init: map<Loc, Val>, net: Net, d: nat, rv: Recv)
    requires ValidJob(j) && Base(j, init, net) && RankInv(j, d, net, rv) && d < j.rt.n && rv.phase.Compacting?
    ensures var (rv', net') := CompactStep(j, net, d, rv);
            && Base(j, init, net') && RankInv(j, d, net', rv')
            && (forall l :: Visible(PlanOf(j), net, l) <==> Visible(PlanOf(j), net', l))
            && forall l: Loc :: l.pe != d ==> (l in net.consumed <==> l in net'.consumed)
  {
    if rv.phase.g == Segments(j.rt) {
      hide Base, Counted, ConsumedTo, RowsBefore, TriplesBefore, Segments, Size;
      CountedFrame(j, d, rv, rv.(phase := Finished), Segments(j.rt));
    } else {
      hide Base, RankInv, CompactStep;
      match rv.phase.sub
      case AwaitReady => AwaitInv(j, init, net, d, rv);
      case CopyRow => CopyRowInv(j, init, net, d, rv);
      case CopyAssist => CopyAssistInv(j, init, net, d, rv);
      case ResetReady => ResetReadyInv(j, init, net, d, rv);
    }
  }

  /** What changes only at rank `d` leaves the invariants of the other ranks standing. */
  lemma OtherRanks(j: Job, s: State, s': State, d: int)
    requires ValidJob(j) && |s.recv| == |s'.recv| == j.rt.n
    requires forall e :: 0 <= e < j.rt.n ==> RankInv(j, e, s.net, s.recv[e])
    requires forall e :: 0 <= e < j.rt.n && e != d ==> s'.recv[e] == s.recv[e]
    requires forall l :: Visible(PlanOf(j), s.net, l) ==> Visible(PlanOf(j), s'.net, l)
    requires forall l: Loc :: l.pe != d ==> (l in s.net.consumed <==> l in s'.net.consumed)
    ensures forall e :: 0 <= e < j.rt.n && e != d ==> RankInv(j, e, s'.net, s'.recv[e])
  {
    hide RankInv;
    forall e | 0 <= e < j.rt.n && e != d ensures RankInv(j, e, s'.net, s'.recv[e]) {
      RankFrame(j, e, s.net, s'.net, s.recv[e]);
    }
  }

  lemma SendInv(j: Job, init: map<Loc, Val>, s: State, net': Net)
    requires ValidJob(j) && Inv(j, init, s)
    requires NetInv(PlanOf(j), ScriptsOf(j), init, net') && Grows(PlanOf(j), s.net, net')
    ensures Inv(j, init, s.(net := net'))
  {
    hide RankInv, NetInv, Clean;
    OtherRanks(j, s, s.(net := net'), -1);
  }

  lemma ReceiveNextInv(j: Job, init: map<Loc, Val>, s: State, d: nat)
    requires ValidJob(j) && Inv(j, init, s) && CanReceive(j, s, d)
    ensures Inv(j, init, Next(j, s, Receive(d)))
  {
    hide RankInv, Base, CountStep, CompactStep, SendersDone;
    var s' := Next(j, s, Receive(d));
    assert RankInv(j, d, s.net, s.recv[d]);
    if s.recv[d].phase.Counting? {
      CountStepInv(j, init, s.net, d, s.recv[d]);
    } else {
      ReceiveInv(j, init, s.net, d, s.recv[d]);
    }
    OtherRanks(j, s, s', d);
  }

  /** Every action of every rank and core keeps the invariant. */
  lemma NextInv(j: Job, init: map<Loc, Val>, s: State, a: Action)
    requires ValidJob(j) && Inv(j, init, s) && Enabled(j, s, a)
    ensures Inv(j, init, Next(j, s, a))
  {
    hide RankInv, NetInv, Clean, CountStep, CompactStep;
    match a
    case Issue(c) =>
      IssueInv(PlanOf(j), ScriptsOf(j), init, s.net, c);
      SendInv(j, init, s, Shmem.Issue(s.net, c));
    case Land(c, o) =>
      LandInv(PlanOf(j), ScriptsOf(j), init, s.net, c, o);
      SendInv(j, init, s, Shmem.Land(s.net, c, o));
    case Receive(d) =>
      ReceiveNextInv(j, init, s, d);
  }

  lemma {:induction false} RunsInv(j: Job, init: map<Loc, Val>, s: State, trace: seq<Action>, t: State)
    requires ValidJob(j) && Inv(j, init, s) && Runs(j, s, trace, t)
    ensures Inv(j, init, t)
    decreases |trace|
  {
    if trace != [] {
      NextInv(j, init, s, trace[0]);
      RunsInv(j, init, Next(j, s, trace[0]), trace[1..], t);
    }
  }

  // ---- what lies behind the received rows ----

  /** From the total on, the two row buffers are as they were. */
  ghost predicate SameTail(j: Job, d: nat, rv: Recv, rv': Recv)
    requires ValidJob(j)
  {
    && |rv'.expandX| == |rv.expandX| && |rv'.assist| == |rv.assist|
    && (forall p :: Total(j.rt, d) <= p < |rv.expandX| ==> rv'.expandX[p] == rv.expandX[p])
    && (forall p :: Total(j.rt, d) <= p < |rv.assist| ==> rv'.assist[p] == rv.assist[p])
  }

  /** Every copy goes to a place before the total. */
  lemma CompactTail(j: Job, net: Net, d: nat, rv: Recv)
    requires ValidJob(j) && RankInv(j, d, net, rv) && rv.phase.Compacting?
    ensures SameTail(j, d, rv, CompactStep(j, net, d, rv).0)
  {
    hide Slot, Flats, Size, RowAt, TripleAt, ConsumedTo, RowsBefore, TriplesBefore, CountsVisible;
    var Compacting(g, i, sub) := rv.phase;
    if sub == CopyRow || sub == CopyAssist {
      BeginRead(j, d, rv, g);
      BeginMonotone(j.rt, d, g + 1, Segments(j.rt));
    }
  }

  lemma NextTail(j: Job, init: map<Loc, Val>, s: State, a: Action, d: nat)
    requires ValidJob(j) && Inv(j, init, s) && Enabled(j, s, a) && d < j.rt.n
    ensures |Next(j, s, a).recv| == |s.recv| && SameTail(j, d, s.recv[d], Next(j, s, a).recv[d])
  {
    hide Base, RankInv, CompactStep;
    if a == Receive(d) && s.recv[d].phase.Compacting? {
      CompactTail(j, s.net, d, s.recv[d]);
    }
  }

  lemma {:induction false} RunsTail(j: Job, init: map<Loc, Val>, s: State, trace: seq<Action>, t: State, d: nat)
    requires ValidJob(j) && Inv(j, init, s) && Runs(j, s, trace, t) && d < j.rt.n
    ensures |t.recv| == |s.recv| && SameTail(j, d, s.recv[d], t.recv[d])
    decreases |trace|
  {
    hide Base, RankInv, Next;
    if trace != [] {
      NextInv(j, init, s, trace[0]);
      NextTail(j, init, s, trace[0], d);
      RunsTail(j, init, Next(j, s, trace[0]), trace[1..], t, d);
    }
  }

  // ---- progress: every schedule ends, and only in a finished state ----

  ghost predicate Final(s: State)
  {
    && (forall c :: HasCore(s.net, c) ==> CoreAt(s.net, c).todo == [] && CoreAt(s.net, c).pending == {})
    && forall d :: 0 <= d < |s.recv| ==> s.recv[d].phase == Finished
  }

  function SubSteps(sub: Sub): nat
  {
    match sub case AwaitReady => 0 case CopyRow => 1 case CopyAssist => 2 case ResetReady => 3
  }

  ghost function RankWork(j: Job, d: nat, rv: Recv): int
    requires ValidJob(j)
  {
    var all := Segments(j.rt);
    match rv.phase
    case Counting(g) => (all - g) + 4 * Total(j.rt, d) + all + 2
    case Compacting(g, i, sub) => 4 * (Total(j.rt, d) - Begin(j.rt, d, g) - i) - SubSteps(sub) + (all - g) + 1
    case Finished => 0
  }

  ghost function RankWorks(j: Job, recv: seq<Recv>): seq<int>
    requires ValidJob(j)
  {
    seq(|recv|, d requires 0 <= d < |recv| => RankWork(j, d, recv[d]))
  }

  ghost function StateWork(j: Job, s: State): int
    requires ValidJob(j)
  {
    NetWork(s.net.cores) + Sum(RankWorks(j, s.recv))
  }

  lemma RankWorkNonNegative(j: Job, d: nat, net: Net, rv: Recv)
    requires ValidJob(j) && RankInv(j, d, net, rv)
    ensures RankWork(j, d, rv) >= 0
  {
    hide Counted, ConsumedTo, RowsBefore, TriplesBefore, Size;
    if rv.phase.Compacting? {
      var g := rv.phase.g;
      if g < Segments(j.rt) { BeginMonotone(j.rt, d, g + 1, Segments(j.rt)); }
    }
  }

  lemma StateWorkNonNegative(j: Job, init: map<Loc, Val>, s: State)
    requires ValidJob(j) && Inv(j, init, s)
    ensures StateWork(j, s) >= 0
  {
    hide RankInv, Base, RankWork;
    NetWorkNonNegative(s.net.cores);
    forall d | 0 <= d < |s.recv| ensures RankWorks(j, s.recv)[d] >= 0 {
      RankWorkNonNegative(j, d, s.net, s.recv[d]);
    }
    SumNonNegative(RankWorks(j, s.recv));
  }

  /** One receiver step uses up at least one unit of its rank's work. */
  lemma ReceiveWork(j: Job, init: map<Loc, Val>, net: Net, d: nat, rv: Recv)
    requires ValidJob(j) && Base(j, init, net) && RankInv(j, d, net, rv) && d < j.rt.n && rv.phase != Finished
    ensures var rv' := if rv.phase.Counting? then CountStep(j, net, d, rv) else CompactStep(j, net, d, rv).0;
            RankWork(j, d, rv') < RankWork(j, d, rv)
  {
    hide Base, Counted, ConsumedTo, RowsBefore, TriplesBefore, BufferSizes, Flats, Sums, Size;
    if rv.phase.Compacting? && rv.phase.g < Segments(j.rt) && rv.phase.sub == AwaitReady {
      var g := rv.phase.g;
      CountStillThere(j, d, net, g, rv.phase.i, g);
      CountRead(j, init, net, d, g);
      assert Begin(j.rt, d, g + 1) == Begin(j.rt, d, g) + Size(j.rt, d, g);
    }
  }

  lemma NextWork(j: Job, init: map<Loc, Val>, s: State, a: Action)
    requires ValidJob(j) && Inv(j, init, s) && Enabled(j, s, a)
    ensures StateWork(j, Next(j, s, a)) < StateWork(j, s)
  {
    hide RankInv, Base, RankWork, CountStep, CompactStep;
    var s' := Next(j, s, a);
    match a
    case Issue(c) => SenderWork(s.net, c);
    case Land(c, o) => SenderWork(s.net, c);
    case Receive(d) =>
      ReceiveWork(j, init, s.net, d, s.recv[d]);
      assert s'.net.cores == s.net.cores by {
        if s.recv[d].phase.Compacting? { CompactKeepsCores(j, s.net, d, s.recv[d]); }
      }
      var rv' := s'.recv[d];
      assert RankWorks(j, s'.recv) == RankWorks(j, s.recv)[d := RankWork(j, d, rv')];
      SumUpdate(RankWorks(j, s.recv), d, RankWork(j, d, rv'));
  }

  lemma CompactKeepsCores(j: Job, net: Net, d: nat, rv: Recv)
    requires ValidJob(j) && rv.phase.Compacting?
    ensures CompactStep(j, net, d, rv).1.cores == net.cores
  {
  }

  lemma NetCores(j: Job, init: map<Loc, Val>, net: Net)
    requires ValidJob(j) && Base(j, init, net)
    ensures |net.cores| == j.rt.n
  {
    hide CoreInv, MemInv;
  }

  /** Once the senders are done, every count has arrived. */
  lemma CountArrived(j: Job, init: map<Loc, Val>, net: Net, d: nat, g: nat)
    requires ValidJob(j) && Base(j, init, net) && d < j.rt.n && g < Segments(j.rt)
    requires forall c :: HasCore(net, c) ==> CoreAt(net, c).todo == [] && CoreAt(net, c).pending == {}
    ensures Visible(PlanOf(j), net, CountLoc(d, g))
  {
    hide CoreInv, MemInv, Visible, Script;
    CountIsPut(j, d, g);
    Drained(PlanOf(j), ScriptsOf(j), init, net, Id(g % j.rt.n, d), CountLoc(d, g));
  }

  lemma ReceiveProgress(j: Job, init: map<Loc, Val>, s: State, d: nat)
    requires ValidJob(j) && Inv(j, init, s) && d < j.rt.n && s.recv[d].phase != Finished
    requires forall c :: HasCore(s.net, c) ==> CoreAt(s.net, c).todo == [] && CoreAt(s.net, c).pending == {}
    ensures CanReceive(j, s, d)
  {
    hide Base, Counted, RowsBefore, TriplesBefore, BufferSizes, Flats, Sums, Size, Slot, Visible;
    var rv := s.recv[d];
    assert RankInv(j, d, s.net, rv);
    NetCores(j, init, s.net);
    match rv.phase
    case Counting(g) =>
      forall a | 0 <= a < |s.net.cores[d]| ensures s.net.cores[d][a].todo == [] {
        assert HasCore(s.net, Id(d, a));
      }
      if g < Segments(j.rt) {
        CountStillThere(j, d, s.net, 0, 0, g);
        CountArrived(j, init, s.net, d, g);
        CountRead(j, init, s.net, d, g);
      }
    case Compacting(g, i, sub) =>
      if g < Segments(j.rt) && sub == AwaitReady {
        CountStillThere(j, d, s.net, g, i, g);
        CountRead(j, init, s.net, d, g);
        if i < Size(j.rt, d, g) { RowRead(j, init, s.net, d, g, i); }
      }
    case Finished => assert false;
  }

  /** Stage 3 never blocks: a rank that is compacting can always take its next step, whatever the senders do. */
  lemma ReadyNeverBlocks(j: Job, s: State, trace: seq<Action>, t: State, d: nat)
    requires ValidJob(j) && Init(j, s) && Runs(j, s, trace, t) && d < j.rt.n
    ensures d < |t.recv| && (t.recv[d].phase.Compacting? ==> CanReceive(j, t, d))
  {
    hide Base, Counted, RowsBefore, TriplesBefore, BufferSizes, Flats, Sums, Size, Slot, Visible;
    InitInv(j, s);
    RunsInv(j, s.net.mem, s, trace, t);
    NetCores(j, s.net.mem, t.net);
    var rv := t.recv[d];
    assert RankInv(j, d, t.net, rv);
    if rv.phase.Compacting? && rv.phase.g < Segments(j.rt) && rv.phase.sub == AwaitReady {
      var g, i := rv.phase.g, rv.phase.i;
      CountStillThere(j, d, t.net, g, i, g);
      CountRead(j, s.net.mem, t.net, d, g);
      if i < Size(j.rt, d, g) { RowRead(j, s.net.mem, t.net, d, g, i); }
    }
  }

  /** No reachable state is stuck before every rank has finished. */
  lemma Progress(j: Job, init: map<Loc, Val>, s: State)
    requires ValidJob(j) && Inv(j, init, s) && !Final(s)
    ensures exists a :: Enabled(j, s, a)
  {
    hide RankInv, MemInv, CoreInv, CanReceive;
    if c :| HasCore(s.net, c) && (CoreAt(s.net, c).todo != [] || CoreAt(s.net, c).pending != {}) {
      SenderProgress(PlanOf(j), ScriptsOf(j), s.net, c);
      if CanIssue(s.net, c) {
        assert Enabled(j, s, Issue(c));
      } else {
        var o :| CanLand(s.net, c, o);
        assert Enabled(j, s, Land(c, o));
      }
    } else {
      var d :| 0 <= d < |s.recv| && s.recv[d].phase != Finished;
      ReceiveProgress(j, init, s, d);
      assert Enabled(j, s, Receive(d));
    }
  }

  // ---- the main results ----

  ghost predicate GoldenState(j: Job, s: State)
    requires ValidJob(j)
  {
    && |s.recv| == j.rt.n
    && forall d :: 0 <= d < j.rt.n ==>
         IsGolden(j, d, s.recv[d].expandX, s.recv[d].assist, s.recv[d].recvCount, s.recv[d].tokenNums)
  }

  lemma FinishedIsGolden(j: Job, d: nat, net: Net, rv: Recv)
    requires ValidJob(j) && RankInv(j, d, net, rv) && rv.phase == Finished
    ensures IsGolden(j, d, rv.expandX, rv.assist, rv.recvCount, rv.tokenNums)
  {
    hide Size, BoundaryOk, ExpertOk, RowOk, TripleOk, Slot;
  }

  /** In a finished state every slot of the window is back at its initial value. */
  lemma FinalClean(j: Job, init: map<Loc, Val>, s: State)
    requires ValidJob(j) && Inv(j, init, s) && Final(s)
    ensures Clean(j, s.net.mem)
    ensures forall l :: InWindow(j, l) && l.region == Ready ==> Read(s.net.mem, l) == [0, 0, 0, 0, 0, 0, 0, 0]
    ensures forall l :: InWindow(j, l) && l.region == Count ==> Read(s.net.mem, l) == [-1, -1, -1, -1, -1, -1, -1, -1]
  {
    forall l | InWindow(j, l) && (l.region == Ready || l.region == Count) ensures Read(s.net.mem, l) == Read(init, l) {
      if Visible(PlanOf(j), s.net, l) { VisibleIsConsumed(j, init, s, l); }
    }
  }

  lemma VisibleIsConsumed(j: Job, init: map<Loc, Val>, s: State, l: Loc)
    requires ValidJob(j) && Inv(j, init, s) && Final(s) && Visible(PlanOf(j), s.net, l)
    requires InWindow(j, l) && (l.region == Ready || l.region == Count)
    ensures l in s.net.consumed
  {
    var d := l.pe;
    assert RankInv(j, d, s.net, s.recv[d]);
    if l.region == Count {
      assert l == CountLoc(d, l.slot);
    } else {
      var c := PlanOf(j).owner(l);
      assert CoreInv(PlanOf(j), c, Script(j, c.rank, c.aiv), CoreAt(s.net, c));
      ScriptSafe(j, c.rank, c.aiv);
      RowScriptLocs(j, c.rank, c.aiv, l);
      CountCovers(j, c.rank, c.aiv, j.rt.experts, l);
      var g, i := ReadyPlace(j, d, l.slot);
      assert l == ReadyLoc(j.rt, d, g, i) && Before(g, i, Segments(j.rt), 0);
    }
  }

  /** Every covered slot is the receiver's slot of some place. */
  lemma ReadyPlace(j: Job, d: nat, slot: nat) returns (g: nat, i: nat)
    requires ValidJob(j) && d < j.rt.n && Flats(j.rt) > 0 && SlotSource(j.rt, slot) < j.rt.n
    requires Covered(j, SlotSource(j.rt, slot), d, Flats(j.rt), slot)
    ensures g < Segments(j.rt) && i < Size(j.rt, d, g) && slot == RecvSlot(j.rt, g, i)
  {
    var rt := j.rt;
    var src, le := SlotSource(rt, slot), SlotExpert(rt, slot);
    Recompose(slot, Flats(rt));
    Recompose(slot / Flats(rt), rt.experts);
    g, i := le * rt.n + src, SlotPlace(rt, slot);
    DivMod(le, rt.n, src);
    PackBound(le, rt.n, src, rt.experts);
    SelectFacts(rt.ids[src], d * rt.experts + le, Flats(rt));
  }

  /** Dispatch refines its reference: in every interleaving, runs are bounded, never stuck early, and end golden. */
  lemma DispatchCorrect(j: Job, s: State, trace: seq<Action>, t: State)
    requires ValidJob(j) && Init(j, s) && Runs(j, s, trace, t)
    ensures |trace| <= StateWork(j, s)
    ensures Final(t) || exists a :: Enabled(j, t, a)
    ensures Final(t) ==> GoldenState(j, t) && Clean(j, t.net.mem)
    ensures |t.recv| == |s.recv| && forall d :: 0 <= d < j.rt.n ==> SameTail(j, d, s.recv[d], t.recv[d])
  {
    hide SameTail;
    InitInv(j, s);
    RunsInv(j, s.net.mem, s, trace, t);
    forall d | 0 <= d < j.rt.n ensures |t.recv| == |s.recv| && SameTail(j, d, s.recv[d], t.recv[d]) {
      RunsTail(j, s.net.mem, s, trace, t, d);
    }
    RunsBounded(j, s.net.mem, s, trace, t);
    if !Final(t) {
      Progress(j, s.net.mem, t);
    } else {
      FinalClean(j, s.net.mem, t);
      forall d | 0 <= d < j.rt.n
        ensures IsGolden(j, d, t.recv[d].expandX, t.recv[d].assist, t.recv[d].recvCount, t.recv[d].tokenNums)
      {
        FinishedIsGolden(j, d, t.net, t.recv[d]);
      }
    }
  }

  lemma {:induction false} RunsBounded(j: Job, init: map<Loc, Val>, s: State, trace: seq<Action>, t: State)
    requires ValidJob(j) && Inv(j, init, s) && Runs(j, s, trace, t)
    ensures |trace| <= StateWork(j, s)
    decreases |trace|
  {
    hide Inv;
    StateWorkNonNegative(j, init, s);
    if trace != [] {
      NextInv(j, init, s, trace[0]);
      NextWork(j, init, s, trace[0]);
      RunsBounded(j, init, Next(j, s, trace[0]), trace[1..], t);
    }
  }

  /** Every reachable state has a continuation that finishes. */
  lemma {:induction false} Completes(j: Job, init: map<Loc, Val>, s: State) returns (trace: seq<Action>, t: State)
    requires ValidJob(j) && Inv(j, init, s)
    ensures Runs(j, s, trace, t) && Final(t)
    decreases StateWork(j, s)
  {
    hide Inv, Final, Enabled, Next, StateWork;
    if Final(s) { return [], s; }
    Progress(j, init, s);
    var a :| Enabled(j, s, a);
    NextInv(j, init, s, a);
    NextWork(j, init, s, a);
    StateWorkNonNegative(j, init, Next(j, s, a));
    var rest;
    rest, t := Completes(j, init, Next(j, s, a));
    trace := [a] + rest;
    assert trace[1..] == rest;
  }

  /** Publication order, in terms of the window alone. */
  lemma CountImpliesRows(j: Job, s: State, trace: seq<Action>, t: State, d: nat, g: nat, i: nat)
    requires ValidJob(j) && Init(j, s) && Runs(j, s, trace, t)
    requires d < j.rt.n && g < Segments(j.rt)
    requires Word(Read(t.net.mem, CountLoc(d, g)), 0) == 1
    ensures Word(Read(t.net.mem, CountLoc(d, g)), 1) == Size(j.rt, d, g)
    ensures i < Size(j.rt, d, g) ==>
              var slot := RecvSlot(j.rt, g, i);
              && Read(t.net.mem, Loc(d, Payload, slot)) == RowAt(j, d, g, i)
              && Read(t.net.mem, Loc(d, AssistRank, slot)) + Read(t.net.mem, Loc(d, AssistToken, slot))
                 + Read(t.net.mem, Loc(d, AssistTopk, slot)) == TripleAt(j, d, g, i)
              && (Read(t.net.mem, Loc(d, Ready, slot)) == READY || Loc(d, Ready, slot) in t.net.consumed)
  {
    InitInv(j, s);
    var init := s.net.mem;
    RunsInv(j, init, s, trace, t);
    var l := CountLoc(d, g);
    assert InWindow(j, l);
    CountVisibleIfReady(j, init, t.net, d, g);
    CountRead(j, init, t.net, d, g);
    if i < Size(j.rt, d, g) { RowRead(j, init, t.net, d, g, i); }
  }

  lemma CountVisibleIfReady(j: Job, init: map<Loc, Val>, net: Net, d: nat, g: nat)
    requires ValidJob(j) && Base(j, init, net) && d < j.rt.n && g < Segments(j.rt)
    requires Word(Read(net.mem, CountLoc(d, g)), 0) == 1
    ensures Visible(PlanOf(j), net, CountLoc(d, g)) && CountLoc(d, g) !in net.consumed
  {
    hide CoresInv, Size;
    assert InWindow(j, CountLoc(d, g));
  }

  // ---- any number of barrier-separated rounds ----

  function Relaunch(j: Job, t: State): State
    requires ValidJob(j)
  {
    State(Launch(t.net.mem, ScriptsOf(j)),
          seq(|t.recv|, d requires 0 <= d < |t.recv| =>
            t.recv[d].(phase := Counting(0), running := 0, expertCount := 0)))
  }

  predicate SameSizes(j: Job, j': Job)
  {
    j.rt.n == j'.rt.n && j.rt.experts == j'.rt.experts && j.rt.bs == j'.rt.bs && j.rt.k == j'.rt.k
  }

  datatype Round = Round(job: Job, start: State, trace: seq<Action>, end: State)

  /** Each round starts where the one before it ended, behind the host barrier. */
  ghost predicate Chained(rounds: seq<Round>)
  {
    && (forall i :: 0 <= i < |rounds| ==>
          && ValidJob(rounds[i].job)
          && Runs(rounds[i].job, rounds[i].start, rounds[i].trace, rounds[i].end) && Final(rounds[i].end))
    && (forall i :: 0 < i < |rounds| ==>
          && SameSizes(rounds[i - 1].job, rounds[i].job)
          && rounds[i].start == Relaunch(rounds[i].job, rounds[i - 1].end))
    && (rounds != [] ==> Init(rounds[0].job, rounds[0].start))
  }

  /** Every completed round of any chain meets the reference and leaves a clean window. */
  lemma {:induction false} RoundsCorrect(rounds: seq<Round>, i: nat)
    requires Chained(rounds) && i < |rounds|
    ensures Init(rounds[i].job, rounds[i].start)
    ensures GoldenState(rounds[i].job, rounds[i].end) && Clean(rounds[i].job, rounds[i].end.net.mem)
    ensures var r := rounds[i];
            && |r.start.recv| == |r.end.recv| == r.job.rt.n
            && forall d :: 0 <= d < r.job.rt.n ==> SameTail(r.job, d, r.start.recv[d], r.end.recv[d])
  {
    if i > 0 {
      RoundsCorrect(rounds, i - 1);
      RelaunchInit(rounds[i - 1].job, rounds[i].job, rounds[i - 1].end);
    }
    DispatchCorrect(rounds[i].job, rounds[i].start, rounds[i].trace, rounds[i].end);
  }

  lemma RelaunchInit(j: Job, j': Job, t: State)
    requires ValidJob(j) && ValidJob(j') && SameSizes(j, j')
    requires GoldenState(j, t) && Clean(j, t.net.mem)
    ensures Init(j', Relaunch(j', t))
  {
    var s := Relaunch(j', t);
    forall l | InWindow(j', l) ensures InWindow(j, l) {
    }
    forall d | 0 <= d < j'.rt.n ensures BufferSizes(j', s.recv[d]) {
      assert IsGolden(j, d, t.recv[d].expandX, t.recv[d].assist, t.recv[d].recvCount, t.recv[d].tokenNums);
    }
  }

  // ---- the reference determines the outputs ----

  /** Two outputs that meet the reference agree on every count and on every received row. */
  lemma GoldenUnique(j: Job, d: nat, x: seq<Val>, a: seq<Val>, c: seq<int>, t: seq<int>,
                     x': seq<Val>, a': seq<Val>, c': seq<int>, t': seq<int>)
    requires ValidJob(j) && d < j.rt.n && IsGolden(j, d, x, a, c, t) && IsGolden(j, d, x', a', c', t')
    ensures c == c' && t == t'
    ensures Total(j.rt, d) <= |x| && x[..Total(j.rt, d)] == x'[..Total(j.rt, d)]
            && a[..Total(j.rt, d)] == a'[..Total(j.rt, d)]
  {
    var total, all := Total(j.rt, d), Segments(j.rt);
    TotalBound(j.rt, d);
    forall g | 0 <= g < all ensures c[g] == c'[g] {
      assert BoundaryOk(j, d, c, g) && BoundaryOk(j, d, c', g);
    }
    forall le | 0 <= le < j.rt.experts ensures t[le] == t'[le] {
      ExpertUnique(j, d, le, t, t');
    }
    forall p | 0 <= p < total ensures x[p] == x'[p] && a[p] == a'[p] {
      var g, i := Locate(j.rt, d, all, p);
      assert RowOk(j, d, x, g, i) && RowOk(j, d, x', g, i);
      assert TripleOk(j, d, a, g, i) && TripleOk(j, d, a', g, i);
    }
  }

  lemma ExpertUnique(j: Job, d: nat, le: nat, t: seq<int>, t': seq<int>)
    requires ValidJob(j) && le < j.rt.experts && |t| == |t'| == j.rt.experts
    requires forall g: nat :: g < Segments(j.rt) ==> ExpertOk(j, d, t, g)
    requires forall g: nat :: g < Segments(j.rt) ==> ExpertOk(j, d, t', g)
    ensures t[le] == t'[le]
  {
    var g := le * j.rt.n + (j.rt.n - 1);
    DivMod(le, j.rt.n, j.rt.n - 1);
    PackBound(le, j.rt.n, j.rt.n - 1, j.rt.experts);
    ModStep(g, j.rt.n);
    MulLe(0, le, j.rt.n);
    assert ExpertOk(j, d, t, g) && ExpertOk(j, d, t', g);
  }
}
