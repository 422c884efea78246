/**
 One round of the streaming all-gather: producer cores put chunks of their rank's input into
 symmetric memory and publish a chunk count tagged with the round's epoch; consumer cores poll
 those counts and copy only what is published. Producers and consumers of all ranks interleave
 freely, and the elements of a chunk that is being put may land in any order.
 */
module AllGather {
  import opened Arith

  /** `off` and `len` select the part of every rank's `elements` inputs that this round moves. */
  datatype Config = Config(n: nat, groups: nat, perRank: nat, elements: nat, off: nat, len: nat,
                           chunk: nat, half: nat, magic: int, input: seq<seq<int>>)

  const EPOCH: int := 1024
  const MAX_CHUNKS: nat := 1023
  const FINISHED: int := 0x7FFF_FFFF

  ghost predicate Valid(cf: Config)
  {
    && cf.n > 0 && cf.perRank > 0 && cf.groups == cf.n * cf.perRank && cf.groups > 0
    && cf.chunk > 0 && cf.half > 0 && cf.off + cf.len <= cf.elements
    && |cf.input| == cf.n && (forall x :: 0 <= x < cf.n ==> |cf.input[x]| == cf.elements)
    && cf.magic % EPOCH == 0
    && (forall g: nat :: g < cf.groups ==> Chunks(cf, g) <= MAX_CHUNKS)
  }

  // ---- how a round is split ----

  function PerCore(cf: Config): nat
    requires cf.groups > 0
  {
    cf.len / cf.groups
  }

  lemma SplitBound(cf: Config, g: nat)
    requires cf.groups > 0 && g < cf.groups
    ensures 0 <= g * PerCore(cf) <= cf.len && (g < cf.groups - 1 ==> (g + 1) * PerCore(cf) <= cf.len)
  {
    var q := PerCore(cf);
    Recompose(cf.len, cf.groups);
    MulLe(0, g, q);
    MulLe(g + 1, cf.groups, q);
    assert (g + 1) * q == g * q + q;
    assert cf.groups * q == q * cf.groups;
  }

  function GroupOffset(cf: Config, g: nat): nat
    requires cf.groups > 0
  {
    MulLe(0, g, PerCore(cf));
    g * PerCore(cf)
  }

  function GroupLen(cf: Config, g: nat): nat
    requires cf.groups > 0 && g < cf.groups
  {
    SplitBound(cf, g);
    if g == cf.groups - 1 then cf.len - g * PerCore(cf) else PerCore(cf)
  }

  lemma GroupBound(cf: Config, g: nat)
    requires cf.groups > 0 && g < cf.groups
    ensures GroupOffset(cf, g) + GroupLen(cf, g) <= cf.len
  {
    SplitBound(cf, g);
    assert (g + 1) * PerCore(cf) == g * PerCore(cf) + PerCore(cf);
  }

  /** All groups but the last are equal, as long as they can be, and back to back; the last one takes the rest. */
  lemma ShareExact(cf: Config, g: nat)
    requires cf.groups > 0 && g < cf.groups
    ensures var q := cf.len / cf.groups;
            GroupOffset(cf, g) == g * q && GroupLen(cf, g) == if g == cf.groups - 1 then cf.len - g * q else q
    ensures g < cf.groups - 1 ==>
              cf.groups * GroupLen(cf, g) <= cf.len < cf.groups * (GroupLen(cf, g) + 1)
              && GroupOffset(cf, g) == g * GroupLen(cf, g)
    ensures g == cf.groups - 1 ==> GroupOffset(cf, g) + GroupLen(cf, g) == cf.len
  {
    var q := cf.len / cf.groups;
    Recompose(cf.len, cf.groups);
    assert cf.groups * (q + 1) == cf.groups * q + cf.groups;
  }

  /** Every element of the round belongs to a group. */
  lemma GroupOf(cf: Config, j: nat) returns (g: nat, e: nat)
    requires cf.groups > 0 && j < cf.len
    ensures g < cf.groups && e < GroupLen(cf, g) && j == GroupOffset(cf, g) + e
  {
    var q := PerCore(cf);
    var last := cf.groups - 1;
    SplitBound(cf, last);
    if j >= last * q {
      g, e := last, j - last * q;
    } else {
      assert q > 0;
      UnpackBound(j, q, last);
      Recompose(j, q);
      g, e := j / q, j % q;
    }
  }

  function Chunks(cf: Config, g: nat): nat
    requires cf.groups > 0 && g < cf.groups && cf.chunk > 0
  {
    (GroupLen(cf, g) + cf.chunk - 1) / cf.chunk
  }

  /** How many elements of group `g` are covered by its first `t` chunks. */
  function Published(cf: Config, g: nat, t: nat): nat
    requires cf.groups > 0 && g < cf.groups
  {
    MulLe(0, t, cf.chunk);
    if t * cf.chunk > GroupLen(cf, g) then GroupLen(cf, g) else t * cf.chunk
  }

  lemma PublishedStep(cf: Config, g: nat, t: nat, t': nat)
    requires cf.groups > 0 && g < cf.groups && t <= t'
    ensures Published(cf, g, t) <= Published(cf, g, t') <= GroupLen(cf, g)
  {
    MulLe(t, t', cf.chunk);
  }

  /** The last chunk completes the group, and no earlier one does. */
  lemma ChunksComplete(cf: Config, g: nat, t: nat)
    requires cf.groups > 0 && g < cf.groups && cf.chunk > 0
    ensures t >= Chunks(cf, g) <==> t * cf.chunk >= GroupLen(cf, g)
    ensures t >= Chunks(cf, g) ==> Published(cf, g, t) == GroupLen(cf, g)
  {
    var c, l := cf.chunk, GroupLen(cf, g);
    var k := Chunks(cf, g);
    Recompose(l + c - 1, c);
    if t >= k {
      MulLe(k, t, c);
    } else {
      MulLe(t + 1, k, c);
      assert (t + 1) * c == t * c + c;
    }
  }

  // ---- state ----

  /** `pending` are the elements of the chunk being put that have not landed yet. */
  datatype Prod = Prod(times: nat, putting: bool, pending: set<nat>)

  datatype Mode = Polling | Copying(ready: int, at: int, left: int) | Exited

  /** `sweeps` counts completed passes over all groups; it guides no step. */
  datatype Cons = Cons(progress: seq<int>, g: nat, mode: Mode, sweeps: nat)

  datatype State = State(flags: seq<seq<int>>, gva: seq<seq<int>>, out: seq<seq<int>>,
                         prods: seq<seq<Prod>>, cons: seq<seq<Cons>>)

  datatype Action = StartPut(x: nat, g: nat) | LandElem(x: nat, g: nat, e: nat) | Signal(x: nat, g: nat)
    | Consume(r: nat, u: nat)

  predicate Shape(cf: Config, s: State)
  {
    && |s.flags| == |s.gva| == |s.out| == |s.prods| == |s.cons| == cf.n
    && (forall x :: 0 <= x < cf.n ==> |s.flags[x]| == |s.prods[x]| == |s.cons[x]| == cf.groups)
    && (forall x :: 0 <= x < cf.n ==> |s.gva[x]| >= cf.len)
    && (forall r :: 0 <= r < cf.n ==> |s.out[r]| == cf.n * cf.elements)
  }

  // ---- producers ----

  predicate CanStartPut(cf: Config, s: State, x: nat, g: nat)
    requires cf.groups > 0 && cf.chunk > 0 && Shape(cf, s)
  {
    && x < cf.n && g < cf.groups
    && !s.prods[x][g].putting && s.prods[x][g].times < Chunks(cf, g)
  }

  /** Element `e` of group `g` belongs to chunk number `t`. */
  predicate InChunk(cf: Config, g: nat, t: nat, e: nat)
    requires cf.groups > 0 && g < cf.groups
  {
    Published(cf, g, t) <= e < Published(cf, g, t + 1)
  }

  function ChunkOf(cf: Config, g: nat, t: nat): set<nat>
    requires cf.groups > 0 && g < cf.groups
  {
    set e: nat | e < Published(cf, g, t + 1) && InChunk(cf, g, t, e)
  }

  predicate CanLandElem(cf: Config, s: State, x: nat, g: nat, e: nat)
    requires Shape(cf, s)
  {
    x < cf.n && g < cf.groups && s.prods[x][g].putting && e in s.prods[x][g].pending
  }

  /** The signal is ordered behind the put by the core's own pipe wait. */
  predicate CanSignal(cf: Config, s: State, x: nat, g: nat)
    requires Shape(cf, s)
  {
    x < cf.n && g < cf.groups && s.prods[x][g].putting && s.prods[x][g].pending == {}
  }

  // ---- consumers ----

  function Source(cf: Config, u: nat): nat
    requires cf.perRank > 0
  {
    u / cf.perRank
  }

  function Replace(dst: seq<int>, at: nat, src: seq<int>, from: nat, m: nat): seq<int>
    requires at + m <= |dst| && from + m <= |src|
  {
    dst[..at] + src[from..from + m] + dst[at + m..]
  }

  predicate CanConsume(cf: Config, s: State, r: nat, u: nat)
    requires Shape(cf, s)
  {
    r < cf.n && u < cf.groups && s.cons[r][u].mode != Exited
  }

  /** What the consumer decides after reading group `g`'s flag. */
  function Poll(cf: Config, g: nat, progress: int, flag: int): Mode
    requires cf.groups > 0 && g < cf.groups
  {
    var ready := flag - cf.magic;
    if flag / EPOCH != cf.magic / EPOCH || ready <= 0 || progress >= ready then Polling
    else Copying(ready, progress * cf.chunk,
                 if ready * cf.chunk > GroupLen(cf, g) then GroupLen(cf, g) - progress * cf.chunk
                 else (ready - progress) * cf.chunk)
  }

  function Burst(cf: Config, left: int): int
  {
    if left > cf.half then cf.half else left
  }

  predicate AllFinished(progress: seq<int>)
  {
    forall q :: 0 <= q < |progress| ==> progress[q] == FINISHED
  }

  function ConsumerStep(cf: Config, c: Cons, flag: int): Cons
    requires cf.groups > 0 && |c.progress| == cf.groups
  {
    if c.g >= cf.groups then
      if AllFinished(c.progress) then c.(mode := Exited, sweeps := c.sweeps + 1) else c.(g := 0, sweeps := c.sweeps + 1)
    else
      match c.mode
      case Polling =>
        if c.progress[c.g] == FINISHED then c.(g := c.g + 1)
        else if c.progress[c.g] * cf.chunk >= GroupLen(cf, c.g) then
          c.(progress := c.progress[c.g := FINISHED], g := c.g + 1)
        else
          var mode := Poll(cf, c.g, c.progress[c.g], flag);
          if mode == Polling then c.(g := c.g + 1) else c.(mode := mode)
      case Copying(ready, at, left) =>
        if left <= 0 then c.(progress := c.progress[c.g := ready], mode := Polling, g := c.g + 1)
        else c.(mode := Copying(ready, at + Burst(cf, left), left - Burst(cf, left)))
      case Exited => c
  }

  /** Where the step's copy starts, in the source rank's memory and in the local output. */
  function CopyFrom(cf: Config, c: Cons): int
    requires cf.groups > 0 && c.mode.Copying?
  {
    GroupOffset(cf, c.g) + c.mode.at
  }

  function CopyStep(cf: Config, c: Cons, x: nat, gva: seq<int>, out: seq<int>): seq<int>
    requires cf.groups > 0
  {
    if c.g < cf.groups && c.mode.Copying? && c.mode.left > 0 then
      var m, from := Burst(cf, c.mode.left), CopyFrom(cf, c);
      var at := x * cf.elements + (cf.off + from);
      if 0 <= from && 0 <= at && at + m <= |out| && from + m <= |gva| then Replace(out, at, gva, from, m) else out
    else out
  }

  predicate Enabled(cf: Config, s: State, a: Action)
    requires cf.groups > 0 && cf.chunk > 0 && Shape(cf, s)
  {
    match a
    case StartPut(x, g) => CanStartPut(cf, s, x, g)
    case LandElem(x, g, e) => CanLandElem(cf, s, x, g, e)
    case Signal(x, g) => CanSignal(cf, s, x, g)
    case Consume(r, u) => CanConsume(cf, s, r, u)
  }

  function WithProd(s: State, x: nat, g: nat, p: Prod): State
    requires x < |s.prods| && g < |s.prods[x]|
  {
    s.(prods := s.prods[x := s.prods[x][g := p]])
  }

  function Store(s: seq<int>, i: int, v: int): seq<int>
  {
    if 0 <= i < |s| then s[i := v] else s
  }

  function Next(cf: Config, s: State, a: Action): State
    requires Valid(cf) && Shape(cf, s) && Enabled(cf, s, a)
  {
    match a
    case StartPut(x, g) =>
      var p := s.prods[x][g];
      WithProd(s, x, g, Prod(p.times, true, ChunkOf(cf, g, p.times)))
    case LandElem(x, g, e) =>
      var p := s.prods[x][g];
      var i := GroupOffset(cf, g) + e;
      var v := if cf.off + i < cf.elements then cf.input[x][cf.off + i] else 0;
      WithProd(s, x, g, p.(pending := p.pending - {e})).(gva := s.gva[x := Store(s.gva[x], i, v)])
    case Signal(x, g) =>
      var p := s.prods[x][g];
      WithProd(s, x, g, Prod(p.times + 1, false, {}))
        .(flags := s.flags[x := s.flags[x][g := p.times + 1 + cf.magic]])
    case Consume(r, u) =>
      var c, x := s.cons[r][u], Source(cf, u);
      if x >= cf.n || |c.progress| != cf.groups then s
      else
        var flag := if c.g < cf.groups then s.flags[x][c.g] else 0;
        s.(cons := s.cons[r := s.cons[r][u := ConsumerStep(cf, c, flag)]],
           out := s.out[r := CopyStep(cf, c, x, s.gva[x], s.out[r])])
  }

  ghost predicate Runs(cf: Config, s: State, trace: seq<Action>, t: State)
    requires Valid(cf)
    decreases |trace|
  {
    if trace == [] then s == t
    else Shape(cf, s) && Enabled(cf, s, trace[0]) && Runs(cf, Next(cf, s, trace[0]), trace[1..], t)
  }

  /** A round starts with all flags outside its epoch and whatever data earlier rounds left. */
  ghost predicate Init(cf: Config, s: State)
    requires Valid(cf)
  {
    && Shape(cf, s)
    && (forall x, g :: 0 <= x < cf.n && 0 <= g < cf.groups ==>
          s.flags[x][g] / EPOCH != cf.magic / EPOCH && s.prods[x][g] == Prod(0, false, {}))
    && (forall r, u :: 0 <= r < cf.n && 0 <= u < cf.groups ==>
          s.cons[r][u] == Cons(seq(cf.groups, _ => 0), 0, Polling, 0))
  }

  // ---- the invariant ----

  /** The output of a rank holds rank `x`'s input number `j`. */
  ghost predicate Right(cf: Config, out: seq<int>, x: nat, j: nat)
    requires Valid(cf)
  {
    && x < cf.n && j < cf.elements && 0 <= x * cf.elements + j < |out|
    && out[x * cf.elements + j] == cf.input[x][j]
  }

  /** Symmetric memory of rank `x` holds element `e` of its group `g`. */
  ghost predicate InPlace(cf: Config, gva: seq<int>, x: nat, g: nat, e: nat)
    requires Valid(cf)
  {
    var i := GroupOffset(cf, g) + e;
    x < cf.n && i < |gva| && cf.off + i < cf.elements && gva[i] == cf.input[x][cf.off + i]
  }

  ghost predicate RightAt(cf: Config, out: seq<int>, x: nat, g: nat, e: nat)
    requires Valid(cf)
  {
    Right(cf, out, x, cf.off + (GroupOffset(cf, g) + e))
  }

  ghost predicate Copied(cf: Config, out: seq<int>, x: nat, g: nat, m: int)
    requires Valid(cf)
  {
    forall e: nat :: e < m ==> RightAt(cf, out, x, g, e)
  }

  ghost predicate ProdInv(cf: Config, x: nat, g: nat, p: Prod, flag: int, gva: seq<int>)
    requires Valid(cf) && g < cf.groups
  {
    && p.times <= Chunks(cf, g)
    && (p.times > 0 ==> flag == cf.magic + p.times)
    && (p.times == 0 ==> flag / EPOCH != cf.magic / EPOCH)
    && (forall e: nat :: e < Published(cf, g, p.times) ==> InPlace(cf, gva, x, g, e))
    && (p.putting ==>
          && p.times < Chunks(cf, g) && p.pending <= ChunkOf(cf, g, p.times)
          && forall e: nat :: InChunk(cf, g, p.times, e) && e !in p.pending ==> InPlace(cf, gva, x, g, e))
    && (!p.putting ==> p.pending == {})
  }

  ghost predicate ProgressOk(cf: Config, out: seq<int>, x: nat, q: nat, progress: int, times: nat)
    requires Valid(cf) && q < cf.groups
  {
    if progress == FINISHED then Copied(cf, out, x, q, GroupLen(cf, q))
    else 0 <= progress <= times && Copied(cf, out, x, q, Published(cf, q, progress))
  }

  ghost predicate ModeOk(cf: Config, c: Cons, out: seq<int>, x: nat, times: nat)
    requires Valid(cf) && c.g < cf.groups == |c.progress| && c.mode.Copying?
  {
    var Copying(ready, at, left) := c.mode;
    && c.progress[c.g] != FINISHED && 0 <= c.progress[c.g] < ready <= times
    && 0 <= at && 0 <= left && at + left == Published(cf, c.g, ready) && Copied(cf, out, x, c.g, at)
  }

  ghost predicate ConsInv(cf: Config, u: nat, c: Cons, prods: seq<Prod>, out: seq<int>)
    requires Valid(cf) && |prods| == cf.groups
  {
    var x := Source(cf, u);
    && x < cf.n && |c.progress| == cf.groups && c.g <= cf.groups
    && (forall q: nat :: q < cf.groups ==> ProgressOk(cf, out, x, q, c.progress[q], prods[q].times))
    && (c.mode.Copying? ==> c.g < cf.groups && ModeOk(cf, c, out, x, prods[c.g].times))
    && (c.mode.Exited? ==> AllFinished(c.progress))
  }

  ghost predicate ConsAt(cf: Config, s: State, r: nat, u: nat)
    requires Valid(cf) && Shape(cf, s) && r < cf.n && u < cf.groups
  {
    Source(cf, u) < cf.n && ConsInv(cf, u, s.cons[r][u], s.prods[Source(cf, u)], s.out[r])
  }

  ghost predicate Inv(cf: Config, s: State)
    requires Valid(cf)
  {
    && Shape(cf, s)
    && (forall x: nat, g: nat :: x < cf.n && g < cf.groups ==>
        ProdInv(cf, x, g, s.prods[x][g], s.flags[x][g], s.gva[x]))
    && (forall r: nat, u: nat :: r < cf.n && u < cf.groups ==>
          ConsAt(cf, s, r, u))
  }

  lemma SourceBound(cf: Config, u: nat)
    requires Valid(cf) && u < cf.groups
    ensures Source(cf, u) < cf.n && Source(cf, u) * cf.perRank <= u < Source(cf, u) * cf.perRank + cf.perRank
  {
    UnpackBound(u, cf.perRank, cf.n);
    Recompose(u, cf.perRank);
  }

  lemma InitInv(cf: Config, s: State)
    requires Valid(cf) && Init(cf, s)
    ensures Inv(cf, s)
  {
    hide ProdInv, ConsInv, Chunks;
    forall x: nat, g: nat | x < cf.n && g < cf.groups
      ensures ProdInv(cf, x, g, s.prods[x][g], s.flags[x][g], s.gva[x]) {
      InitProd(cf, x, g, s.flags[x][g], s.gva[x]);
    }
    forall r: nat, u: nat | r < cf.n && u < cf.groups
      ensures ConsAt(cf, s, r, u)
    {
      SourceBound(cf, u);
      InitCons(cf, u, s.cons[r][u], s.prods[Source(cf, u)], s.out[r]);
    }
  }

  lemma InitProd(cf: Config, x: nat, g: nat, flag: int, gva: seq<int>)
    requires Valid(cf) && g < cf.groups && flag / EPOCH != cf.magic / EPOCH
    ensures ProdInv(cf, x, g, Prod(0, false, {}), flag, gva)
  {
    assert Published(cf, g, 0) == 0;
  }

  lemma InitCons(cf: Config, u: nat, c: Cons, prods: seq<Prod>, out: seq<int>)
    requires Valid(cf) && |prods| == cf.groups && Source(cf, u) < cf.n
             && c == Cons(seq(cf.groups, _ => 0), 0, Polling, 0)
    ensures ConsInv(cf, u, c, prods, out)
  {
    forall q: nat | q < cf.groups ensures ProgressOk(cf, out, Source(cf, u), q, c.progress[q], prods[q].times) {
      assert Published(cf, q, 0) == 0;
    }
    hide ProgressOk;
  }

  // ---- producer steps ----

  lemma StartPutProd(cf: Config, x: nat, g: nat, p: Prod, flag: int, gva: seq<int>)
    requires Valid(cf) && g < cf.groups && ProdInv(cf, x, g, p, flag, gva) && !p.putting && p.times < Chunks(cf, g)
    ensures ProdInv(cf, x, g, Prod(p.times, true, ChunkOf(cf, g, p.times)), flag, gva)
  {
    assert forall e: nat :: InChunk(cf, g, p.times, e) ==> e in ChunkOf(cf, g, p.times);
  }

  /** An element of a chunk lies inside its group, the round and the input. */
  lemma ElementBound(cf: Config, g: nat, t: nat, e: nat)
    requires Valid(cf) && g < cf.groups && InChunk(cf, g, t, e)
    ensures GroupOffset(cf, g) + e < cf.len && cf.off + (GroupOffset(cf, g) + e) < cf.elements
  {
    PublishedStep(cf, g, t, t + 1);
    GroupBound(cf, g);
  }

  /** Landing the right value at one address keeps every element that is already in place. */
  lemma LandKeeps(cf: Config, gva: seq<int>, i: nat, x: nat, q: nat, e: nat)
    requires Valid(cf) && x < cf.n && i < |gva| && cf.off + i < cf.elements && InPlace(cf, gva, x, q, e)
    ensures InPlace(cf, Store(gva, i, cf.input[x][cf.off + i]), x, q, e)
  {
  }

  lemma LandProd(cf: Config, x: nat, g: nat, p: Prod, flag: int, gva: seq<int>, q: nat, pq: Prod, fq: int, e: nat)
    requires Valid(cf) && x < cf.n && g < cf.groups && q < cf.groups && |gva| >= cf.len
    requires ProdInv(cf, x, g, p, flag, gva) && ProdInv(cf, x, q, pq, fq, gva) && p.putting && e in p.pending
    ensures var i := GroupOffset(cf, g) + e;
            && cf.off + i < cf.elements && i < |gva|
            && var gva' := Store(gva, i, cf.input[x][cf.off + i]);
               && ProdInv(cf, x, q, pq, fq, gva')
               && ProdInv(cf, x, g, p.(pending := p.pending - {e}), flag, gva')
  {
    assert InChunk(cf, g, p.times, e);
    ElementBound(cf, g, p.times, e);
    var i := GroupOffset(cf, g) + e;
    var gva' := Store(gva, i, cf.input[x][cf.off + i]);
    hide Chunks, Published, GroupOffset;
    forall h: nat, e': nat | InPlace(cf, gva, x, h, e') ensures InPlace(cf, gva', x, h, e') {
      LandKeeps(cf, gva, i, x, h, e');
    }
    assert i == GroupOffset(cf, g) + e;
    assert InPlace(cf, gva', x, g, e);
  }

  lemma SignalProd(cf: Config, x: nat, g: nat, p: Prod, flag: int, gva: seq<int>)
    requires Valid(cf) && g < cf.groups && ProdInv(cf, x, g, p, flag, gva) && p.putting && p.pending == {}
    ensures ProdInv(cf, x, g, Prod(p.times + 1, false, {}), p.times + 1 + cf.magic, gva)
  {
    forall e: nat | e < Published(cf, g, p.times + 1) ensures InPlace(cf, gva, x, g, e) {
      if e >= Published(cf, g, p.times) { assert InChunk(cf, g, p.times, e); }
    }
  }

  // ---- consumer steps ----

  /** Copying elements that are in place writes only right values. */
  lemma CopyKeeps(cf: Config, out: seq<int>, gva: seq<int>, x: nat, from: nat, m: nat, y: nat, j: nat)
    requires Valid(cf) && x < cf.n && cf.off + from + m <= cf.elements && from + m <= |gva|
             && |out| == cf.n * cf.elements
    requires forall i :: from <= i < from + m ==> gva[i] == cf.input[x][cf.off + i]
    ensures var at := x * cf.elements + (cf.off + from);
            && 0 <= at && at + m <= |out|
            && (Right(cf, out, y, j) ==> Right(cf, Replace(out, at, gva, from, m), y, j))
            && (y == x && cf.off + from <= j < cf.off + from + m ==> Right(cf, Replace(out, at, gva, from, m), y, j))
  {
    var at := x * cf.elements + (cf.off + from);
    MulLe(0, x, cf.elements);
    MulLe(x + 1, cf.n, cf.elements);
    assert (x + 1) * cf.elements == x * cf.elements + cf.elements;
    var out' := Replace(out, at, gva, from, m);
    assert forall p :: 0 <= p < |out| ==> out'[p] == if at <= p < at + m then gva[p - at + from] else out[p];
    if y < cf.n && j < cf.elements {
      var p := y * cf.elements + j;
      if at <= p < at + m {
        DivMod(y, cf.elements, j);
        DivMod(x, cf.elements, p - x * cf.elements);
        assert y == x && j == p - x * cf.elements;
        assert out'[p] == gva[j - cf.off];
      }
    }
  }

  ghost predicate KeepsRight(cf: Config, out: seq<int>, out': seq<int>)
    requires Valid(cf)
  {
    forall x: nat, j: nat :: Right(cf, out, x, j) ==> Right(cf, out', x, j)
  }

  lemma CopiedKeeps(cf: Config, out: seq<int>, out': seq<int>, x: nat, g: nat, m: int)
    requires Valid(cf) && KeepsRight(cf, out, out') && Copied(cf, out, x, g, m)
    ensures Copied(cf, out', x, g, m)
  {
    hide Right;
    forall e: nat | e < m ensures RightAt(cf, out', x, g, e) {
      assert RightAt(cf, out, x, g, e);
    }
  }

  /** A consumer's invariant survives right writes and further publications. */
  lemma ConsFrame(cf: Config, u: nat, c: Cons, prods: seq<Prod>, prods': seq<Prod>, out: seq<int>, out': seq<int>)
    requires Valid(cf) && |prods| == |prods'| == cf.groups && ConsInv(cf, u, c, prods, out) && KeepsRight(cf, out, out')
    requires forall q :: 0 <= q < cf.groups ==> prods[q].times <= prods'[q].times
    ensures ConsInv(cf, u, c, prods', out')
  {
    hide Copied, Published, KeepsRight;
    var x := Source(cf, u);
    forall q: nat | q < cf.groups ensures ProgressOk(cf, out', x, q, c.progress[q], prods'[q].times) {
      assert ProgressOk(cf, out, x, q, c.progress[q], prods[q].times);
      CopiedKeeps(cf, out, out', x, q, if c.progress[q] == FINISHED then GroupLen(cf, q)
                  else Published(cf, q, c.progress[q]));
    }
    if c.mode.Copying? { CopiedKeeps(cf, out, out', x, c.g, c.mode.at); }
  }

  /** A flag inside the epoch is the producer's own count; the poll starts copying right behind the progress. */
  lemma PollOk(cf: Config, c: Cons, x: nat, p: Prod, flag: int, gva: seq<int>, out: seq<int>)
    requires Valid(cf) && c.g < cf.groups == |c.progress| && ProdInv(cf, x, c.g, p, flag, gva)
    requires c.progress[c.g] != FINISHED && ProgressOk(cf, out, x, c.g, c.progress[c.g], p.times)
    requires c.progress[c.g] * cf.chunk < GroupLen(cf, c.g)
    ensures var mode := Poll(cf, c.g, c.progress[c.g], flag);
            mode == Polling || (mode.Copying? && ModeOk(cf, c.(mode := mode), out, x, p.times))
  {
    var mode, progress := Poll(cf, c.g, c.progress[c.g], flag), c.progress[c.g];
    if mode.Copying? {
      assert p.times > 0 && mode.ready == p.times;
      assert Published(cf, c.g, progress) == progress * cf.chunk;
      MulLe(0, progress, cf.chunk);
      MulLe(progress, mode.ready, cf.chunk);
      Distribute(mode.ready, progress, cf.chunk);
    }
  }

  /** The burst a copying consumer moves lies inside what the producer has published. */
  lemma BurstInPlace(cf: Config, c: Cons, x: nat, p: Prod, flag: int, gva: seq<int>, out: seq<int>)
    requires Valid(cf) && x < cf.n && c.g < cf.groups == |c.progress| && c.mode.Copying? && c.mode.left > 0
    requires ProdInv(cf, x, c.g, p, flag, gva) && ModeOk(cf, c, out, x, p.times) && |gva| >= cf.len
    ensures var from, m := CopyFrom(cf, c), Burst(cf, c.mode.left);
            && 0 <= from && 0 < m <= c.mode.left && from + m <= cf.len
            && c.mode.at + m <= Published(cf, c.g, c.mode.ready) <= Published(cf, c.g, p.times)
            && forall i :: from <= i < from + m ==> cf.off + i < cf.elements && gva[i] == cf.input[x][cf.off + i]
  {
    PublishedStep(cf, c.g, c.mode.ready, p.times);
    GroupBound(cf, c.g);
    var from, m := CopyFrom(cf, c), Burst(cf, c.mode.left);
    hide Chunks, Published, GroupOffset, GroupLen;
    forall i | from <= i < from + m ensures cf.off + i < cf.elements && gva[i] == cf.input[x][cf.off + i] {
      assert InPlace(cf, gva, x, c.g, i - GroupOffset(cf, c.g));
    }
  }

  lemma CopyStepRight(cf: Config, c: Cons, x: nat, p: Prod, flag: int, gva: seq<int>, out: seq<int>)
    requires Valid(cf) && x < cf.n && c.g < cf.groups == |c.progress| && c.mode.Copying? && c.mode.left > 0
    requires ProdInv(cf, x, c.g, p, flag, gva) && ModeOk(cf, c, out, x, p.times)
    requires |gva| >= cf.len && |out| == cf.n * cf.elements
    ensures var out' := CopyStep(cf, c, x, gva, out);
            && |out'| == |out| && KeepsRight(cf, out, out')
            && Copied(cf, out', x, c.g, c.mode.at + Burst(cf, c.mode.left))
  {
    BurstInPlace(cf, c, x, p, flag, gva, out);
    var from, m := CopyFrom(cf, c), Burst(cf, c.mode.left);
    assert from == GroupOffset(cf, c.g) + c.mode.at;
    var out' := CopyStep(cf, c, x, gva, out);
    hide Published, GroupOffset, GroupLen, Right, Replace;
    forall y: nat, j: nat ensures
      && (Right(cf, out, y, j) ==> Right(cf, out', y, j))
      && (y == x && cf.off + from <= j < cf.off + from + m ==> Right(cf, out', y, j))
    {
      CopyKeeps(cf, out, gva, x, from, m, y, j);
    }
    forall e: nat | e < c.mode.at + m ensures RightAt(cf, out', x, c.g, e) {
      if e < c.mode.at { assert RightAt(cf, out, x, c.g, e); }
    }
  }

  lemma ConsumeCons(cf: Config, u: nat, c: Cons, flag: int, prods: seq<Prod>, gva: seq<int>, out: seq<int>)
    requires Valid(cf) && |prods| == cf.groups && ConsInv(cf, u, c, prods, out) && c.mode != Exited
    requires |gva| >= cf.len && |out| == cf.n * cf.elements
    requires c.g < cf.groups ==> ProdInv(cf, Source(cf, u), c.g, prods[c.g], flag, gva)
    ensures var out' := CopyStep(cf, c, Source(cf, u), gva, out);
            |out'| == |out| && KeepsRight(cf, out, out') && ConsInv(cf, u, ConsumerStep(cf, c, flag), prods, out')
  {
    var x := Source(cf, u);
    if c.g < cf.groups && c.mode.Copying? && c.mode.left > 0 {
      CopyingCons(cf, u, c, flag, prods, gva, out);
    } else if c.g < cf.groups && c.mode == Polling && c.progress[c.g] != FINISHED {
      assert ProgressOk(cf, out, x, c.g, c.progress[c.g], prods[c.g].times);
      PollingCons(cf, u, c, flag, prods, gva, out);
    } else if c.g < cf.groups && c.mode.Copying? {
      CopiedCons(cf, u, c, flag, prods, out);
    } else {
      hide ProgressOk;
    }
  }

  lemma CopyingCons(cf: Config, u: nat, c: Cons, flag: int, prods: seq<Prod>, gva: seq<int>, out: seq<int>)
    requires Valid(cf) && |prods| == cf.groups && ConsInv(cf, u, c, prods, out)
    requires |gva| >= cf.len && |out| == cf.n * cf.elements
    requires c.g < cf.groups && c.mode.Copying? && c.mode.left > 0
    requires ProdInv(cf, Source(cf, u), c.g, prods[c.g], flag, gva)
    ensures var out' := CopyStep(cf, c, Source(cf, u), gva, out);
            |out'| == |out| && KeepsRight(cf, out, out') && ConsInv(cf, u, ConsumerStep(cf, c, flag), prods, out')
  {
    var x := Source(cf, u);
    var out' := CopyStep(cf, c, x, gva, out);
    CopyStepRight(cf, c, x, prods[c.g], flag, gva, out);
    ConsFrame(cf, u, c, prods, prods, out, out');
    hide ProgressOk, Copied, KeepsRight, CopyStep, ProdInv, Published;
  }

  lemma PollingCons(cf: Config, u: nat, c: Cons, flag: int, prods: seq<Prod>, gva: seq<int>, out: seq<int>)
    requires Valid(cf) && |prods| == cf.groups && ConsInv(cf, u, c, prods, out)
    requires c.g < cf.groups && c.mode == Polling && c.progress[c.g] != FINISHED
    requires ProdInv(cf, Source(cf, u), c.g, prods[c.g], flag, gva)
    ensures ConsInv(cf, u, ConsumerStep(cf, c, flag), prods, out)
  {
    var x := Source(cf, u);
    var c' := ConsumerStep(cf, c, flag);
    assert ProgressOk(cf, out, x, c.g, c.progress[c.g], prods[c.g].times);
    if c.progress[c.g] * cf.chunk >= GroupLen(cf, c.g) {
      assert Published(cf, c.g, c.progress[c.g]) == GroupLen(cf, c.g);
      assert ProgressOk(cf, out, x, c.g, FINISHED, prods[c.g].times);
      hide ProgressOk;
      assert c'.progress == c.progress[c.g := FINISHED];
    } else {
      PollOk(cf, c, x, prods[c.g], flag, gva, out);
      hide ProgressOk, Poll, ModeOk, ProdInv;
    }
  }

  lemma CopiedCons(cf: Config, u: nat, c: Cons, flag: int, prods: seq<Prod>, out: seq<int>)
    requires Valid(cf) && |prods| == cf.groups && ConsInv(cf, u, c, prods, out)
    requires c.g < cf.groups && c.mode.Copying? && c.mode.left <= 0
    requires prods[c.g].times <= Chunks(cf, c.g)
    ensures ConsInv(cf, u, ConsumerStep(cf, c, flag), prods, out)
  {
    var x := Source(cf, u);
    assert ProgressOk(cf, out, x, c.g, c.mode.ready, prods[c.g].times);
    hide ProgressOk, Copied, Published;
  }

  // ---- every step keeps the invariant ----

  lemma ProducerNextInv(cf: Config, s: State, a: Action)
    requires Valid(cf) && Inv(cf, s) && Enabled(cf, s, a) && !a.Consume?
    ensures Inv(cf, Next(cf, s, a))
  {
    hide ProdInv, ConsInv, Chunks, ChunkOf, GroupOffset;
    var s' := Next(cf, s, a);
    ProducerProds(cf, s, a);
    assert s'.out == s.out && s'.cons == s.cons;
    hide Next, Enabled;
    forall r: nat, u: nat | r < cf.n && u < cf.groups ensures ConsAt(cf, s', r, u) {
      assert ConsAt(cf, s, r, u);
      ConsFrame(cf, u, s.cons[r][u], s.prods[Source(cf, u)], s'.prods[Source(cf, u)], s.out[r], s'.out[r]);
    }
  }

  lemma ProducerProds(cf: Config, s: State, a: Action)
    requires Valid(cf) && Inv(cf, s) && Enabled(cf, s, a) && !a.Consume?
    ensures var s' := Next(cf, s, a);
            && Shape(cf, s')
            && (forall y: nat, q: nat :: y < cf.n && q < cf.groups ==>
                ProdInv(cf, y, q, s'.prods[y][q], s'.flags[y][q], s'.gva[y]))
            && (forall y: nat, q: nat :: y < cf.n && q < cf.groups ==> s.prods[y][q].times <= s'.prods[y][q].times)
  {
    hide ProdInv, ConsInv, ConsAt, Chunks, ChunkOf, GroupOffset, Published;
    var s' := Next(cf, s, a);
    var x, g := a.x, a.g;
    var p := s.prods[x][g];
    assert ProdInv(cf, x, g, p, s.flags[x][g], s.gva[x]);
    match a {
      case StartPut(_, _) => StartPutProd(cf, x, g, p, s.flags[x][g], s.gva[x]);
      case LandElem(_, _, e) => LandProd(cf, x, g, p, s.flags[x][g], s.gva[x], g, p, s.flags[x][g], e);
      case Signal(_, _) => SignalProd(cf, x, g, p, s.flags[x][g], s.gva[x]);
    }
    forall y: nat, q: nat | y < cf.n && q < cf.groups
      ensures ProdInv(cf, y, q, s'.prods[y][q], s'.flags[y][q], s'.gva[y]) {
      assert ProdInv(cf, y, q, s.prods[y][q], s.flags[y][q], s.gva[y]);
      if a.LandElem? && y == x && q != g {
        LandProd(cf, x, g, p, s.flags[x][g], s.gva[x], q, s.prods[x][q], s.flags[x][q], a.e);
      }
    }
  }

  lemma ConsumeEffect(cf: Config, s: State, r: nat, u: nat)
    requires Valid(cf) && Inv(cf, s) && Enabled(cf, s, Consume(r, u))
    ensures var s' := Next(cf, s, Consume(r, u));
            && Shape(cf, s') && s'.prods == s.prods && s'.flags == s.flags && s'.gva == s.gva
            && (forall o, v :: 0 <= o < cf.n && 0 <= v < cf.groups && !(o == r && v == u) ==>
                s'.cons[o][v] == s.cons[o][v])
            && (forall o :: 0 <= o < cf.n && o != r ==> s'.out[o] == s.out[o])
            && KeepsRight(cf, s.out[r], s'.out[r]) && ConsAt(cf, s', r, u)
  {
    hide ProdInv, ConsInv, Chunks, GroupOffset, CopyStep, ConsumerStep, KeepsRight;
    assert ConsAt(cf, s, r, u);
    var c, x := s.cons[r][u], Source(cf, u);
    assert |c.progress| == cf.groups by { ConsSize(cf, u, c, s.prods[x], s.out[r]); }
    var flag := if c.g < cf.groups then s.flags[x][c.g] else 0;
    if c.g < cf.groups { assert ProdInv(cf, x, c.g, s.prods[x][c.g], s.flags[x][c.g], s.gva[x]); }
    ConsumeCons(cf, u, c, flag, s.prods[x], s.gva[x], s.out[r]);
  }

  lemma ConsSize(cf: Config, u: nat, c: Cons, prods: seq<Prod>, out: seq<int>)
    requires Valid(cf) && |prods| == cf.groups && ConsInv(cf, u, c, prods, out)
    ensures |c.progress| == cf.groups
  {
  }

  lemma ConsumeNextInv(cf: Config, s: State, r: nat, u: nat)
    requires Valid(cf) && Inv(cf, s) && Enabled(cf, s, Consume(r, u))
    ensures Inv(cf, Next(cf, s, Consume(r, u)))
  {
    hide ProdInv, ConsInv, KeepsRight, Next, Chunks, Enabled;
    var s' := Next(cf, s, Consume(r, u));
    ConsumeEffect(cf, s, r, u);
    forall r': nat, u': nat | r' < cf.n && u' < cf.groups ensures ConsAt(cf, s', r', u') {
      assert ConsAt(cf, s, r', u');
      if r' == r && u' != u {
        ConsFrame(cf, u', s.cons[r][u'], s.prods[Source(cf, u')], s.prods[Source(cf, u')], s.out[r], s'.out[r]);
      }
    }
  }

  lemma NextInv(cf: Config, s: State, a: Action)
    requires Valid(cf) && Inv(cf, s) && Enabled(cf, s, a)
    ensures Inv(cf, Next(cf, s, a))
  {
    hide Inv, Next, Enabled;
    match a
    case Consume(r, u) => ConsumeNextInv(cf, s, r, u);
    case _ => ProducerNextInv(cf, s, a);
  }

  lemma {:induction false} RunsInv(cf: Config, s: State, trace: seq<Action>, t: State)
    requires Valid(cf) && Inv(cf, s) && Runs(cf, s, trace, t)
    ensures Inv(cf, t)
    decreases |trace|
  {
    if trace != [] {
      NextInv(cf, s, trace[0]);
      RunsInv(cf, Next(cf, s, trace[0]), trace[1..], t);
    }
  }

  // ---- the main results of one round ----

  /** Consumers never read ahead: progress stays behind publication, and a burst stays inside published data. */
  lemma NeverReadsAhead(cf: Config, s: State, trace: seq<Action>, t: State, r: nat, u: nat, q: nat)
    requires Valid(cf) && Init(cf, s) && Runs(cf, s, trace, t) && r < cf.n && u < cf.groups && q < cf.groups
    ensures Shape(cf, t) && Source(cf, u) < cf.n && |t.cons[r][u].progress| == cf.groups
    ensures var c, x := t.cons[r][u], Source(cf, u);
            && (c.progress[q] != FINISHED ==> 0 <= c.progress[q] <= t.prods[x][q].times)
            && (c.mode.Copying? && c.mode.left > 0 ==>
                  && c.g < cf.groups
                  && Burst(cf, c.mode.left) <= cf.half
                  && (Burst(cf, c.mode.left) == cf.half || Burst(cf, c.mode.left) == c.mode.left)
                  && c.mode.at + Burst(cf, c.mode.left) <= Published(cf, c.g, t.prods[x][c.g].times)
                  && forall i :: CopyFrom(cf, c) <= i < CopyFrom(cf, c) + Burst(cf, c.mode.left) ==>
                       0 <= i < |t.gva[x]| && 0 <= cf.off + i < cf.elements && t.gva[x][i] == cf.input[x][cf.off + i])
  {
    InitInv(cf, s);
    RunsInv(cf, s, trace, t);
    SourceBound(cf, u);
    var c, x := t.cons[r][u], Source(cf, u);
    assert ConsAt(cf, t, r, u);
    assert ProgressOk(cf, t.out[r], x, q, c.progress[q], t.prods[x][q].times);
    if c.mode.Copying? && c.mode.left > 0 {
      assert ProdInv(cf, x, c.g, t.prods[x][c.g], t.flags[x][c.g], t.gva[x]);
      BurstInPlace(cf, c, x, t.prods[x][c.g], t.flags[x][c.g], t.gva[x], t.out[r]);
    }
  }

  /** The outputs of rank `r` for this round's part of every rank's input. */
  ghost predicate Gathered(cf: Config, out: seq<int>)
    requires Valid(cf)
  {
    forall x: nat, j: nat :: x < cf.n && cf.off <= j < cf.off + cf.len ==> Right(cf, out, x, j)
  }

  /** When the consumers of a rank have exited, its output holds every rank's part of this round. */
  lemma ExitGathered(cf: Config, s: State, trace: seq<Action>, t: State, r: nat)
    requires Valid(cf) && Init(cf, s) && Runs(cf, s, trace, t) && r < cf.n
    requires Shape(cf, t) && forall u :: 0 <= u < cf.groups ==> t.cons[r][u].mode == Exited
    ensures Gathered(cf, t.out[r])
  {
    InitInv(cf, s);
    RunsInv(cf, s, trace, t);
    forall x: nat, j: nat | x < cf.n && cf.off <= j < cf.off + cf.len ensures Right(cf, t.out[r], x, j) {
      RowGathered(cf, t, r, x, j);
    }
  }

  lemma RowGathered(cf: Config, t: State, r: nat, x: nat, j: nat)
    requires Valid(cf) && Inv(cf, t) && r < cf.n && x < cf.n && cf.off <= j < cf.off + cf.len
    requires forall u :: 0 <= u < cf.groups ==> t.cons[r][u].mode == Exited
    ensures Right(cf, t.out[r], x, j)
  {
    var u := x * cf.perRank;
    DivMod(x, cf.perRank, 0);
    PackBound(x, cf.perRank, 0, cf.n);
    assert Source(cf, u) == x;
    var c := t.cons[r][u];
    assert ConsAt(cf, t, r, u);
    var g, e := GroupOf(cf, j - cf.off);
    assert ProgressOk(cf, t.out[r], x, g, c.progress[g], t.prods[x][g].times);
    assert c.progress[g] == FINISHED;
    assert RightAt(cf, t.out[r], x, g, e);
  }

  /** What an earlier round delivered is never damaged. */
  lemma {:induction false} RunsKeepRight(cf: Config, s: State, trace: seq<Action>, t: State, r: nat)
    requires Valid(cf) && Inv(cf, s) && Runs(cf, s, trace, t) && r < cf.n
    ensures Inv(cf, t) && KeepsRight(cf, s.out[r], t.out[r])
    decreases |trace|
  {
    hide Right;
    if trace != [] {
      var s' := Next(cf, s, trace[0]);
      NextInv(cf, s, trace[0]);
      NextKeepsRight(cf, s, trace[0], r);
      RunsKeepRight(cf, s', trace[1..], t, r);
    }
  }

  lemma NextKeepsRight(cf: Config, s: State, a: Action, r: nat)
    requires Valid(cf) && Inv(cf, s) && Enabled(cf, s, a) && r < cf.n
    ensures var s' := Next(cf, s, a);
            |s'.out| == |s.out| && KeepsRight(cf, s.out[r], s'.out[r])
  {
    if a.Consume? && a.r == r {
      var u := a.u;
      SourceBound(cf, u);
      var c, x := s.cons[r][u], Source(cf, u);
      assert ConsAt(cf, s, r, u);
      if c.g < cf.groups { assert ProdInv(cf, x, c.g, s.prods[x][c.g], s.flags[x][c.g], s.gva[x]); }
      ConsumeCons(cf, u, c, if c.g < cf.groups then s.flags[x][c.g] else 0, s.prods[x], s.gva[x], s.out[r]);
    }
  }
}
