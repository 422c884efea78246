/**
 The all-gather for small inputs: every core puts its share of the rank's input into symmetric
 memory, the cores of the rank synchronise, and each core then signals and waits for the core of
 the same number on the rank it reads from. One signal stands for the whole rank, because it
 comes after the synchronisation.
 */
module AllGatherSmall {
  import opened Arith
  import AG = AllGather

  /** `n * perRank` cores per rank; core `u` reads from rank `u / perRank`. */
  datatype Config = Config(n: nat, perRank: nat, elements: nat, magic: int, input: seq<seq<int>>)

  ghost predicate Valid(cf: Config)
  {
    && cf.n > 0 && cf.perRank > 0 && |cf.input| == cf.n
    && forall x :: 0 <= x < cf.n ==> |cf.input[x]| == cf.elements
  }

  function Cores(cf: Config): nat
  {
    MulLe(0, cf.n, cf.perRank);
    cf.n * cf.perRank
  }

  /** `elements` split into `parts` shares, the last one taking the remainder. */
  function Split(cf: Config, parts: nat): AG.Config
  {
    AG.Config(cf.n, parts, cf.perRank, cf.elements, 0, cf.elements, 1, 1, 0, cf.input)
  }

  /** The rank core `u` reads from. */
  function Origin(cf: Config, u: nat): nat
    requires cf.perRank > 0
  {
    u / cf.perRank
  }

  datatype Pc = Start | Putting(pending: set<nat>) | Quieted | Synced | Signalled | Waited | Done

  function Level(pc: Pc): nat
  {
    match pc
    case Start => 0
    case Putting(_) => 1
    case Quieted => 2
    case Synced => 3
    case Signalled => 4
    case Waited => 5
    case Done => 6
  }

  datatype State = State(flags: seq<seq<int>>, gva: seq<seq<int>>, out: seq<seq<int>>, pcs: seq<seq<Pc>>)

  datatype Action = Step(r: nat, u: nat) | Land(r: nat, u: nat, e: nat)

  predicate Shape(cf: Config, s: State)
  {
    && |s.flags| == |s.gva| == |s.out| == |s.pcs| == cf.n
    && (forall r :: 0 <= r < cf.n ==> |s.flags[r]| == |s.pcs[r]| == Cores(cf))
    && (forall r :: 0 <= r < cf.n ==> |s.gva[r]| >= cf.elements && |s.out[r]| == cf.n * cf.elements)
  }

  predicate InShare(cf: Config, u: nat, e: nat)
    requires u < Cores(cf)
  {
    var sp := Split(cf, Cores(cf));
    AG.GroupOffset(sp, u) <= e < AG.GroupOffset(sp, u) + AG.GroupLen(sp, u)
  }

  function Share(cf: Config, u: nat): set<nat>
    requires u < Cores(cf)
  {
    set e: nat | e < cf.elements && InShare(cf, u, e)
  }

  predicate Enabled(cf: Config, s: State, a: Action)
    requires Shape(cf, s) && cf.perRank > 0
  {
    && a.r < cf.n && a.u < Cores(cf)
    && match a
       case Land(r, u, e) => s.pcs[r][u].Putting? && e in s.pcs[r][u].pending
       case Step(r, u) =>
         match s.pcs[r][u]
         case Putting(pending) => pending == {}
         case Quieted => forall v :: 0 <= v < Cores(cf) ==> Level(s.pcs[r][v]) >= 2
         case Signalled => Origin(cf, u) < cf.n && s.flags[Origin(cf, u)][u] == cf.magic
         case Done => false
         case _ => true
  }

  function NextPc(cf: Config, u: nat, pc: Pc): Pc
    requires u < Cores(cf)
  {
    match pc
    case Start => Putting(Share(cf, u))
    case Putting(_) => Quieted
    case Quieted => Synced
    case Synced => Signalled
    case Signalled => Waited
    case _ => Done
  }

  /** The second step of the kernel: copy one share of rank `u / perRank`'s data into the output. */
  function Get(cf: Config, u: nat, gva: seq<int>, out: seq<int>): seq<int>
    requires cf.perRank > 0
  {
    var x, part, sp := Origin(cf, u), u % cf.perRank, Split(cf, cf.perRank);
    var from, m := AG.GroupOffset(sp, part), AG.GroupLen(sp, part);
    var at := x * cf.elements + from;
    if 0 <= at && at + m <= |out| && from + m <= |gva| then AG.Replace(out, at, gva, from, m) else out
  }

  function Next(cf: Config, s: State, a: Action): State
    requires Valid(cf) && Shape(cf, s) && Enabled(cf, s, a)
  {
    match a
    case Land(r, u, e) =>
      var pc := s.pcs[r][u];
      s.(pcs := s.pcs[r := s.pcs[r][u := Putting(pc.pending - {e})]],
         gva := if e < cf.elements then s.gva[r := s.gva[r][e := cf.input[r][e]]] else s.gva)
    case Step(r, u) =>
      var pc, x := s.pcs[r][u], Origin(cf, u);
      s.(pcs := s.pcs[r := s.pcs[r][u := NextPc(cf, u, pc)]],
         flags := if pc == Synced then s.flags[r := s.flags[r][u := cf.magic]] else s.flags,
         out := if pc == Waited && x < cf.n then s.out[r := Get(cf, u, s.gva[x], s.out[r])] else s.out)
  }

  ghost predicate Runs(cf: Config, s: State, trace: seq<Action>, t: State)
    requires Valid(cf)
    decreases |trace|
  {
    if trace == [] then s == t
    else Shape(cf, s) && Enabled(cf, s, trace[0]) && Runs(cf, Next(cf, s, trace[0]), trace[1..], t)
  }

  ghost predicate Init(cf: Config, s: State)
  {
    && Shape(cf, s)
    && forall r, u :: 0 <= r < cf.n && 0 <= u < Cores(cf) ==> s.pcs[r][u] == Start && s.flags[r][u] != cf.magic
  }

  // ---- the invariant ----

  ghost predicate ShareOk(cf: Config, x: nat, u: nat, pc: Pc, gva: seq<int>)
    requires Valid(cf) && x < cf.n && u < Cores(cf)
  {
    Level(pc) >= 1 ==>
      forall e: nat :: e < cf.elements && InShare(cf, u, e) && !(pc.Putting? && e in pc.pending) ==>
             e < |gva| && gva[e] == cf.input[x][e]
  }

  ghost predicate OutOk(cf: Config, out: seq<int>, u: nat)
    requires Valid(cf) && u < Cores(cf)
  {
    var x, part, sp := Origin(cf, u), u % cf.perRank, Split(cf, cf.perRank);
    x < cf.n && forall e: nat :: AG.GroupOffset(sp, part) <= e < AG.GroupOffset(sp, part) + AG.GroupLen(sp, part) ==>
      Held(cf, out, x, e)
  }

  ghost predicate Held(cf: Config, out: seq<int>, x: nat, e: nat)
    requires Valid(cf)
  {
    x < cf.n && e < cf.elements && 0 <= x * cf.elements + e < |out| && out[x * cf.elements + e] == cf.input[x][e]
  }

  ghost predicate SharesInv(cf: Config, s: State)
    requires Valid(cf) && Shape(cf, s)
  {
    forall r: nat, u: nat :: r < cf.n && u < Cores(cf) ==> ShareOk(cf, r, u, s.pcs[r][u], s.gva[r])
  }

  /** Past the synchronisation all cores of the rank have put; a flag is set exactly by its core's signal. */
  ghost predicate OrderInv(cf: Config, s: State)
    requires Valid(cf) && Shape(cf, s)
  {
    && (forall r: nat, u: nat, v: nat :: r < cf.n && u < Cores(cf) && v < Cores(cf) && Level(s.pcs[r][u]) >= 3 ==>
        Level(s.pcs[r][v]) >= 2)
    && (forall r: nat, u: nat :: r < cf.n && u < Cores(cf) ==> (s.flags[r][u] == cf.magic <==> Level(s.pcs[r][u]) >= 4))
    && (forall r: nat, u: nat :: r < cf.n && u < Cores(cf) && Level(s.pcs[r][u]) >= 5 ==>
          Origin(cf, u) < cf.n && Level(s.pcs[Origin(cf, u)][u]) >= 4)
  }

  ghost predicate OutInv(cf: Config, s: State)
    requires Valid(cf) && Shape(cf, s)
  {
    forall r: nat, u: nat :: r < cf.n && u < Cores(cf) && s.pcs[r][u] == Done ==> OutOk(cf, s.out[r], u)
  }

  ghost predicate Inv(cf: Config, s: State)
    requires Valid(cf)
  {
    Shape(cf, s) && SharesInv(cf, s) && OrderInv(cf, s) && OutInv(cf, s)
  }

  /** Once a core of rank `x` is past the synchronisation, all of the rank's input is in place. */
  lemma AllInPlace(cf: Config, s: State, x: nat, u: nat, e: nat)
    requires Valid(cf) && Inv(cf, s) && x < cf.n && u < Cores(cf) && Level(s.pcs[x][u]) >= 3 && e < cf.elements
    ensures s.gva[x][e] == cf.input[x][e]
  {
    var sp := Split(cf, Cores(cf));
    MulAtLeast(cf.n, cf.perRank);
    var v, rest := AG.GroupOf(sp, e);
    assert InShare(cf, v, e);
    assert ShareOk(cf, x, v, s.pcs[x][v], s.gva[x]);
  }

  /** Copying right data keeps what was right and makes the share right. */
  lemma GetRight(cf: Config, u: nat, gva: seq<int>, out: seq<int>)
    requires Valid(cf) && u < Cores(cf) && |out| == cf.n * cf.elements && |gva| >= cf.elements && Origin(cf, u) < cf.n
    requires forall e :: 0 <= e < cf.elements ==> gva[e] == cf.input[Origin(cf, u)][e]
    ensures var out' := Get(cf, u, gva, out);
            && |out'| == |out| && OutOk(cf, out', u)
            && forall y: nat, e: nat :: Held(cf, out, y, e) ==> Held(cf, out', y, e)
  {
    hide AG.GroupOffset, AG.GroupLen, AG.Replace, Held;
    var x, part, sp := Origin(cf, u), u % cf.perRank, Split(cf, cf.perRank);
    var from, m, out' := AG.GroupOffset(sp, part), AG.GroupLen(sp, part), Get(cf, u, gva, out);
    AG.GroupBound(sp, part);
    Rows(x, x, cf.n, cf.elements);
    assert out' == AG.Replace(out, x * cf.elements + from, gva, from, m);
    forall y: nat, e: nat | Held(cf, out, y, e) || (y == x && from <= e < from + m) ensures Held(cf, out', y, e) {
      HeldAfter(cf, x, y, from, m, e, gva, out);
    }
    Reads(x * cf.elements, x * cf.elements, cf.elements, from, m, 0, gva, out);
  }

  lemma HeldAfter(cf: Config, x: nat, y: nat, from: nat, m: nat, e: nat, gva: seq<int>, out: seq<int>)
    requires Valid(cf) && |out| == cf.n * cf.elements && cf.elements <= |gva| && x < cf.n && from + m <= cf.elements
    requires 0 <= x * cf.elements && x * cf.elements + cf.elements <= |out|
    requires forall e :: 0 <= e < cf.elements ==> gva[e] == cf.input[x][e]
    requires Held(cf, out, y, e) || (y == x && from <= e < from + m)
    ensures Held(cf, AG.Replace(out, x * cf.elements + from, gva, from, m), y, e)
  {
    hide AG.Replace;
    Rows(x, y, cf.n, cf.elements);
    Reads(x * cf.elements, y * cf.elements, cf.elements, from, m, e, gva, out);
  }

  /** Rows of a matrix are apart. */
  lemma Rows(x: nat, y: nat, n: nat, len: nat)
    requires x < n && y < n
    ensures 0 <= x * len && x * len + len <= n * len && 0 <= y * len && y * len + len <= n * len
    ensures x == y || x * len + len <= y * len || y * len + len <= x * len
  {
    MulLe(0, x, len);
    MulLe(0, y, len);
    MulLe(x + 1, n, len);
    MulLe(y + 1, n, len);
    if x < y { MulLe(x + 1, y, len); } else if y < x { MulLe(y + 1, x, len); }
    Distribute(x + 1, x, len);
    Distribute(y + 1, y, len);
  }

  /** What the slot at `row + e` of the output holds after a copy into the row at `base`. */
  lemma Reads(base: nat, row: nat, len: nat, from: nat, m: nat, e: nat, gva: seq<int>, out: seq<int>)
    requires from + m <= len <= |gva| && base + len <= |out| && row + len <= |out|
    requires base == row || base + len <= row || row + len <= base
    ensures var out' := AG.Replace(out, base + from, gva, from, m);
            && |out'| == |out|
            && (e < len ==> out'[row + e] == if base == row && from <= e < from + m then gva[e] else out[row + e])
  {
  }

  // ---- every step keeps the invariant ----

  lemma LandEffect(cf: Config, s: State, r: nat, u: nat, e: nat)
    requires Valid(cf) && Shape(cf, s) && Enabled(cf, s, Land(r, u, e))
    ensures var s' := Next(cf, s, Land(r, u, e));
            && Shape(cf, s') && s'.flags == s.flags && s'.out == s.out
            && s.pcs[r][u].Putting? && s'.pcs[r][u] == Putting(s.pcs[r][u].pending - {e})
            && (forall o, v :: 0 <= o < cf.n && 0 <= v < Cores(cf) && !(o == r && v == u) ==>
                s'.pcs[o][v] == s.pcs[o][v])
            && (forall o :: 0 <= o < cf.n && o != r ==> s'.gva[o] == s.gva[o])
            && s'.gva[r] == if e < cf.elements then s.gva[r][e := cf.input[r][e]] else s.gva[r]
  {
    hide Cores;
  }

  lemma LandShares(cf: Config, s: State, r: nat, u: nat, e: nat)
    requires Valid(cf) && Inv(cf, s) && Enabled(cf, s, Land(r, u, e))
    ensures Shape(cf, Next(cf, s, Land(r, u, e))) && SharesInv(cf, Next(cf, s, Land(r, u, e)))
  {
    hide InShare, OutInv, OrderInv, Cores, Next;
    var s' := Next(cf, s, Land(r, u, e));
    LandEffect(cf, s, r, u, e);
    forall o: nat, v: nat | o < cf.n && v < Cores(cf) ensures ShareOk(cf, o, v, s'.pcs[o][v], s'.gva[o]) {
      assert ShareOk(cf, o, v, s.pcs[o][v], s.gva[o]);
    }
  }

  lemma LandInv(cf: Config, s: State, r: nat, u: nat, e: nat)
    requires Valid(cf) && Inv(cf, s) && Enabled(cf, s, Land(r, u, e))
    ensures Inv(cf, Next(cf, s, Land(r, u, e)))
  {
    hide OutOk, Cores, Next, SharesInv, OrderInv, Enabled;
    LandEffect(cf, s, r, u, e);
    LandShares(cf, s, r, u, e);
    SameOrder(cf, s, Next(cf, s, Land(r, u, e)));
  }

  /** The order of the cores depends on their levels and the flags only. */
  lemma SameOrder(cf: Config, s: State, s': State)
    requires Valid(cf) && Shape(cf, s) && Shape(cf, s') && OrderInv(cf, s) && s'.flags == s.flags
    requires forall o, v :: 0 <= o < cf.n && 0 <= v < Cores(cf) ==> Level(s'.pcs[o][v]) == Level(s.pcs[o][v])
    ensures OrderInv(cf, s')
  {
    hide Level, Cores, Origin;
    forall r: nat, u: nat | r < cf.n && u < Cores(cf) && Level(s'.pcs[r][u]) >= 5
      ensures Origin(cf, u) < cf.n && Level(s'.pcs[Origin(cf, u)][u]) >= 4
    {
      assert Level(s.pcs[r][u]) >= 5;
    }
  }

  lemma StepPc(cf: Config, s: State, r: nat, u: nat)
    requires Valid(cf) && Shape(cf, s) && Enabled(cf, s, Step(r, u))
    ensures var s' := Next(cf, s, Step(r, u));
            && Shape(cf, s') && s'.gva == s.gva && s'.pcs[r][u] == NextPc(cf, u, s.pcs[r][u])
            && Level(s'.pcs[r][u]) == Level(s.pcs[r][u]) + 1
            && (forall o, v :: 0 <= o < cf.n && 0 <= v < Cores(cf) && !(o == r && v == u) ==>
                  s'.pcs[o][v] == s.pcs[o][v] && s'.flags[o][v] == s.flags[o][v])
            && s'.flags[r][u] == (if s.pcs[r][u] == Synced then cf.magic else s.flags[r][u])
            && (forall o :: 0 <= o < cf.n && o != r ==> s'.out[o] == s.out[o])
            && (s.pcs[r][u] != Waited ==> s'.out == s.out)
            && (s.pcs[r][u] == Waited && Origin(cf, u) < cf.n ==>
                s'.out[r] == Get(cf, u, s.gva[Origin(cf, u)], s.out[r]))
  {
    hide Share;
    if s.pcs[r][u] == Waited && Origin(cf, u) < cf.n {
      GetLength(cf, u, s.gva[Origin(cf, u)], s.out[r]);
    }
  }

  lemma GetLength(cf: Config, u: nat, gva: seq<int>, out: seq<int>)
    requires cf.perRank > 0
    ensures |Get(cf, u, gva, out)| == |out|
  {
    hide AG.GroupOffset, AG.GroupLen;
  }

  lemma StepOut(cf: Config, s: State, r: nat, u: nat)
    requires Valid(cf) && Inv(cf, s) && Enabled(cf, s, Step(r, u))
    ensures Shape(cf, Next(cf, s, Step(r, u))) && OutInv(cf, Next(cf, s, Step(r, u)))
  {
    hide Next, Get, Cores, OutOk, SharesInv;
    var s' := Next(cf, s, Step(r, u));
    StepPc(cf, s, r, u);
    var x := Origin(cf, u);
    if s.pcs[r][u] == Waited {
      forall e | 0 <= e < cf.elements ensures s.gva[x][e] == cf.input[x][e] { AllInPlace(cf, s, x, u, e); }
      GetRight(cf, u, s.gva[x], s.out[r]);
    }
    forall o: nat, v: nat | o < cf.n && v < Cores(cf) && s'.pcs[o][v] == Done ensures OutOk(cf, s'.out[o], v) {
      if s.pcs[o][v] == Done && o == r && s.pcs[r][u] == Waited {
        OutKept(cf, s.out[r], s'.out[r], v);
      }
    }
  }

  lemma OutKept(cf: Config, out: seq<int>, out': seq<int>, v: nat)
    requires Valid(cf) && v < Cores(cf) && OutOk(cf, out, v)
    requires forall y: nat, e: nat :: Held(cf, out, y, e) ==> Held(cf, out', y, e)
    ensures OutOk(cf, out', v)
  {
    hide Held, AG.GroupOffset, AG.GroupLen, Cores;
  }

  lemma StepShares(cf: Config, s: State, r: nat, u: nat)
    requires Valid(cf) && Inv(cf, s) && Enabled(cf, s, Step(r, u))
    ensures Shape(cf, Next(cf, s, Step(r, u))) && SharesInv(cf, Next(cf, s, Step(r, u)))
  {
    hide Next, OrderInv, OutInv, InShare;
    var s' := Next(cf, s, Step(r, u));
    StepPc(cf, s, r, u);
    forall o: nat, v: nat | o < cf.n && v < Cores(cf) ensures ShareOk(cf, o, v, s'.pcs[o][v], s'.gva[o]) {
      assert ShareOk(cf, o, v, s.pcs[o][v], s.gva[o]);
    }
  }

  lemma StepInv(cf: Config, s: State, r: nat, u: nat)
    requires Valid(cf) && Inv(cf, s) && Enabled(cf, s, Step(r, u))
    ensures Inv(cf, Next(cf, s, Step(r, u)))
  {
    hide Next, OutInv, SharesInv, Cores, NextPc;
    StepPc(cf, s, r, u);
    StepOut(cf, s, r, u);
    StepShares(cf, s, r, u);
  }

  lemma {:induction false} RunsInv(cf: Config, s: State, trace: seq<Action>, t: State)
    requires Valid(cf) && Inv(cf, s) && Runs(cf, s, trace, t)
    ensures Inv(cf, t)
    decreases |trace|
  {
    hide Inv, Next;
    if trace != [] {
      var a := trace[0];
      if a.Land? { LandInv(cf, s, a.r, a.u, a.e); } else { StepInv(cf, s, a.r, a.u); }
      RunsInv(cf, Next(cf, s, a), trace[1..], t);
    }
  }

  // ---- results ----

  ghost predicate AllDone(cf: Config, s: State)
    requires Shape(cf, s)
  {
    forall r, u :: 0 <= r < cf.n && 0 <= u < Cores(cf) ==> s.pcs[r][u] == Done
  }

  /** When all cores are done, every rank's output is every rank's whole input. */
  lemma SmallCorrect(cf: Config, s: State, trace: seq<Action>, t: State, r: nat, x: nat, e: nat)
    requires Valid(cf) && Init(cf, s) && Runs(cf, s, trace, t) && Shape(cf, t) && AllDone(cf, t)
    requires r < cf.n && x < cf.n && e < cf.elements
    ensures 0 <= x * cf.elements + e < |t.out[r]| && t.out[r][x * cf.elements + e] == cf.input[x][e]
  {
    hide AG.GroupOffset, AG.GroupLen, Inv, Init;
    InitInv(cf, s);
    RunsInv(cf, s, trace, t);
    var part, rest := AG.GroupOf(Split(cf, cf.perRank), e);
    var u := x * cf.perRank + part;
    DivMod(x, cf.perRank, part);
    PackBound(x, cf.perRank, part, cf.n);
    DoneOut(cf, t, r, u);
    assert Held(cf, t.out[r], x, e);
  }

  lemma InitInv(cf: Config, s: State)
    requires Valid(cf) && Init(cf, s)
    ensures Inv(cf, s)
  {
  }

  lemma DoneOut(cf: Config, t: State, r: nat, u: nat)
    requires Valid(cf) && Inv(cf, t) && r < cf.n && u < Cores(cf) && t.pcs[r][u] == Done
    ensures OutOk(cf, t.out[r], u)
  {
  }

  /** The cores never wait for each other in a circle: some core can go on until all are done. */
  lemma Progress(cf: Config, s: State) returns (a: Action)
    requires Valid(cf) && Inv(cf, s) && !AllDone(cf, s)
    ensures Enabled(cf, s, a)
  {
    hide ShareOk, OutOk;
    var r, u :| 0 <= r < cf.n && 0 <= u < Cores(cf) && s.pcs[r][u] != Done;
    if early :| 0 <= early < cf.n && exists v :: 0 <= v < Cores(cf) && Level(s.pcs[early][v]) < 4 {
      a := RankProgress(cf, s, early);
    } else {
      UnpackBound(u, cf.perRank, cf.n);
      assert Level(s.pcs[Origin(cf, u)][u]) >= 4;
      a := Step(r, u);
    }
  }

  /** The cores of a rank reach their signals without help from other ranks. */
  lemma RankProgress(cf: Config, s: State, r: nat) returns (a: Action)
    requires Valid(cf) && Inv(cf, s) && r < cf.n && exists v :: 0 <= v < Cores(cf) && Level(s.pcs[r][v]) < 4
    ensures Enabled(cf, s, a)
  {
    hide ShareOk, OutOk;
    if v :| 0 <= v < Cores(cf) && Level(s.pcs[r][v]) < 2 {
      a := Step(r, v);
      if s.pcs[r][v].Putting? {
        if e :| e in s.pcs[r][v].pending { a := Land(r, v, e); }
      }
    } else {
      var v :| 0 <= v < Cores(cf) && Level(s.pcs[r][v]) < 4;
      a := Step(r, v);
    }
  }

  // ---- the core's own arithmetic ----

  /** The first step's put: where the core's share starts and how many elements it has. */
  method PutShare(cf: Config, u: nat) returns (offset: int, count: int)
    requires Valid(cf) && u < Cores(cf)
    ensures 0 <= offset && 0 <= count && offset + count <= cf.elements
    ensures forall e: nat :: e in Share(cf, u) <==> offset <= e < offset + count
  {
    var cores := Cores(cf);
    AG.ShareExact(Split(cf, cores), u);
    AG.GroupBound(Split(cf, cores), u);
    count := cf.elements / cores;
    offset := u * count;
    if u == cores - 1 { count := cf.elements - count * u; }
  }

  /** `dst'` is `dst` after a copy of `m` elements of `src`. */
  ghost predicate Copied(dst: seq<int>, dst': seq<int>, at: int, src: seq<int>, from: int, m: int)
    requires |dst| == |dst'| && 0 <= from && from + m <= |src|
  {
    forall i :: 0 <= i < |dst| ==> dst'[i] == if at <= i < at + m then src[from + (i - at)] else dst[i]
  }

  lemma CopiedIs(dst: seq<int>, dst': seq<int>, at: nat, src: seq<int>, from: nat, m: nat)
    requires |dst| == |dst'| && at + m <= |dst| && from + m <= |src| && Copied(dst, dst', at, src, from, m)
    ensures dst' == AG.Replace(dst, at, src, from, m)
  {
  }

  /** The range a core's get copies lies in its rank's row of the output. */
  lemma GetRange(cf: Config, u: nat)
    requires Valid(cf) && u < Cores(cf)
    ensures var x, part, q := u / cf.perRank, u % cf.perRank, cf.elements / cf.perRank;
            var m := if part == cf.perRank - 1 then cf.elements - q * part else q;
            && 0 <= x < cf.n && part < cf.perRank && 0 <= part * q && 0 <= m && part * q + m <= cf.elements
            && 0 <= x * cf.elements && x * cf.elements + cf.elements <= cf.n * cf.elements
            && AG.GroupOffset(Split(cf, cf.perRank), part) == part * q && AG.GroupLen(Split(cf, cf.perRank), part) == m
  {
    var x, part, q := u / cf.perRank, u % cf.perRank, cf.elements / cf.perRank;
    UnpackBound(u, cf.perRank, cf.n);
    AG.ShareExact(Split(cf, cf.perRank), part);
    AG.GroupBound(Split(cf, cf.perRank), part);
    Rows(x, x, cf.n, cf.elements);
  }

  lemma GetCopies(cf: Config, u: nat, out: seq<int>, gva: seq<int>, out': seq<int>, at: nat, from: nat, m: nat)
    requires Valid(cf) && u < Cores(cf) && |gva| >= cf.elements && |out| == |out'| == cf.n * cf.elements
    requires var sp := Split(cf, cf.perRank);
             u % cf.perRank < cf.perRank && from == AG.GroupOffset(sp, u % cf.perRank)
             && m == AG.GroupLen(sp, u % cf.perRank)
    requires at == u / cf.perRank * cf.elements + from && at + m <= |out| && from + m <= |gva|
    requires Copied(out, out', at, gva, from, m)
    ensures Get(cf, u, gva, out) == out'
  {
    hide AG.GroupOffset, AG.GroupLen, Copied, AG.Replace, Cores;
    CopiedIs(out, out', at, gva, from, m);
  }

  method CopyInto(output: array<int>, at: nat, gva: seq<int>, from: nat, count: nat)
    requires at + count <= output.Length && from + count <= |gva|
    modifies output
    ensures Copied(old(output[..]), output[..], at, gva, from, count)
  {
    forall i | at <= i < at + count { output[i] := gva[from + (i - at)]; }
  }

  /** The second step's get, in place: core `u` copies its part of rank `u / perRank`'s data. */
  method GetShare(cf: Config, u: nat, gva: seq<int>, output: array<int>)
    requires Valid(cf) && u < Cores(cf) && |gva| >= cf.elements && output.Length == cf.n * cf.elements
    modifies output
    ensures output[..] == Get(cf, u, gva, old(output[..]))
  {
    hide Get, Copied, AG.GroupOffset, AG.GroupLen;
    GetRange(cf, u);
    var x, part := u / cf.perRank, u % cf.perRank;
    var count := cf.elements / cf.perRank;
    var from := part * count;
    if part == cf.perRank - 1 { count := cf.elements - count * part; }
    var at := x * cf.elements + from;
    CopyInto(output, at, gva, from, count);
    GetCopies(cf, u, old(output[..]), gva, output[..], at, from, count);
  }

  // ---- every run is bounded and can be completed ----

  function CoreWork(cf: Config, u: nat, pc: Pc): nat
    requires u < Cores(cf)
  {
    match pc
    case Start => |Share(cf, u)| + 7
    case Putting(pending) => |pending| + 6
    case Quieted => 4
    case Synced => 3
    case Signalled => 2
    case Waited => 1
    case Done => 0
  }

  function RankWork(cf: Config, pcs: seq<Pc>): seq<int>
    requires |pcs| == Cores(cf)
  {
    seq(|pcs|, u requires 0 <= u < |pcs| => CoreWork(cf, u, pcs[u]))
  }

  function RanksWork(cf: Config, s: State): seq<int>
    requires Shape(cf, s)
  {
    seq(cf.n, r requires 0 <= r < cf.n => Sum(RankWork(cf, s.pcs[r])))
  }

  /** An upper bound on the number of steps left. */
  function Work(cf: Config, s: State): int
    requires Shape(cf, s)
  {
    Sum(RanksWork(cf, s))
  }

  lemma WorkNonNegative(cf: Config, s: State)
    requires Shape(cf, s)
    ensures Work(cf, s) >= 0
  {
    forall r | 0 <= r < cf.n ensures RanksWork(cf, s)[r] >= 0 { SumNonNegative(RankWork(cf, s.pcs[r])); }
    SumNonNegative(RanksWork(cf, s));
  }

  /** A step of one core makes its own work smaller and leaves all other positions alone. */
  lemma CoreStepWork(cf: Config, s: State, s': State, r: nat, u: nat)
    requires Shape(cf, s) && Shape(cf, s') && r < cf.n && u < Cores(cf)
    requires forall o, v :: 0 <= o < cf.n && 0 <= v < Cores(cf) && !(o == r && v == u) ==> s'.pcs[o][v] == s.pcs[o][v]
    requires CoreWork(cf, u, s'.pcs[r][u]) < CoreWork(cf, u, s.pcs[r][u])
    ensures Work(cf, s') < Work(cf, s)
  {
    hide CoreWork, Sum, Cores;
    var v := CoreWork(cf, u, s'.pcs[r][u]);
    assert RankWork(cf, s'.pcs[r]) == RankWork(cf, s.pcs[r])[u := v];
    SumUpdate(RankWork(cf, s.pcs[r]), u, v);
    forall o | 0 <= o < cf.n && o != r ensures s'.pcs[o] == s.pcs[o] {}
    assert RanksWork(cf, s') == RanksWork(cf, s)[r := Sum(RankWork(cf, s'.pcs[r]))];
    SumUpdate(RanksWork(cf, s), r, Sum(RankWork(cf, s'.pcs[r])));
  }

  lemma NextWork(cf: Config, s: State, a: Action)
    requires Valid(cf) && Inv(cf, s) && Enabled(cf, s, a)
    ensures Inv(cf, Next(cf, s, a)) && Work(cf, Next(cf, s, a)) < Work(cf, s)
  {
    hide SharesInv, OrderInv, OutInv, Next, Cores, Share, Work;
    match a {
      case Land(r, u, e) =>
        LandInv(cf, s, r, u, e);
        LandEffect(cf, s, r, u, e);
        CoreStepWork(cf, s, Next(cf, s, a), r, u);
      case Step(r, u) =>
        StepInv(cf, s, r, u);
        StepPc(cf, s, r, u);
        CoreStepWork(cf, s, Next(cf, s, a), r, u);
    }
  }

  lemma {:induction false} RunsBounded(cf: Config, s: State, trace: seq<Action>, t: State)
    requires Valid(cf) && Inv(cf, s) && Runs(cf, s, trace, t)
    ensures |trace| <= Work(cf, s)
    decreases |trace|
  {
    hide SharesInv, OrderInv, OutInv, Next, Work;
    WorkNonNegative(cf, s);
    if trace != [] {
      NextWork(cf, s, trace[0]);
      RunsBounded(cf, Next(cf, s, trace[0]), trace[1..], t);
    }
  }

  /** Every reachable state has a continuation in which all cores are done. */
  lemma {:induction false} Completes(cf: Config, s: State) returns (trace: seq<Action>, t: State)
    requires Valid(cf) && Inv(cf, s)
    ensures Runs(cf, s, trace, t) && Shape(cf, t) && AllDone(cf, t)
    decreases Work(cf, s)
  {
    hide SharesInv, OrderInv, OutInv, Next, Work, Enabled, AllDone;
    if AllDone(cf, s) { return [], s; }
    var a := Progress(cf, s);
    NextWork(cf, s, a);
    WorkNonNegative(cf, Next(cf, s, a));
    var rest;
    rest, t := Completes(cf, Next(cf, s, a));
    trace := [a] + rest;
    assert trace[1..] == rest;
  }
}
