/**
 The combine kernels as one state machine: every core first runs its send script, then waits
 for, reduces and resets the tokens it owns, in any interleaving of ranks, cores and channels.
 */
module Combine {
  import opened Arith
  import opened Routing
  import opened Shmem
  import opened CombineScript

  /** The floating-point steps of the reduction, left uninterpreted. */
  datatype Algebra = Algebra(zero: int, step: (int, int, int) -> int, narrow: int -> int)

  /** A launch: `planes[r][a][le]` is the channel core `a` of rank `r` uses for local expert `le`. */
  datatype Setup = Setup(j: Job, planes: seq<seq<Planes>>, scales: seq<seq<int>>, alg: Algebra, h: nat)

  ghost predicate ValidSetup(su: Setup)
  {
    && ValidJob(su.j)
    && |su.planes| == su.j.rt.n && |su.scales| == su.j.rt.n
    && (forall r :: 0 <= r < su.j.rt.n ==> |su.planes[r]| == su.j.rt.n && |su.scales[r]| == Flats(su.j.rt))
    && (forall r, a :: 0 <= r < su.j.rt.n && 0 <= a < su.j.rt.n ==> |su.planes[r][a]| == su.j.rt.experts)
  }

  function ScriptsOf(su: Setup): Scripts
    requires ValidSetup(su)
  {
    seq(su.j.rt.n, r requires 0 <= r < su.j.rt.n =>
      seq(su.j.rt.n, a requires 0 <= a < su.j.rt.n => Script(su.j, r, a, su.planes[r][a])))
  }

  datatype Step = Waiting(i: nat) | Reducing | Resetting(i: nat)

  datatype Reader = Reader(token: nat, step: Step)

  datatype State = State(net: Net, readers: seq<seq<Reader>>, xOut: seq<seq<Val>>)

  datatype Action = Issue(c: Id) | Land(c: Id, o: Op) | Collect(c: Id)

  // ---- the reduction ----

  function Elem(row: Val, c: nat): int
  {
    if c < |row| then row[c] else 0
  }

  /** The accumulator of column `c` after the first `m` topK results. */
  function Fold(su: Setup, o: nat, token: nat, rows: seq<Val>, c: nat, m: nat): int
    requires ValidSetup(su) && o < su.j.rt.n && token < su.j.rt.bs && m <= |rows| == su.j.rt.k
    decreases m
  {
    if m == 0 then su.alg.zero
    else
      var acc := Fold(su, o, token, rows, c, m - 1);
      PackBound(token, su.j.rt.k, m - 1, su.j.rt.bs);
      var slot := token * su.j.rt.k + (m - 1);
      if su.j.rt.ids[o][slot] < su.j.rt.n * su.j.rt.experts
      then su.alg.step(acc, Elem(rows[m - 1], c), su.scales[o][slot])
      else acc
  }

  /** The left fold of the reduction step over (element, scale) pairs, in order. */
  function Weighted(alg: Algebra, pairs: seq<(int, int)>): int
  {
    if pairs == [] then alg.zero
    else
      var last := pairs[|pairs| - 1];
      alg.step(Weighted(alg, pairs[..|pairs| - 1]), last.0, last.1)
  }

  /** The pairs of column `c` of a token: its topK elements with their scales. */
  function ColumnPairs(su: Setup, o: nat, token: nat, rows: seq<Val>, c: nat, m: nat): (pairs: seq<(int, int)>)
    requires ValidSetup(su) && o < su.j.rt.n && token < su.j.rt.bs && m <= |rows| == su.j.rt.k
    requires forall i :: 0 <= i < m ==> c < |rows[i]|
    ensures |pairs| == m
  {
    seq(m, i requires 0 <= i < m =>
      (PackBound(token, su.j.rt.k, i, su.j.rt.bs); (rows[i][c], su.scales[o][token * su.j.rt.k + i])))
  }

  lemma {:induction false} FoldIsWeighted(su: Setup, o: nat, token: nat, rows: seq<Val>, c: nat, m: nat)
    requires ValidSetup(su) && o < su.j.rt.n && token < su.j.rt.bs && m <= |rows| == su.j.rt.k
    requires forall i :: 0 <= i < m ==> c < |rows[i]|
    ensures Fold(su, o, token, rows, c, m) == Weighted(su.alg, ColumnPairs(su, o, token, rows, c, m))
  {
    if m > 0 {
      FoldIsWeighted(su, o, token, rows, c, m - 1);
      PackBound(token, su.j.rt.k, m - 1, su.j.rt.bs);
      var pairs := ColumnPairs(su, o, token, rows, c, m);
      assert pairs[..m - 1] == ColumnPairs(su, o, token, rows, c, m - 1);
    }
  }

  /** Column `c` of a reduced token is the narrowed fold of column `c` of its rows, with the token's own scales. */
  ghost predicate Columns(su: Setup, o: nat, token: nat, rows: seq<Val>, out: Val)
    requires ValidSetup(su) && o < su.j.rt.n && token < su.j.rt.bs && |rows| == su.j.rt.k
  {
    && |out| == su.h
    && ((forall i :: 0 <= i < su.j.rt.k ==> |rows[i]| == su.h) ==>
          forall c: nat :: c < su.h ==>
            out[c] == su.alg.narrow(Weighted(su.alg, ColumnPairs(su, o, token, rows, c, su.j.rt.k))))
  }

  lemma ReduceColumns(su: Setup, o: nat, token: nat, rows: seq<Val>)
    requires ValidSetup(su) && o < su.j.rt.n && token < su.j.rt.bs && |rows| == su.j.rt.k
    ensures Columns(su, o, token, rows, ReduceRow(su, o, token, rows))
  {
    if forall i :: 0 <= i < su.j.rt.k ==> |rows[i]| == su.h {
      forall c: nat | c < su.h
        ensures ReduceRow(su, o, token, rows)[c]
                == su.alg.narrow(Weighted(su.alg, ColumnPairs(su, o, token, rows, c, su.j.rt.k)))
      {
        FoldIsWeighted(su, o, token, rows, c, su.j.rt.k);
      }
    }
  }

  function ReduceRow(su: Setup, o: nat, token: nat, rows: seq<Val>): Val
    requires ValidSetup(su) && o < su.j.rt.n && token < su.j.rt.bs && |rows| == su.j.rt.k
  {
    seq(su.h, c requires 0 <= c < su.h => su.alg.narrow(Fold(su, o, token, rows, c, su.j.rt.k)))
  }

  /** The rows the reduction of a token reads from the owner's window. */
  function RowsRead(su: Setup, mem: map<Loc, Val>, o: nat, token: nat): seq<Val>
  {
    seq(su.j.rt.k, i requires 0 <= i < su.j.rt.k => Read(mem, Loc(o, Data, token * su.j.rt.k + i)))
  }

  ghost function Answers(su: Setup, o: nat, token: nat): (rows: seq<Val>)
    requires ValidSetup(su) && o < su.j.rt.n && token < su.j.rt.bs
    ensures |rows| == su.j.rt.k
  {
    seq(su.j.rt.k, i requires 0 <= i < su.j.rt.k =>
      (PackBound(token, su.j.rt.k, i, su.j.rt.bs); Answer(su.j, o, token * su.j.rt.k + i)))
  }

  /** The output row of a token: the scale-weighted fold of the answers to its own topK pairs. */
  ghost function Expected(su: Setup, o: nat, token: nat): Val
    requires ValidSetup(su) && o < su.j.rt.n && token < su.j.rt.bs
  {
    ReduceRow(su, o, token, Answers(su, o, token))
  }

  // ---- steps ----

  function StatusLoc(su: Setup, o: nat, token: nat, i: nat): Loc
  {
    Loc(o, Status, token * su.j.rt.k + i)
  }

  predicate HasReader(s: State, c: Id)
  {
    0 <= c.rank < |s.readers| && 0 <= c.aiv < |s.readers[c.rank]|
  }

  function ReaderAt(s: State, c: Id): Reader
    requires HasReader(s, c)
  {
    s.readers[c.rank][c.aiv]
  }

  function WithReader(s: State, c: Id, rd: Reader): State
    requires HasReader(s, c)
  {
    s.(readers := s.readers[c.rank := s.readers[c.rank][c.aiv := rd]])
  }

  predicate CanRead(su: Setup, s: State, c: Id)
  {
    && HasCore(s.net, c) && HasReader(s, c) && CoreAt(s.net, c).todo == []
    && var rd := ReaderAt(s, c);
    && rd.token < su.j.rt.bs
    && (rd.step.Waiting? && rd.step.i < su.j.rt.k ==>
          Read(s.net.mem, StatusLoc(su, c.rank, rd.token, rd.step.i)) == READY)
  }

  function ReaderStep(su: Setup, rd: Reader): Reader
  {
    match rd.step
    case Waiting(i) => if i < su.j.rt.k then rd.(step := Waiting(i + 1)) else rd.(step := Reducing)
    case Reducing => rd.(step := Resetting(0))
    case Resetting(i) =>
      if i < su.j.rt.k then rd.(step := Resetting(i + 1)) else Reader(rd.token + su.j.rt.n, Waiting(0))
  }

  function ReadNext(su: Setup, s: State, c: Id): State
    requires ValidSetup(su) && CanRead(su, s, c)
  {
    var rd := ReaderAt(s, c);
    var s' := WithReader(s, c, ReaderStep(su, rd));
    match rd.step
    case Waiting(_) => s'
    case Reducing =>
      if c.rank < |s.xOut| && rd.token < |s.xOut[c.rank]| && c.rank < su.j.rt.n then
        var row := ReduceRow(su, c.rank, rd.token, RowsRead(su, s.net.mem, c.rank, rd.token));
        s'.(xOut := s.xOut[c.rank := s.xOut[c.rank][rd.token := row]])
      else s'
    case Resetting(i) =>
      if i < su.j.rt.k then s'.(net := Consume(s.net, StatusLoc(su, c.rank, rd.token, i), NOT_READY)) else s'
  }

  predicate Enabled(su: Setup, s: State, a: Action)
  {
    match a
    case Issue(c) => CanIssue(s.net, c)
    case Land(c, o) => CanLand(s.net, c, o)
    case Collect(c) => CanRead(su, s, c)
  }

  function Next(su: Setup, s: State, a: Action): State
    requires ValidSetup(su) && Enabled(su, s, a)
  {
    match a
    case Issue(c) => s.(net := Shmem.Issue(s.net, c))
    case Land(c, o) => s.(net := Shmem.Land(s.net, c, o))
    case Collect(c) => ReadNext(su, s, c)
  }

  predicate Runs(su: Setup, s: State, trace: seq<Action>, t: State)
    requires ValidSetup(su)
    decreases |trace|
  {
    if trace == [] then s == t
    else Enabled(su, s, trace[0]) && Runs(su, Next(su, s, trace[0]), trace[1..], t)
  }

  ghost predicate Clean(j: Job, mem: map<Loc, Val>)
  {
    forall l: Loc :: l.region == Status && IsSlot(j, l.pe, l.slot) ==> Read(mem, l) == NOT_READY
  }

  ghost predicate Shape(su: Setup, s: State)
  {
    && |s.readers| == |s.xOut| == su.j.rt.n
    && forall r :: 0 <= r < su.j.rt.n ==> |s.readers[r]| == su.j.rt.n && |s.xOut[r]| == su.j.rt.bs
  }

  ghost predicate Init(su: Setup, s: State)
    requires ValidSetup(su)
  {
    && Clean(su.j, s.net.mem) && s.net == Launch(s.net.mem, ScriptsOf(su)) && Shape(su, s)
    && forall c :: HasReader(s, c) ==> ReaderAt(s, c) == Reader(c.aiv, Waiting(0))
  }

  // ---- the invariant ----

  /** The reader has taken status `(t, i)` back. */
  predicate Past(rd: Reader, t: nat, i: nat)
  {
    t < rd.token || (t == rd.token && rd.step.Resetting? && i < rd.step.i)
  }

  /** The reader has stored the output of token `t`. */
  predicate Stored(rd: Reader, t: nat)
  {
    t < rd.token || (t == rd.token && rd.step.Resetting?)
  }

  predicate Mine(su: Setup, a: int, t: nat)
    requires su.j.rt.n > 0
  {
    t < su.j.rt.bs && t % su.j.rt.n == a
  }

  ghost predicate ConsumedOk(su: Setup, c: Id, net: Net, rd: Reader)
    requires ValidSetup(su) && 0 <= c.rank
  {
    forall t: nat, i: nat :: Mine(su, c.aiv, t) && i < su.j.rt.k ==>
      (StatusLoc(su, c.rank, t, i) in net.consumed <==> Past(rd, t, i))
  }

  ghost predicate Awaited(su: Setup, c: Id, net: Net, token: nat, m: nat)
    requires ValidSetup(su) && 0 <= c.rank
  {
    forall i: nat :: i < m ==> Visible(PlanOf(su.j), net, StatusLoc(su, c.rank, token, i))
  }

  ghost predicate OutOk(su: Setup, c: Id, xOut: seq<Val>, rd: Reader)
    requires ValidSetup(su) && 0 <= c.rank < su.j.rt.n && |xOut| == su.j.rt.bs
  {
    forall t: nat :: Mine(su, c.aiv, t) && Stored(rd, t) ==> xOut[t] == Expected(su, c.rank, t)
  }

  ghost predicate ReaderInv(su: Setup, c: Id, net: Net, rd: Reader, xOut: seq<Val>)
    requires ValidSetup(su)
  {
    && 0 <= c.rank < su.j.rt.n && |xOut| == su.j.rt.bs
    && rd.token % su.j.rt.n == c.aiv
    && ConsumedOk(su, c, net, rd) && OutOk(su, c, xOut, rd)
    && (rd.token < su.j.rt.bs ==> match rd.step
       case Waiting(i) => i <= su.j.rt.k && Awaited(su, c, net, rd.token, i)
       case Reducing => Awaited(su, c, net, rd.token, su.j.rt.k)
       case Resetting(i) => i <= su.j.rt.k && Awaited(su, c, net, rd.token, su.j.rt.k))
    && (rd.token >= su.j.rt.bs ==> rd.step == Waiting(0))
  }

  ghost predicate Base(su: Setup, init: map<Loc, Val>, net: Net)
    requires ValidSetup(su)
  {
    && Clean(su.j, init)
    && NetInv(PlanOf(su.j), ScriptsOf(su), init, net)
    && (forall l :: l in net.consumed ==> l.region == Status && IsSlot(su.j, l.pe, l.slot))
  }

  ghost predicate Inv(su: Setup, init: map<Loc, Val>, s: State)
    requires ValidSetup(su)
  {
    && Base(su, init, s.net) && Shape(su, s)
    && forall c :: HasReader(s, c) ==> ReaderInv(su, c, s.net, ReaderAt(s, c), s.xOut[c.rank])
  }

  lemma ScriptsSafe(su: Setup)
    requires ValidSetup(su)
    ensures SafeScripts(PlanOf(su.j), ScriptsOf(su))
  {
    forall r, a | 0 <= r < su.j.rt.n && 0 <= a < su.j.rt.n
      ensures Safe(PlanOf(su.j), Id(r, a), Script(su.j, r, a, su.planes[r][a]), {}, {})
    {
      ScriptSafe(su.j, r, a, su.planes[r][a]);
    }
  }

  lemma InitInv(su: Setup, s: State)
    requires ValidSetup(su) && Init(su, s)
    ensures Inv(su, s.net.mem, s)
  {
    ScriptsSafe(su);
    LaunchInv(PlanOf(su.j), ScriptsOf(su), s.net.mem);
    forall c | HasReader(s, c) ensures ReaderInv(su, c, s.net, ReaderAt(s, c), s.xOut[c.rank]) {
      SmallMod(c.aiv, su.j.rt.n);
      var rd := ReaderAt(s, c);
      forall t: nat | Mine(su, c.aiv, t) ensures t >= rd.token {
        if t < c.aiv { SmallMod(t, su.j.rt.n); }
      }
    }
  }

  // ---- what a reader may conclude from its window ----

  lemma StatusIsSlot(su: Setup, o: nat, token: nat, i: nat)
    requires ValidSetup(su) && o < su.j.rt.n && token < su.j.rt.bs && i < su.j.rt.k
    ensures IsSlot(su.j, o, token * su.j.rt.k + i)
  {
    PackBound(token, su.j.rt.k, i, su.j.rt.bs);
  }

  /** A status slot shows READY exactly while its put has landed and it has not been taken back. */
  lemma StatusRead(su: Setup, init: map<Loc, Val>, net: Net, l: Loc)
    requires ValidSetup(su) && Base(su, init, net) && l.region == Status && IsSlot(su.j, l.pe, l.slot)
    ensures Read(net.mem, l) == READY <==> Visible(PlanOf(su.j), net, l) && l !in net.consumed
    ensures Read(net.mem, l) != READY ==> Read(net.mem, l) == NOT_READY
  {
    hide CoresInv;
    assert READY[0] != NOT_READY[0];
    assert PlanOf(su.j).content(l) == READY;
  }

  /** Behind a visible status, the data slot holds the answer. */
  lemma DataRead(su: Setup, init: map<Loc, Val>, net: Net, o: nat, f: nat)
    requires ValidSetup(su) && Base(su, init, net) && IsSlot(su.j, o, f)
    requires Visible(PlanOf(su.j), net, Loc(o, Status, f))
    ensures Read(net.mem, Loc(o, Data, f)) == Answer(su.j, o, f)
  {
    var pl := PlanOf(su.j);
    hide Answer, CoresInv;
    assert Loc(o, Data, f) in pl.needs(Loc(o, Status, f));
    Published(pl, ScriptsOf(su), init, net, Loc(o, Status, f), Loc(o, Data, f));
    assert pl.content(Loc(o, Data, f)) == Answer(su.j, o, f);
  }

  lemma RowsAreAnswers(su: Setup, init: map<Loc, Val>, net: Net, c: Id, token: nat)
    requires ValidSetup(su) && Base(su, init, net) && 0 <= c.rank < su.j.rt.n && token < su.j.rt.bs
    requires Awaited(su, c, net, token, su.j.rt.k)
    ensures RowsRead(su, net.mem, c.rank, token) == Answers(su, c.rank, token)
  {
    hide Answer, Base, Flats;
    forall i | 0 <= i < su.j.rt.k ensures RowsRead(su, net.mem, c.rank, token)[i] == Answers(su, c.rank, token)[i] {
      var f := token * su.j.rt.k + i;
      StatusIsSlot(su, c.rank, token, i);
      assert StatusLoc(su, c.rank, token, i) == Loc(c.rank, Status, f);
      DataRead(su, init, net, c.rank, f);
    }
  }

  lemma ReduceIsExpected(su: Setup, init: map<Loc, Val>, net: Net, c: Id, token: nat)
    requires ValidSetup(su) && Base(su, init, net) && 0 <= c.rank < su.j.rt.n && token < su.j.rt.bs
    requires Awaited(su, c, net, token, su.j.rt.k)
    ensures ReduceRow(su, c.rank, token, RowsRead(su, net.mem, c.rank, token)) == Expected(su, c.rank, token)
  {
    hide ReduceRow;
    RowsAreAnswers(su, init, net, c, token);
  }

  // ---- every step keeps the invariant ----

  lemma ReaderFrame(su: Setup, c: Id, net: Net, net': Net, rd: Reader, xOut: seq<Val>, xOut': seq<Val>)
    requires ValidSetup(su) && ReaderInv(su, c, net, rd, xOut) && |xOut'| == su.j.rt.bs
    requires forall l :: Visible(PlanOf(su.j), net, l) ==> Visible(PlanOf(su.j), net', l)
    requires forall t: nat, i: nat :: Mine(su, c.aiv, t) && i < su.j.rt.k ==>
               (StatusLoc(su, c.rank, t, i) in net.consumed <==> StatusLoc(su, c.rank, t, i) in net'.consumed)
    requires forall t: nat :: Mine(su, c.aiv, t) ==> xOut[t] == xOut'[t]
    ensures ReaderInv(su, c, net', rd, xOut')
  {
    hide Expected, StatusLoc;
  }

  lemma SameToken(su: Setup, t: nat, i: nat, t': nat, i': nat)
    requires su.j.rt.k > 0 && i < su.j.rt.k && i' < su.j.rt.k
    requires t * su.j.rt.k + i == t' * su.j.rt.k + i'
    ensures t == t' && i == i'
  {
    DivMod(t, su.j.rt.k, i);
    DivMod(t', su.j.rt.k, i');
  }

  /** Tokens of one core are `n` apart: none lies strictly between a token and its successor. */
  lemma NextToken(t: nat, u: nat, n: nat)
    requires n > 0 && t % n == u % n && u < t + n
    ensures u <= t
    ensures (t + n) % n == t % n
  {
    Recompose(t, n);
    Recompose(u, n);
    assert t + n == (t / n + 1) * n + t % n;
    DivMod(t / n + 1, n, t % n);
    if u > t {
      var q, p := u / n, t / n;
      assert (q - p) * n == u - t by { Distribute(q, p, n); }
      if q - p >= 1 { MulAtLeast(q - p, n); } else { MulLe(q - p, 0, n); }
    }
  }

  lemma WaitVisible(su: Setup, init: map<Loc, Val>, net: Net, o: nat, token: nat, i: nat)
    requires ValidSetup(su) && Base(su, init, net) && o < su.j.rt.n && token < su.j.rt.bs && i < su.j.rt.k
    requires Read(net.mem, StatusLoc(su, o, token, i)) == READY
    ensures Visible(PlanOf(su.j), net, StatusLoc(su, o, token, i))
  {
    hide Base;
    StatusIsSlot(su, o, token, i);
    StatusRead(su, init, net, StatusLoc(su, o, token, i));
  }

  lemma WaitInv(su: Setup, init: map<Loc, Val>, net: Net, c: Id, rd: Reader, xOut: seq<Val>)
    requires ValidSetup(su) && Base(su, init, net) && ReaderInv(su, c, net, rd, xOut)
    requires rd.token < su.j.rt.bs && rd.step.Waiting?
    requires rd.step.i < su.j.rt.k ==> Read(net.mem, StatusLoc(su, c.rank, rd.token, rd.step.i)) == READY
    ensures ReaderInv(su, c, net, ReaderStep(su, rd), xOut)
  {
    hide Base, Expected, StatusLoc, Flats, Visible;
    if rd.step.i < su.j.rt.k { WaitVisible(su, init, net, c.rank, rd.token, rd.step.i); }
  }

  lemma StoreInv(su: Setup, init: map<Loc, Val>, net: Net, c: Id, rd: Reader, xOut: seq<Val>)
    requires ValidSetup(su) && Base(su, init, net) && ReaderInv(su, c, net, rd, xOut)
    requires rd.token < su.j.rt.bs && rd.step == Reducing
    ensures var row := ReduceRow(su, c.rank, rd.token, RowsRead(su, net.mem, c.rank, rd.token));
            ReaderInv(su, c, net, ReaderStep(su, rd), xOut[rd.token := row])
  {
    ReduceIsExpected(su, init, net, c, rd.token);
    hide Base, Expected, StatusLoc, Flats, ReduceRow;
  }

  lemma AdvanceInv(su: Setup, net: Net, c: Id, rd: Reader, xOut: seq<Val>)
    requires ValidSetup(su) && ReaderInv(su, c, net, rd, xOut)
    requires rd.token < su.j.rt.bs && rd.step == Resetting(su.j.rt.k)
    ensures ReaderInv(su, c, net, ReaderStep(su, rd), xOut)
  {
    hide Expected, StatusLoc, Flats;
    var rd' := ReaderStep(su, rd);
    NextToken(rd.token, rd.token, su.j.rt.n);
    forall t: nat | Mine(su, c.aiv, t) ensures t < rd'.token <==> t <= rd.token {
      if t < rd'.token { NextToken(rd.token, t, su.j.rt.n); }
    }
  }

  lemma ResetConsumed(su: Setup, net: Net, c: Id, rd: Reader)
    requires ValidSetup(su) && 0 <= c.rank && ConsumedOk(su, c, net, rd)
    requires rd.step.Resetting? && rd.step.i < su.j.rt.k
    ensures ConsumedOk(su, c, Consume(net, StatusLoc(su, c.rank, rd.token, rd.step.i), NOT_READY), ReaderStep(su, rd))
  {
    var l := StatusLoc(su, c.rank, rd.token, rd.step.i);
    var net' := Consume(net, l, NOT_READY);
    hide Flats;
    forall t: nat, i: nat | Mine(su, c.aiv, t) && i < su.j.rt.k
      ensures StatusLoc(su, c.rank, t, i) in net'.consumed <==> Past(ReaderStep(su, rd), t, i)
    {
      if StatusLoc(su, c.rank, t, i) == l { SameToken(su, t, i, rd.token, rd.step.i); }
      assert StatusLoc(su, c.rank, t, i) in net.consumed <==> Past(rd, t, i);
    }
  }

  lemma ResetBase(su: Setup, init: map<Loc, Val>, net: Net, o: nat, token: nat, i: nat)
    requires ValidSetup(su) && Base(su, init, net) && o < su.j.rt.n && token < su.j.rt.bs && i < su.j.rt.k
    requires Visible(PlanOf(su.j), net, StatusLoc(su, o, token, i))
    ensures var net' := Consume(net, StatusLoc(su, o, token, i), NOT_READY);
            && Base(su, init, net')
            && (forall l :: Visible(PlanOf(su.j), net, l) <==> Visible(PlanOf(su.j), net', l))
  {
    hide Base, Visible;
    StatusIsSlot(su, o, token, i);
    ConsumeBase(su, init, net, StatusLoc(su, o, token, i));
  }

  lemma ConsumeBase(su: Setup, init: map<Loc, Val>, net: Net, l: Loc)
    requires ValidSetup(su) && Base(su, init, net) && l.region == Status && IsSlot(su.j, l.pe, l.slot)
    requires Visible(PlanOf(su.j), net, l)
    ensures Base(su, init, Consume(net, l, NOT_READY))
    ensures forall m :: Visible(PlanOf(su.j), net, m) <==> Visible(PlanOf(su.j), Consume(net, l, NOT_READY), m)
  {
    hide CoresInv, MemInv, Flats;
    ConsumeInv(PlanOf(su.j), ScriptsOf(su), init, net, l, NOT_READY);
  }

  lemma ResetInv(su: Setup, init: map<Loc, Val>, net: Net, c: Id, rd: Reader, xOut: seq<Val>)
    requires ValidSetup(su) && Base(su, init, net) && ReaderInv(su, c, net, rd, xOut)
    requires rd.token < su.j.rt.bs && rd.step.Resetting? && rd.step.i < su.j.rt.k
    ensures var net' := Consume(net, StatusLoc(su, c.rank, rd.token, rd.step.i), NOT_READY);
            && Base(su, init, net') && ReaderInv(su, c, net', ReaderStep(su, rd), xOut)
            && (forall l :: Visible(PlanOf(su.j), net, l) <==> Visible(PlanOf(su.j), net', l))
  {
    hide Base, Expected, Flats, ConsumedOk, StatusLoc;
    ResetBase(su, init, net, c.rank, rd.token, rd.step.i);
    ResetConsumed(su, net, c, rd);
  }

  /** A step of reader `c` at `token` leaves what every other reader relies on as it was. */
  lemma OtherReader(su: Setup, c: Id, d: Id, net: Net, net': Net, rd: Reader, xOut: seq<Val>, xOut': seq<Val>,
                    token: nat, i: nat)
    requires ValidSetup(su) && ReaderInv(su, d, net, rd, xOut) && |xOut'| == su.j.rt.bs && d != c && 0 <= c.rank
    requires token % su.j.rt.n == c.aiv
    requires forall l :: Visible(PlanOf(su.j), net, l) ==> Visible(PlanOf(su.j), net', l)
    requires net'.consumed == net.consumed
             || (i < su.j.rt.k && net'.consumed == net.consumed + {StatusLoc(su, c.rank, token, i)})
    requires d.rank != c.rank ==> xOut' == xOut
    requires forall t :: 0 <= t < su.j.rt.bs && t != token ==> xOut'[t] == xOut[t]
    ensures ReaderInv(su, d, net', rd, xOut')
  {
    hide Flats, Expected, ConsumedOk, OutOk, Awaited;
    forall t: nat, i': nat | Mine(su, d.aiv, t) && i' < su.j.rt.k
      ensures StatusLoc(su, d.rank, t, i') in net.consumed <==> StatusLoc(su, d.rank, t, i') in net'.consumed
    {
      if i < su.j.rt.k && StatusLoc(su, d.rank, t, i') == StatusLoc(su, c.rank, token, i) {
        SameToken(su, t, i', token, i);
      }
    }
    ReaderFrame(su, d, net, net', rd, xOut, xOut');
  }

  lemma ReadNextInv(su: Setup, init: map<Loc, Val>, s: State, c: Id)
    requires ValidSetup(su) && Inv(su, init, s) && CanRead(su, s, c)
    ensures Inv(su, init, ReadNext(su, s, c))
  {
    hide Base, ReduceRow, ReaderInv, StatusLoc;
    var rd := ReaderAt(s, c);
    var s' := ReadNext(su, s, c);
    assert ReaderInv(su, c, s.net, rd, s.xOut[c.rank]);
    assert ReaderBasics(su, c, rd) by { BasicsOf(su, c, s.net, rd, s.xOut[c.rank]); }
    var i := if rd.step.Resetting? then rd.step.i else 0;
    match rd.step {
      case Waiting(_) => WaitInv(su, init, s.net, c, rd, s.xOut[c.rank]);
      case Reducing => StoreInv(su, init, s.net, c, rd, s.xOut[c.rank]);
      case Resetting(_) =>
        if i < su.j.rt.k { ResetInv(su, init, s.net, c, rd, s.xOut[c.rank]); }
        else { AdvanceInv(su, s.net, c, rd, s.xOut[c.rank]); }
    }
    forall d | HasReader(s', d) ensures ReaderInv(su, d, s'.net, ReaderAt(s', d), s'.xOut[d.rank]) {
      if d != c {
        assert ReaderAt(s', d) == ReaderAt(s, d);
        OtherReader(su, c, d, s.net, s'.net, ReaderAt(s, d), s.xOut[d.rank], s'.xOut[d.rank], rd.token, i);
      }
    }
  }

  predicate ReaderBasics(su: Setup, c: Id, rd: Reader)
    requires su.j.rt.n > 0
  {
    && 0 <= c.rank < su.j.rt.n && rd.token % su.j.rt.n == c.aiv
    && (rd.token < su.j.rt.bs && rd.step.Resetting? ==> rd.step.i <= su.j.rt.k)
    && (rd.token < su.j.rt.bs && rd.step.Waiting? ==> rd.step.i <= su.j.rt.k)
  }

  lemma BasicsOf(su: Setup, c: Id, net: Net, rd: Reader, xOut: seq<Val>)
    requires ValidSetup(su) && ReaderInv(su, c, net, rd, xOut)
    ensures ReaderBasics(su, c, rd)
  {
  }

  lemma SendInv(su: Setup, init: map<Loc, Val>, s: State, net': Net)
    requires ValidSetup(su) && Inv(su, init, s)
    requires NetInv(PlanOf(su.j), ScriptsOf(su), init, net') && Grows(PlanOf(su.j), s.net, net')
    ensures Inv(su, init, s.(net := net'))
  {
    hide NetInv, Clean, ReaderInv, IsSlot;
    var s' := s.(net := net');
    forall c | HasReader(s', c) ensures ReaderInv(su, c, net', ReaderAt(s', c), s'.xOut[c.rank]) {
      ReaderFrame(su, c, s.net, net', ReaderAt(s, c), s.xOut[c.rank], s.xOut[c.rank]);
    }
  }

  /** Every action of every rank, core and channel keeps the invariant. */
  lemma NextInv(su: Setup, init: map<Loc, Val>, s: State, a: Action)
    requires ValidSetup(su) && Inv(su, init, s) && Enabled(su, s, a)
    ensures Inv(su, init, Next(su, s, a))
  {
    hide NetInv, Clean, ReaderInv, IsSlot, ReadNext;
    match a
    case Issue(c) =>
      IssueInv(PlanOf(su.j), ScriptsOf(su), init, s.net, c);
      SendInv(su, init, s, Shmem.Issue(s.net, c));
    case Land(c, o) =>
      LandInv(PlanOf(su.j), ScriptsOf(su), init, s.net, c, o);
      SendInv(su, init, s, Shmem.Land(s.net, c, o));
    case Collect(c) =>
      ReadNextInv(su, init, s, c);
  }

  lemma {:induction false} RunsInv(su: Setup, init: map<Loc, Val>, s: State, trace: seq<Action>, t: State)
    requires ValidSetup(su) && Inv(su, init, s) && Runs(su, s, trace, t)
    ensures Inv(su, init, t)
    decreases |trace|
  {
    if trace != [] {
      NextInv(su, init, s, trace[0]);
      RunsInv(su, init, Next(su, s, trace[0]), trace[1..], t);
    }
  }

  // ---- progress ----

  ghost predicate Final(su: Setup, s: State)
  {
    && (forall c :: HasCore(s.net, c) ==> CoreAt(s.net, c).todo == [] && CoreAt(s.net, c).pending == {})
    && forall c :: HasReader(s, c) ==> ReaderAt(s, c).token >= su.j.rt.bs
  }

  function StepsTaken(k: nat, step: Step): nat
  {
    match step
    case Waiting(i) => i
    case Reducing => k + 1
    case Resetting(i) => k + 2 + i
  }

  ghost function ReaderWork(su: Setup, rd: Reader): int
  {
    if rd.token >= su.j.rt.bs then 0
    else (su.j.rt.bs - rd.token) * (2 * su.j.rt.k + 3) - StepsTaken(su.j.rt.k, rd.step)
  }

  ghost function RowWorks(su: Setup, row: seq<Reader>): seq<int>
  {
    seq(|row|, a requires 0 <= a < |row| => ReaderWork(su, row[a]))
  }

  ghost function ReadersWork(su: Setup, readers: seq<seq<Reader>>): seq<int>
  {
    seq(|readers|, r requires 0 <= r < |readers| => Sum(RowWorks(su, readers[r])))
  }

  ghost function StateWork(su: Setup, s: State): int
  {
    NetWork(s.net.cores) + Sum(ReadersWork(su, s.readers))
  }

  lemma ReaderWorkStep(su: Setup, c: Id, rd: Reader)
    requires ValidSetup(su) && ReaderBasics(su, c, rd)
    ensures ReaderWork(su, rd) >= 0
    ensures rd.token < su.j.rt.bs ==> ReaderWork(su, ReaderStep(su, rd)) < ReaderWork(su, rd)
  {
    if rd.token < su.j.rt.bs {
      var unit, left := 2 * su.j.rt.k + 3, su.j.rt.bs - rd.token;
      MulAtLeast(left, unit);
      var next := su.j.rt.bs - (rd.token + su.j.rt.n);
      if next > 0 {
        MulLe(next, left - 1, unit);
        Distribute(left, 1, unit);
      }
    }
  }

  lemma StateWorkNonNegative(su: Setup, init: map<Loc, Val>, s: State)
    requires ValidSetup(su) && Inv(su, init, s)
    ensures StateWork(su, s) >= 0
  {
    hide Base, ReaderInv, ReaderWork;
    NetWorkNonNegative(s.net.cores);
    forall r | 0 <= r < |s.readers| ensures ReadersWork(su, s.readers)[r] >= 0 {
      forall a | 0 <= a < |s.readers[r]| ensures RowWorks(su, s.readers[r])[a] >= 0 {
        assert HasReader(s, Id(r, a));
        BasicsOf(su, Id(r, a), s.net, s.readers[r][a], s.xOut[r]);
        ReaderWorkStep(su, Id(r, a), s.readers[r][a]);
      }
      SumNonNegative(RowWorks(su, s.readers[r]));
    }
    SumNonNegative(ReadersWork(su, s.readers));
  }

  lemma WithReaderWork(su: Setup, s: State, c: Id, rd: Reader)
    requires HasReader(s, c)
    ensures Sum(ReadersWork(su, WithReader(s, c, rd).readers))
            == Sum(ReadersWork(su, s.readers)) - ReaderWork(su, ReaderAt(s, c)) + ReaderWork(su, rd)
  {
    hide ReaderWork;
    var row := s.readers[c.rank];
    var row' := row[c.aiv := rd];
    assert RowWorks(su, row') == RowWorks(su, row)[c.aiv := ReaderWork(su, rd)];
    SumUpdate(RowWorks(su, row), c.aiv, ReaderWork(su, rd));
    assert ReadersWork(su, WithReader(s, c, rd).readers)
           == ReadersWork(su, s.readers)[c.rank := Sum(RowWorks(su, row'))];
    SumUpdate(ReadersWork(su, s.readers), c.rank, Sum(RowWorks(su, row')));
  }

  lemma NextWork(su: Setup, init: map<Loc, Val>, s: State, a: Action)
    requires ValidSetup(su) && Inv(su, init, s) && Enabled(su, s, a)
    ensures StateWork(su, Next(su, s, a)) < StateWork(su, s)
  {
    hide Base, ReaderInv, ReaderWork, ReduceRow;
    match a
    case Issue(c) => SenderWork(s.net, c);
    case Land(c, o) => SenderWork(s.net, c);
    case Collect(c) =>
      var rd := ReaderAt(s, c);
      BasicsOf(su, c, s.net, rd, s.xOut[c.rank]);
      ReaderWorkStep(su, c, rd);
      WithReaderWork(su, s, c, ReaderStep(su, rd));
  }

  lemma {:induction false} RunsBounded(su: Setup, init: map<Loc, Val>, s: State, trace: seq<Action>, t: State)
    requires ValidSetup(su) && Inv(su, init, s) && Runs(su, s, trace, t)
    ensures |trace| <= StateWork(su, s)
    decreases |trace|
  {
    hide Inv;
    StateWorkNonNegative(su, init, s);
    if trace != [] {
      NextInv(su, init, s, trace[0]);
      NextWork(su, init, s, trace[0]);
      RunsBounded(su, init, Next(su, s, trace[0]), trace[1..], t);
    }
  }

  /** Every status slot is written by the core that handles its pair. */
  lemma StatusIsPut(su: Setup, o: nat, f: nat)
    requires ValidSetup(su) && IsSlot(su.j, o, f)
    ensures var r := Dest(su.j.rt, o, f);
            r < su.j.rt.n && Loc(o, Status, f) in PutLocs(Script(su.j, r, o, su.planes[r][o]))
                          && Loc(o, Data, f) in PutLocs(Script(su.j, r, o, su.planes[r][o]))
  {
    HomeOf(su.j.rt, o, f);
    var r := Dest(su.j.rt, o, f);
    ScriptLocs(su.j, r, o, su.planes[r][o], Loc(o, Status, f));
    ScriptLocs(su.j, r, o, su.planes[r][o], Loc(o, Data, f));
  }

  lemma DrainedSlot(su: Setup, init: map<Loc, Val>, s: State, l: Loc)
    requires ValidSetup(su) && Base(su, init, s.net) && IsSlot(su.j, l.pe, l.slot)
             && (l.region == Status || l.region == Data)
    requires forall c :: HasCore(s.net, c) ==> CoreAt(s.net, c).todo == [] && CoreAt(s.net, c).pending == {}
    ensures Visible(PlanOf(su.j), s.net, l)
  {
    StatusIsPut(su, l.pe, l.slot);
    var r := Dest(su.j.rt, l.pe, l.slot);
    hide Script, MemInv, CoreInv, Flats;
    assert HasCore(s.net, Id(r, l.pe));
    Drained(PlanOf(su.j), ScriptsOf(su), init, s.net, Id(r, l.pe), l);
  }

  lemma ReadProgress(su: Setup, init: map<Loc, Val>, s: State, c: Id)
    requires ValidSetup(su) && Inv(su, init, s) && HasReader(s, c) && ReaderAt(s, c).token < su.j.rt.bs
    requires forall d :: HasCore(s.net, d) ==> CoreAt(s.net, d).todo == [] && CoreAt(s.net, d).pending == {}
    ensures CanRead(su, s, c)
  {
    var rd := ReaderAt(s, c);
    assert ReaderInv(su, c, s.net, rd, s.xOut[c.rank]);
    assert HasCore(s.net, c);
    if rd.step.Waiting? && rd.step.i < su.j.rt.k {
      var l := StatusLoc(su, c.rank, rd.token, rd.step.i);
      StatusIsSlot(su, c.rank, rd.token, rd.step.i);
      assert Mine(su, c.aiv, rd.token) && !Past(rd, rd.token, rd.step.i);
      assert l !in s.net.consumed;
      hide Base, ReaderInv, StatusLoc, IsSlot;
      DrainedSlot(su, init, s, l);
      StatusRead(su, init, s.net, l);
    }
  }

  /** No reachable state is stuck before every token has been reduced and reset. */
  lemma Progress(su: Setup, init: map<Loc, Val>, s: State)
    requires ValidSetup(su) && Inv(su, init, s) && !Final(su, s)
    ensures exists a :: Enabled(su, s, a)
  {
    hide ReaderInv, MemInv, CoreInv, CanRead;
    if c :| HasCore(s.net, c) && (CoreAt(s.net, c).todo != [] || CoreAt(s.net, c).pending != {}) {
      SenderProgress(PlanOf(su.j), ScriptsOf(su), s.net, c);
      if CanIssue(s.net, c) {
        assert Enabled(su, s, Issue(c));
      } else {
        var o :| CanLand(s.net, c, o);
        assert Enabled(su, s, Land(c, o));
      }
    } else {
      var c :| HasReader(s, c) && ReaderAt(s, c).token < su.j.rt.bs;
      ReadProgress(su, init, s, c);
      assert Enabled(su, s, Collect(c));
    }
  }

  // ---- the main results ----

  ghost predicate Reduced(su: Setup, s: State)
    requires ValidSetup(su)
  {
    && |s.xOut| == su.j.rt.n
    && (forall o :: 0 <= o < su.j.rt.n ==> |s.xOut[o]| == su.j.rt.bs)
    && forall o, t :: 0 <= o < su.j.rt.n && 0 <= t < su.j.rt.bs ==> s.xOut[o][t] == Expected(su, o, t)
  }

  lemma FinalColumns(su: Setup, s: State)
    requires ValidSetup(su) && Reduced(su, s)
    ensures forall o: nat, token: nat :: o < su.j.rt.n && token < su.j.rt.bs ==>
              |s.xOut| == su.j.rt.n && |s.xOut[o]| == su.j.rt.bs
              && Columns(su, o, token, Answers(su, o, token), s.xOut[o][token])
  {
    hide Columns, ReduceRow, Answers;
    forall o: nat, token: nat | o < su.j.rt.n && token < su.j.rt.bs
      ensures Columns(su, o, token, Answers(su, o, token), s.xOut[o][token])
    {
      ReduceColumns(su, o, token, Answers(su, o, token));
      assert s.xOut[o][token] == Expected(su, o, token);
    }
  }

  /** The whole window after a round: every data slot answered, everything else as it was. */
  ghost predicate FinalWindow(j: Job, init: map<Loc, Val>, mem: map<Loc, Val>)
    requires ValidJob(j)
  {
    forall l: Loc :: Read(mem, l)
      == if l.region == Data && IsSlot(j, l.pe, l.slot) then Answer(j, l.pe, l.slot) else Read(init, l)
  }

  lemma FinalReduced(su: Setup, init: map<Loc, Val>, s: State)
    requires ValidSetup(su) && Inv(su, init, s) && Final(su, s)
    ensures Reduced(su, s)
  {
    hide Expected, Base;
    forall o, t | 0 <= o < su.j.rt.n && 0 <= t < su.j.rt.bs ensures s.xOut[o][t] == Expected(su, o, t) {
      var c := Id(o, t % su.j.rt.n);
      assert HasReader(s, c);
      var rd := ReaderAt(s, c);
      assert ReaderInv(su, c, s.net, rd, s.xOut[o]);
      assert Mine(su, c.aiv, t) && Stored(rd, t);
    }
  }

  lemma FinalConsumed(su: Setup, init: map<Loc, Val>, s: State, l: Loc)
    requires ValidSetup(su) && Inv(su, init, s) && Final(su, s) && l.region == Status && IsSlot(su.j, l.pe, l.slot)
    ensures l in s.net.consumed
  {
    var k := su.j.rt.k;
    var t, i := l.slot / k, l.slot % k;
    UnpackBound(l.slot, k, su.j.rt.bs);
    Recompose(l.slot, k);
    var c := Id(l.pe, t % su.j.rt.n);
    assert HasReader(s, c);
    var rd := ReaderAt(s, c);
    assert ReaderInv(su, c, s.net, rd, s.xOut[l.pe]);
    assert Mine(su, c.aiv, t) && Past(rd, t, i);
    assert StatusLoc(su, l.pe, t, i) == l;
  }

  lemma FinalMemory(su: Setup, init: map<Loc, Val>, s: State)
    requires ValidSetup(su) && Inv(su, init, s) && Final(su, s)
    ensures FinalWindow(su.j, init, s.net.mem)
  {
    forall l: Loc ensures Read(s.net.mem, l)
      == if l.region == Data && IsSlot(su.j, l.pe, l.slot) then Answer(su.j, l.pe, l.slot) else Read(init, l)
    {
      FinalSlot(su, init, s, l);
    }
  }

  lemma FinalSlot(su: Setup, init: map<Loc, Val>, s: State, l: Loc)
    requires ValidSetup(su) && Inv(su, init, s) && Final(su, s)
    ensures Read(s.net.mem, l)
            == if l.region == Data && IsSlot(su.j, l.pe, l.slot) then Answer(su.j, l.pe, l.slot) else Read(init, l)
  {
    var pl := PlanOf(su.j);
    if IsSlot(su.j, l.pe, l.slot) && l.region == Data {
      DrainedSlot(su, init, s, l);
    } else if IsSlot(su.j, l.pe, l.slot) && l.region == Status {
      FinalConsumed(su, init, s, l);
    } else if Visible(pl, s.net, l) {
      VisibleSlot(su, init, s.net, l);
    }
    hide ReaderInv, CoresInv, Answer;
  }

  lemma VisibleSlot(su: Setup, init: map<Loc, Val>, net: Net, l: Loc)
    requires ValidSetup(su) && Base(su, init, net) && Visible(PlanOf(su.j), net, l)
    ensures IsSlot(su.j, l.pe, l.slot) && (l.region == Data || l.region == Status)
  {
    var c := PlanOf(su.j).owner(l);
    var script := Script(su.j, c.rank, c.aiv, su.planes[c.rank][c.aiv]);
    assert CoreInv(PlanOf(su.j), c, script, CoreAt(net, c));
    ScriptLocs(su.j, c.rank, c.aiv, su.planes[c.rank][c.aiv], l);
  }

  /** Combine is correct on every plane assignment: bounded, never stuck early, every token reduced, window reset. */
  lemma CombineCorrect(su: Setup, s: State, trace: seq<Action>, t: State)
    requires ValidSetup(su) && Init(su, s) && Runs(su, s, trace, t)
    ensures |trace| <= StateWork(su, s)
    ensures Final(su, t) || exists a :: Enabled(su, t, a)
    ensures Final(su, t) ==> Reduced(su, t) && FinalWindow(su.j, s.net.mem, t.net.mem) && Clean(su.j, t.net.mem)
    ensures Final(su, t) ==> forall o: nat, token: nat :: o < su.j.rt.n && token < su.j.rt.bs ==>
              |t.xOut| == su.j.rt.n && |t.xOut[o]| == su.j.rt.bs
              && Columns(su, o, token, Answers(su, o, token), t.xOut[o][token])
  {
    InitInv(su, s);
    RunsInv(su, s.net.mem, s, trace, t);
    RunsBounded(su, s.net.mem, s, trace, t);
    if Final(su, t) {
      FinalReduced(su, s.net.mem, t);
      FinalMemory(su, s.net.mem, t);
      FinalColumns(su, t);
    } else {
      Progress(su, s.net.mem, t);
    }
  }

  ghost predicate SameWork(su: Setup, su': Setup)
  {
    su.j == su'.j && su.scales == su'.scales && su.alg == su'.alg && su.h == su'.h
  }

  predicate IsClassic(su: Setup)
    requires |su.planes| == su.j.rt.n
  {
    forall r, a :: 0 <= r < su.j.rt.n && 0 <= a < |su.planes[r]| ==> su.planes[r][a] == NoSdma(su.j.rt.experts)
  }

  /** With no SDMA segment, each core's script is literally the classic kernel's. */
  lemma ClassicScripts(su: Setup, r: nat, a: nat)
    requires ValidSetup(su) && IsClassic(su) && r < su.j.rt.n && a < su.j.rt.n
    ensures ScriptsOf(su)[r][a] == ClassicScript(su.j, r, a)
  {
    ClassicIsScript(su.j, r, a);
  }

  /** Double-plane refines classic: any completed runs of the two end with equal windows and equal outputs. */
  lemma DoublePlaneRefinesClassic(su: Setup, s: State, trace: seq<Action>, t: State,
                                  su': Setup, s': State, trace': seq<Action>, t': State)
    requires ValidSetup(su) && ValidSetup(su') && SameWork(su, su') && IsClassic(su')
    requires Init(su, s) && Init(su', s') && s.net.mem == s'.net.mem
    requires Runs(su, s, trace, t) && Runs(su', s', trace', t') && Final(su, t) && Final(su', t')
    ensures t.xOut == t'.xOut
    ensures forall l :: Read(t.net.mem, l) == Read(t'.net.mem, l)
  {
    hide Runs, Init, Final, Reduced, FinalWindow, IsClassic, Shape;
    CombineCorrect(su, s, trace, t);
    CombineCorrect(su', s', trace', t');
    FinalShapes(su, s, trace, t);
    FinalShapes(su', s', trace', t');
    SameOutputs(su, t, su', t');
    SameWindows(su.j, s.net.mem, t.net.mem, t'.net.mem);
  }

  lemma SameOutputs(su: Setup, t: State, su': Setup, t': State)
    requires ValidSetup(su) && ValidSetup(su') && SameWork(su, su') && Shape(su, t) && Shape(su', t')
    requires Reduced(su, t) && Reduced(su', t')
    ensures t.xOut == t'.xOut
  {
    hide Expected;
    forall o | 0 <= o < su.j.rt.n ensures t.xOut[o] == t'.xOut[o] {
      forall u | 0 <= u < su.j.rt.bs ensures t.xOut[o][u] == t'.xOut[o][u] {
        SameExpected(su, su', o, u);
      }
    }
  }

  lemma SameWindows(j: Job, init: map<Loc, Val>, mem: map<Loc, Val>, mem': map<Loc, Val>)
    requires ValidJob(j) && FinalWindow(j, init, mem) && FinalWindow(j, init, mem')
    ensures forall l :: Read(mem, l) == Read(mem', l)
  {
    hide Answer, IsSlot;
  }

  lemma FinalShapes(su: Setup, s: State, trace: seq<Action>, t: State)
    requires ValidSetup(su) && Init(su, s) && Runs(su, s, trace, t)
    ensures Shape(su, t)
  {
    InitInv(su, s);
    RunsInv(su, s.net.mem, s, trace, t);
  }

  lemma SameExpected(su: Setup, su': Setup, o: nat, token: nat)
    requires ValidSetup(su) && ValidSetup(su') && SameWork(su, su') && o < su.j.rt.n && token < su.j.rt.bs
    ensures Expected(su, o, token) == Expected(su', o, token)
  {
    assert Answers(su, o, token) == Answers(su', o, token);
    SameReduce(su, su', o, token, Answers(su, o, token));
  }

  lemma SameReduce(su: Setup, su': Setup, o: nat, token: nat, rows: seq<Val>)
    requires ValidSetup(su) && ValidSetup(su') && SameWork(su, su') && o < su.j.rt.n && token < su.j.rt.bs
             && |rows| == su.j.rt.k
    ensures ReduceRow(su, o, token, rows) == ReduceRow(su', o, token, rows)
  {
    forall c | 0 <= c < su.h ensures ReduceRow(su, o, token, rows)[c] == ReduceRow(su', o, token, rows)[c] {
      SameFold(su, su', o, token, rows, c, su.j.rt.k);
    }
  }

  lemma {:induction false} SameFold(su: Setup, su': Setup, o: nat, token: nat, rows: seq<Val>, c: nat, m: nat)
    requires ValidSetup(su) && ValidSetup(su') && SameWork(su, su') && o < su.j.rt.n && token < su.j.rt.bs
             && m <= |rows| == su.j.rt.k
    ensures Fold(su, o, token, rows, c, m) == Fold(su', o, token, rows, c, m)
    decreases m
  {
    if m > 0 { SameFold(su, su', o, token, rows, c, m - 1); }
  }

  /** Every reachable state has a continuation that finishes. */
  lemma {:induction false} Completes(su: Setup, init: map<Loc, Val>, s: State) returns (trace: seq<Action>, t: State)
    requires ValidSetup(su) && Inv(su, init, s)
    ensures Runs(su, s, trace, t) && Final(su, t)
    decreases StateWork(su, s)
  {
    hide Inv, Final, Enabled, Next, StateWork;
    if Final(su, s) { return [], s; }
    Progress(su, init, s);
    var a :| Enabled(su, s, a);
    NextInv(su, init, s, a);
    NextWork(su, init, s, a);
    StateWorkNonNegative(su, init, Next(su, s, a));
    var rest;
    rest, t := Completes(su, init, Next(su, s, a));
    trace := [a] + rest;
    assert trace[1..] == rest;
  }

  // ---- two-channel safety ----

  /** In every reachable state: a READY status means its row is in place and nothing can still write the slot. */
  lemma ReadyMeansAnswered(su: Setup, s: State, trace: seq<Action>, t: State, o: nat, f: nat, c: Id)
    requires ValidSetup(su) && Init(su, s) && Runs(su, s, trace, t)
    requires IsSlot(su.j, o, f) && HasCore(t.net, c)
    requires Read(t.net.mem, Loc(o, Status, f)) == [1, 1, 1, 1, 1, 1, 1, 1]
    ensures Read(t.net.mem, Loc(o, Data, f)) == Answer(su.j, o, f)
    ensures Loc(o, Data, f) !in Locs(CoreAt(t.net, c).pending) && Loc(o, Data, f) !in PutLocs(CoreAt(t.net, c).todo)
  {
    InitInv(su, s);
    var init := s.net.mem;
    RunsInv(su, init, s, trace, t);
    StatusRead(su, init, t.net, Loc(o, Status, f));
    DataRead(su, init, t.net, o, f);
    var data := Loc(o, Data, f);
    var pl := PlanOf(su.j);
    Published(pl, ScriptsOf(su), init, t.net, Loc(o, Status, f), data);
    NotAgain(pl, ScriptsOf(su), init, t.net, c, data);
  }

  ghost predicate SdmaOk(net: Net)
  {
    forall c :: HasCore(net, c) ==> Bounded(CoreAt(net, c).todo, |OnChannel(CoreAt(net, c).pending, Sdma)|)
  }

  lemma LaunchSdma(su: Setup, s: State)
    requires ValidSetup(su) && Init(su, s)
    ensures SdmaOk(s.net)
  {
    forall c | HasCore(s.net, c) ensures Bounded(CoreAt(s.net, c).todo, |OnChannel(CoreAt(s.net, c).pending, Sdma)|) {
      ScriptBounded(su.j, c.rank, c.aiv, su.planes[c.rank][c.aiv]);
      assert OnChannel({}, Sdma) == {};
    }
  }

  lemma IssueSdma(net: Net, c: Id)
    requires SdmaOk(net) && CanIssue(net, c)
    ensures SdmaOk(Shmem.Issue(net, c))
  {
    hide Bounded, OnChannel;
    var net' := Shmem.Issue(net, c);
    IssueCoreSdma(CoreAt(net, c));
    forall d | HasCore(net', d) ensures Bounded(CoreAt(net', d).todo, |OnChannel(CoreAt(net', d).pending, Sdma)|) {
      if d != c { assert CoreAt(net', d) == CoreAt(net, d); }
    }
  }

  lemma IssueCoreSdma(core: Core)
    requires core.todo != [] && Bounded(core.todo, |OnChannel(core.pending, Sdma)|)
    requires core.todo[0].Quiet? ==> OnChannel(core.pending, core.todo[0].ch) == {}
    ensures var o := core.todo[0];
            Bounded(core.todo[1..], |OnChannel(if o.Put? then core.pending + {o} else core.pending, Sdma)|)
  {
    var o, before := core.todo[0], OnChannel(core.pending, Sdma);
    var after := OnChannel(if o.Put? then core.pending + {o} else core.pending, Sdma);
    if o.ch == Direct {
      assert after == before;
    } else if o.Put? {
      assert after == before + {o};
      if |after| <= |before| { BoundedMonotone(core.todo[1..], |before| + 1, |after|); }
    }
  }

  lemma LandSdma(net: Net, c: Id, o: Op)
    requires SdmaOk(net) && CanLand(net, c, o)
    ensures SdmaOk(Shmem.Land(net, c, o))
  {
    var core, net' := CoreAt(net, c), Shmem.Land(net, c, o);
    forall d | HasCore(net', d) ensures Bounded(CoreAt(net', d).todo, |OnChannel(CoreAt(net', d).pending, Sdma)|) {
      if d == c {
        var before, after := OnChannel(core.pending, Sdma), OnChannel(CoreAt(net', c).pending, Sdma);
        assert after == before - {o};
        BoundedMonotone(core.todo, |before|, |after|);
      } else {
        assert CoreAt(net', d) == CoreAt(net, d);
      }
    }
  }

  lemma {:induction false} RunsSdma(su: Setup, s: State, trace: seq<Action>, t: State)
    requires ValidSetup(su) && SdmaOk(s.net) && Runs(su, s, trace, t)
    ensures SdmaOk(t.net)
    decreases |trace|
  {
    if trace != [] {
      var s' := Next(su, s, trace[0]);
      match trace[0] {
        case Issue(c) => IssueSdma(s.net, c);
        case Land(c, o) => LandSdma(s.net, c, o);
        case Collect(c) => assert forall d :: HasCore(s'.net, d) ==> CoreAt(s'.net, d) == CoreAt(s.net, d);
      }
      RunsSdma(su, s', trace[1..], t);
    }
  }

  /** A reset never races a later write of the round: nothing can still reach a slot its owner has taken back. */
  lemma ResetNeverRaces(su: Setup, s: State, trace: seq<Action>, t: State, l: Loc, c: Id)
    requires ValidSetup(su) && Init(su, s) && Runs(su, s, trace, t) && HasCore(t.net, c) && l in t.net.consumed
    ensures l !in Locs(CoreAt(t.net, c).pending) && l !in PutLocs(CoreAt(t.net, c).todo)
  {
    InitInv(su, s);
    RunsInv(su, s.net.mem, s, trace, t);
    NoLateWrite(PlanOf(su.j), ScriptsOf(su), s.net.mem, t.net, c, l);
  }

  /** No core ever has more than 256 SDMA puts in flight. */
  lemma SdmaLimit(su: Setup, s: State, trace: seq<Action>, t: State, c: Id)
    requires ValidSetup(su) && Init(su, s) && Runs(su, s, trace, t) && HasCore(t.net, c)
    ensures |OnChannel(CoreAt(t.net, c).pending, Sdma)| <= 256
  {
    LaunchSdma(su, s);
    RunsSdma(su, s, trace, t);
  }

  // ---- exactly-once delivery ----

  /** Each slot is put by exactly one core, and by exactly one operation of its script. */
  lemma ExactlyOnce(su: Setup, l: Loc) returns (c: Id, i: nat)
    requires ValidSetup(su) && IsSlot(su.j, l.pe, l.slot) && (l.region == Data || l.region == Status)
    ensures 0 <= c.rank < su.j.rt.n && 0 <= c.aiv < su.j.rt.n
    ensures i < |ScriptsOf(su)[c.rank][c.aiv]|
    ensures ScriptsOf(su)[c.rank][c.aiv][i].Put? && ScriptsOf(su)[c.rank][c.aiv][i].loc == l
    ensures forall r, a, m | 0 <= r < su.j.rt.n && 0 <= a < su.j.rt.n && 0 <= m < |ScriptsOf(su)[r][a]| ::
              ScriptsOf(su)[r][a][m].Put? && ScriptsOf(su)[r][a][m].loc == l ==> Id(r, a) == c && m == i
  {
    StatusIsPut(su, l.pe, l.slot);
    c := Id(Dest(su.j.rt, l.pe, l.slot), l.pe);
    var script := ScriptsOf(su)[c.rank][c.aiv];
    i :| 0 <= i < |script| && script[i].Put? && script[i].loc == l;
    forall r, a, m | 0 <= r < su.j.rt.n && 0 <= a < su.j.rt.n && 0 <= m < |ScriptsOf(su)[r][a]|
      && ScriptsOf(su)[r][a][m].Put? && ScriptsOf(su)[r][a][m].loc == l
      ensures Id(r, a) == c && m == i
    {
      ScriptSafe(su.j, r, a, su.planes[r][a]);
      SafeFresh(PlanOf(su.j), Id(r, a), ScriptsOf(su)[r][a], {}, {});
    }
  }

  // ---- any number of barrier-separated rounds ----

  datatype Round = Round(setup: Setup, start: State, trace: seq<Action>, end: State)

  ghost predicate Relaunched(su: Setup, t: State, s: State)
    requires ValidSetup(su)
  {
    && s.net == Launch(t.net.mem, ScriptsOf(su)) && s.xOut == t.xOut && Shape(su, s)
    && forall c :: HasReader(s, c) ==> ReaderAt(s, c) == Reader(c.aiv, Waiting(0))
  }

  predicate SameSizes(j: Job, j': Job)
  {
    j.rt.n == j'.rt.n && j.rt.bs == j'.rt.bs && j.rt.k == j'.rt.k
  }

  ghost predicate Chained(rounds: seq<Round>)
  {
    && (forall i :: 0 <= i < |rounds| ==>
          && ValidSetup(rounds[i].setup)
          && Runs(rounds[i].setup, rounds[i].start, rounds[i].trace, rounds[i].end)
             && Final(rounds[i].setup, rounds[i].end))
    && (forall i :: 0 < i < |rounds| ==>
          && SameSizes(rounds[i - 1].setup.j, rounds[i].setup.j)
          && Relaunched(rounds[i].setup, rounds[i - 1].end, rounds[i].start))
    && (rounds != [] ==> Init(rounds[0].setup, rounds[0].start))
  }

  lemma {:induction false} RoundsCorrect(rounds: seq<Round>, i: nat)
    requires Chained(rounds) && i < |rounds|
    ensures Init(rounds[i].setup, rounds[i].start)
    ensures Reduced(rounds[i].setup, rounds[i].end) && Clean(rounds[i].setup.j, rounds[i].end.net.mem)
    ensures var su, t := rounds[i].setup, rounds[i].end;
            forall o: nat, token: nat :: o < su.j.rt.n && token < su.j.rt.bs ==>
              Columns(su, o, token, Answers(su, o, token), t.xOut[o][token])
  {
    if i > 0 {
      RoundsCorrect(rounds, i - 1);
      var mem := rounds[i - 1].end.net.mem;
      assert rounds[i].start.net.mem == mem;
      assert Clean(rounds[i].setup.j, mem) by {
        forall l: Loc | l.region == Status && IsSlot(rounds[i].setup.j, l.pe, l.slot)
          ensures IsSlot(rounds[i - 1].setup.j, l.pe, l.slot)
        {
        }
      }
    }
    CombineCorrect(rounds[i].setup, rounds[i].start, rounds[i].trace, rounds[i].end);
  }
}
