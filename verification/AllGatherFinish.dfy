/**
 The streaming all-gather can always be brought to an end: from every reachable state the
 producers can publish everything, and then every consumer exits after finitely many steps of
 its own. So every launch has a complete sequence of rounds.
 */
module AllGatherFinish {
  import opened AllGather
  import opened AllGatherRounds

  lemma {:induction false} RunsConcat(cf: Config, s: State, a: seq<Action>, m: State, b: seq<Action>, t: State)
    requires Valid(cf) && Runs(cf, s, a, m) && Runs(cf, m, b, t)
    ensures Runs(cf, s, a + b, t)
    decreases |a|
  {
    hide Next, Enabled, Valid, Shape;
    if a == [] {
      assert a + b == b;
    } else {
      RunsConcat(cf, Next(cf, s, a[0]), a[1..], m, b, t);
      assert (a + b)[1..] == a[1..] + b;
    }
  }

  lemma NoSteps(cf: Config, s: State)
    requires Valid(cf)
    ensures Runs(cf, s, [], s)
  {
  }

  lemma OneStep(cf: Config, s: State, a: Action, rest: seq<Action>, t: State)
    requires Valid(cf) && Shape(cf, s) && Enabled(cf, s, a) && Runs(cf, Next(cf, s, a), rest, t)
    ensures Runs(cf, s, [a] + rest, t)
  {
    assert ([a] + rest)[1..] == rest;
  }

  // ---- producers ----

  predicate Drained(cf: Config, s: State, x: nat, g: nat)
    requires cf.groups > 0 && cf.chunk > 0 && Shape(cf, s) && x < cf.n && g < cf.groups
  {
    s.prods[x][g] == Prod(Chunks(cf, g), false, {})
  }

  ghost predicate OthersSame(cf: Config, s: State, t: State, x: nat, g: nat)
    requires Shape(cf, s) && Shape(cf, t)
  {
    forall y, q :: 0 <= y < cf.n && 0 <= q < cf.groups && !(y == x && q == g) ==> t.prods[y][q] == s.prods[y][q]
  }

  /** The next step of one producer and what it does to the producers. */
  lemma ProducerStep(cf: Config, s: State, x: nat, g: nat) returns (a: Action)
    requires Valid(cf) && Inv(cf, s) && x < cf.n && g < cf.groups && !Drained(cf, s, x, g)
    ensures Enabled(cf, s, a) && Inv(cf, Next(cf, s, a)) && OthersSame(cf, s, Next(cf, s, a), x, g)
    ensures var p, p' := s.prods[x][g], Next(cf, s, a).prods[x][g];
            && p.times <= p'.times <= Chunks(cf, g)
            && (p.times < p'.times || (p.times == p'.times && p'.putting
                 && (!p.putting || Unlanded(p') < Unlanded(p))))
  {
    var p := s.prods[x][g];
    assert ProdInv(cf, x, g, p, s.flags[x][g], s.gva[x]);
    hide ProdInv, ConsAt, Chunks, ChunkOf, GroupOffset;
    if !p.putting {
      a := StartPut(x, g);
    } else if p.pending == {} {
      a := Signal(x, g);
    } else {
      var e0 :| e0 in p.pending;
      a := LandElem(x, g, e0);
      assert |p.pending - {e0}| < |p.pending|;
    }
    NextInv(cf, s, a);
    ProdBound(cf, Next(cf, s, a), x, g);
  }

  /** The elements of a chunk still to land. */
  function Unlanded(p: Prod): nat
  {
    |p.pending|
  }

  lemma ProdBound(cf: Config, s: State, x: nat, g: nat)
    requires Valid(cf) && Inv(cf, s) && x < cf.n && g < cf.groups
    ensures s.prods[x][g].times <= Chunks(cf, g)
  {
    assert ProdInv(cf, x, g, s.prods[x][g], s.flags[x][g], s.gva[x]);
  }

  lemma {:induction false} DrainOne(cf: Config, s: State, x: nat, g: nat) returns (trace: seq<Action>, t: State)
    requires Valid(cf) && Inv(cf, s) && x < cf.n && g < cf.groups
    ensures Runs(cf, s, trace, t) && Inv(cf, t) && Drained(cf, t, x, g) && OthersSame(cf, s, t, x, g)
    decreases Chunks(cf, g) - s.prods[x][g].times, if s.prods[x][g].putting then 0 else 1, Unlanded(s.prods[x][g])
  {
    hide ProdInv, ConsAt, Chunks, Next, Enabled;
    if Drained(cf, s, x, g) { return [], s; }
    var a := ProducerStep(cf, s, x, g);
    var rest;
    rest, t := DrainOne(cf, Next(cf, s, a), x, g);
    OneStep(cf, s, a, rest, t);
    trace := [a] + rest;
  }

  ghost predicate DrainedTo(cf: Config, s: State, x: nat, g: nat)
    requires cf.groups > 0 && cf.chunk > 0 && Shape(cf, s)
  {
    forall y: nat, q: nat :: y < cf.n && q < cf.groups && (y < x || (y == x && q < g)) ==> Drained(cf, s, y, q)
  }

  lemma DrainedMore(cf: Config, m: State, t: State, x: nat, g: nat)
    requires Valid(cf) && Shape(cf, m) && Shape(cf, t) && x < cf.n && g < cf.groups
    requires DrainedTo(cf, m, x, g) && OthersSame(cf, m, t, x, g) && Drained(cf, t, x, g)
    ensures DrainedTo(cf, t, x, g + 1)
  {
    hide Chunks;
    forall y: nat, q: nat | y < cf.n && q < cf.groups && (y < x || (y == x && q < g + 1)) ensures Drained(cf, t, y, q) {
      if !(y == x && q == g) { assert Drained(cf, m, y, q); }
    }
  }

  lemma DrainedRank(cf: Config, t: State, x: nat)
    requires Valid(cf) && Shape(cf, t) && DrainedTo(cf, t, x, cf.groups)
    ensures DrainedTo(cf, t, x + 1, 0)
  {
    hide Drained;
  }

  lemma {:induction false} DrainTo(cf: Config, s: State, x: nat, g: nat) returns (trace: seq<Action>, t: State)
    requires Valid(cf) && Inv(cf, s) && x <= cf.n && g <= cf.groups && (x == cf.n ==> g == 0)
    ensures Runs(cf, s, trace, t) && Inv(cf, t) && DrainedTo(cf, t, x, g)
    decreases x, g
  {
    hide ProdInv, ConsAt, Chunks, Runs, Drained;
    if g > 0 {
      var a, m := DrainTo(cf, s, x, g - 1);
      var b;
      b, t := DrainOne(cf, m, x, g - 1);
      RunsConcat(cf, s, a, m, b, t);
      trace := a + b;
      DrainedMore(cf, m, t, x, g - 1);
    } else if x > 0 {
      trace, t := DrainTo(cf, s, x - 1, cf.groups);
      DrainedRank(cf, t, x - 1);
    } else {
      trace, t := [], s;
      NoSteps(cf, s);
    }
  }

  // ---- consumers ----

  ghost predicate ConsSame(cf: Config, s: State, t: State, r: nat, u: nat)
    requires Shape(cf, s) && Shape(cf, t)
  {
    forall o, v :: 0 <= o < cf.n && 0 <= v < cf.groups && !(o == r && v == u) ==> t.cons[o][v] == s.cons[o][v]
  }

  /** With everything published, one consumer exits by its own steps. */
  lemma {:induction false} ExitOne(cf: Config, s: State, r: nat, u: nat, level: nat)
    returns (trace: seq<Action>, t: State)
    requires Valid(cf) && Inv(cf, s) && ProducersDone(cf, s) && r < cf.n && u < cf.groups
    requires |s.cons[r][u].progress| == cf.groups && (s.cons[r][u].mode == Exited || LevelOk(cf, s.cons[r][u], level))
    ensures Runs(cf, s, trace, t) && Inv(cf, t) && ProducersDone(cf, t)
    ensures t.cons[r][u].mode == Exited && ConsSame(cf, s, t, r, u)
    decreases level, SweepSteps(cf, s.cons[r][u])
  {
    hide ProdInv, ConsInv, ConsAt, LevelOk, ProducersDone, Next, ConsumerStep, SweepRank, Chunks;
    var c := s.cons[r][u];
    if c.mode == Exited { return [], s; }
    var a := Consume(r, u);
    ConsumerAdvances(cf, s, r, u, level);
    var rest;
    rest, t := ExitOne(cf, Next(cf, s, a), r, u, if c.g < cf.groups then level else level - 1);
    OneStep(cf, s, a, rest, t);
    trace := [a] + rest;
  }

  function SweepSteps(cf: Config, c: Cons): nat
  {
    if SweepRank(cf, c) > 0 then SweepRank(cf, c) else 0
  }

  lemma ConsumerAdvances(cf: Config, s: State, r: nat, u: nat, level: nat)
    requires Valid(cf) && Inv(cf, s) && ProducersDone(cf, s) && r < cf.n && u < cf.groups
    requires |s.cons[r][u].progress| == cf.groups && s.cons[r][u].mode != Exited && LevelOk(cf, s.cons[r][u], level)
    ensures Enabled(cf, s, Consume(r, u))
    ensures var s' := Next(cf, s, Consume(r, u));
            && Inv(cf, s') && ProducersDone(cf, s') && ConsSame(cf, s, s', r, u)
               && |s'.cons[r][u].progress| == cf.groups
            && (if s.cons[r][u].g < cf.groups
                then LevelOk(cf, s'.cons[r][u], level) && SweepSteps(cf, s'.cons[r][u]) < SweepSteps(cf, s.cons[r][u])
                else level > 0 && (s'.cons[r][u].mode == Exited
                                   || (level > 1 && LevelOk(cf, s'.cons[r][u], level - 1))))
  {
    hide ProdInv, ConsInv, LevelOk, ConsumerStep, SweepRank, Chunks, KeepsRight, CopyStep;
    var c, x := s.cons[r][u], Source(cf, u);
    var a := Consume(r, u);
    NextInv(cf, s, a);
    OnlyConsumers(cf, s, a);
    assert ConsAt(cf, s, r, u);
    var flag := if c.g < cf.groups then s.flags[x][c.g] else 0;
    if c.g < cf.groups {
      assert ProdInv(cf, x, c.g, s.prods[x][c.g], s.flags[x][c.g], s.gva[x]);
      SweepAdvances(cf, u, c, flag, s.prods[x], s.gva[x], s.out[r]);
    }
    LevelStep(cf, u, c, flag, s.prods[x], s.gva[x], s.out[r], level);
    LevelRange(cf, c, level);
    ConsumeEffect(cf, s, r, u);
  }

  lemma LevelRange(cf: Config, c: Cons, level: nat)
    requires Valid(cf) && |c.progress| == cf.groups && LevelOk(cf, c, level)
    ensures 1 <= level <= 3
  {
  }

  ghost predicate ExitedTo(cf: Config, s: State, r: nat, u: nat)
    requires Shape(cf, s)
  {
    forall o: nat, v: nat :: o < cf.n && v < cf.groups && (o < r || (o == r && v < u)) ==> s.cons[o][v].mode == Exited
  }

  /** Nothing is assumed of a consumer that has at most three sweep ends left. */
  lemma AnyLevel(cf: Config, s: State, r: nat, u: nat)
    requires Valid(cf) && Inv(cf, s) && r < cf.n && u < cf.groups
    ensures |s.cons[r][u].progress| == cf.groups && LevelOk(cf, s.cons[r][u], 3)
  {
    assert ConsAt(cf, s, r, u);
  }

  lemma {:induction false} ExitTo(cf: Config, s: State, r: nat, u: nat) returns (trace: seq<Action>, t: State)
    requires Valid(cf) && Inv(cf, s) && ProducersDone(cf, s) && r <= cf.n && u <= cf.groups && (r == cf.n ==> u == 0)
    ensures Runs(cf, s, trace, t) && Inv(cf, t) && ProducersDone(cf, t) && ExitedTo(cf, t, r, u)
    decreases r, u
  {
    hide ProdInv, ConsAt, Chunks, LevelOk, ProducersDone, Runs;
    if u > 0 {
      var a, m := ExitTo(cf, s, r, u - 1);
      AnyLevel(cf, m, r, u - 1);
      var b;
      b, t := ExitOne(cf, m, r, u - 1, 3);
      RunsConcat(cf, s, a, m, b, t);
      trace := a + b;
    } else if r > 0 {
      trace, t := ExitTo(cf, s, r - 1, cf.groups);
    } else {
      trace, t := [], s;
      NoSteps(cf, s);
    }
  }

  lemma AllDrained(cf: Config, s: State)
    requires Valid(cf) && Shape(cf, s) && DrainedTo(cf, s, cf.n, 0)
    ensures ProducersDone(cf, s)
  {
    forall x: nat, g: nat | x < cf.n && g < cf.groups ensures s.prods[x][g] == Prod(Chunks(cf, g), false, {}) {
      assert Drained(cf, s, x, g);
    }
  }

  /** Every reachable state of a round has a continuation in which all consumers exit. */
  lemma RoundCompletes(cf: Config, s: State) returns (trace: seq<Action>, t: State)
    requires Valid(cf) && Inv(cf, s)
    ensures Runs(cf, s, trace, t) && Shape(cf, t) && AllExited(cf, t)
  {
    hide ProdInv, ConsAt, Chunks, Runs;
    var a, m := DrainTo(cf, s, cf.n, 0);
    AllDrained(cf, m);
    hide ProducersDone, DrainedTo;
    var b;
    b, t := ExitTo(cf, m, cf.n, 0);
    RunsConcat(cf, s, a, m, b, t);
    trace := a + b;
  }

  // ---- launches ----

  /** Memory of all ranks at the start of a launch, as far as the rounds use it. */
  ghost predicate Memory(b: Launch, flags: seq<seq<int>>, gva: seq<seq<int>>, out: seq<seq<int>>)
    requires ValidLaunch(b)
  {
    && |flags| == |gva| == |out| == b.n
    && (forall x :: 0 <= x < b.n ==> |flags[x]| == b.groups && |gva[x]| >= PerRound(b) && |out[x]| == b.n * b.elements)
  }

  /** Registers as they are when a round starts. */
  function StartState(b: Launch, flags: seq<seq<int>>, gva: seq<seq<int>>, out: seq<seq<int>>): State
  {
    State(flags, gva, out, seq(b.n, _ => seq(b.groups, _ => Prod(0, false, {}))),
          seq(b.n, _ => seq(b.groups, _ => Cons(seq(b.groups, _ => 0), 0, Polling, 0))))
  }

  lemma StartIsInit(b: Launch, i: nat, flags: seq<seq<int>>, gva: seq<seq<int>>, out: seq<seq<int>>)
    requires ValidLaunch(b) && i < Rounds(b) && Memory(b, flags, gva, out)
             && Outside(flags, b.magic + i, b.magic + Rounds(b))
    ensures Valid(RoundConfig(b, i)) && Init(RoundConfig(b, i), StartState(b, flags, gva, out))
  {
    RoundValid(b, i);
    RoundBound(b, i);
  }

  /** A round that has not been used can be completed from any memory. */
  lemma RoundFrom(b: Launch, i: nat, flags: seq<seq<int>>, gva: seq<seq<int>>, out: seq<seq<int>>)
    returns (round: Round)
    requires ValidLaunch(b) && i < Rounds(b) && Memory(b, flags, gva, out)
             && Outside(flags, b.magic + i, b.magic + Rounds(b))
    ensures RoundOk(b, i, round) && round.start == StartState(b, flags, gva, out)
  {
    hide Inv, Valid, Runs, Rounds, Outside, AllExited;
    var cf, s := RoundConfig(b, i), StartState(b, flags, gva, out);
    StartIsInit(b, i, flags, gva, out);
    InitInv(cf, s);
    var trace, t := RoundCompletes(cf, s);
    round := Round(s, trace, t);
  }

  /** No step changes the sizes of the memories. */
  lemma {:induction false} RunsKeepSizes(cf: Config, s: State, trace: seq<Action>, t: State)
    requires Valid(cf) && Inv(cf, s) && Runs(cf, s, trace, t)
    ensures Inv(cf, t) && forall x :: 0 <= x < cf.n ==> |t.gva[x]| == |s.gva[x]|
    decreases |trace|
  {
    hide ProdInv, ConsAt, Valid, ConsumerStep, CopyStep, ChunkOf, GroupOffset;
    if trace != [] {
      NextInv(cf, s, trace[0]);
      RunsKeepSizes(cf, Next(cf, s, trace[0]), trace[1..], t);
    }
  }

  lemma EndMemory(b: Launch, i: nat, round: Round)
    requires ValidLaunch(b) && RoundOk(b, i, round) && Outside(round.start.flags, b.magic + i, b.magic + Rounds(b))
    requires Memory(b, round.start.flags, round.start.gva, round.start.out)
    ensures Memory(b, round.end.flags, round.end.gva, round.end.out)
  {
    hide Inv, Valid, Runs, Rounds, Outside, AllExited;
    FreshIsInit(b, i, round);
    InitInv(RoundConfig(b, i), round.start);
    RunsKeepSizes(RoundConfig(b, i), round.start, round.trace, round.end);
  }

  /**
   Every launch whose epochs are unused has a complete sequence of rounds, so the result of all
   rounds is never vacuous.
   */
  lemma {:induction false} LaunchCompletes(b: Launch, flags: seq<seq<int>>, gva: seq<seq<int>>, out: seq<seq<int>>,
                                           k: nat)
    returns (rounds: seq<Round>)
    requires ValidLaunch(b) && k <= Rounds(b) && Memory(b, flags, gva, out)
             && Outside(flags, b.magic, b.magic + Rounds(b))
    ensures |rounds| == k && Chained(b, rounds)
    ensures k > 0 ==> rounds[0].start == StartState(b, flags, gva, out)
    ensures k > 0 ==> var end := rounds[k - 1].end;
            Memory(b, end.flags, end.gva, end.out) && Outside(end.flags, b.magic + k, b.magic + Rounds(b))
    decreases k
  {
    hide RoundOk, Rounds, Outside, Memory;
    if k == 0 { return []; }
    var before := LaunchCompletes(b, flags, gva, out, k - 1);
    var f, g, o := flags, gva, out;
    if k > 1 { f, g, o := before[k - 2].end.flags, before[k - 2].end.gva, before[k - 2].end.out; }
    var round := RoundFrom(b, k - 1, f, g, o);
    rounds := before + [round];
    RoundUsesEpoch(b, k - 1, round);
    EndMemory(b, k - 1, round);
  }
}
