/**
 The streaming all-gather beyond one round: termination of the polling loop, the epoch bound
 that follows from the buffer sizes, and all rounds of the big-data entry point together.
 */
module AllGatherRounds {
  import opened Arith
  import opened AllGather

  // ---- the polling loop ends ----

  ghost predicate ProducersDone(cf: Config, s: State)
    requires Valid(cf) && Shape(cf, s)
  {
    forall x: nat, g: nat :: x < cf.n && g < cf.groups ==> s.prods[x][g] == Prod(Chunks(cf, g), false, {})
  }

  /** A producer never waits for a consumer: until it has published everything, it has a step. */
  lemma ProducerProgress(cf: Config, s: State, x: nat, g: nat)
    requires Valid(cf) && Inv(cf, s) && x < cf.n && g < cf.groups
    requires s.prods[x][g] != Prod(Chunks(cf, g), false, {})
    ensures || Enabled(cf, s, StartPut(x, g)) || Enabled(cf, s, Signal(x, g))
            || exists e: nat :: Enabled(cf, s, LandElem(x, g, e))
  {
    var p := s.prods[x][g];
    assert ProdInv(cf, x, g, p, s.flags[x][g], s.gva[x]);
    if p.putting && p.pending != {} {
      var e :| e in p.pending;
      assert Enabled(cf, s, LandElem(x, g, e));
    }
  }

  /** How often group `q` must still be visited, once everything is published. */
  function Visits(cf: Config, c: Cons, q: nat): nat
    requires cf.groups > 0 && q < cf.groups == |c.progress|
  {
    if c.progress[q] == FINISHED then 0
    else if c.progress[q] * cf.chunk >= GroupLen(cf, q) then 1
    else 2
  }

  /** Groups behind the cursor need fewer than `level` more visits, the others at most `level`. */
  ghost predicate LevelOk(cf: Config, c: Cons, level: nat)
    requires Valid(cf) && |c.progress| == cf.groups
  {
    && 1 <= level <= 3
    && (forall q: nat :: q < cf.groups ==> Visits(cf, c, q) <= if q < c.g then level - 1 else level)
    && (level < 3 && c.mode.Copying? ==> c.g < cf.groups && c.mode.ready == Chunks(cf, c.g))
  }

  /** With everything published, a visit of a group that is not complete copies all of it. */
  lemma FinalPoll(cf: Config, g: nat, p: Prod, flag: int, x: nat, gva: seq<int>, progress: int)
    requires Valid(cf) && g < cf.groups && ProdInv(cf, x, g, p, flag, gva) && p.times == Chunks(cf, g)
    requires 0 <= progress <= p.times && progress * cf.chunk < GroupLen(cf, g)
    ensures Poll(cf, g, progress, flag).Copying? && Poll(cf, g, progress, flag).ready == Chunks(cf, g)
  {
    ChunksComplete(cf, g, progress);
    var k := Chunks(cf, g);
    assert 0 < k <= MAX_CHUNKS && flag == cf.magic + k;
    EpochOf(cf.magic, k);
  }

  /** A chunk count below the epoch size never changes the epoch. */
  lemma EpochOf(magic: int, times: nat)
    requires magic % EPOCH == 0 && times <= MAX_CHUNKS
    ensures (magic + times) / EPOCH == magic / EPOCH
  {
  }

  lemma LevelStep(cf: Config, u: nat, c: Cons, flag: int, prods: seq<Prod>, gva: seq<int>, out: seq<int>, level: nat)
    requires Valid(cf) && |prods| == cf.groups && ConsInv(cf, u, c, prods, out) && c.mode != Exited
    requires c.g < cf.groups ==>
             prods[c.g].times == Chunks(cf, c.g) && ProdInv(cf, Source(cf, u), c.g, prods[c.g], flag, gva)
    requires LevelOk(cf, c, level)
    ensures var c' := ConsumerStep(cf, c, flag);
            && |c'.progress| == cf.groups
            && (c.g < cf.groups ==> c'.sweeps == c.sweeps && c'.mode != Exited && LevelOk(cf, c', level))
            && (c.g >= cf.groups ==>
                c'.sweeps == c.sweeps + 1 && (c'.mode == Exited || (level > 1 && LevelOk(cf, c', level - 1))))
  {
    var g := c.g;
    if g >= cf.groups {
      SweepEnd(cf, c, level);
    } else {
      assert ProgressOk(cf, out, Source(cf, u), g, c.progress[g], prods[g].times);
      if c.mode == Polling && c.progress[g] != FINISHED && c.progress[g] * cf.chunk < GroupLen(cf, g) {
        FinalPoll(cf, g, prods[g], flag, Source(cf, u), gva, c.progress[g]);
      }
      if c.mode.Copying? { ChunksComplete(cf, g, c.progress[g]); }
      hide ProdInv, ProgressOk, ModeOk, ConsInv, LevelOk;
      GroupStep(cf, c, flag, level);
    }
  }

  lemma SweepEnd(cf: Config, c: Cons, level: nat)
    requires Valid(cf) && |c.progress| == cf.groups && c.g >= cf.groups && LevelOk(cf, c, level) && c.mode == Polling
    ensures AllFinished(c.progress) || (level > 1 && LevelOk(cf, c.(g := 0, sweeps := c.sweeps + 1), level - 1))
  {
    hide GroupLen;
    var c' := c.(g := 0, sweeps := c.sweeps + 1);
    forall q: nat | q < cf.groups ensures Visits(cf, c', q) <= level - 1 { assert Visits(cf, c, q) <= level - 1; }
    if level == 1 {
      forall q | 0 <= q < cf.groups ensures c.progress[q] == FINISHED { assert Visits(cf, c', q) <= 0; }
    }
  }

  lemma GroupStep(cf: Config, c: Cons, flag: int, level: nat)
    requires Valid(cf) && |c.progress| == cf.groups && c.g < cf.groups && LevelOk(cf, c, level) && c.mode != Exited
    requires c.mode == Polling && c.progress[c.g] != FINISHED && c.progress[c.g] * cf.chunk < GroupLen(cf, c.g)
             ==> var mode := Poll(cf, c.g, c.progress[c.g], flag); mode.Copying? && mode.ready == Chunks(cf, c.g)
    requires c.mode.Copying? ==> c.progress[c.g] != FINISHED && c.progress[c.g] * cf.chunk < GroupLen(cf, c.g)
    ensures var c' := ConsumerStep(cf, c, flag);
            |c'.progress| == cf.groups && c'.sweeps == c.sweeps && c'.mode != Exited && LevelOk(cf, c', level)
  {
    var c', g := ConsumerStep(cf, c, flag), c.g;
    if c.mode.Copying? && level < 3 { ChunksComplete(cf, g, c.mode.ready); }
    hide Chunks, Poll, GroupLen;
    assert Visits(cf, c, g) <= level;
    assert Visits(cf, c', g) <= if g < c'.g then level - 1 else level;
    forall q: nat | q < cf.groups ensures Visits(cf, c', q) <= if q < c'.g then level - 1 else level {
      if q != g {
        assert c'.progress[q] == c.progress[q];
        assert Visits(cf, c, q) <= if q < c.g then level - 1 else level;
      }
    }
  }

  /** The consumer has at most `level` sweep ends left, counted from sweep number `start`. */
  ghost predicate Budget(cf: Config, c: Cons, start: int, level: int)
    requires Valid(cf) && |c.progress| == cf.groups
  {
    && start <= c.sweeps <= start + level
    && (c.mode != Exited ==> 1 <= start + level - c.sweeps <= 3 && LevelOk(cf, c, start + level - c.sweeps))
  }

  lemma {:induction false} RunsBudget(cf: Config, s: State, trace: seq<Action>, t: State, r: nat, u: nat, start: int,
                                      level: int)
    requires Valid(cf) && Inv(cf, s) && ProducersDone(cf, s) && Runs(cf, s, trace, t) && r < cf.n && u < cf.groups
    requires |s.cons[r][u].progress| == cf.groups && Budget(cf, s.cons[r][u], start, level)
    ensures Inv(cf, t) && |t.cons[r][u].progress| == cf.groups && Budget(cf, t.cons[r][u], start, level)
    decreases |trace|
  {
    if trace != [] {
      var a := trace[0];
      var s' := Next(cf, s, a);
      NextInv(cf, s, a);
      OnlyConsumers(cf, s, a);
      BudgetStep(cf, s, a, r, u, start, level);
      RunsBudget(cf, s', trace[1..], t, r, u, start, level);
    }
  }

  lemma OnlyConsumers(cf: Config, s: State, a: Action)
    requires Valid(cf) && Inv(cf, s) && ProducersDone(cf, s) && Enabled(cf, s, a)
    ensures a.Consume? && Next(cf, s, a).prods == s.prods && Shape(cf, Next(cf, s, a))
    ensures ProducersDone(cf, Next(cf, s, a))
  {
    NextInv(cf, s, a);
  }

  lemma BudgetStep(cf: Config, s: State, a: Action, r: nat, u: nat, start: int, level: int)
    requires Valid(cf) && Inv(cf, s) && ProducersDone(cf, s) && Enabled(cf, s, a) && a.Consume? && r < cf.n
             && u < cf.groups
    requires |s.cons[r][u].progress| == cf.groups && Budget(cf, s.cons[r][u], start, level)
    ensures var s' := Next(cf, s, a);
            && Shape(cf, s') && |s'.cons[r][u].progress| == cf.groups && Budget(cf, s'.cons[r][u], start, level)
  {
    NextInv(cf, s, a);
    if a == Consume(r, u) {
      SourceBound(cf, u);
      var c, x := s.cons[r][u], Source(cf, u);
      assert ConsAt(cf, s, r, u);
      if c.g < cf.groups { assert ProdInv(cf, x, c.g, s.prods[x][c.g], s.flags[x][c.g], s.gva[x]); }
      var flag := if c.g < cf.groups then s.flags[x][c.g] else 0;
      LevelStep(cf, u, c, flag, s.prods[x], s.gva[x], s.out[r], start + level - c.sweeps);
    }
  }

  /**
   Once all producers have finished, a consumer exits at the latest at the second sweep end after
   the sweep it is in: at the second one if it is at the start of a sweep, else at the third.
   */
  lemma ExitsWithinTwoSweeps(cf: Config, s: State, trace: seq<Action>, t: State, r: nat, u: nat)
    requires Valid(cf) && Inv(cf, s) && ProducersDone(cf, s) && Runs(cf, s, trace, t) && r < cf.n && u < cf.groups
    requires s.cons[r][u].mode != Exited
    ensures Shape(cf, t)
    ensures var c, c' := s.cons[r][u], t.cons[r][u];
            var limit := if c.g == 0 && c.mode == Polling then 2 else 3;
            c'.sweeps <= c.sweeps + limit && (c'.sweeps == c.sweeps + limit ==> c'.mode == Exited)
  {
    var c := s.cons[r][u];
    SourceBound(cf, u);
    assert ConsAt(cf, s, r, u);
    var limit := if c.g == 0 && c.mode == Polling then 2 else 3;
    assert LevelOk(cf, c, limit);
    RunsBudget(cf, s, trace, t, r, u, c.sweeps, limit);
  }

  /** Steps left in the current sweep; a sweep cannot go on for ever. */
  function SweepRank(cf: Config, c: Cons): int
  {
    (cf.groups - c.g) * (cf.len + 3)
    + match c.mode
      case Polling => cf.len + 2
      case Copying(_, _, left) => if left > 0 then left + 1 else 1
      case Exited => 0
  }

  lemma SweepAdvances(cf: Config, u: nat, c: Cons, flag: int, prods: seq<Prod>, gva: seq<int>, out: seq<int>)
    requires Valid(cf) && |prods| == cf.groups && ConsInv(cf, u, c, prods, out) && c.mode != Exited
    requires c.g < cf.groups && ProdInv(cf, Source(cf, u), c.g, prods[c.g], flag, gva)
    ensures 0 < SweepRank(cf, c) && SweepRank(cf, ConsumerStep(cf, c, flag)) < SweepRank(cf, c)
  {
    var g, c' := c.g, ConsumerStep(cf, c, flag);
    var unit := cf.len + 3;
    MulAtLeast(cf.groups - g, unit);
    Distribute(cf.groups - g, 1, unit);
    assert ProgressOk(cf, out, Source(cf, u), g, c.progress[g], prods[g].times);
    if c'.mode.Copying? && c.mode == Polling {
      PollOk(cf, c, Source(cf, u), prods[g], flag, gva, out);
      PublishedStep(cf, g, c'.mode.ready, c'.mode.ready);
      GroupBound(cf, g);
    }
  }

  // ---- the epoch bound from the buffer sizes ----

  const UB_BYTES: nat := 190 * 1024
  const GVA_BYTES: nat := 100 * 1024 * 1024

  /** One launch of the big-data entry point; elements are 2 or 4 bytes wide. */
  datatype Launch = Launch(n: nat, groups: nat, perRank: nat, elements: nat, elemSize: nat, magic: int,
                           input: seq<seq<int>>)

  ghost predicate ValidLaunch(b: Launch)
  {
    && b.n > 0 && b.perRank > 0 && b.groups == b.n * b.perRank && b.groups > 0
    && (b.elemSize == 2 || b.elemSize == 4)
    && |b.input| == b.n && forall x :: 0 <= x < b.n ==> |b.input[x]| == b.elements
  }

  function PerRound(b: Launch): nat
    requires b.elemSize == 2 || b.elemSize == 4
  {
    GVA_BYTES / b.elemSize
  }

  function Rounds(b: Launch): nat
    requires b.elemSize == 2 || b.elemSize == 4
  {
    (b.elements + PerRound(b) - 1) / PerRound(b)
  }

  function RoundLen(b: Launch, i: nat): int
    requires b.elemSize == 2 || b.elemSize == 4
  {
    var left := b.elements - i * PerRound(b);
    if left > PerRound(b) then PerRound(b) else left
  }

  lemma RoundBound(b: Launch, i: nat)
    requires b.elemSize == 2 || b.elemSize == 4
    requires i < Rounds(b)
    ensures 0 <= i * PerRound(b) && 0 < RoundLen(b, i) <= PerRound(b)
    ensures i * PerRound(b) + RoundLen(b, i) <= b.elements
  {
    var m := PerRound(b);
    MulLe(0, i, m);
    Recompose(b.elements + m - 1, m);
    MulLe(i + 1, Rounds(b), m);
    assert (i + 1) * m == i * m + m;
  }

  /** The arguments the loop of the big-data entry point passes in round `i`. */
  function RoundConfig(b: Launch, i: nat): Config
    requires b.elemSize == 2 || b.elemSize == 4
    requires i < Rounds(b)
  {
    RoundBound(b, i);
    Config(b.n, b.groups, b.perRank, b.elements, i * PerRound(b), RoundLen(b, i),
           UB_BYTES / b.elemSize, UB_BYTES / 2 / b.elemSize, (b.magic + i) * EPOCH, b.input)
  }

  /** 100 MiB in chunks of 190 KiB: a group never needs more than 539 chunks, far below the epoch size. */
  lemma ChunkLimit(b: Launch, i: nat, g: nat)
    requires ValidLaunch(b) && i < Rounds(b) && g < b.groups
    ensures Chunks(RoundConfig(b, i), g) <= 539
  {
    hide GroupLen, GroupOffset;
    var cf := RoundConfig(b, i);
    RoundBound(b, i);
    GroupBound(cf, g);
    RoundChunks(b.elemSize, GroupLen(cf, g));
  }

  lemma RoundChunks(size: nat, len: nat)
    requires (size == 2 || size == 4) && len <= GVA_BYTES / size
    ensures (len + UB_BYTES / size - 1) / (UB_BYTES / size) <= 539
  {
  }

  lemma RoundValid(b: Launch, i: nat)
    requires ValidLaunch(b) && i < Rounds(b)
    ensures Valid(RoundConfig(b, i)) && RoundConfig(b, i).magic / EPOCH == b.magic + i
  {
    var cf := RoundConfig(b, i);
    RoundBound(b, i);
    forall g: nat | g < cf.groups ensures Chunks(cf, g) <= MAX_CHUNKS { ChunkLimit(b, i, g); }
    DivMod(b.magic + i, EPOCH, 0);
  }

  // ---- flags across rounds ----

  /** A run moves a flag only into its own epoch. */
  ghost predicate FlagsMoved(cf: Config, s: State, t: State)
    requires Shape(cf, s) && Shape(cf, t)
  {
    forall x, g :: 0 <= x < cf.n && 0 <= g < cf.groups ==>
      t.flags[x][g] == s.flags[x][g] || t.flags[x][g] / EPOCH == cf.magic / EPOCH
  }

  lemma {:induction false} RunsFlags(cf: Config, s: State, trace: seq<Action>, t: State)
    requires Valid(cf) && Inv(cf, s) && Runs(cf, s, trace, t)
    ensures Shape(cf, t) && FlagsMoved(cf, s, t)
    decreases |trace|
  {
    if trace != [] {
      var a := trace[0];
      var s' := Next(cf, s, a);
      NextInv(cf, s, a);
      if a.Signal? {
        assert ProdInv(cf, a.x, a.g, s.prods[a.x][a.g], s.flags[a.x][a.g], s.gva[a.x]);
        EpochOf(cf.magic, s.prods[a.x][a.g].times + 1);
      }
      RunsFlags(cf, s', trace[1..], t);
    }
  }

  /** No flag carries one of the epochs `from` to `to - 1`. */
  ghost predicate Outside(flags: seq<seq<int>>, from: int, to: int)
  {
    forall x, g :: 0 <= x < |flags| && 0 <= g < |flags[x]| ==> !(from <= flags[x][g] / EPOCH < to)
  }

  // ---- all rounds ----

  datatype Round = Round(start: State, trace: seq<Action>, end: State)

  ghost predicate AllExited(cf: Config, s: State)
    requires Shape(cf, s)
  {
    forall r, u :: 0 <= r < cf.n && 0 <= u < cf.groups ==> s.cons[r][u].mode == Exited
  }

  /** The cores' registers at the start of a round; memory is whatever the round before left. */
  ghost predicate FreshCores(cf: Config, s: State)
    requires Shape(cf, s)
  {
    && (forall x, g :: 0 <= x < cf.n && 0 <= g < cf.groups ==> s.prods[x][g] == Prod(0, false, {}))
    && (forall r, u :: 0 <= r < cf.n && 0 <= u < cf.groups ==>
          s.cons[r][u] == Cons(seq(cf.groups, _ => 0), 0, Polling, 0))
  }

  /** Consecutive rounds of one launch; a barrier ends each of them. */
  ghost predicate Linked(b: Launch, rounds: seq<Round>)
    requires ValidLaunch(b)
  {
    && |rounds| <= Rounds(b)
    && (forall i :: 0 <= i < |rounds| ==> RoundOk(b, i, rounds[i]))
    && (forall i :: 0 < i < |rounds| ==>
          && rounds[i].start.flags == rounds[i - 1].end.flags && rounds[i].start.gva == rounds[i - 1].end.gva
          && rounds[i].start.out == rounds[i - 1].end.out)
  }

  ghost predicate Chained(b: Launch, rounds: seq<Round>)
    requires ValidLaunch(b)
  {
    Linked(b, rounds) && (rounds != [] ==> Outside(rounds[0].start.flags, b.magic, b.magic + Rounds(b)))
  }

  ghost predicate RoundOk(b: Launch, i: nat, round: Round)
    requires ValidLaunch(b)
  {
    && i < Rounds(b) && Valid(RoundConfig(b, i))
    && Shape(RoundConfig(b, i), round.start) && FreshCores(RoundConfig(b, i), round.start)
    && Runs(RoundConfig(b, i), round.start, round.trace, round.end)
    && Shape(RoundConfig(b, i), round.end) && AllExited(RoundConfig(b, i), round.end)
  }

  lemma FreshIsInit(b: Launch, i: nat, round: Round)
    requires ValidLaunch(b) && RoundOk(b, i, round) && Outside(round.start.flags, b.magic + i, b.magic + Rounds(b))
    ensures Init(RoundConfig(b, i), round.start)
  {
    RoundValid(b, i);
  }

  /** A round uses up its own epoch and no other. */
  lemma RoundUsesEpoch(b: Launch, i: nat, round: Round)
    requires ValidLaunch(b) && RoundOk(b, i, round) && Outside(round.start.flags, b.magic + i, b.magic + Rounds(b))
    ensures Outside(round.end.flags, b.magic + i + 1, b.magic + Rounds(b))
    ensures Before(round.start.flags, b.magic + i) ==> Before(round.end.flags, b.magic + i + 1)
  {
    hide Inv, Init, Valid, AllExited, FreshCores, Runs, Rounds;
    var cf := RoundConfig(b, i);
    RoundValid(b, i);
    FreshIsInit(b, i, round);
    InitInv(cf, round.start);
    RunsFlags(cf, round.start, round.trace, round.end);
  }

  lemma LinkedRound(b: Launch, rounds: seq<Round>, i: nat)
    requires ValidLaunch(b) && Linked(b, rounds) && i < |rounds|
    ensures RoundOk(b, i, rounds[i])
    ensures i > 0 ==> rounds[i].start.flags == rounds[i - 1].end.flags && rounds[i].start.out == rounds[i - 1].end.out
  {
    hide RoundOk, Rounds;
  }

  /** Before every round its epoch is unused, whatever the earlier rounds wrote. */
  lemma {:induction false} EpochsSeparate(b: Launch, rounds: seq<Round>, i: nat)
    requires ValidLaunch(b) && Chained(b, rounds) && i < |rounds|
    ensures RoundOk(b, i, rounds[i]) && Outside(rounds[i].start.flags, b.magic + i, b.magic + Rounds(b))
  {
    hide RoundOk, Rounds, Linked, Outside;
    LinkedRound(b, rounds, i);
    if i > 0 {
      EpochsSeparate(b, rounds, i - 1);
      RoundUsesEpoch(b, i - 1, rounds[i - 1]);
    }
  }

  /** The output of a rank holds rank `x`'s input number `j`. */
  ghost predicate Holds(b: Launch, out: seq<int>, x: nat, j: nat)
  {
    && x < |b.input| && j < b.elements && j < |b.input[x]| && 0 <= x * b.elements + j < |out|
    && out[x * b.elements + j] == b.input[x][j]
  }

  /** A round delivers its own part to rank `r` and keeps what was delivered before. */
  lemma RoundDelivers(b: Launch, i: nat, round: Round, r: nat, x: nat, j: nat)
    requires ValidLaunch(b) && RoundOk(b, i, round) && Outside(round.start.flags, b.magic + i, b.magic + Rounds(b))
    requires r < b.n && x < b.n && j < b.elements
    ensures i * PerRound(b) <= j < i * PerRound(b) + RoundLen(b, i) || Holds(b, round.start.out[r], x, j) ==>
              Holds(b, round.end.out[r], x, j)
  {
    hide Inv, Init, Valid, FreshCores, Runs, Rounds, RoundLen, PerRound;
    var cf := RoundConfig(b, i);
    RoundValid(b, i);
    FreshIsInit(b, i, round);
    InitInv(cf, round.start);
    if Holds(b, round.start.out[r], x, j) {
      RunsKeepRight(cf, round.start, round.trace, round.end, r);
      assert Right(cf, round.start.out[r], x, j);
    } else if i * PerRound(b) <= j < i * PerRound(b) + RoundLen(b, i) {
      ExitGathered(cf, round.start, round.trace, round.end, r);
      assert Right(cf, round.end.out[r], x, j);
    }
  }

  /** The rounds so far have delivered every element they cover, to every rank. */
  lemma {:induction false} RoundsGather(b: Launch, rounds: seq<Round>, i: nat, r: nat, x: nat, j: nat)
    requires ValidLaunch(b) && Chained(b, rounds) && i < |rounds| && r < b.n && x < b.n
    requires j < b.elements && j < (i + 1) * PerRound(b)
    ensures RoundOk(b, i, rounds[i]) && Holds(b, rounds[i].end.out[r], x, j)
  {
    hide RoundOk, Linked, Outside, Holds, Rounds;
    EpochsSeparate(b, rounds, i);
    LinkedRound(b, rounds, i);
    OutShape(b, i, rounds[i], r);
    assert (i + 1) * PerRound(b) == i * PerRound(b) + PerRound(b);
    if j < i * PerRound(b) {
      RoundsGather(b, rounds, i - 1, r, x, j);
    }
    RoundDelivers(b, i, rounds[i], r, x, j);
  }

  lemma OutShape(b: Launch, i: nat, round: Round, r: nat)
    requires ValidLaunch(b) && RoundOk(b, i, round) && r < b.n
    ensures i < Rounds(b) && r < |round.start.out| && r < |round.end.out|
  {
  }

  /** All-gather is correct: after the last round every rank holds every rank's whole input. */
  lemma AllGatherCorrect(b: Launch, rounds: seq<Round>, r: nat, x: nat, j: nat)
    requires ValidLaunch(b) && Chained(b, rounds) && |rounds| == Rounds(b)
    requires r < b.n && x < b.n && j < b.elements
    ensures rounds != [] && RoundOk(b, |rounds| - 1, rounds[|rounds| - 1])
    ensures var out := rounds[|rounds| - 1].end.out[r];
            0 <= x * b.elements + j < |out| && out[x * b.elements + j] == b.input[x][j]
  {
    hide RoundOk, Linked, Outside;
    var m := PerRound(b);
    Recompose(b.elements + m - 1, m);
    assert Rounds(b) * m >= b.elements;
    assert Rounds(b) >= 1;
    RoundsGather(b, rounds, |rounds| - 1, r, x, j);
  }

  // ---- many launches ----

  /** All flags carry epochs before `bound`. */
  ghost predicate Before(flags: seq<seq<int>>, bound: int)
  {
    forall x, g :: 0 <= x < |flags| && 0 <= g < |flags[x]| ==> flags[x][g] / EPOCH < bound
  }

  /** The host multiplies its launch counter by 1024 and the kernel adds the round to it. */
  ghost predicate Series(bs: seq<Launch>, runs: seq<seq<Round>>)
  {
    && |bs| == |runs|
    && (forall z :: 0 <= z < |bs| ==>
          && ValidLaunch(bs[z]) && bs[z].magic == (z + 2) * 1024 && 0 < |runs[z]| == Rounds(bs[z]) <= 1024
          && Linked(bs[z], runs[z]))
    && (bs != [] ==> Before(runs[0][0].start.flags, bs[0].magic))
    && (forall z :: 0 < z < |bs| ==> runs[z][0].start.flags == runs[z - 1][|runs[z - 1]| - 1].end.flags)
  }

  lemma BeforeOutside(flags: seq<seq<int>>, bound: int, to: int)
    requires Before(flags, bound)
    ensures Outside(flags, bound, to)
  {
  }

  /** The rounds of a launch use up its epochs one after the other. */
  lemma {:induction false} RoundsBefore(b: Launch, rounds: seq<Round>, i: nat)
    requires ValidLaunch(b) && Linked(b, rounds) && i < |rounds| && Before(rounds[0].start.flags, b.magic)
    ensures Before(rounds[i].start.flags, b.magic + i) && Before(rounds[i].end.flags, b.magic + i + 1)
  {
    hide RoundOk, Linked, Outside, Before, Rounds;
    if i > 0 { RoundsBefore(b, rounds, i - 1); }
    LinkedRound(b, rounds, i);
    BeforeOutside(rounds[i].start.flags, b.magic + i, b.magic + Rounds(b));
    RoundUsesEpoch(b, i, rounds[i]);
  }

  /** No launch ever meets a flag of its own epochs, so each one is a correct all-gather. */
  lemma {:induction false} SeriesSeparate(bs: seq<Launch>, runs: seq<seq<Round>>, z: nat)
    requires Series(bs, runs) && z < |bs|
    ensures Before(runs[z][0].start.flags, bs[z].magic) && Chained(bs[z], runs[z])
  {
    hide Linked, Outside, Before, Rounds;
    if z > 0 {
      SeriesSeparate(bs, runs, z - 1);
      var last := |runs[z - 1]| - 1;
      RoundsBefore(bs[z - 1], runs[z - 1], last);
      BeforeMonotone(runs[z - 1][last].end.flags, bs[z - 1].magic + last + 1, bs[z].magic);
    }
    BeforeOutside(runs[z][0].start.flags, bs[z].magic, bs[z].magic + Rounds(bs[z]));
  }

  lemma BeforeMonotone(flags: seq<seq<int>>, bound: int, bound': int)
    requires Before(flags, bound) && bound <= bound'
    ensures Before(flags, bound')
  {
  }

  lemma SeriesCorrect(bs: seq<Launch>, runs: seq<seq<Round>>, z: nat, r: nat, x: nat, j: nat)
    requires Series(bs, runs) && z < |bs| && r < bs[z].n && x < bs[z].n && j < bs[z].elements
    ensures RoundOk(bs[z], |runs[z]| - 1, runs[z][|runs[z]| - 1])
    ensures var out := runs[z][|runs[z]| - 1].end.out[r];
            0 <= x * bs[z].elements + j < |out| && out[x * bs[z].elements + j] == bs[z].input[x][j]
  {
    SeriesSeparate(bs, runs, z);
    AllGatherCorrect(bs[z], runs[z], r, x, j);
  }

  // ---- 32-bit flags ----

  /** A flag of launch number `z` fits a signed 32-bit integer exactly while the host's counter is below 2048. */
  lemma FlagFitsExactly(b: Launch, z: nat, i: nat, t: nat)
    requires ValidLaunch(b) && b.magic == (z + 2) * 1024 && i < Rounds(b) <= 1024 && t <= MAX_CHUNKS
    ensures RoundConfig(b, i).magic + t < 0x8000_0000 <==> z + 2 < 2048
  {
    hide Rounds, RoundLen, PerRound;
    assert RoundConfig(b, i).magic == (b.magic + i) * EPOCH;
  }

  /** In the first 2046 launches of a series no flag ever left by a round exceeds a signed 32-bit integer. */
  lemma SeriesFlagsFit(bs: seq<Launch>, runs: seq<seq<Round>>, z: nat, i: nat)
    requires Series(bs, runs) && z < |bs| && z + 2 < 2048 && i < |runs[z]|
    ensures forall x, g :: 0 <= x < |runs[z][i].end.flags| && 0 <= g < |runs[z][i].end.flags[x]| ==>
              runs[z][i].end.flags[x][g] < 0x8000_0000
  {
    hide Linked, RoundOk, Rounds;
    SeriesSeparate(bs, runs, z);
    RoundsBefore(bs[z], runs[z], i);
    var flags := runs[z][i].end.flags;
    forall x, g | 0 <= x < |flags| && 0 <= g < |flags[x]| ensures flags[x][g] < 0x8000_0000 {
      assert flags[x][g] / EPOCH < bs[z].magic + i + 1;
    }
  }
}
