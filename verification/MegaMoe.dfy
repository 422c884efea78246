/**
 The reference counts of the mega-MoE example: how many tokens every local expert of a rank
 receives, clipped by the rank's receive capacity.
 */
module MegaMoe {
  import opened Arith

  const WORD: nat := 0x1_0000_0000

  /** `capacity` 0 asks for the default. */
  datatype Config = Config(ranks: nat, local: nat, tokens: nat, perToken: nat, capacity: nat)

  ghost predicate Valid(cf: Config)
  {
    cf.ranks < WORD && 0 < cf.ranks * cf.local < WORD && cf.tokens < WORD && cf.perToken < WORD && cf.capacity < WORD
  }

  function Experts(cf: Config): nat
  {
    MulLe(0, cf.ranks, cf.local);
    cf.ranks * cf.local
  }

  /** The expert of route `k` of token `i` on rank `src`; the sum is a 32-bit one. */
  function Expert(cf: Config, src: nat, i: nat, k: nat): nat
    requires Experts(cf) > 0
  {
    (i + k + src) % WORD % Experts(cf)
  }

  function Min(a: int, b: int): int
  {
    if a < b then a else b
  }

  // ---- counting ----

  /** How many of the first `k` routes of a token go to expert `e`. */
  function TokenHits(cf: Config, src: nat, i: nat, e: nat, k: nat): nat
    requires Experts(cf) > 0
  {
    if k == 0 then 0 else TokenHits(cf, src, i, e, k - 1) + if Expert(cf, src, i, k - 1) == e then 1 else 0
  }

  /** How many routes of the first `i` tokens of rank `src` go to expert `e`. */
  function Received(cf: Config, src: nat, e: nat, i: nat): nat
    requires Experts(cf) > 0
  {
    if i == 0 then 0 else Received(cf, src, e, i - 1) + TokenHits(cf, src, i - 1, e, cf.perToken)
  }

  /** What expert `e` receives from the first `s` ranks. */
  function ExpertTotal(cf: Config, e: nat, s: nat): nat
    requires Experts(cf) > 0
  {
    if s == 0 then 0 else ExpertTotal(cf, e, s - 1) + Received(cf, s - 1, e, cf.tokens)
  }

  /** What the `n` experts from `lo` on receive together. */
  function RangeTotal(cf: Config, lo: nat, n: nat): nat
    requires Experts(cf) > 0
  {
    if n == 0 then 0 else RangeTotal(cf, lo, n - 1) + ExpertTotal(cf, lo + (n - 1), cf.ranks)
  }

  // ---- the same totals counted by route ----

  function WindowHits(cf: Config, src: nat, i: nat, lo: nat, n: nat, k: nat): nat
    requires Experts(cf) > 0
  {
    if k == 0 then 0
    else WindowHits(cf, src, i, lo, n, k - 1) + if lo <= Expert(cf, src, i, k - 1) < lo + n then 1 else 0
  }

  function WindowRank(cf: Config, src: nat, lo: nat, n: nat, i: nat): nat
    requires Experts(cf) > 0
  {
    if i == 0 then 0 else WindowRank(cf, src, lo, n, i - 1) + WindowHits(cf, src, i - 1, lo, n, cf.perToken)
  }

  function WindowTotal(cf: Config, lo: nat, n: nat, s: nat): nat
    requires Experts(cf) > 0
  {
    if s == 0 then 0 else WindowTotal(cf, lo, n, s - 1) + WindowRank(cf, s - 1, lo, n, cf.tokens)
  }

  lemma {:induction false} WindowHitsStep(cf: Config, src: nat, i: nat, lo: nat, n: nat, k: nat)
    requires Experts(cf) > 0
    ensures WindowHits(cf, src, i, lo, 0, k) == 0
    ensures WindowHits(cf, src, i, lo, n + 1, k) == WindowHits(cf, src, i, lo, n, k) + TokenHits(cf, src, i, lo + n, k)
  {
    if k > 0 { WindowHitsStep(cf, src, i, lo, n, k - 1); }
  }

  lemma {:induction false} WindowRankStep(cf: Config, src: nat, lo: nat, n: nat, i: nat)
    requires Experts(cf) > 0
    ensures WindowRank(cf, src, lo, 0, i) == 0
    ensures WindowRank(cf, src, lo, n + 1, i) == WindowRank(cf, src, lo, n, i) + Received(cf, src, lo + n, i)
  {
    if i > 0 {
      WindowRankStep(cf, src, lo, n, i - 1);
      WindowHitsStep(cf, src, i - 1, lo, n, cf.perToken);
    }
  }

  lemma {:induction false} WindowTotalStep(cf: Config, lo: nat, n: nat, s: nat)
    requires Experts(cf) > 0
    ensures WindowTotal(cf, lo, 0, s) == 0
    ensures WindowTotal(cf, lo, n + 1, s) == WindowTotal(cf, lo, n, s) + ExpertTotal(cf, lo + n, s)
  {
    if s > 0 {
      WindowTotalStep(cf, lo, n, s - 1);
      WindowRankStep(cf, s - 1, lo, n, cf.tokens);
    }
  }

  /** Summing over experts and summing over routes give the same. */
  lemma {:induction false} RangeIsWindow(cf: Config, lo: nat, n: nat)
    requires Experts(cf) > 0
    ensures RangeTotal(cf, lo, n) == WindowTotal(cf, lo, n, cf.ranks)
  {
    if n > 0 {
      RangeIsWindow(cf, lo, n - 1);
      WindowTotalStep(cf, lo, n - 1, cf.ranks);
    } else {
      WindowTotalStep(cf, lo, 0, cf.ranks);
    }
  }

  // ---- conservation ----

  lemma {:induction false} WindowHitsAll(cf: Config, src: nat, i: nat, k: nat)
    requires Experts(cf) > 0
    ensures WindowHits(cf, src, i, 0, Experts(cf), k) == k
  {
    if k > 0 { WindowHitsAll(cf, src, i, k - 1); }
  }

  lemma {:induction false} WindowRankAll(cf: Config, src: nat, i: nat)
    requires Experts(cf) > 0
    ensures WindowRank(cf, src, 0, Experts(cf), i) == i * cf.perToken
  {
    if i > 0 {
      WindowRankAll(cf, src, i - 1);
      WindowHitsAll(cf, src, i - 1, cf.perToken);
      Distribute(i, 1, cf.perToken);
    }
  }

  lemma {:induction false} WindowTotalAll(cf: Config, s: nat)
    requires Experts(cf) > 0
    ensures WindowTotal(cf, 0, Experts(cf), s) == s * (cf.tokens * cf.perToken)
  {
    if s > 0 {
      WindowTotalAll(cf, s - 1);
      WindowRankAll(cf, s - 1, cf.tokens);
      Distribute(s, 1, cf.tokens * cf.perToken);
    }
  }

  lemma {:induction false} RangeSplit(cf: Config, lo: nat, a: nat, b: nat)
    requires Experts(cf) > 0
    ensures RangeTotal(cf, lo, a + b) == RangeTotal(cf, lo, a) + RangeTotal(cf, lo + a, b)
  {
    if b > 0 {
      RangeSplit(cf, lo, a, b - 1);
      assert lo + (a + b - 1) == lo + a + (b - 1);
    }
  }

  /** What rank `d` receives in all. */
  function RankTotal(cf: Config, d: nat): nat
    requires Experts(cf) > 0
  {
    MulLe(0, d, cf.local);
    RangeTotal(cf, d * cf.local, cf.local)
  }

  function RanksTotal(cf: Config, d: nat): nat
    requires Experts(cf) > 0
  {
    if d == 0 then 0 else RanksTotal(cf, d - 1) + RankTotal(cf, d - 1)
  }

  lemma {:induction false} RanksTotalRange(cf: Config, d: nat)
    requires Experts(cf) > 0
    ensures d * cf.local >= 0 && RanksTotal(cf, d) == RangeTotal(cf, 0, d * cf.local)
  {
    MulLe(0, d, cf.local);
    if d > 0 {
      RanksTotalRange(cf, d - 1);
      Distribute(d, 1, cf.local);
      RangeSplit(cf, 0, (d - 1) * cf.local, cf.local);
    }
  }

  /** Every route is received exactly once: over all ranks the counts add up to ranks times tokens times routes. */
  lemma Conserved(cf: Config)
    requires Experts(cf) > 0
    ensures RanksTotal(cf, cf.ranks) == cf.ranks * (cf.tokens * cf.perToken)
  {
    RanksTotalRange(cf, cf.ranks);
    RangeIsWindow(cf, 0, Experts(cf));
    WindowTotalAll(cf, cf.ranks);
  }

  // ---- capacity ----

  /** No 32-bit sum of a route wraps around. */
  ghost predicate NoWrap(cf: Config)
  {
    cf.tokens + cf.perToken + cf.ranks <= WORD + 2
  }

  /** The routes of one token go to different experts. */
  lemma RoutesDiffer(cf: Config, src: nat, i: nat, k: nat, k': nat)
    requires Experts(cf) > 0 && NoWrap(cf) && cf.perToken <= Experts(cf)
    requires src < cf.ranks && i < cf.tokens && k < k' < cf.perToken
    ensures Expert(cf, src, i, k) != Expert(cf, src, i, k')
  {
    hide Experts;
    var v, gap := i + k + src, k' - k;
    Shifted(v, gap, Experts(cf));
    assert i + k' + src == v + gap < WORD;
  }

  /** Moving on by less than the modulus changes the remainder. */
  lemma Shifted(v: nat, gap: nat, m: nat)
    requires 0 < gap < m
    ensures (v + gap) % m != v % m
  {
    var q, q' := v / m, (v + gap) / m;
    Recompose(v, m);
    Recompose(v + gap, m);
    Distribute(q', q, m);
    if q' > q { MulAtLeast(q' - q, m); } else { MulLe(q', q, m); }
  }

  lemma {:induction false} HitOnce(cf: Config, src: nat, i: nat, e: nat, k: nat)
    requires Experts(cf) > 0 && NoWrap(cf) && cf.perToken <= Experts(cf) && src < cf.ranks && i < cf.tokens
             && k <= cf.perToken
    ensures TokenHits(cf, src, i, e, k) <= 1
    ensures TokenHits(cf, src, i, e, k) == 1 ==> exists j: nat :: j < k && Expert(cf, src, i, j) == e
  {
    if k > 0 {
      HitOnce(cf, src, i, e, k - 1);
      if Expert(cf, src, i, k - 1) == e && TokenHits(cf, src, i, e, k - 1) == 1 {
        var j: nat :| j < k - 1 && Expert(cf, src, i, j) == e;
        RoutesDiffer(cf, src, i, j, k - 1);
      }
    }
  }

  /** A token sends a rank at most one route per local expert, and at most all its routes. */
  lemma {:induction false} WindowHitsBound(cf: Config, src: nat, i: nat, lo: nat, n: nat)
    requires Experts(cf) > 0 && NoWrap(cf) && cf.perToken <= Experts(cf) && src < cf.ranks && i < cf.tokens
    ensures WindowHits(cf, src, i, lo, n, cf.perToken) <= n
  {
    WindowHitsStep(cf, src, i, lo, if n > 0 then n - 1 else 0, cf.perToken);
    if n > 0 {
      WindowHitsBound(cf, src, i, lo, n - 1);
      HitOnce(cf, src, i, lo + (n - 1), cf.perToken);
    }
  }

  lemma {:induction false} WindowHitsRoutes(cf: Config, src: nat, i: nat, lo: nat, n: nat, k: nat)
    requires Experts(cf) > 0
    ensures WindowHits(cf, src, i, lo, n, k) <= k
  {
    if k > 0 { WindowHitsRoutes(cf, src, i, lo, n, k - 1); }
  }

  lemma {:induction false} WindowRankBound(cf: Config, src: nat, lo: nat, n: nat, i: nat)
    requires Experts(cf) > 0 && NoWrap(cf) && cf.perToken <= Experts(cf) && src < cf.ranks && i <= cf.tokens
    ensures WindowRank(cf, src, lo, n, i) <= i * Min(cf.perToken, n)
  {
    if i > 0 {
      WindowRankBound(cf, src, lo, n, i - 1);
      WindowHitsBound(cf, src, i - 1, lo, n);
      WindowHitsRoutes(cf, src, i - 1, lo, n, cf.perToken);
      Distribute(i, 1, Min(cf.perToken, n));
    }
  }

  lemma {:induction false} WindowTotalBound(cf: Config, lo: nat, n: nat, s: nat)
    requires Experts(cf) > 0 && NoWrap(cf) && cf.perToken <= Experts(cf) && s <= cf.ranks
    ensures WindowTotal(cf, lo, n, s) <= s * (cf.tokens * Min(cf.perToken, n))
  {
    if s > 0 {
      WindowTotalBound(cf, lo, n, s - 1);
      WindowRankBound(cf, s - 1, lo, n, cf.tokens);
      Distribute(s, 1, cf.tokens * Min(cf.perToken, n));
    }
  }

  function Required(cf: Config): nat
  {
    MulLe(0, cf.tokens, cf.ranks);
    MulLe(0, cf.tokens * cf.ranks, Min(cf.perToken, cf.local));
    cf.tokens * cf.ranks * Min(cf.perToken, cf.local)
  }

  /** The required capacity holds everything a rank can receive. */
  lemma RequiredIsEnough(cf: Config, d: nat)
    requires Experts(cf) > 0 && NoWrap(cf) && cf.perToken <= Experts(cf)
    ensures RankTotal(cf, d) <= Required(cf)
  {
    hide WindowTotal, RangeTotal, Min;
    MulLe(0, d, cf.local);
    RangeIsWindow(cf, d * cf.local, cf.local);
    WindowTotalBound(cf, d * cf.local, cf.local, cf.ranks);
    Regroup(cf.ranks, cf.tokens, Min(cf.perToken, cf.local));
  }

  lemma Regroup(a: int, b: int, c: int)
    ensures a * (b * c) == b * a * c
  {
    assert a * b == b * a;
    assert a * (b * c) == a * b * c;
  }

  /** The capacity the count uses: the configured one, or the required one if it fits 32 bits. */
  function Capacity(cf: Config): nat
  {
    if cf.capacity != 0 then cf.capacity else if Required(cf) < WORD then Required(cf) else 0
  }

  /** The 64-bit product cannot wrap, because local experts times ranks fit 32 bits. */
  lemma RequiredFits(cf: Config)
    requires Valid(cf)
    ensures cf.tokens * cf.ranks < WORD * WORD && Required(cf) < WORD * WORD
    ensures Required(cf) == cf.tokens * cf.ranks * (if cf.perToken < cf.local then cf.perToken else cf.local)
  {
    var least := Min(cf.perToken, cf.local);
    MulLe(cf.tokens, WORD - 1, cf.ranks);
    MulLe(cf.ranks, WORD - 1, WORD - 1);
    MulLe(least, cf.local, cf.ranks);
    assert least * cf.ranks == cf.ranks * least && cf.local * cf.ranks == cf.ranks * cf.local;
    MulLe(cf.ranks * least, WORD - 1, cf.tokens);
    MulLe(cf.tokens, WORD - 1, WORD - 1);
    assert cf.tokens * cf.ranks * least == cf.ranks * least * cf.tokens;
  }

  /** The capacity the program uses, with its 64-bit product. */
  method DefaultMaxReceivedTokens(cf: Config) returns (count: nat)
    requires Valid(cf)
    ensures count == Capacity(cf)
  {
    if cf.capacity != 0 {
      return cf.capacity;
    }
    RequiredFits(cf);
    hide Required, Valid;
    MulLe(0, cf.tokens, cf.ranks);
    SmallMod(cf.tokens * cf.ranks, 0x1_0000_0000_0000_0000);
    SmallMod(Required(cf), 0x1_0000_0000_0000_0000);
    var product := cf.tokens * cf.ranks % 0x1_0000_0000_0000_0000;
    var least := if cf.perToken < cf.local then cf.perToken else cf.local;
    product := product * least % 0x1_0000_0000_0000_0000;
    count := if product <= 0xFFFF_FFFF then product else 0;
  }

  /** With one rank and no more routes per token than experts, the required capacity is used to the last place. */
  lemma RequiredIsReached(cf: Config)
    requires Experts(cf) > 0 && cf.ranks == 1 && cf.perToken <= cf.local
    ensures RankTotal(cf, 0) == Required(cf) == cf.tokens * cf.perToken
  {
    Conserved(cf);
    assert RanksTotal(cf, 1) == RanksTotal(cf, 0) + RankTotal(cf, 0);
  }

  /** How many of the first `n` tokens a rank accepts once `cap` of them fill its buffers. */
  function Clip(cap: nat, n: nat): nat
  {
    if n < cap then n else cap
  }

  /** The reference counts: received tokens fill the experts in order until the capacity is used up. */
  function Accepted(cf: Config, rank: nat, e: nat): int
    requires Experts(cf) > 0
  {
    MulLe(0, rank, cf.local);
    var lo := rank * cf.local;
    Clip(Capacity(cf), RangeTotal(cf, lo, e + 1)) - Clip(Capacity(cf), RangeTotal(cf, lo, e))
  }

  function AcceptedSum(cf: Config, rank: nat, n: nat): int
    requires Experts(cf) > 0
  {
    if n == 0 then 0 else AcceptedSum(cf, rank, n - 1) + Accepted(cf, rank, n - 1)
  }

  /** With any capacity, a rank's counts add up to the smaller of what it receives and what it can hold. */
  lemma {:induction false} AcceptedTotal(cf: Config, rank: nat, n: nat)
    requires Experts(cf) > 0
    ensures rank * cf.local >= 0 && AcceptedSum(cf, rank, n) == Clip(Capacity(cf), RangeTotal(cf, rank * cf.local, n))
  {
    MulLe(0, rank, cf.local);
    if n > 0 { AcceptedTotal(cf, rank, n - 1); }
  }

  // ---- the counting loops ----

  type Table = seq<seq<nat>>

  ghost predicate Counts(cf: Config, lo: nat, t: Table, src: nat, i: nat, k: nat)
    requires Experts(cf) > 0
  {
    && |t| == cf.local && (forall e :: 0 <= e < cf.local ==> |t[e]| == cf.ranks)
    && forall e: nat, s: nat :: e < cf.local && s < cf.ranks ==> t[e][s] == Counted(cf, lo + e, s, src, i, k)
  }

  /** The cell of expert `e` and rank `s` when the loops stand at `src`, `i` and `k`. */
  ghost function Counted(cf: Config, e: nat, s: nat, src: nat, i: nat, k: nat): nat
    requires Experts(cf) > 0
  {
    if s < src then Received(cf, s, e, cf.tokens)
    else if s == src then Received(cf, s, e, i) + TokenHits(cf, s, i, e, k)
    else 0
  }

  method CountReceived(cf: Config, rank: nat, lo: nat) returns (t: Table)
    requires Valid(cf) && rank < cf.ranks && lo == rank * cf.local
    ensures Counts(cf, lo, t, cf.ranks, 0, 0)
  {
    hide Counts;
    var experts := cf.ranks * cf.local;
    t := seq(cf.local, _ => seq(cf.ranks, _ => 0));
    var src := 0;
    CountsStart(cf, lo, t);
    while src < cf.ranks
      invariant 0 <= src <= cf.ranks && Counts(cf, lo, t, src, 0, 0)
    {
      var i := 0;
      while i < cf.tokens
        invariant 0 <= i <= cf.tokens && Counts(cf, lo, t, src, i, 0)
      {
        var k := 0;
        while k < cf.perToken
          invariant 0 <= k <= cf.perToken && Counts(cf, lo, t, src, i, k)
        {
          CountsRoute(cf, lo, t, src, i, k);
          var expert := (i + k + src) % WORD % experts;
          if lo <= expert < lo + cf.local {
            t := t[expert - lo := t[expert - lo][src := t[expert - lo][src] + 1]];
          }
          k := k + 1;
        }
        CountsToken(cf, lo, t, src, i);
        i := i + 1;
      }
      CountsRank(cf, lo, t, src);
      src := src + 1;
    }
  }

  lemma CountsStart(cf: Config, lo: nat, t: Table)
    requires Experts(cf) > 0 && t == seq(cf.local, _ => seq(cf.ranks, _ => 0))
    ensures Counts(cf, lo, t, 0, 0, 0)
  {
  }

  /** One route raises exactly its own cell, if it is one of this rank's. */
  lemma CountsRoute(cf: Config, lo: nat, t: Table, src: nat, i: nat, k: nat)
    requires Experts(cf) > 0 && Counts(cf, lo, t, src, i, k) && src < cf.ranks
    ensures |t| == cf.local
    ensures var expert := Expert(cf, src, i, k);
            if lo <= expert < lo + cf.local
            then |t[expert - lo]| == cf.ranks
                 && Counts(cf, lo, t[expert - lo := t[expert - lo][src := t[expert - lo][src] + 1]], src, i, k + 1)
            else Counts(cf, lo, t, src, i, k + 1)
  {
    hide Expert, Received;
  }

  lemma CountsToken(cf: Config, lo: nat, t: Table, src: nat, i: nat)
    requires Experts(cf) > 0 && Counts(cf, lo, t, src, i, cf.perToken)
    ensures Counts(cf, lo, t, src, i + 1, 0)
  {
    hide Expert;
  }

  lemma CountsRank(cf: Config, lo: nat, t: Table, src: nat)
    requires Experts(cf) > 0 && Counts(cf, lo, t, src, cf.tokens, 0)
    ensures Counts(cf, lo, t, src + 1, 0, 0)
  {
    hide Expert;
  }

  /** What a 32-bit signed integer keeps of a number. */
  function ToInt32(v: int): (w: int)
    ensures -0x8000_0000 <= w < 0x8000_0000 && (-0x8000_0000 <= v < 0x8000_0000 ==> w == v)
  {
    if v % WORD >= 0x8000_0000 then v % WORD - WORD else v % WORD
  }

  /** Adding stored numbers stores the sum. */
  lemma ToInt32Add(a: int, b: int)
    ensures ToInt32(ToInt32(a) + ToInt32(b)) == ToInt32(a + b)
  {
    var p, q := a / WORD, b / WORD;
    assert a == p * WORD + a % WORD && b == q * WORD + b % WORD;
  }

  /** The inner accept loop: one expert's sources, in order, until the capacity is used up. */
  method AcceptExpert(cf: Config, ghost expert: nat, row: seq<nat>, ghost cap: nat, ghost before: nat, capacity: nat)
    returns (count: int, remaining: nat)
    requires Valid(cf) && |row| == cf.ranks && capacity == cap - Clip(cap, before)
    requires forall s: nat :: s < cf.ranks ==> row[s] == Received(cf, s, expert, cf.tokens)
    ensures remaining == cap - Clip(cap, before + ExpertTotal(cf, expert, cf.ranks))
    ensures count == ToInt32(Clip(cap, before + ExpertTotal(cf, expert, cf.ranks)) - Clip(cap, before))
  {
    hide ToInt32, Received;
    count, remaining := 0, capacity;
    StoredZero();
    var src := 0;
    while src < cf.ranks
      invariant 0 <= src <= cf.ranks && remaining == cap - Clip(cap, before + ExpertTotal(cf, expert, src))
      invariant count == ToInt32(Clip(cap, before + ExpertTotal(cf, expert, src)) - Clip(cap, before))
    {
      var accepted := if row[src] < remaining then row[src] else remaining;
      ToInt32Add(Clip(cap, before + ExpertTotal(cf, expert, src)) - Clip(cap, before), accepted);
      count := ToInt32(count + ToInt32(accepted));
      remaining := remaining - accepted;
      src := src + 1;
    }
  }

  lemma StoredZero()
    ensures ToInt32(0) == 0
  {
  }

  /** The whole reference: count, then accept while capacity remains; the counts are stored in 32 bits. */
  method BuildExpectedExpertTokens(cf: Config, rank: nat) returns (expected: seq<int>)
    requires Valid(cf) && rank < cf.ranks
    ensures |expected| == cf.local
    ensures forall e :: 0 <= e < cf.local ==> expected[e] == ToInt32(Accepted(cf, rank, e))
  {
    hide ToInt32, Received, ExpertTotal, Clip;
    MulLe(0, rank, cf.local);
    var lo := rank * cf.local;
    var t := CountReceived(cf, rank, lo);
    expected := [];
    ghost var cap := Capacity(cf);
    var remaining := DefaultMaxReceivedTokens(cf);
    assert Clip(cap, RangeTotal(cf, lo, 0)) == 0 by { ClipNone(cap); }
    var e := 0;
    while e < cf.local
      invariant 0 <= e <= cf.local && |expected| == e && remaining == cap - Clip(cap, RangeTotal(cf, lo, e))
      invariant forall q :: 0 <= q < e ==> expected[q] == ToInt32(Accepted(cf, rank, q))
    {
      CountedRow(cf, lo, t, e);
      var count;
      count, remaining := AcceptExpert(cf, lo + e, t[e], cap, RangeTotal(cf, lo, e), remaining);
      expected := expected + [count];
      e := e + 1;
    }
  }

  lemma ClipNone(cap: nat)
    ensures Clip(cap, 0) == 0
  {
  }

  lemma CountedRow(cf: Config, lo: nat, t: Table, e: nat)
    requires Valid(cf) && Counts(cf, lo, t, cf.ranks, 0, 0) && e < cf.local
    ensures |t| == cf.local && |t[e]| == cf.ranks
    ensures forall s: nat :: s < cf.ranks ==> t[e][s] == Received(cf, s, lo + e, cf.tokens)
  {
    forall s: nat | s < cf.ranks ensures t[e][s] == Received(cf, s, lo + e, cf.tokens) {
      assert t[e][s] == Counted(cf, lo + e, s, cf.ranks, 0, 0);
    }
  }

  // ---- how large a count can become ----

  /** How many of the first `s` ranks send route `k` of their token `i` to expert `e`. */
  function Column(cf: Config, e: nat, i: nat, k: nat, s: nat): nat
    requires Experts(cf) > 0
  {
    if s == 0 then 0 else Column(cf, e, i, k, s - 1) + if Expert(cf, s - 1, i, k) == e then 1 else 0
  }

  function GridRow(cf: Config, e: nat, i: nat, k: nat, s: nat): nat
    requires Experts(cf) > 0
  {
    if k == 0 then 0 else GridRow(cf, e, i, k - 1, s) + Column(cf, e, i, k - 1, s)
  }

  function Grid(cf: Config, e: nat, i: nat, s: nat): nat
    requires Experts(cf) > 0
  {
    if i == 0 then 0 else Grid(cf, e, i - 1, s) + GridRow(cf, e, i - 1, cf.perToken, s)
  }

  lemma {:induction false} GridRowStep(cf: Config, e: nat, i: nat, k: nat, s: nat)
    requires Experts(cf) > 0
    ensures GridRow(cf, e, i, k, 0) == 0
    ensures GridRow(cf, e, i, k, s + 1) == GridRow(cf, e, i, k, s) + TokenHits(cf, s, i, e, k)
  {
    if k > 0 { GridRowStep(cf, e, i, k - 1, s); }
  }

  lemma {:induction false} GridStep(cf: Config, e: nat, i: nat, s: nat)
    requires Experts(cf) > 0
    ensures Grid(cf, e, i, 0) == 0 && Grid(cf, e, i, s + 1) == Grid(cf, e, i, s) + Received(cf, s, e, i)
  {
    if i > 0 {
      GridStep(cf, e, i - 1, s);
      GridRowStep(cf, e, i - 1, cf.perToken, s);
    }
  }

  /** What an expert receives, counted by (token, route) index instead of by rank. */
  lemma {:induction false} ExpertIsGrid(cf: Config, e: nat, s: nat)
    requires Experts(cf) > 0
    ensures ExpertTotal(cf, e, s) == Grid(cf, e, cf.tokens, s)
  {
    GridStep(cf, e, cf.tokens, s);
    if s > 0 {
      ExpertIsGrid(cf, e, s - 1);
      GridStep(cf, e, cf.tokens, s - 1);
    }
  }

  /** The same route of the same token goes to different experts on different ranks. */
  lemma SourcesDiffer(cf: Config, i: nat, k: nat, p: nat, p': nat)
    requires Experts(cf) > 0 && NoWrap(cf) && cf.ranks <= Experts(cf) && i < cf.tokens && k < cf.perToken
    requires p < p' < cf.ranks
    ensures Expert(cf, p, i, k) != Expert(cf, p', i, k)
  {
    hide Experts;
    var v, gap := i + k + p, p' - p;
    Shifted(v, gap, Experts(cf));
    assert i + k + p' == v + gap < WORD;
  }

  /** An index reaches an expert from at most one rank, because there are at least as many experts as ranks. */
  lemma {:induction false} ColumnOnce(cf: Config, e: nat, i: nat, k: nat, s: nat)
    requires Experts(cf) > 0 && NoWrap(cf) && cf.ranks <= Experts(cf) && i < cf.tokens && k < cf.perToken
             && s <= cf.ranks
    ensures Column(cf, e, i, k, s) <= 1
    ensures Column(cf, e, i, k, s) == 1 ==> exists p: nat :: p < s && Expert(cf, p, i, k) == e
  {
    hide Expert;
    if s > 0 {
      ColumnOnce(cf, e, i, k, s - 1);
      if Expert(cf, s - 1, i, k) == e && Column(cf, e, i, k, s - 1) == 1 {
        var p: nat :| p < s - 1 && Expert(cf, p, i, k) == e;
        SourcesDiffer(cf, i, k, p, s - 1);
      }
    }
  }

  lemma {:induction false} GridRowBound(cf: Config, e: nat, i: nat, k: nat)
    requires Experts(cf) > 0 && NoWrap(cf) && cf.ranks <= Experts(cf) && i < cf.tokens && k <= cf.perToken
    ensures GridRow(cf, e, i, k, cf.ranks) <= k
  {
    if k > 0 {
      GridRowBound(cf, e, i, k - 1);
      ColumnOnce(cf, e, i, k - 1, cf.ranks);
    }
  }

  lemma {:induction false} GridBound(cf: Config, e: nat, i: nat)
    requires Experts(cf) > 0 && NoWrap(cf) && cf.ranks <= Experts(cf) && i <= cf.tokens
    ensures Grid(cf, e, i, cf.ranks) <= i * cf.perToken
  {
    if i > 0 {
      GridBound(cf, e, i - 1);
      GridRowBound(cf, e, i - 1, cf.perToken);
      Distribute(i, 1, cf.perToken);
    }
  }

  /** An expert never receives more than one rank's number of routes. */
  lemma ExpertBound(cf: Config, e: nat)
    requires Experts(cf) > 0 && NoWrap(cf) && cf.ranks <= Experts(cf)
    ensures ExpertTotal(cf, e, cf.ranks) <= cf.tokens * cf.perToken
  {
    ExpertIsGrid(cf, e, cf.ranks);
    GridBound(cf, e, cf.tokens);
  }
}
