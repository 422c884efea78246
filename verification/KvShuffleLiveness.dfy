/**
 Which table sequences the KV-shuffle handshake can finish. Its waits compare for equality, so a
 flag that moves on before its reader looks is lost. That happens when two ranks swap roles: the
 old sender, as the new receiver, signals without waiting. The module gives the exact condition
 on the tables under which no run loses a flag, and shows that a lost flag is never repaired.
 */
module KvShuffleLiveness {
  import opened Arith
  import opened KvShuffle
  import opened KvShuffleRuns

  // ---- how a flag is lost ----

  /** The receiver waits for a count that its sender has already overwritten. */
  ghost predicate Missed(cf: Config, s: State, r: nat, k: nat)
    requires Shape(cf, s)
  {
    && r < cf.n && k < cf.cores && s.cores[r][k].pc == Wait && Peer(cf, s.round[r], r) < cf.n
    && var q := Peer(cf, s.round[r], r);
       Stage(s.round[r], s.round[q], s.cores[q][k].pc) == 2 && s.cores[r][k].flag[q] != s.round[r] + 1
  }

  ghost predicate SomeMissed(cf: Config, s: State)
    requires Shape(cf, s)
  {
    exists r: nat, k: nat :: Missed(cf, s, r, k)
  }

  predicate Active(cf: Config, c: nat, r: nat)
  {
    Sends(cf, c, r) || Receives(cf, c, r)
  }

  /** `x` sends to `p` in round `c`, and the next time the two meet, in round `d`, `p` sends to `x`. */
  ghost predicate Swap(cf: Config, c: nat, d: nat, x: nat, p: nat)
  {
    && c < d < |cf.rounds| && x < cf.n && p < cf.n && Sends(cf, c, x) && Peer(cf, c, x) == p && Sends(cf, d, p)
       && Peer(cf, d, p) == x
    && forall m: nat :: c < m < d ==> !Meets(cf, m, x, p)
  }

  /** The ranks that must have left round `m` before rank `x` can enter round `d`. */
  ghost function Needed(cf: Config, x: nat, d: nat, m: nat): set<nat>
    requires m < d
    decreases d - m
  {
    if m + 1 == d then {x}
    else
      var later := Needed(cf, x, d, m + 1);
      later + set r | r in later && Active(cf, m + 1, r) :: Peer(cf, m + 1, r)
  }

  /** Between the two rounds of every swap, other exchanges hold the old sender back. */
  ghost predicate Orderly(cf: Config)
  {
    forall c: nat, d: nat, x: nat, p: nat :: Swap(cf, c, d, x, p) ==> p in Needed(cf, x, d, c)
  }

  lemma {:induction false} NeededGrows(cf: Config, x: nat, d: nat, m: nat, m': nat)
    requires m' <= m < d
    ensures Needed(cf, x, d, m) <= Needed(cf, x, d, m') && x in Needed(cf, x, d, m)
    decreases d - m'
  {
    if m' < m { NeededGrows(cf, x, d, m, m' + 1); }
    if m + 1 < d { NeededGrows(cf, x, d, m + 1, m + 1); }
  }

  lemma {:induction false} NeededPassed(cf: Config, s: State, x: nat, d: nat, m: nat)
    requires Valid(cf) && Inv(cf, s) && cf.cores > 0 && x < cf.n && m < d <= s.round[x]
    ensures forall r :: r in Needed(cf, x, d, m) ==> r < cf.n && s.round[r] > m
    decreases d - m
  {
    hide CoresInv, FlagsInv, HandsInv, LanesInv, HistsInv, Valid, Meets, Sends, Receives, Peer;
    if m + 1 < d {
      var c, later := m + 1, Needed(cf, x, d, m + 1);
      NeededPassed(cf, s, x, d, c);
      InvCore(cf, s, x, 0);
      forall r | r in later && Active(cf, c, r) ensures Peer(cf, c, r) < cf.n && s.round[Peer(cf, c, r)] > m {
        Roles(cf, c, r);
        MeetingBinds(cf, s, c, r, Peer(cf, c, r));
      }
    }
  }

  /** If `p` signalled `o` after round `c`, there is a first such round. */
  lemma {:induction false} FirstMeeting(cf: Config, p: nat, o: nat, c: nat, last: nat) returns (m: nat)
    requires c < last && Meets(cf, last, p, o)
    ensures c < m <= last && Meets(cf, m, p, o) && forall i: nat :: c < i < m ==> !Meets(cf, i, p, o)
    decreases last - c
  {
    m := last;
    if i: nat :| c < i < last && Meets(cf, i, p, o) { m := FirstMeeting(cf, p, o, c, i); }
  }

  lemma {:induction false} LastMeeting(cf: Config, p: nat, o: nat, c: nat, round: nat)
    requires Meets(cf, c, p, o) && c < round
    ensures c + 1 <= Last(cf, p, o, round) <= round && Meets(cf, Last(cf, p, o, round) - 1, p, o)
  {
    if !Meets(cf, round - 1, p, o) { LastMeeting(cf, p, o, c, round - 1); }
  }

  /** A lost flag has moved on to a later meeting, which the sender has signalled already. */
  lemma LostTo(cf: Config, s: State, r: nat, k: nat) returns (m: nat)
    requires Valid(cf) && Inv(cf, s) && Missed(cf, s, r, k)
    ensures var c, q := s.round[r], Peer(cf, s.round[r], r);
            && c < m < s.cores[r][k].flag[q] && Meets(cf, m, q, r) && Stage(m, s.round[q], s.cores[q][k].pc) >= 1
            && Receives(cf, c, r) && Meets(cf, c, q, r) && forall i: nat :: c < i < m ==> !Meets(cf, i, q, r)
  {
    hide HandsInv, LanesInv, HistsInv, Valid;
    var c, q := s.round[r], Peer(cf, s.round[r], r);
    InvCore(cf, s, r, k);
    InvCore(cf, s, q, k);
    Roles(cf, c, r);
    Roles(cf, c, q);
    assert s.cores[r][k].flag[q] == Signalled(cf, q, r, s.round[q], s.cores[q][k].pc);
    hide Sends, Receives, Peer;
    assert Meets(cf, c, q, r);
    if s.round[q] == c {
      assert false;
    }
    LastMeeting(cf, q, r, c, s.round[q]);
    m := FirstMeeting(cf, q, r, c, s.cores[r][k].flag[q] - 1);
  }

  /** In orderly tables no wait ever misses its value. */
  lemma NeverMissed(cf: Config, s: State, r: nat, k: nat)
    requires Valid(cf) && Orderly(cf) && Inv(cf, s)
    ensures !Missed(cf, s, r, k)
  {
    if Missed(cf, s, r, k) {
      var m := LostTo(cf, s, r, k);
      var c, q := s.round[r], Peer(cf, s.round[r], r);
      MissedSwap(cf, s, r, k, m);
      NeededPassed(cf, s, q, m, c);
    }
  }

  /** The sender waits although its receiver has signalled, for a count that is not in its flag. */
  ghost predicate SenderMissed(cf: Config, s: State, p: nat, k: nat)
    requires Shape(cf, s)
  {
    && p < cf.n && k < cf.cores && Sends(cf, s.round[p], p) && s.cores[p][k].pc == Start
       && Peer(cf, s.round[p], p) < cf.n
    && var c, q := s.round[p], Peer(cf, s.round[p], p);
       Stage(c, s.round[q], s.cores[q][k].pc) >= 1 && s.cores[p][k].flag[q] != c + 1
  }

  /** A sender's wait never misses, on any tables: its receiver cannot move on before the sender has seen its signal. */
  lemma SenderNeverMisses(cf: Config, s: State, p: nat, k: nat)
    requires Valid(cf) && Inv(cf, s)
    ensures !SenderMissed(cf, s, p, k)
  {
    hide LanesInv, HistsInv, Valid;
    if p < cf.n && k < cf.cores && Sends(cf, s.round[p], p) && s.cores[p][k].pc == Start {
      var c, q := s.round[p], Peer(cf, s.round[p], p);
      Roles(cf, c, p);
      Roles(cf, c, q);
      InvCore(cf, s, q, k);
      hide CoresInv;
      assert Hand(c, c, Start, s.round[q], s.cores[q][k].pc);
      assert s.cores[p][k].flag[q] == Signalled(cf, q, p, s.round[q], s.cores[q][k].pc);
    }
  }

  lemma MissedSwap(cf: Config, s: State, r: nat, k: nat, m: nat)
    requires Valid(cf) && Inv(cf, s) && Missed(cf, s, r, k)
    requires var c, q := s.round[r], Peer(cf, s.round[r], r);
             && c < m && Meets(cf, m, q, r) && Stage(m, s.round[q], s.cores[q][k].pc) >= 1
             && Receives(cf, c, r) && forall i: nat :: c < i < m ==> !Meets(cf, i, q, r)
    ensures var c, q := s.round[r], Peer(cf, s.round[r], r); Swap(cf, c, m, q, r) && s.round[q] >= m
  {
    hide CoresInv, FlagsInv, LanesInv, HistsInv, Valid;
    var c, q := s.round[r], Peer(cf, s.round[r], r);
    Roles(cf, c, r);
    Roles(cf, m, q);
  }

  // ---- progress ----

  lemma SenderStep(cf: Config, s: State, r: nat, k: nat) returns (a: Action)
    requires Valid(cf) && Inv(cf, s) && r < cf.n && k < cf.cores && s.cores[r][k].pc.Copy?
    ensures Enabled(cf, s, a) && !a.Advance? && a.r == r && a.k == k
  {
    hide FlagsInv, HandsInv, LanesInv, HistsInv, Valid;
    InvCore(cf, s, r, k);
    Roles(cf, s.round[r], r);
    a := Act(r, k);
    if i :| i in s.cores[r][k].pc.pending { a := Land(r, k, i); }
  }

  /** A core that is not done can go on, or its peer's core can, once the peer has reached the round. */
  lemma PairProgress(cf: Config, s: State, r: nat, k: nat) returns (a: Action)
    requires Valid(cf) && Inv(cf, s) && r < cf.n && k < cf.cores && s.round[r] < |cf.rounds| && s.cores[r][k].pc != Done
    requires Active(cf, s.round[r], r) ==>
             Peer(cf, s.round[r], r) < cf.n && s.round[Peer(cf, s.round[r], r)] >= s.round[r]
    requires !Missed(cf, s, r, k)
    ensures Enabled(cf, s, a) && !a.Advance? && a.k == k
    ensures a.r == r || (a.r == Peer(cf, s.round[r], r) < cf.n && s.round[a.r] == s.round[r]
                         && s.cores[a.r][k].pc != Wait)
  {
    hide LanesInv, HistsInv, Valid;
    var c, q := s.round[r], Peer(cf, s.round[r], r);
    Roles(cf, c, r);
    Roles(cf, c, q);
    InvCore(cf, s, r, k);
    InvCore(cf, s, q, k);
    hide CoresInv;
    a := Act(r, k);
    if Sends(cf, c, r) {
      assert Hand(c, c, s.cores[r][k].pc, s.round[q], s.cores[q][k].pc);
      assert s.cores[r][k].flag[q] == Signalled(cf, q, r, s.round[q], s.cores[q][k].pc);
      if s.cores[r][k].pc.Copy? { a := SenderStep(cf, s, r, k); }
      else if s.cores[q][k].pc == Start { a := Act(q, k); }
    } else if Receives(cf, c, r) && s.cores[r][k].pc == Wait && s.cores[r][k].flag[q] != c + 1 {
      assert s.cores[q][k].flag[r] == Signalled(cf, r, q, c, Wait);
      if s.cores[q][k].pc.Copy? { a := SenderStep(cf, s, q, k); } else { a := Act(q, k); }
    }
  }

  lemma {:induction false} Slowest(round: seq<nat>, ranks: set<nat>) returns (r: nat)
    requires ranks != {} && forall o :: o in ranks ==> o < |round|
    ensures r in ranks && forall o :: o in ranks ==> round[r] <= round[o]
    decreases |ranks|
  {
    var first :| first in ranks;
    var rest := ranks - {first};
    assert forall o :: o in ranks ==> o == first || o in rest;
    if rest == {} { return first; }
    r := Slowest(round, rest);
    if round[first] < round[r] { r := first; }
  }

  /** In orderly tables no run gets stuck before all ranks have finished. */
  lemma Progress(cf: Config, s: State) returns (a: Action)
    requires Valid(cf) && Orderly(cf) && Inv(cf, s) && cf.cores > 0 && !Finished(cf, s)
    ensures Enabled(cf, s, a)
  {
    var r0 :| 0 <= r0 < cf.n && s.round[r0] != |cf.rounds|;
    assert r0 in All(cf.n);
    var r := Slowest(s.round, All(cf.n));
    InvCore(cf, s, r0, 0);
    if k :| 0 <= k < cf.cores && s.cores[r][k].pc != Done {
      NeverMissed(cf, s, r, k);
      Roles(cf, s.round[r], r);
      assert Peer(cf, s.round[r], r) in All(cf.n);
      hide CoresInv, FlagsInv, HandsInv, LanesInv, HistsInv, Valid, Orderly;
      a := PairProgress(cf, s, r, k);
    } else {
      a := Advance(r);
    }
  }

  // ---- every run is bounded ----

  function Full(cf: Config, c: nat, r: nat): nat
  {
    2 * |Sources(cf, c, r)| + 2
  }

  function CoreWork(cf: Config, c: nat, r: nat, pc: Pc): int
  {
    match pc
    case Start => Full(cf, c, r)
    case Copy(next, pending) => 2 * (|Sources(cf, c, r)| - next) + |pending| + 1
    case Wait => 1
    case Done => 0
  }

  function Rest(cf: Config, c: nat, r: nat): int
    decreases |cf.rounds| - c
  {
    if c >= |cf.rounds| then 0 else 1 + cf.cores * Full(cf, c + 1, r) + Rest(cf, c + 1, r)
  }

  function CoreWorks(cf: Config, c: nat, r: nat, cores: seq<Core>): seq<int>
  {
    seq(|cores|, k requires 0 <= k < |cores| => CoreWork(cf, c, r, cores[k].pc))
  }

  function RankWork(cf: Config, c: nat, r: nat, cores: seq<Core>): int
  {
    Rest(cf, c, r) + Sum(CoreWorks(cf, c, r, cores))
  }

  function RankWorks(cf: Config, s: State): seq<int>
    requires Shape(cf, s)
  {
    seq(cf.n, r requires 0 <= r < cf.n => RankWork(cf, s.round[r], r, s.cores[r]))
  }

  /** An upper bound on the number of steps left. */
  function Work(cf: Config, s: State): int
    requires Shape(cf, s)
  {
    Sum(RankWorks(cf, s))
  }

  lemma {:induction false} SumConst(xs: seq<int>, v: int)
    requires forall i :: 0 <= i < |xs| ==> xs[i] == v
    ensures Sum(xs) == |xs| * v
  {
    if xs != [] { SumConst(xs[..|xs| - 1], v); }
  }

  lemma {:induction false} RestNonNegative(cf: Config, c: nat, r: nat)
    ensures Rest(cf, c, r) >= 0
    decreases |cf.rounds| - c
  {
    if c < |cf.rounds| {
      RestNonNegative(cf, c + 1, r);
      MulLe(0, cf.cores, Full(cf, c + 1, r));
    }
  }

  lemma WorkNonNegative(cf: Config, s: State)
    requires Inv(cf, s)
    ensures Work(cf, s) >= 0
  {
    hide FlagsInv, HandsInv, LanesInv, HistsInv;
    forall r | 0 <= r < cf.n ensures RankWorks(cf, s)[r] >= 0 {
      forall k | 0 <= k < cf.cores ensures CoreWorks(cf, s.round[r], r, s.cores[r])[k] >= 0 {
        InvCore(cf, s, r, k);
      }
      SumNonNegative(CoreWorks(cf, s.round[r], r, s.cores[r]));
      RestNonNegative(cf, s.round[r], r);
    }
    SumNonNegative(RankWorks(cf, s));
  }

  /** One core's step makes its own work smaller and leaves all other positions alone. */
  lemma StepWork(cf: Config, s: State, s': State, r: nat, k: nat)
    requires Shape(cf, s) && Shape(cf, s') && s'.round == s.round && r < cf.n && k < cf.cores
    requires forall o, j :: 0 <= o < cf.n && 0 <= j < cf.cores && !(o == r && j == k) ==>
             s'.cores[o][j].pc == s.cores[o][j].pc
    requires CoreWork(cf, s.round[r], r, s'.cores[r][k].pc) < CoreWork(cf, s.round[r], r, s.cores[r][k].pc)
    ensures Work(cf, s') < Work(cf, s)
  {
    hide CoreWork, Rest, Sum;
    var c := s.round[r];
    var w, w' := CoreWorks(cf, c, r, s.cores[r]), CoreWorks(cf, c, r, s'.cores[r]);
    assert w' == w[k := CoreWork(cf, c, r, s'.cores[r][k].pc)];
    SumUpdate(w, k, CoreWork(cf, c, r, s'.cores[r][k].pc));
    forall o | 0 <= o < cf.n && o != r ensures RankWorks(cf, s')[o] == RankWorks(cf, s)[o] {
      assert CoreWorks(cf, s.round[o], o, s.cores[o]) == CoreWorks(cf, s.round[o], o, s'.cores[o]);
    }
    assert RankWorks(cf, s') == RankWorks(cf, s)[r := RankWork(cf, c, r, s'.cores[r])];
    SumUpdate(RankWorks(cf, s), r, RankWork(cf, c, r, s'.cores[r]));
  }

  lemma AdvanceWork(cf: Config, s: State, r: nat)
    requires Shape(cf, s) && CanAdvance(cf, s, r)
    ensures Shape(cf, Next(cf, s, Advance(r))) && Work(cf, Next(cf, s, Advance(r))) < Work(cf, s)
  {
    hide Sum;
    var s', c := Next(cf, s, Advance(r)), s.round[r];
    AdvanceEffect(cf, s, r);
    SumConst(CoreWorks(cf, c, r, s.cores[r]), 0);
    SumConst(CoreWorks(cf, c + 1, r, s'.cores[r]), Full(cf, c + 1, r));
    assert RankWorks(cf, s') == RankWorks(cf, s)[r := RankWork(cf, c + 1, r, s'.cores[r])];
    SumUpdate(RankWorks(cf, s), r, RankWork(cf, c + 1, r, s'.cores[r]));
  }

  lemma NextWork(cf: Config, s: State, a: Action)
    requires Valid(cf) && Inv(cf, s) && Enabled(cf, s, a)
    ensures Shape(cf, Next(cf, s, a)) && Work(cf, Next(cf, s, a)) < Work(cf, s)
  {
    hide FlagsInv, HandsInv, LanesInv, HistsInv, Valid, Work, Next;
    match a {
      case Act(r, k) =>
        InvCore(cf, s, r, k);
        ActEffect(cf, s, r, k);
        StepWork(cf, s, Next(cf, s, a), r, k);
      case Land(r, k, i) =>
        LandEffect(cf, s, r, k, i);
        StepWork(cf, s, Next(cf, s, a), r, k);
      case Advance(r) => AdvanceWork(cf, s, r);
    }
  }

  lemma {:induction false} RunsBounded(cf: Config, s: State, trace: seq<Action>, t: State)
    requires Valid(cf) && Inv(cf, s) && Runs(cf, s, trace, t)
    ensures |trace| <= Work(cf, s)
    decreases |trace|
  {
    hide CoresInv, FlagsInv, HandsInv, LanesInv, HistsInv, Valid, Work;
    WorkNonNegative(cf, s);
    if trace != [] {
      NextInv(cf, s, trace[0]);
      NextWork(cf, s, trace[0]);
      RunsBounded(cf, Next(cf, s, trace[0]), trace[1..], t);
    }
  }

  /** In orderly tables a run that can go no further has finished, and its length is bounded. */
  lemma RunsFinish(cf: Config, s: State, trace: seq<Action>, t: State)
    requires Valid(cf) && Orderly(cf) && cf.cores > 0 && Init(cf, s) && Runs(cf, s, trace, t)
    ensures Shape(cf, s) && Shape(cf, t) && |trace| <= Work(cf, s)
    ensures (forall a :: !Enabled(cf, t, a)) ==> Finished(cf, t)
  {
    InitInv(cf, s);
    RunsInv(cf, s, trace, t);
    RunsBounded(cf, s, trace, t);
    if !Finished(cf, t) { var a := Progress(cf, t); }
  }

  /** In orderly tables every reachable state has a continuation that finishes all rounds. */
  lemma {:induction false} Completes(cf: Config, s: State) returns (trace: seq<Action>, t: State)
    requires Valid(cf) && Orderly(cf) && cf.cores > 0 && Inv(cf, s)
    ensures Runs(cf, s, trace, t) && Shape(cf, t) && Finished(cf, t)
    decreases Work(cf, s)
  {
    hide CoresInv, FlagsInv, HandsInv, LanesInv, HistsInv, Valid, Orderly, Work, Next, Finished, Enabled;
    if Finished(cf, s) { return [], s; }
    var a := Progress(cf, s);
    NextInv(cf, s, a);
    NextWork(cf, s, a);
    WorkNonNegative(cf, Next(cf, s, a));
    var rest;
    rest, t := Completes(cf, Next(cf, s, a));
    trace := [a] + rest;
    assert trace[1..] == rest;
  }

  // ---- a swap that nothing fences can lose a flag ----

  /** Rank `p` has not yet returned from its wait in round `c` on core `k`. */
  ghost predicate Frozen(cf: Config, s: State, c: nat, p: nat, k: nat)
    requires Shape(cf, s) && p < cf.n && k < cf.cores
  {
    s.round[p] < c || (s.round[p] == c && s.cores[p][k].pc != Done)
  }

  /** A rank that must still move on before `x` can enter round `d`. */
  ghost predicate Lagging(cf: Config, s: State, x: nat, d: nat, r: nat)
    requires Shape(cf, s)
  {
    r < cf.n && s.round[r] < d && r in Needed(cf, x, d, s.round[r])
  }

  /** The slowest lagging rank is not held up by a rank in an earlier round. */
  lemma PeerArrived(cf: Config, s: State, x: nat, d: nat, r: nat)
    requires Valid(cf) && Shape(cf, s) && Lagging(cf, s, x, d, r) && d <= |cf.rounds|
    requires forall o: nat :: Lagging(cf, s, x, d, o) ==> s.round[r] <= s.round[o]
    ensures Active(cf, s.round[r], r) ==>
            Peer(cf, s.round[r], r) < cf.n && s.round[Peer(cf, s.round[r], r)] >= s.round[r]
  {
    hide Valid, Sends, Receives, Peer;
    var m, q := s.round[r], Peer(cf, s.round[r], r);
    Roles(cf, m, r);
    if Active(cf, m, r) && s.round[q] < m {
      assert q in Needed(cf, x, d, m - 1);
      hide Needed;
      NeededGrows(cf, x, d, m - 1, s.round[q]);
    }
  }

  lemma LaggingStep(cf: Config, s: State, c: nat, d: nat, x: nat, p: nat, k: nat) returns (a: Action)
    requires Valid(cf) && Inv(cf, s) && k < cf.cores && Swap(cf, c, d, x, p) && p !in Needed(cf, x, d, c)
    requires s.round[x] < d && Frozen(cf, s, c, p, k) && !SomeMissed(cf, s)
    ensures Enabled(cf, s, a) && Shape(cf, Next(cf, s, a)) && Frozen(cf, Next(cf, s, a), c, p, k)
    ensures Next(cf, s, a).round[x] <= d && (Next(cf, s, a).round[x] == d ==> Next(cf, s, a).cores[x][k].pc == Start)
  {
    hide CoresInv, FlagsInv, HandsInv, LanesInv, HistsInv, Valid, Needed, Meets, Sends, Receives, Peer, CanAct,
         CanLand, Next;
    NeededGrows(cf, x, d, s.round[x], s.round[x]);
    var lagging := set r | r in All(cf.n) && Lagging(cf, s, x, d, r);
    assert x in lagging;
    var r := Slowest(s.round, lagging);
    forall o: nat | Lagging(cf, s, x, d, o) ensures s.round[r] <= s.round[o] { assert o in lagging; }
    PeerArrived(cf, s, x, d, r);
    if j :| 0 <= j < cf.cores && s.cores[r][j].pc != Done {
      a := PairProgress(cf, s, r, j);
      Roles(cf, c, x);
      CoreStepFrozen(cf, s, c, p, k, a);
    } else {
      a := Advance(r);
      AdvanceEffect(cf, s, r);
    }
  }

  lemma CoreStepFrozen(cf: Config, s: State, c: nat, p: nat, k: nat, a: Action)
    requires Valid(cf) && Inv(cf, s) && p < cf.n && k < cf.cores && Enabled(cf, s, a) && !a.Advance?
    requires Frozen(cf, s, c, p, k) && Receives(cf, c, p)
    requires a == Act(p, k) && s.round[p] == c ==> s.cores[p][k].pc != Wait
    ensures Shape(cf, Next(cf, s, a)) && Next(cf, s, a).round == s.round && Frozen(cf, Next(cf, s, a), c, p, k)
  {
    hide FlagsInv, HandsInv, LanesInv, HistsInv, Valid, Next;
    InvCore(cf, s, p, k);
    match a {
      case Act(r, j) => ActEffect(cf, s, r, j);
      case Land(r, j, i) => LandEffect(cf, s, r, j, i);
    }
  }

  /** When the old sender arrives at the swap, its signal destroys the one the frozen core waits for. */
  lemma SwapLoses(cf: Config, s: State, c: nat, d: nat, x: nat, p: nat, k: nat)
    requires Valid(cf) && Inv(cf, s) && k < cf.cores && Swap(cf, c, d, x, p)
    requires s.round[x] == d && s.cores[x][k].pc == Start && Frozen(cf, s, c, p, k)
    ensures Enabled(cf, s, Act(x, k)) && Shape(cf, Next(cf, s, Act(x, k))) && SomeMissed(cf, Next(cf, s, Act(x, k)))
  {
    hide FlagsInv, LanesInv, HistsInv, Valid, Next;
    Roles(cf, c, x);
    Roles(cf, c, p);
    Roles(cf, d, p);
    Roles(cf, d, x);
    InvCore(cf, s, p, k);
    assert Hand(c, s.round[x], s.cores[x][k].pc, s.round[p], s.cores[p][k].pc);
    ActEffect(cf, s, x, k);
    assert Missed(cf, Next(cf, s, Act(x, k)), p, k);
  }

  lemma {:induction false} Drive(cf: Config, s: State, c: nat, d: nat, x: nat, p: nat, k: nat)
    returns (trace: seq<Action>, t: State)
    requires Valid(cf) && Inv(cf, s) && k < cf.cores && Swap(cf, c, d, x, p) && p !in Needed(cf, x, d, c)
    requires s.round[x] <= d && (s.round[x] == d ==> s.cores[x][k].pc == Start) && Frozen(cf, s, c, p, k)
    ensures Runs(cf, s, trace, t) && Shape(cf, t) && SomeMissed(cf, t)
    decreases Work(cf, s)
  {
    hide CoresInv, FlagsInv, HandsInv, LanesInv, HistsInv, Valid, Work, Next, Frozen, SomeMissed, Needed, Swap;
    if SomeMissed(cf, s) { return [], s; }
    assert x < cf.n by { SwapRanks(cf, c, d, x, p); }
    if s.round[x] == d {
      SwapLoses(cf, s, c, d, x, p, k);
      t := Next(cf, s, Act(x, k));
      trace := [Act(x, k)];
      assert Runs(cf, t, trace[1..], t);
    } else {
      var a := LaggingStep(cf, s, c, d, x, p, k);
      NextInv(cf, s, a);
      NextWork(cf, s, a);
      WorkNonNegative(cf, Next(cf, s, a));
      var rest;
      rest, t := Drive(cf, Next(cf, s, a), c, d, x, p, k);
      trace := [a] + rest;
      assert trace[1..] == rest;
    }
  }

  lemma SwapRanks(cf: Config, c: nat, d: nat, x: nat, p: nat)
    requires Swap(cf, c, d, x, p)
    ensures x < cf.n && p < cf.n && c < d < |cf.rounds|
  {
  }

  /**
   The exact condition: some run loses a flag if and only if the tables are not orderly. What is
   lost is always a receiver's flag: on no tables does a sender's wait miss its value.
   */
  lemma MissExactly(cf: Config, s: State)
    requires Valid(cf) && Init(cf, s) && cf.cores > 0
    ensures !Orderly(cf) <==> exists trace, t :: Runs(cf, s, trace, t) && Shape(cf, t) && SomeMissed(cf, t)
    ensures forall trace, t, p: nat, k: nat :: Runs(cf, s, trace, t) && Shape(cf, t) ==> !SenderMissed(cf, t, p, k)
  {
    InitInv(cf, s);
    forall trace, t, p: nat, k: nat | Runs(cf, s, trace, t) && Shape(cf, t) ensures !SenderMissed(cf, t, p, k) {
      RunsInv(cf, s, trace, t);
      SenderNeverMisses(cf, t, p, k);
    }
    if !Orderly(cf) {
      var c, d, x, p :| Swap(cf, c, d, x, p) && p !in Needed(cf, x, d, c);
      SwapRanks(cf, c, d, x, p);
      var trace, t := Drive(cf, s, c, d, x, p, 0);
    } else {
      forall trace, t | Runs(cf, s, trace, t) && Shape(cf, t) ensures !SomeMissed(cf, t) {
        RunsInv(cf, s, trace, t);
        forall r: nat, k: nat ensures !Missed(cf, t, r, k) { NeverMissed(cf, t, r, k); }
      }
    }
  }

  /** A lost flag never comes back: the core stays in its wait, and the run cannot finish. */
  lemma {:induction false} MissedForever(cf: Config, s: State, trace: seq<Action>, t: State, r: nat, k: nat)
    requires Valid(cf) && Inv(cf, s) && Missed(cf, s, r, k) && Runs(cf, s, trace, t)
    ensures Shape(cf, t) && Missed(cf, t, r, k) && !Finished(cf, t)
    decreases |trace|
  {
    hide CoresInv, FlagsInv, HandsInv, LanesInv, HistsInv, Valid, Next, Missed;
    if trace != [] {
      NextInv(cf, s, trace[0]);
      MissedStays(cf, s, trace[0], r, k);
      MissedForever(cf, Next(cf, s, trace[0]), trace[1..], t, r, k);
    } else {
      MissedUnfinished(cf, s, r, k);
    }
  }

  lemma MissedUnfinished(cf: Config, s: State, r: nat, k: nat)
    requires Inv(cf, s) && Missed(cf, s, r, k)
    ensures !Finished(cf, s)
  {
    InvCore(cf, s, r, k);
  }

  lemma MissedStays(cf: Config, s: State, a: Action, r: nat, k: nat)
    requires Valid(cf) && Inv(cf, s) && Missed(cf, s, r, k) && Enabled(cf, s, a)
    ensures Shape(cf, Next(cf, s, a)) && Missed(cf, Next(cf, s, a), r, k)
  {
    hide HandsInv, LanesInv, HistsInv, CoresInv, FlagsInv, Valid, Next, Receives, Peer, Sources, Targets;
    var c, q := s.round[r], Peer(cf, s.round[r], r);
    var m := LostTo(cf, s, r, k);
    InvCore(cf, s, r, k);
    InvCore(cf, s, q, k);
    Roles(cf, c, r);
    hide Sends;
    match a {
      case Act(o, j) =>
        ActEffect(cf, s, o, j);
        if o == q && j == k { Roles(cf, s.round[o], o); }
      case Land(o, j, i) => LandEffect(cf, s, o, j, i);
      case Advance(o) => AdvanceEffect(cf, s, o);
    }
  }

  // ---- special cases ----

  /** One pairing with fixed senders for all rounds; the lists of blocks may still change. */
  ghost predicate FixedPairing(cf: Config)
  {
    forall c, d :: 0 <= c < d < |cf.rounds| ==>
           cf.rounds[c].pair == cf.rounds[d].pair && cf.rounds[c].send == cf.rounds[d].send
  }

  lemma FixedPairingOrderly(cf: Config)
    requires Valid(cf) && FixedPairing(cf)
    ensures Orderly(cf)
  {
    forall c: nat, d: nat, x: nat, p: nat ensures !Swap(cf, c, d, x, p) {
      if c < |cf.rounds| && x < cf.n { Roles(cf, c, x); }
    }
  }

  /** Two ranks that send in turn: the tables of a swap with nothing in between. */
  function TurnTaking(): Config
  {
    Config(2, 1, 0, [Table([1, 0], [true, false], [[], []], [[], []]),
                     Table([1, 0], [false, true], [[], []], [[], []])])
  }

  lemma TurnTakingMisses(s: State)
    requires Init(TurnTaking(), s)
    ensures Valid(TurnTaking())
    ensures exists trace, t :: Runs(TurnTaking(), s, trace, t) && Shape(TurnTaking(), t) && SomeMissed(TurnTaking(), t)
  {
    var cf := TurnTaking();
    assert Swap(cf, 0, 1, 0, 1);
    assert 1 !in Needed(cf, 0, 1, 0);
    MissExactly(cf, s);
  }
}
