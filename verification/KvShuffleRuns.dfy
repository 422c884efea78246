/**
 What whole runs of the KV-shuffle handshake achieve: paired ranks stay together, slices are
 written only while their owner waits, and the caches are those of the round-by-round reference.
 */
module KvShuffleRuns {
  import opened KvShuffle

  // ---- paired ranks stay together ----

  /** No rank leaves a round before the rank it meets there has entered it. */
  lemma MeetingBinds(cf: Config, s: State, c: nat, r: nat, o: nat)
    requires Valid(cf) && Inv(cf, s) && cf.cores > 0 && r < cf.n && o < cf.n && Meets(cf, c, r, o)
    ensures s.round[r] > c ==> s.round[o] >= c
  {
    Roles(cf, c, r);
    hide CoresInv, FlagsInv, LanesInv, HistsInv, Valid;
    if Sends(cf, c, r) {
      assert Hand(c, s.round[r], s.cores[r][0].pc, s.round[o], s.cores[o][0].pc);
    } else {
      assert Hand(c, s.round[o], s.cores[o][0].pc, s.round[r], s.cores[r][0].pc);
    }
  }

  /** Ranks that are paired in every round, one of them sending, are never more than one round apart. */
  lemma RoundsClose(cf: Config, s: State, trace: seq<Action>, t: State, r: nat, o: nat)
    requires Valid(cf) && Init(cf, s) && Runs(cf, s, trace, t) && cf.cores > 0 && r < cf.n && o < cf.n
    requires forall c: nat :: c < |cf.rounds| ==> Meets(cf, c, r, o)
    ensures Shape(cf, t) && t.round[r] <= t.round[o] + 1 && t.round[o] <= t.round[r] + 1
  {
    hide CoresInv, FlagsInv, HandsInv, LanesInv, HistsInv, Valid, Init, Runs, Sends, Receives, Peer;
    InitInv(cf, s);
    RunsInv(cf, s, trace, t);
    InvCore(cf, t, r, 0);
    InvCore(cf, t, o, 0);
    if t.round[r] > 0 { MeetingBinds(cf, t, t.round[r] - 1, r, o); }
    if t.round[o] > 0 {
      assert Meets(cf, t.round[o] - 1, r, o);
      Roles(cf, t.round[o] - 1, r);
      Roles(cf, t.round[o] - 1, o);
      MeetingBinds(cf, t, t.round[o] - 1, o, r);
    }
  }

  /** A cache slice changes only by its sender's put, between the owner's signal and its return from the wait. */
  lemma WrittenOnlyWhileWaiting(cf: Config, s: State, trace: seq<Action>, t: State, a: Action, q: nat, k: nat)
    requires Valid(cf) && Init(cf, s) && Runs(cf, s, trace, t) && Shape(cf, t) && Enabled(cf, t, a) && q < cf.n
             && k < cf.cores
    requires Shape(cf, Next(cf, t, a)) && Next(cf, t, a).cores[q][k].lane != t.cores[q][k].lane
    ensures t.cores[q][k].pc == Wait && Receives(cf, t.round[q], q)
    ensures a.Land? && a.k == k && a.r == Peer(cf, t.round[q], q) && t.round[a.r] == t.round[q]
  {
    InitInv(cf, s);
    RunsInv(cf, s, trace, t);
    hide Inv, Valid, CanAct, Peer, Sends, Receives, Next;
    match a {
      case Act(r, j) => ActEffect(cf, t, r, j);
      case Advance(r) => AdvanceEffect(cf, t, r);
      case Land(r, j, i) =>
        LandEffect(cf, t, r, j, i);
        LandWindow(cf, t, r, j, i);
        Roles(cf, t.round[r], r);
    }
  }

  // ---- the reference copy ----

  predicate InBounds(src: seq<nat>, dst: seq<nat>, m: nat, from: nat, to: nat)
    requires m <= |src| == |dst|
  {
    forall i :: 0 <= i < m ==> src[i] < from && dst[i] < to
  }

  /** The slice after the first `m` copies of the reference loop. */
  function Copied(src: seq<nat>, dst: seq<nat>, m: nat, before: seq<int>, from: seq<int>): (lane: seq<int>)
    requires m <= |src| == |dst|
    requires InBounds(src, dst, m, |from|, |before|)
    ensures |lane| == |before|
  {
    if m == 0 then before
    else Copied(src, dst, m - 1, before, from)[dst[m - 1] := from[src[m - 1]]]
  }

  /** Blocks listed for the same target have the same contents; that is so if all targets differ. */
  ghost predicate Agree(src: seq<nat>, dst: seq<nat>, from: seq<int>)
  {
    forall i, j :: 0 <= i < j < |dst| && j < |src| && dst[i] == dst[j] && src[i] < |from| && src[j] < |from| ==>
      from[src[i]] == from[src[j]]
  }

  /** Entry number `i` of the lists puts the value `v` on block `d`. */
  ghost predicate Puts(src: seq<nat>, dst: seq<nat>, from: seq<int>, i: nat, d: nat, v: int)
  {
    i < |dst| == |src| && dst[i] == d && src[i] < |from| && v == from[src[i]]
  }

  /** The first `m` entries leave block `d` alone, with the value `kept`, or one of them put `v` there. */
  ghost predicate PutOrKept(src: seq<nat>, dst: seq<nat>, from: seq<int>, m: nat, d: nat, kept: int, v: int)
  {
    if forall i: nat :: i < m && i < |dst| ==> dst[i] != d then v == kept
    else exists i: nat :: i < m && Puts(src, dst, from, i, d, v)
  }

  /** The reference loop leaves at a target what one of its sources holds, and everything else alone. */
  lemma {:induction false} CopiedAt(src: seq<nat>, dst: seq<nat>, m: nat, before: seq<int>, from: seq<int>, d: nat)
    requires m <= |src| == |dst| && d < |before|
    requires InBounds(src, dst, m, |from|, |before|)
    ensures PutOrKept(src, dst, from, m, d, before[d], Copied(src, dst, m, before, from)[d])
  {
    if m > 0 {
      CopiedAt(src, dst, m - 1, before, from, d);
      var v := Copied(src, dst, m, before, from)[d];
      if dst[m - 1] == d {
        assert Puts(src, dst, from, m - 1, d, v);
      } else if i: nat :| i < m - 1 && Puts(src, dst, from, i, d, v) {
        assert Puts(src, dst, from, i, d, v);
      }
    }
  }

  /** What agrees has only one value to put on a block. */
  lemma OneValue(src: seq<nat>, dst: seq<nat>, from: seq<int>, d: nat, kept: int, v: int, w: int)
    requires |src| == |dst| && Agree(src, dst, from)
    requires PutOrKept(src, dst, from, |dst|, d, kept, v) && PutOrKept(src, dst, from, |dst|, d, kept, w)
    ensures v == w
  {
    if !(forall i: nat :: i < |dst| ==> dst[i] != d) {
      var i: nat :| i < |dst| && Puts(src, dst, from, i, d, v);
      var j: nat :| j < |dst| && Puts(src, dst, from, j, d, w);
      assert i < j || i == j || j < i;
    }
  }

  lemma BlockIsCopied(src: seq<nat>, dst: seq<nat>, before: seq<int>, from: seq<int>, lane: seq<int>, d: nat)
    requires |src| == |dst| && Agree(src, dst, from) && Mixed(src, dst, All(|src|), before, from, lane)
    requires InBounds(src, dst, |src|, |from|, |before|)
    requires d < |lane| == |before|
    ensures lane[d] == Copied(src, dst, |src|, before, from)[d]
  {
    hide Mixed, Copied, Agree, PutOrKept, All, InBounds;
    var copied := Copied(src, dst, |src|, before, from);
    MixedParts(src, dst, before, from, lane, d);
    CopiedAt(src, dst, |src|, before, from, d);
    OneValue(src, dst, from, d, before[d], lane[d], copied[d]);
  }

  /** Puts that land in any order leave the result of the reference loop. */
  lemma MixedIsCopied(src: seq<nat>, dst: seq<nat>, before: seq<int>, from: seq<int>, lane: seq<int>)
    requires |src| == |dst| && Agree(src, dst, from) && Mixed(src, dst, All(|src|), before, from, lane)
    requires InBounds(src, dst, |src|, |from|, |before|)
    ensures lane == Copied(src, dst, |src|, before, from)
  {
    hide Mixed, Copied, Agree, PutOrKept, All, InBounds;
    MixedSize(src, dst, before, from, lane);
    var copied := Copied(src, dst, |src|, before, from);
    assert |copied| == |before| == |lane|;
    forall d: nat | d < |before| ensures lane[d] == copied[d] { BlockIsCopied(src, dst, before, from, lane, d); }
  }

  lemma MixedSize(src: seq<nat>, dst: seq<nat>, before: seq<int>, from: seq<int>, lane: seq<int>)
    requires Mixed(src, dst, All(|src|), before, from, lane)
    ensures |lane| == |before|
  {
  }

  lemma MixedParts(src: seq<nat>, dst: seq<nat>, before: seq<int>, from: seq<int>, lane: seq<int>, d: nat)
    requires |src| == |dst| && Mixed(src, dst, All(|src|), before, from, lane) && d < |lane| == |before|
    ensures PutOrKept(src, dst, from, |dst|, d, before[d], lane[d])
  {
    assert MixedAt(src, dst, All(|src|), before, from, lane, d);
    forall i: nat | i < |src| ensures i in All(|src|) {}
    if i: nat :| Hits(src, dst, All(|src|), from, i, d) && lane[d] == from[src[i]] {
      assert Puts(src, dst, from, i, d, lane[d]);
    }
  }

  type Caches = seq<seq<seq<int>>>

  ghost predicate CachesOk(cf: Config, x: Caches)
  {
    && |x| == cf.n
    && forall r :: 0 <= r < cf.n ==> |x[r]| == cf.cores && forall k :: 0 <= k < cf.cores ==> |x[r][k]| == cf.blocks
  }

  /** What round `c` makes of one slice when all ranks copy at once. */
  function RoundLane(cf: Config, c: nat, x: Caches, r: nat, k: nat): (lane: seq<int>)
    requires Valid(cf) && c < |cf.rounds| && CachesOk(cf, x) && r < cf.n && k < cf.cores
    ensures |lane| == cf.blocks
  {
    Roles(cf, c, r);
    var s := Peer(cf, c, r);
    Roles(cf, c, s);
    if Receives(cf, c, r) then Copied(Sources(cf, c, s), Targets(cf, c, s), |Sources(cf, c, s)|, x[r][k], x[s][k])
      else x[r][k]
  }

  /** The caches of all ranks after the first `c` rounds, done one after the other. */
  function Reference(cf: Config, x: Caches, c: nat): (y: Caches)
    requires Valid(cf) && c <= |cf.rounds| && CachesOk(cf, x)
    ensures CachesOk(cf, y)
  {
    if c == 0 then x
    else
      var w := Reference(cf, x, c - 1);
      seq(cf.n, r requires 0 <= r < cf.n =>
        seq(cf.cores, k requires 0 <= k < cf.cores => RoundLane(cf, c - 1, w, r, k)))
  }

  /** In every round of the reference, the blocks a sender lists for one target have the same contents. */
  ghost predicate Agrees(cf: Config, x: Caches)
    requires Valid(cf) && CachesOk(cf, x)
  {
    forall c: nat, r: nat, k: nat :: c < |cf.rounds| && r < cf.n && k < cf.cores && Sends(cf, c, r) ==>
      Agree(Sources(cf, c, r), Targets(cf, c, r), Reference(cf, x, c)[r][k])
  }

  function Lanes(cf: Config, s: State): (x: Caches)
    requires Shape(cf, s)
    ensures CachesOk(cf, x)
  {
    seq(cf.n, r requires 0 <= r < cf.n => seq(cf.cores, k requires 0 <= k < cf.cores => s.cores[r][k].lane))
  }

  /** Every history entry is the reference's cache of that round. */
  lemma {:induction false} HistIsReference(cf: Config, t: State, x: Caches, c: nat, r: nat, k: nat)
    requires Valid(cf) && CachesOk(cf, x) && Agrees(cf, x) && Inv(cf, t) && r < cf.n && k < cf.cores && c <= t.round[r]
    requires forall o, j :: 0 <= o < cf.n && 0 <= j < cf.cores ==>
             |t.cores[o][j].hist| > 0 && t.cores[o][j].hist[0] == x[o][j]
    ensures c <= |cf.rounds| && c < |t.cores[r][k].hist| && t.cores[r][k].hist[c] == Reference(cf, x, c)[r][k]
  {
    hide Valid, Inv, RoundLane;
    InvCore(cf, t, r, k);
    if c > 0 {
      HistIsReference(cf, t, x, c - 1, r, k);
      var q, w := Peer(cf, c - 1, r), Reference(cf, x, c - 1);
      Roles(cf, c - 1, r);
      if Receives(cf, c - 1, r) {
        InvHist(cf, t, c - 1, r, k);
        HistIsReference(cf, t, x, c - 1, q, k);
        assert Agree(Sources(cf, c - 1, q), Targets(cf, c - 1, q), w[q][k]);
      }
      HistStep(cf, t, w, c - 1, r, k);
    }
  }

  lemma InvHist(cf: Config, t: State, c: nat, r: nat, k: nat)
    requires Valid(cf) && Inv(cf, t) && r < cf.n && k < cf.cores && c < |cf.rounds| && c + 1 < |t.cores[r][k].hist|
    ensures Peer(cf, c, r) < cf.n && HistOk(cf, c, r, t.cores[r][k].hist, t.cores[Peer(cf, c, r)][k].hist)
    ensures Receives(cf, c, r) ==> c <= t.round[Peer(cf, c, r)]
  {
    hide FlagsInv, HandsInv, LanesInv, Valid;
    Roles(cf, c, r);
    InvCore(cf, t, Peer(cf, c, r), k);
  }

  lemma HistStep(cf: Config, t: State, w: Caches, c: nat, r: nat, k: nat)
    requires Valid(cf) && Inv(cf, t) && CachesOk(cf, w) && r < cf.n && k < cf.cores && c < |cf.rounds|
    requires Receives(cf, c, r) && Peer(cf, c, r) < cf.n ==>
               Agree(Sources(cf, c, Peer(cf, c, r)), Targets(cf, c, Peer(cf, c, r)), w[Peer(cf, c, r)][k])
    requires c + 1 < |t.cores[r][k].hist| && t.cores[r][k].hist[c] == w[r][k]
    requires Peer(cf, c, r) < cf.n && (Receives(cf, c, r) ==>
                                       Entry(t.cores[Peer(cf, c, r)][k].hist, c) == w[Peer(cf, c, r)][k])
    ensures t.cores[r][k].hist[c + 1] == RoundLane(cf, c, w, r, k)
  {
    hide CoresInv, FlagsInv, HandsInv, LanesInv, HistsInv, Mixed, Copied;
    var q := Peer(cf, c, r);
    InvHist(cf, t, c, r, k);
    if Receives(cf, c, r) {
      Roles(cf, c, q);
      hide Valid;
      MixedIsCopied(Sources(cf, c, q), Targets(cf, c, q), w[r][k], w[q][k], t.cores[r][k].hist[c + 1]);
    }
  }

  /** What stands in a history never changes. */
  lemma {:induction false} RunsKeepHist(cf: Config, s: State, trace: seq<Action>, t: State, r: nat, k: nat, c: nat)
    requires Valid(cf) && Inv(cf, s) && Runs(cf, s, trace, t) && r < cf.n && k < cf.cores && c < |s.cores[r][k].hist|
    ensures Inv(cf, t) && c < |t.cores[r][k].hist| && t.cores[r][k].hist[c] == s.cores[r][k].hist[c]
    decreases |trace|
  {
    hide CanAct, CanLand, CanAdvance, CoresInv, FlagsInv, HandsInv, LanesInv, HistsInv, Valid, Next;
    if trace != [] {
      var a := trace[0];
      NextInv(cf, s, a);
      match a {
        case Act(o, j) => ActEffect(cf, s, o, j);
        case Land(o, j, i) => LandEffect(cf, s, o, j, i);
        case Advance(o) => AdvanceEffect(cf, s, o);
      }
      RunsKeepHist(cf, Next(cf, s, a), trace[1..], t, r, k, c);
    }
  }

  lemma InvCore(cf: Config, s: State, r: nat, k: nat)
    requires Inv(cf, s) && r < cf.n && k < cf.cores
    ensures CoreOk(cf, r, s.round[r], s.cores[r][k])
  {
  }

  ghost predicate Finished(cf: Config, s: State)
    requires Shape(cf, s)
  {
    forall r :: 0 <= r < cf.n ==> s.round[r] == |cf.rounds|
  }

  /** The history of every rank is the reference's sequence of caches. */
  ghost predicate HistoriesAre(cf: Config, t: State, x: Caches)
    requires Valid(cf) && CachesOk(cf, x) && Shape(cf, t)
  {
    forall c: nat, r: nat, k: nat :: c <= |cf.rounds| && r < cf.n && k < cf.cores ==>
      c < |t.cores[r][k].hist| && t.cores[r][k].hist[c] == Reference(cf, x, c)[r][k]
  }

  /** The caches at the start of a run are the first history entries of every state it reaches. */
  lemma FirstEntries(cf: Config, s: State, trace: seq<Action>, t: State)
    requires Valid(cf) && Init(cf, s) && Runs(cf, s, trace, t) && Shape(cf, t)
    ensures Inv(cf, t)
    ensures forall r, k :: 0 <= r < cf.n && 0 <= k < cf.cores ==>
              |t.cores[r][k].hist| > 0 && t.cores[r][k].hist[0] == Lanes(cf, s)[r][k]
  {
    hide Inv, Valid;
    InitInv(cf, s);
    RunsInv(cf, s, trace, t);
    forall r, k | 0 <= r < cf.n && 0 <= k < cf.cores
      ensures |t.cores[r][k].hist| > 0 && t.cores[r][k].hist[0] == Lanes(cf, s)[r][k]
    {
      RunsKeepHist(cf, s, trace, t, r, k, 0);
    }
  }

  /** Without any barrier, every round of a finished run leaves the caches of the round-by-round reference. */
  lemma ShuffleCorrect(cf: Config, s: State, trace: seq<Action>, t: State)
    requires Valid(cf) && Shape(cf, s) && Init(cf, s) && Agrees(cf, Lanes(cf, s))
    requires Runs(cf, s, trace, t) && Shape(cf, t) && Finished(cf, t)
    ensures HistoriesAre(cf, t, Lanes(cf, s)) && Lanes(cf, t) == Reference(cf, Lanes(cf, s), |cf.rounds|)
  {
    hide Inv, Valid, Agrees, Init, Runs;
    var x, y := Lanes(cf, s), Reference(cf, Lanes(cf, s), |cf.rounds|);
    FirstEntries(cf, s, trace, t);
    forall c: nat, r: nat, k: nat | c <= |cf.rounds| && r < cf.n && k < cf.cores
      ensures c < |t.cores[r][k].hist| && t.cores[r][k].hist[c] == Reference(cf, x, c)[r][k]
    {
      HistIsReference(cf, t, x, c, r, k);
    }
    forall r | 0 <= r < cf.n ensures Lanes(cf, t)[r] == y[r] {
      forall k | 0 <= k < cf.cores ensures t.cores[r][k].lane == y[r][k] { FinishedLane(cf, t, r, k); }
    }
  }

  lemma FinishedLane(cf: Config, t: State, r: nat, k: nat)
    requires Inv(cf, t) && Finished(cf, t) && r < cf.n && k < cf.cores
    ensures |t.cores[r][k].hist| == |cf.rounds| + 1 && t.cores[r][k].lane == t.cores[r][k].hist[|cf.rounds|]
  {
    assert CoreOk(cf, r, t.round[r], t.cores[r][k]);
    hide CoresInv, FlagsInv, HandsInv, HistsInv;
    var q := Peer(cf, t.round[r], r);
    assert q < cf.n;
    assert LaneOk(cf, r, t.round[r], t.cores[r][k], t.round[q], t.cores[q][k]);
  }

  // ---- the reference loops ----

  /** The reference's loop over one sender's block list, in every slice of the receiver's cache. */
  method CopyBlocks(src: seq<nat>, dst: seq<nat>, from: seq<seq<int>>, before: seq<seq<int>>, ghost blocks: nat)
    returns (into: seq<seq<int>>)
    requires |src| == |dst| && |from| == |before| && InBounds(src, dst, |src|, blocks, blocks)
    requires forall k :: 0 <= k < |from| ==> |from[k]| == |before[k]| == blocks
    ensures |into| == |before|
    ensures forall k :: 0 <= k < |into| ==> into[k] == Copied(src, dst, |src|, before[k], from[k])
  {
    into := before;
    for idx := 0 to |src|
      invariant |into| == |before|
      invariant forall k :: 0 <= k < |into| ==> into[k] == Copied(src, dst, idx, before[k], from[k])
    {
      into := seq(|into|, k requires 0 <= k < |into| && src[idx] < |from[k]| && dst[idx] < |into[k]| =>
        into[k][dst[idx] := from[k][src[idx]]]);
    }
  }

  /** The caches when the ranks before `i` have sent. */
  ghost predicate SentTo(cf: Config, c: nat, x: Caches, y: Caches, i: nat)
    requires Valid(cf) && c < |cf.rounds| && CachesOk(cf, x)
  {
    && CachesOk(cf, y)
    && forall r, k :: 0 <= r < cf.n && 0 <= k < cf.cores ==>
         y[r][k] == if Receives(cf, c, r) && Peer(cf, c, r) >= i then x[r][k] else RoundLane(cf, c, x, r, k)
  }

  /** One rank's turn: a sender has its own cache untouched and its receiver's as it was at the start. */
  lemma SentNext(cf: Config, c: nat, x: Caches, y: Caches, i: nat, y': Caches)
    requires Valid(cf) && c < |cf.rounds| && CachesOk(cf, x) && i < cf.n && SentTo(cf, c, x, y, i)
    requires CachesOk(cf, y') && Peer(cf, c, i) < cf.n
    requires !Sends(cf, c, i) ==> y' == y
    requires Sends(cf, c, i) ==>
               && InBounds(Sources(cf, c, i), Targets(cf, c, i), |Sources(cf, c, i)|, cf.blocks, cf.blocks)
               && (forall r :: 0 <= r < cf.n && r != Peer(cf, c, i) ==> y'[r] == y[r])
               && forall k :: 0 <= k < cf.cores ==>
                    y'[Peer(cf, c, i)][k] == Copied(Sources(cf, c, i), Targets(cf, c, i), |Sources(cf, c, i)|,
                                                    y[Peer(cf, c, i)][k], y[i][k])
    ensures SentTo(cf, c, x, y', i + 1)
  {
    Roles(cf, c, i);
    hide Valid, Copied, InBounds, Receives, Sends, Peer, Sources, Targets;
    forall r, k | 0 <= r < cf.n && 0 <= k < cf.cores
      ensures y'[r][k] == if Receives(cf, c, r) && Peer(cf, c, r) >= i + 1 then x[r][k] else RoundLane(cf, c, x, r, k)
    {
      Roles(cf, c, r);
      RoundLaneIs(cf, c, x, r, k);
      RoundLaneIs(cf, c, x, i, k);
    }
  }

  lemma RoundLaneIs(cf: Config, c: nat, x: Caches, r: nat, k: nat)
    requires Valid(cf) && c < |cf.rounds| && CachesOk(cf, x) && r < cf.n && k < cf.cores
    ensures Sends(cf, c, r) ==> !Receives(cf, c, r)
    ensures !Receives(cf, c, r) ==> RoundLane(cf, c, x, r, k) == x[r][k]
  {
  }

  lemma SentStart(cf: Config, c: nat, x: Caches)
    requires Valid(cf) && c < |cf.rounds| && CachesOk(cf, x)
    ensures SentTo(cf, c, x, x, 0)
  {
    hide RoundLane, Receives, Peer;
    forall r, k | 0 <= r < cf.n && 0 <= k < cf.cores
      ensures x[r][k] == if Receives(cf, c, r) && Peer(cf, c, r) >= 0 then x[r][k] else RoundLane(cf, c, x, r, k)
    {
      RoundLaneIs(cf, c, x, r, k);
    }
  }

  lemma ReferenceNext(cf: Config, x: Caches, c: nat, w: Caches, y: Caches)
    requires Valid(cf) && c < |cf.rounds| && CachesOk(cf, x) && CachesOk(cf, y) && w == Reference(cf, x, c)
    requires forall r, k :: 0 <= r < cf.n && 0 <= k < cf.cores ==> y[r][k] == RoundLane(cf, c, w, r, k)
    ensures y == Reference(cf, x, c + 1)
  {
    hide RoundLane, Valid;
    var z := Reference(cf, x, c + 1);
    forall r | 0 <= r < cf.n ensures y[r] == z[r] {
      forall k | 0 <= k < cf.cores ensures y[r][k] == z[r][k] {}
    }
  }

  /** The reference's round: the ranks in turn, each sender copying into its partner's cache in place. */
  method GoldenRound(cf: Config, c: nat, x: Caches) returns (y: Caches)
    requires Valid(cf) && c < |cf.rounds| && CachesOk(cf, x)
    ensures CachesOk(cf, y)
    ensures forall r, k :: 0 <= r < cf.n && 0 <= k < cf.cores ==> y[r][k] == RoundLane(cf, c, x, r, k)
  {
    hide Copied, RoundLane;
    y := x;
    SentStart(cf, c, x);
    var t := cf.rounds[c];
    for i := 0 to cf.n
      invariant SentTo(cf, c, x, y, i)
    {
      ghost var was := y;
      Roles(cf, c, i);
      if t.send[i] {
        var pair := t.pair[i];
        var into := CopyBlocks(t.src[i], t.dst[i], y[i], y[pair], cf.blocks);
        y := y[pair := into];
      }
      SentNext(cf, c, x, was, i, y);
    }
  }

  /** All rounds of the reference, one after the other. */
  method GoldenRounds(cf: Config, x: Caches) returns (y: Caches)
    requires Valid(cf) && CachesOk(cf, x)
    ensures CachesOk(cf, y) && y == Reference(cf, x, |cf.rounds|)
  {
    hide RoundLane;
    y := x;
    for c := 0 to |cf.rounds|
      invariant CachesOk(cf, y) && y == Reference(cf, x, c)
    {
      ghost var before := y;
      y := GoldenRound(cf, c, y);
      ReferenceNext(cf, x, c, before, y);
    }
  }
}
