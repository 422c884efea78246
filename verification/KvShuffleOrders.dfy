/**
 When the order in which puts land matters in the KV shuffle. A core's puts of one round may land
 in any order, so a block listed as a target twice can end with either source. The module gives
 the exact condition under which every run follows the reference, and an example in which two
 blocks go to one target.
 */
module KvShuffleOrders {
  import opened KvShuffle
  import opened KvShuffleRuns
  import opened KvShuffleLiveness

  // ---- one core's puts ----

  ghost predicate Permutes(order: seq<nat>, m: nat)
  {
    && |order| == m && (forall p :: 0 <= p < m ==> order[p] < m)
    && forall p, q :: 0 <= p < q < m ==> order[p] != order[q]
  }

  /** The slice after the puts have landed in the given order. */
  function LandAll(src: seq<nat>, dst: seq<nat>, order: seq<nat>, before: seq<int>, from: seq<int>): (lane: seq<int>)
    requires |src| == |dst| && InBounds(src, dst, |src|, |from|, |before|)
    requires forall p :: 0 <= p < |order| ==> order[p] < |src|
    ensures |lane| == |before|
  {
    if order == [] then before
    else
      var i := order[|order| - 1];
      LandAll(src, dst, order[..|order| - 1], before, from)[dst[i] := from[src[i]]]
  }

  ghost predicate Listed(dst: seq<nat>, order: seq<nat>, d: nat)
    requires forall p :: 0 <= p < |order| ==> order[p] < |dst|
  {
    exists p :: 0 <= p < |order| && dst[order[p]] == d
  }

  /** Block `d` keeps its value if the order does not list it, and else gets one of its sources. */
  ghost predicate PutOrNot(src: seq<nat>, dst: seq<nat>, order: seq<nat>, from: seq<int>, d: nat, kept: int, v: int)
    requires forall p :: 0 <= p < |order| ==> order[p] < |dst|
  {
    if Listed(dst, order, d) then exists i: nat :: Puts(src, dst, from, i, d, v) else v == kept
  }

  lemma ListedLast(dst: seq<nat>, order: seq<nat>, d: nat)
    requires order != [] && forall p :: 0 <= p < |order| ==> order[p] < |dst|
    ensures Listed(dst, order, d) <==> Listed(dst, order[..|order| - 1], d) || dst[order[|order| - 1]] == d
  {
    var rest := order[..|order| - 1];
    if Listed(dst, rest, d) {
      var p :| 0 <= p < |rest| && dst[rest[p]] == d;
      assert dst[order[p]] == d;
    }
    if p :| 0 <= p < |order| && dst[order[p]] == d && p < |order| - 1 {
      assert dst[rest[p]] == d;
    }
  }

  lemma {:induction false} LandAllAt(src: seq<nat>, dst: seq<nat>, order: seq<nat>, before: seq<int>, from: seq<int>,
                                     d: nat)
    requires |src| == |dst| && InBounds(src, dst, |src|, |from|, |before|) && d < |before|
    requires forall p :: 0 <= p < |order| ==> order[p] < |src|
    ensures var v := LandAll(src, dst, order, before, from)[d];
            PutOrNot(src, dst, order, from, d, before[d], v)
  {
    if order != [] {
      var rest, i := order[..|order| - 1], order[|order| - 1];
      LandAllAt(src, dst, rest, before, from, d);
      ListedLast(dst, order, d);
      var v, w := LandAll(src, dst, order, before, from)[d], LandAll(src, dst, rest, before, from)[d];
      if dst[i] == d {
        assert Puts(src, dst, from, i, d, v);
      } else {
        assert v == w;
      }
    }
  }

  /** All indices below `m`, with `i` moved to the end. */
  function EndingWith(m: nat, i: nat): (order: seq<nat>)
    requires i < m
    ensures |order| == m && order[m - 1] == i && forall p :: 0 <= p < m ==> order[p] < m
  {
    seq(m, p requires 0 <= p < m => if p == m - 1 then i else if p < i then p else p + 1)
  }

  lemma EndingPermutes(m: nat, i: nat)
    requires i < m
    ensures Permutes(EndingWith(m, i), m)
  {
  }

  /** Every index occurs in a permutation. */
  lemma {:induction false} PermutationHits(order: seq<nat>, m: nat, i: nat)
    requires Permutes(order, m) && i < m
    ensures i in order
  {
    if i !in order {
      var values := set p | 0 <= p < |order| :: order[p];
      DistinctValues(order, |order|);
      BelowSize(m);
      assert values + {i} <= All(m);
      Larger(values + {i}, All(m));
    }
  }

  lemma {:induction false} DistinctValues(order: seq<nat>, k: nat)
    requires k <= |order| && forall p, q :: 0 <= p < q < |order| ==> order[p] != order[q]
    ensures |set p | 0 <= p < k :: order[p]| == k
    decreases k
  {
    if k > 0 {
      DistinctValues(order, k - 1);
      assert (set p | 0 <= p < k :: order[p]) == (set p | 0 <= p < k - 1 :: order[p]) + {order[k - 1]};
    }
  }

  lemma {:induction false} BelowSize(m: nat)
    ensures |All(m)| == m
  {
    if m > 0 {
      BelowSize(m - 1);
      assert All(m) == All(m - 1) + {m - 1};
    }
  }

  lemma {:induction false} Larger(a: set<nat>, b: set<nat>)
    requires a <= b
    ensures |a| <= |b|
    decreases a
  {
    if x :| x in a {
      Larger(a - {x}, b - {x});
    }
  }

  /** All landing orders leave the reference's slice if and only if equal targets have equal contents. */
  lemma OrdersExactly(src: seq<nat>, dst: seq<nat>, before: seq<int>, from: seq<int>)
    requires |src| == |dst| && InBounds(src, dst, |src|, |from|, |before|)
    ensures Agree(src, dst, from) <==>
            forall order :: Permutes(order, |src|) ==>
              LandAll(src, dst, order, before, from) == Copied(src, dst, |src|, before, from)
  {
    var copied := Copied(src, dst, |src|, before, from);
    if Agree(src, dst, from) {
      forall order | Permutes(order, |src|) ensures LandAll(src, dst, order, before, from) == copied {
        OrderCopies(src, dst, order, before, from);
      }
    } else {
      var i, j :| 0 <= i < j < |dst| && dst[i] == dst[j] && from[src[i]] != from[src[j]];
      EndingPermutes(|src|, i);
      EndingPermutes(|src|, j);
      LastDecides(src, dst, EndingWith(|src|, i), before, from);
      LastDecides(src, dst, EndingWith(|src|, j), before, from);
    }
  }

  /** Whatever landed before, the last put of an order decides its target. */
  lemma LastDecides(src: seq<nat>, dst: seq<nat>, order: seq<nat>, before: seq<int>, from: seq<int>)
    requires |src| == |dst| && InBounds(src, dst, |src|, |from|, |before|) && order != []
    requires forall p :: 0 <= p < |order| ==> order[p] < |src|
    ensures var i := order[|order| - 1];
            src[i] < |from| && dst[i] < |before| && LandAll(src, dst, order, before, from)[dst[i]] == from[src[i]]
  {
    var i, rest := order[|order| - 1], order[..|order| - 1];
    assert src[i] < |from| && dst[i] < |before|;
    hide InBounds;
    var lane := LandAll(src, dst, rest, before, from);
    assert LandAll(src, dst, order, before, from) == lane[dst[i] := from[src[i]]];
  }

  lemma OrderCopies(src: seq<nat>, dst: seq<nat>, order: seq<nat>, before: seq<int>, from: seq<int>)
    requires |src| == |dst| && InBounds(src, dst, |src|, |from|, |before|) && Agree(src, dst, from)
    requires Permutes(order, |src|)
    ensures LandAll(src, dst, order, before, from) == Copied(src, dst, |src|, before, from)
  {
    hide Copied, LandAll, Agree, PutOrKept, InBounds;
    var lane, copied := LandAll(src, dst, order, before, from), Copied(src, dst, |src|, before, from);
    assert |lane| == |before| == |copied|;
    forall d: nat | d < |before| ensures lane[d] == copied[d] {
      OrderPuts(src, dst, order, before, from, d);
      CopiedAt(src, dst, |src|, before, from, d);
      OneValue(src, dst, from, d, before[d], lane[d], copied[d]);
    }
  }

  lemma OrderPuts(src: seq<nat>, dst: seq<nat>, order: seq<nat>, before: seq<int>, from: seq<int>, d: nat)
    requires |src| == |dst| && InBounds(src, dst, |src|, |from|, |before|) && Permutes(order, |src|) && d < |before|
    ensures PutOrKept(src, dst, from, |dst|, d, before[d], LandAll(src, dst, order, before, from)[d])
  {
    hide LandAll, InBounds;
    var v := LandAll(src, dst, order, before, from)[d];
    LandAllAt(src, dst, order, before, from, d);
    assert PutOrNot(src, dst, order, from, d, before[d], v);
    if i: nat :| i < |dst| && dst[i] == d {
      PermutationHits(order, |src|, i);
      var p :| 0 <= p < |order| && order[p] == i;
      assert Listed(dst, order, d);
    }
  }

  // ---- whole runs ----

  lemma {:induction false} RunsConcat(cf: Config, s: State, a: seq<Action>, m: State, b: seq<Action>, t: State)
    requires Runs(cf, s, a, m) && Runs(cf, m, b, t)
    ensures Runs(cf, s, a + b, t)
    decreases |a|
  {
    hide Next, Enabled, Shape;
    if a == [] {
      assert a + b == b;
    } else {
      RunsConcat(cf, Next(cf, s, a[0]), a[1..], m, b, t);
      assert (a + b)[1..] == a[1..] + b;
    }
  }

  lemma OneStep(cf: Config, s: State, a: Action, rest: seq<Action>, t: State)
    requires Shape(cf, s) && Enabled(cf, s, a) && Runs(cf, Next(cf, s, a), rest, t)
    ensures Runs(cf, s, [a] + rest, t)
  {
    assert ([a] + rest)[1..] == rest;
  }

  /** Core `k` of rank `r` has not passed its wait in round `c`. */
  ghost predicate Before(cf: Config, s: State, c: nat, r: nat, k: nat)
    requires Shape(cf, s) && r < cf.n && k < cf.cores
  {
    s.round[r] < c || (s.round[r] == c && s.cores[r][k].pc == Start)
  }

  /** The core is copying in round `c`, with `next` puts issued and `pending` of them in flight. */
  ghost predicate At(cf: Config, s: State, c: nat, r: nat, k: nat, next: nat, pending: set<nat>)
    requires Shape(cf, s) && r < cf.n && k < cf.cores
  {
    s.round[r] == c && s.cores[r][k].pc == Copy(next, pending)
  }

  lemma StepFromBefore(cf: Config, s: State, a: Action, c: nat, r: nat, k: nat)
    requires Valid(cf) && Inv(cf, s) && Enabled(cf, s, a) && r < cf.n && k < cf.cores && Sends(cf, c, r)
    requires Before(cf, s, c, r, k)
    ensures Shape(cf, Next(cf, s, a)) && (Before(cf, Next(cf, s, a), c, r, k) || At(cf, Next(cf, s, a), c, r, k, 0, {}))
  {
    hide CanAct, CanLand, FlagsInv, HandsInv, LanesInv, HistsInv, Valid, Next;
    match a {
      case Act(o, j) => ActEffect(cf, s, o, j);
      case Land(o, j, i) =>
        LandEffect(cf, s, o, j, i);
        assert s.cores[o][j].pc.Copy? by { CopyWhenLanding(cf, s, o, j, i); }
      case Advance(o) => AdvanceEffect(cf, s, o);
    }
  }

  lemma CopyWhenLanding(cf: Config, s: State, o: nat, j: nat, i: nat)
    requires Shape(cf, s) && CanLand(cf, s, o, j, i)
    ensures o < cf.n && j < cf.cores && s.cores[o][j].pc.Copy?
  {
  }

  lemma BeforeUnfinished(cf: Config, s: State, c: nat, r: nat, k: nat)
    requires Shape(cf, s) && r < cf.n && k < cf.cores && Sends(cf, c, r) && Before(cf, s, c, r, k)
    ensures !Finished(cf, s)
  {
  }

  /** A sending core can be driven to the start of its copy. */
  lemma {:induction false} ReachCopy(cf: Config, s: State, c: nat, r: nat, k: nat)
    returns (trace: seq<Action>, t: State)
    requires Valid(cf) && Orderly(cf) && Inv(cf, s) && r < cf.n && k < cf.cores && Sends(cf, c, r)
    requires Before(cf, s, c, r, k) || At(cf, s, c, r, k, 0, {})
    ensures Runs(cf, s, trace, t) && Inv(cf, t) && At(cf, t, c, r, k, 0, {})
    decreases Work(cf, s)
  {
    hide CoresInv, FlagsInv, HandsInv, LanesInv, HistsInv, Valid, Orderly, Work, Next, Finished, Enabled, Sends,
         Before, At;
    if At(cf, s, c, r, k, 0, {}) { return [], s; }
    BeforeUnfinished(cf, s, c, r, k);
    var a := Progress(cf, s);
    NextInv(cf, s, a);
    NextWork(cf, s, a);
    WorkNonNegative(cf, Next(cf, s, a));
    StepFromBefore(cf, s, a, c, r, k);
    var rest;
    rest, t := ReachCopy(cf, Next(cf, s, a), c, r, k);
    OneStep(cf, s, a, rest, t);
    trace := [a] + rest;
  }

  lemma IssueStep(cf: Config, s: State, c: nat, r: nat, k: nat, next: nat, pending: set<nat>)
    requires Valid(cf) && Inv(cf, s) && r < cf.n && k < cf.cores && Sends(cf, c, r) && At(cf, s, c, r, k, next, pending)
    requires next < |Sources(cf, c, r)|
    ensures Enabled(cf, s, Act(r, k)) && Inv(cf, Next(cf, s, Act(r, k)))
    ensures At(cf, Next(cf, s, Act(r, k)), c, r, k, next + 1, pending + {next})
  {
    hide CoresInv, FlagsInv, HandsInv, LanesInv, HistsInv, Valid, Next;
    Roles(cf, c, r);
    ActEffect(cf, s, r, k);
    NextInv(cf, s, Act(r, k));
  }

  /** The core issues the rest of its puts without any of them landing. */
  lemma {:induction false} IssueAll(cf: Config, s: State, c: nat, r: nat, k: nat, next: nat)
    returns (trace: seq<Action>, t: State)
    requires Valid(cf) && Inv(cf, s) && r < cf.n && k < cf.cores && Sends(cf, c, r)
             && At(cf, s, c, r, k, next, All(next))
    requires next <= |Sources(cf, c, r)|
    ensures var m := |Sources(cf, c, r)|; Runs(cf, s, trace, t) && Inv(cf, t) && At(cf, t, c, r, k, m, All(m))
    decreases |Sources(cf, c, r)| - next
  {
    hide CoresInv, FlagsInv, HandsInv, LanesInv, HistsInv, Valid, Next, Enabled, Sends, At, Sources;
    if next == |Sources(cf, c, r)| { return [], s; }
    assert All(next) + {next} == All(next + 1);
    IssueStep(cf, s, c, r, k, next, All(next));
    var rest;
    rest, t := IssueAll(cf, Next(cf, s, Act(r, k)), c, r, k, next + 1);
    OneStep(cf, s, Act(r, k), rest, t);
    trace := [Act(r, k)] + rest;
  }

  lemma LandStep(cf: Config, s: State, c: nat, r: nat, k: nat, next: nat, pending: set<nat>, i: nat)
    requires Valid(cf) && Inv(cf, s) && r < cf.n && k < cf.cores && Sends(cf, c, r) && At(cf, s, c, r, k, next, pending)
    requires i in pending
    ensures var s' := Next(cf, s, Land(r, k, i));
            && CanLand(cf, s, r, k, i) && Inv(cf, s') && At(cf, s', c, r, k, next, pending - {i})
            && Peer(cf, c, r) < cf.n && s'.round == s.round
            && |s.cores[r][k].hist| == c + 1
            && i < |Sources(cf, c, r)| == |Targets(cf, c, r)| && Sources(cf, c, r)[i] < |s.cores[r][k].hist[c]|
            && Targets(cf, c, r)[i] < |s'.cores[Peer(cf, c, r)][k].lane|
            && s'.cores[Peer(cf, c, r)][k].lane[Targets(cf, c, r)[i]] == s.cores[r][k].hist[c][Sources(cf, c, r)[i]]
            && s'.cores[r][k].hist == s.cores[r][k].hist
  {
    hide FlagsInv, HandsInv, HistsInv, Valid, Next;
    Roles(cf, c, r);
    InvCore(cf, s, r, k);
    NextInv(cf, s, Land(r, k, i));
    LandEffect(cf, s, r, k, i);
    hide CoresInv;
    var q := Peer(cf, c, r);
    assert LaneOk(cf, r, c, s.cores[r][k], s.round[q], s.cores[q][k]);
  }

  /** All puts but number `i` land, and then `i`: its target ends with its source's contents. */
  lemma {:induction false} LandLast(cf: Config, s: State, c: nat, r: nat, k: nat, next: nat, pending: set<nat>, i: nat)
    returns (trace: seq<Action>, t: State)
    requires Valid(cf) && Inv(cf, s) && r < cf.n && k < cf.cores && Sends(cf, c, r) && At(cf, s, c, r, k, next, pending)
    requires i in pending && next == |Sources(cf, c, r)|
    ensures Runs(cf, s, trace, t) && Inv(cf, t) && At(cf, t, c, r, k, next, {}) && Settled(cf, t, c, r, k, i)
    decreases |pending|
  {
    hide CoresInv, FlagsInv, HandsInv, LanesInv, HistsInv, Valid, Next, CanLand, Sends, Sources, Targets, Peer;
    var j := i;
    if h :| h in pending && h != i { j := h; }
    var a := Land(r, k, j);
    LandStep(cf, s, c, r, k, next, pending, j);
    var s' := Next(cf, s, a);
    if j == i {
      assert pending - {i} == {};
      LandedLast(cf, s, s', c, r, k, next, i);
      OneStep(cf, s, a, [], s');
      return [a] + [], s';
    }
    assert |pending - {j}| < |pending|;
    var rest;
    rest, t := LandLast(cf, s', c, r, k, next, pending - {j}, i);
    OneStep(cf, s, a, rest, t);
    trace := [a] + rest;
  }

  /**
   The outcome of put number `i` of round `c` is fixed: it is in the receiver's history, or it
   stands in the receiver's slice and nothing of the sender's is left to land.
   */
  ghost predicate Settled(cf: Config, s: State, c: nat, r: nat, k: nat, i: nat)
    requires Shape(cf, s) && r < cf.n && k < cf.cores
  {
    var q := Peer(cf, c, r);
    && q < cf.n && i < |Sources(cf, c, r)| && i < |Targets(cf, c, r)| && c < |s.cores[r][k].hist|
    && Sources(cf, c, r)[i] < |s.cores[r][k].hist[c]|
    && var v, d := s.cores[r][k].hist[c][Sources(cf, c, r)[i]], Targets(cf, c, r)[i];
       if s.round[q] > c then
         c + 1 < |s.cores[q][k].hist| && d < |s.cores[q][k].hist[c + 1]| && s.cores[q][k].hist[c + 1][d] == v
       else
         && s.round[q] == c && d < |s.cores[q][k].lane| && s.cores[q][k].lane[d] == v
         && (s.round[r] > c || (s.round[r] == c && Quiet(s.cores[r][k].pc, |Sources(cf, c, r)|)))
  }

  /** Of `m` puts none is still to issue or to land. */
  predicate Quiet(pc: Pc, m: nat)
  {
    pc == Done || (pc.Copy? && pc.pending == {} && pc.next >= m)
  }

  lemma LandedLast(cf: Config, s: State, s': State, c: nat, r: nat, k: nat, next: nat, i: nat)
    requires Valid(cf) && Inv(cf, s) && Inv(cf, s') && r < cf.n && k < cf.cores && Sends(cf, c, r)
    requires CanLand(cf, s, r, k, i) && s.round[r] == c && At(cf, s', c, r, k, next, {}) && s'.round == s.round
    requires var q := Peer(cf, c, r);
             && q < cf.n && |s.cores[r][k].hist| == c + 1 && next == |Sources(cf, c, r)|
             && i < |Sources(cf, c, r)| == |Targets(cf, c, r)| && Sources(cf, c, r)[i] < |s.cores[r][k].hist[c]|
             && Targets(cf, c, r)[i] < |s'.cores[q][k].lane|
             && s'.cores[q][k].lane[Targets(cf, c, r)[i]] == s.cores[r][k].hist[c][Sources(cf, c, r)[i]]
             && s'.cores[r][k].hist == s.cores[r][k].hist
    ensures Settled(cf, s', c, r, k, i)
  {
    hide CoresInv, FlagsInv, HandsInv, LanesInv, HistsInv, Valid, Sources, Targets;
    LandWindow(cf, s, r, k, i);
  }

  lemma SettledStep(cf: Config, s: State, a: Action, c: nat, r: nat, k: nat, i: nat)
    requires Valid(cf) && Inv(cf, s) && Enabled(cf, s, a) && r < cf.n && k < cf.cores && Sends(cf, c, r)
    requires Settled(cf, s, c, r, k, i)
    ensures Inv(cf, Next(cf, s, a)) && Settled(cf, Next(cf, s, a), c, r, k, i)
  {
    hide FlagsInv, HandsInv, LanesInv, HistsInv, Valid, Next, CanAct, CanAdvance, Sources, Targets, Receives;
    var q := Peer(cf, c, r);
    Roles(cf, c, r);
    InvCore(cf, s, r, k);
    InvCore(cf, s, q, k);
    NextInv(cf, s, a);
    hide CoresInv;
    match a {
      case Act(o, j) => ActSettled(cf, s, o, j, c, r, k, i);
      case Land(o, j, h) =>
        LandEffect(cf, s, o, j, h);
        LandWindow(cf, s, o, j, h);
        Roles(cf, s.round[o], o);
      case Advance(o) => AdvanceEffect(cf, s, o);
    }
  }

  lemma ActSettled(cf: Config, s: State, o: nat, j: nat, c: nat, r: nat, k: nat, i: nat)
    requires Valid(cf) && Inv(cf, s) && CanAct(cf, s, o, j) && r < cf.n && k < cf.cores && Sends(cf, c, r)
    requires Settled(cf, s, c, r, k, i)
    ensures Shape(cf, Next(cf, s, Act(o, j))) && Settled(cf, Next(cf, s, Act(o, j)), c, r, k, i)
  {
    hide FlagsInv, HandsInv, LanesInv, HistsInv, CoresInv, Valid, Next, Targets;
    ActEffect(cf, s, o, j);
  }

  lemma {:induction false} RunsSettled(cf: Config, s: State, trace: seq<Action>, t: State, c: nat, r: nat, k: nat,
                                       i: nat)
    requires Valid(cf) && Inv(cf, s) && Runs(cf, s, trace, t) && r < cf.n && k < cf.cores && Sends(cf, c, r)
    requires Settled(cf, s, c, r, k, i)
    ensures Inv(cf, t) && Settled(cf, t, c, r, k, i)
    decreases |trace|
  {
    hide CoresInv, FlagsInv, HandsInv, LanesInv, HistsInv, Valid, Next, Settled;
    if trace != [] {
      SettledStep(cf, s, trace[0], c, r, k, i);
      RunsSettled(cf, Next(cf, s, trace[0]), trace[1..], t, c, r, k, i);
    }
  }

  /** Some finished run lets put number `i` of a sender's core land last. */
  lemma LastPutRun(cf: Config, s: State, c: nat, r: nat, k: nat, i: nat) returns (trace: seq<Action>, t: State)
    requires Valid(cf) && Orderly(cf) && Init(cf, s) && r < cf.n && k < cf.cores && Sends(cf, c, r)
    requires i < |Sources(cf, c, r)|
    ensures Runs(cf, s, trace, t) && Inv(cf, t) && Finished(cf, t) && Settled(cf, t, c, r, k, i)
  {
    hide CoresInv, FlagsInv, HandsInv, LanesInv, HistsInv, Valid, Orderly, Sends, Sources, Settled, Finished, Runs;
    InitInv(cf, s);
    assert i in All(|Sources(cf, c, r)|);
    var t1, s1 := ReachCopy(cf, s, c, r, k);
    var t2, s2 := IssueAll(cf, s1, c, r, k, 0);
    var t3, s3 := LandLast(cf, s2, c, r, k, |Sources(cf, c, r)|, All(|Sources(cf, c, r)|), i);
    var t4;
    t4, t := Completes(cf, s3);
    RunsSettled(cf, s3, t4, t, c, r, k, i);
    RunsConcat(cf, s, t1, s1, t2, s2);
    RunsConcat(cf, s, t1 + t2, s2, t3, s3);
    RunsConcat(cf, s, t1 + t2 + t3, s3, t4, t);
    trace := t1 + t2 + t3 + t4;
  }

  /** All finished runs follow the reference in every round. */
  ghost predicate AlwaysReference(cf: Config, s: State)
    requires Valid(cf) && Shape(cf, s)
  {
    forall trace, t :: Runs(cf, s, trace, t) && Shape(cf, t) && Finished(cf, t) ==> HistoriesAre(cf, t, Lanes(cf, s))
  }

  /** If all runs follow the reference, two blocks with one target have the same contents in it. */
  lemma SameContents(cf: Config, s: State, c: nat, r: nat, k: nat, i: nat, j: nat)
    requires Valid(cf) && Orderly(cf) && Shape(cf, s) && Init(cf, s) && AlwaysReference(cf, s)
    requires c < |cf.rounds| && r < cf.n && k < cf.cores && Sends(cf, c, r)
    requires i < |Sources(cf, c, r)| && j < |Sources(cf, c, r)|
    requires i < |Targets(cf, c, r)| && j < |Targets(cf, c, r)| && Targets(cf, c, r)[i] == Targets(cf, c, r)[j]
    ensures var from, src := Reference(cf, Lanes(cf, s), c)[r][k], Sources(cf, c, r);
            src[i] < |from| && src[j] < |from| && from[src[i]] == from[src[j]]
  {
    hide Init, Orderly, Valid, Inv, Reference, Runs, AlwaysReference;
    PutInReference(cf, s, c, r, k, i);
    PutInReference(cf, s, c, r, k, j);
  }

  lemma PutInReference(cf: Config, s: State, c: nat, r: nat, k: nat, i: nat)
    requires Valid(cf) && Orderly(cf) && Shape(cf, s) && Init(cf, s) && AlwaysReference(cf, s)
    requires c < |cf.rounds| && r < cf.n && k < cf.cores && Sends(cf, c, r)
    requires i < |Sources(cf, c, r)| && i < |Targets(cf, c, r)|
    ensures Peer(cf, c, r) < cf.n
    ensures var from, src, d := Reference(cf, Lanes(cf, s), c)[r][k], Sources(cf, c, r), Targets(cf, c, r)[i];
            var to := Reference(cf, Lanes(cf, s), c + 1)[Peer(cf, c, r)][k];
            src[i] < |from| && d < |to| && to[d] == from[src[i]]
  {
    hide Orderly, CoresInv, FlagsInv, HandsInv, LanesInv, HistsInv, Reference, Sends, Sources, Targets;
    Roles(cf, c, r);
    hide Valid, Peer;
    var trace, t := LastPutRun(cf, s, c, r, k, i);
    var q, x := Peer(cf, c, r), Lanes(cf, s);
    assert HistoriesAre(cf, t, x);
    assert t.cores[r][k].hist[c] == Reference(cf, x, c)[r][k];
    assert t.cores[q][k].hist[c + 1] == Reference(cf, x, c + 1)[q][k];
  }

  /**
   The exact condition: every finished run follows the reference, in every round, if and only if
   in the reference the blocks a sender lists for one target always have the same contents.
   */
  lemma ReferenceExactly(cf: Config, s: State)
    requires Valid(cf) && Orderly(cf) && Shape(cf, s) && Init(cf, s)
    ensures AlwaysReference(cf, s) <==> Agrees(cf, Lanes(cf, s))
  {
    hide Init, Orderly, Valid, Inv, Runs, HistoriesAre, Reference;
    var x := Lanes(cf, s);
    if Agrees(cf, x) {
      forall trace, t | Runs(cf, s, trace, t) && Shape(cf, t) && Finished(cf, t) ensures HistoriesAre(cf, t, x) {
        ShuffleCorrect(cf, s, trace, t);
      }
    }
    if AlwaysReference(cf, s) {
      forall c: nat, r: nat, k: nat | c < |cf.rounds| && r < cf.n && k < cf.cores && Sends(cf, c, r)
        ensures Agree(Sources(cf, c, r), Targets(cf, c, r), Reference(cf, x, c)[r][k])
      {
        RoundAgrees(cf, s, c, r, k);
      }
    }
  }

  lemma RoundAgrees(cf: Config, s: State, c: nat, r: nat, k: nat)
    requires Valid(cf) && Orderly(cf) && Shape(cf, s) && Init(cf, s) && AlwaysReference(cf, s)
    requires c < |cf.rounds| && r < cf.n && k < cf.cores && Sends(cf, c, r)
    ensures Agree(Sources(cf, c, r), Targets(cf, c, r), Reference(cf, Lanes(cf, s), c)[r][k])
  {
    hide Init, Orderly, Valid, Reference, AlwaysReference, Sends;
    var src, dst, from := Sources(cf, c, r), Targets(cf, c, r), Reference(cf, Lanes(cf, s), c)[r][k];
    forall i, j | 0 <= i < j < |dst| && j < |src| && dst[i] == dst[j] && src[i] < |from| && src[j] < |from|
      ensures from[src[i]] == from[src[j]]
    {
      SameContents(cf, s, c, r, k, i, j);
    }
  }

  // ---- two blocks for one target ----

  /** Rank 0 sends its blocks 0 and 1, both to block 0 of rank 1. */
  function TwoOnOne(): Config
  {
    Config(2, 1, 2, [Table([1, 0], [true, false], [[0, 1], []], [[0, 0], []])])
  }

  lemma TwoOnOneDisagrees(x: Caches)
    requires CachesOk(TwoOnOne(), x) && x[0][0] == [5, 7]
    ensures Valid(TwoOnOne()) && Orderly(TwoOnOne()) && !Agrees(TwoOnOne(), x)
  {
    var cf := TwoOnOne();
    FixedPairingOrderly(cf);
    assert Reference(cf, x, 0)[0][0] == [5, 7];
    assert Sends(cf, 0, 0) && Sources(cf, 0, 0) == [0, 1] && Targets(cf, 0, 0) == [0, 0];
    hide Reference, Sends, Sources, Targets, Orderly;
    assert !Agree([0, 1], [0, 0], [5, 7]) by { assert [5, 7][[0, 1][0]] != [5, 7][[0, 1][1]]; }
  }

  /** With a single round, the final caches alone decide whether a finished run followed the reference. */
  lemma OneRound(cf: Config, s: State, trace: seq<Action>, t: State)
    requires Valid(cf) && |cf.rounds| == 1 && Shape(cf, s) && Init(cf, s) && Runs(cf, s, trace, t) && Shape(cf, t)
    requires Finished(cf, t) && Lanes(cf, t) == Reference(cf, Lanes(cf, s), 1)
    ensures HistoriesAre(cf, t, Lanes(cf, s))
  {
    hide Init, Valid, Inv, Runs, Finished;
    var x := Lanes(cf, s);
    FirstEntries(cf, s, trace, t);
    forall c: nat, r: nat, k: nat | c <= |cf.rounds| && r < cf.n && k < cf.cores
      ensures c < |t.cores[r][k].hist| && t.cores[r][k].hist[c] == Reference(cf, x, c)[r][k]
    {
      FinishedLane(cf, t, r, k);
      assert Lanes(cf, t)[r][k] == t.cores[r][k].lane;
    }
  }

  /** Some finished run ends with other caches than the reference, if the two blocks differ. */
  lemma TwoOnOneDiffers(s: State)
    requires Shape(TwoOnOne(), s) && Init(TwoOnOne(), s) && s.cores[0][0].lane == [5, 7]
    ensures var cf := TwoOnOne();
            Valid(cf) && exists trace, t :: Runs(cf, s, trace, t) && Shape(cf, t) && Finished(cf, t)
                                            && Lanes(cf, t) != Reference(cf, Lanes(cf, s), 1)
  {
    var cf := TwoOnOne();
    assert |cf.rounds| == 1 && Lanes(cf, s)[0][0] == s.cores[0][0].lane;
    TwoOnOneDisagrees(Lanes(cf, s));
    hide Init, Runs, Valid, Orderly, Agrees, HistoriesAre, Reference, TwoOnOne, Lanes, Finished;
    ReferenceExactly(cf, s);
    var trace, t :| Runs(cf, s, trace, t) && Shape(cf, t) && Finished(cf, t) && !HistoriesAre(cf, t, Lanes(cf, s));
    if Lanes(cf, t) == Reference(cf, Lanes(cf, s), 1) { OneRound(cf, s, trace, t); }
  }
}
