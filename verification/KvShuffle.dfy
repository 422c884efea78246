/**
 The KV-shuffle handshake. In every round a table pairs the ranks and says who sends. Core `k` of
 a sender waits for the flag of core `k` of its receiver, copies its slice of every listed block
 into the receiver's cache and sets a flag there; the receiver's core signals first and waits
 afterwards. Both waits compare with the round number for equality, and there is no barrier:
 a rank starts its next round as soon as its own cores are done.
 */
module KvShuffle {
  /** `src[r]` and `dst[r]` are the block ids rank `r` would copy from and to. */
  datatype Table = Table(pair: seq<nat>, send: seq<bool>, src: seq<seq<nat>>, dst: seq<seq<nat>>)

  datatype Config = Config(n: nat, cores: nat, blocks: nat, rounds: seq<Table>)

  /** The pairing is an involution with at most one sender per pair. */
  ghost predicate ValidTable(cf: Config, t: Table)
  {
    && |t.pair| == |t.send| == |t.src| == |t.dst| == cf.n
    && (forall r :: 0 <= r < cf.n ==> t.pair[r] < cf.n && t.pair[t.pair[r]] == r)
    && (forall r :: 0 <= r < cf.n && t.send[r] ==> !t.send[t.pair[r]])
    && (forall r :: 0 <= r < cf.n ==> |t.src[r]| == |t.dst[r]|)
    && (forall r, i :: 0 <= r < cf.n && 0 <= i < |t.src[r]| ==> t.src[r][i] < cf.blocks)
    && (forall r, i :: 0 <= r < cf.n && 0 <= i < |t.dst[r]| ==> t.dst[r][i] < cf.blocks)
  }

  ghost predicate Valid(cf: Config)
  {
    forall c :: 0 <= c < |cf.rounds| ==> ValidTable(cf, cf.rounds[c])
  }

  predicate Sends(cf: Config, c: nat, r: nat)
  {
    c < |cf.rounds| && r < |cf.rounds[c].send| && cf.rounds[c].send[r]
  }

  function Peer(cf: Config, c: nat, r: nat): nat
  {
    if c < |cf.rounds| && r < |cf.rounds[c].pair| then cf.rounds[c].pair[r] else 0
  }

  predicate Receives(cf: Config, c: nat, r: nat)
  {
    c < |cf.rounds| && !Sends(cf, c, r) && Sends(cf, c, Peer(cf, c, r))
  }

  /** Ranks `p` and `o` exchange data in round `c`. */
  predicate Meets(cf: Config, c: nat, p: nat, o: nat)
  {
    c < |cf.rounds| && Peer(cf, c, p) == o && (Sends(cf, c, p) || Sends(cf, c, o))
  }

  function Sources(cf: Config, c: nat, r: nat): seq<nat>
  {
    if c < |cf.rounds| && r < |cf.rounds[c].src| then cf.rounds[c].src[r] else []
  }

  function Targets(cf: Config, c: nat, r: nat): seq<nat>
  {
    if c < |cf.rounds| && r < |cf.rounds[c].dst| then cf.rounds[c].dst[r] else []
  }

  lemma Roles(cf: Config, c: nat, r: nat)
    requires Valid(cf) && c < |cf.rounds| && r < cf.n
    ensures Peer(cf, c, r) < cf.n && Peer(cf, c, Peer(cf, c, r)) == r
    ensures Sends(cf, c, r) ==> Receives(cf, c, Peer(cf, c, r)) && Peer(cf, c, r) != r
    ensures Receives(cf, c, r) ==> Sends(cf, c, Peer(cf, c, r)) && Peer(cf, c, r) != r
    ensures |Sources(cf, c, r)| == |Targets(cf, c, r)|
    ensures forall i :: 0 <= i < |Sources(cf, c, r)| ==>
            Sources(cf, c, r)[i] < cf.blocks && Targets(cf, c, r)[i] < cf.blocks
    ensures forall o :: Meets(cf, c, r, o) <==> o == Peer(cf, c, r) && (Sends(cf, c, r) || Receives(cf, c, r))
  {
    assert ValidTable(cf, cf.rounds[c]);
  }

  // ---- state ----

  datatype Pc = Start | Copy(next: nat, pending: set<nat>) | Wait | Done

  /**
   Core `k` of a rank: where it is, its flags (one per rank), its slice of every cache block, and
   the history of that slice at the start of every round so far; the history guides no step.
   */
  datatype Core = Core(pc: Pc, flag: seq<int>, lane: seq<int>, hist: seq<seq<int>>)

  datatype State = State(round: seq<nat>, cores: seq<seq<Core>>)

  datatype Action = Act(r: nat, k: nat) | Land(r: nat, k: nat, i: nat) | Advance(r: nat)

  predicate Shape(cf: Config, s: State)
  {
    && |s.round| == |s.cores| == cf.n
    && (forall r :: 0 <= r < cf.n ==> |s.cores[r]| == cf.cores)
    && (forall r, k :: 0 <= r < cf.n && 0 <= k < cf.cores ==>
        |s.cores[r][k].flag| == cf.n && |s.cores[r][k].lane| == cf.blocks)
  }

  /** The step core `k` of rank `r` takes on its own, by role and position. */
  predicate CanAct(cf: Config, s: State, r: nat, k: nat)
    requires Shape(cf, s)
  {
    && r < cf.n && k < cf.cores && s.round[r] < |cf.rounds| && Peer(cf, s.round[r], r) < cf.n
    && var c, core, q := s.round[r], s.cores[r][k], Peer(cf, s.round[r], r);
       if Sends(cf, c, r) then
         match core.pc
         case Start => core.flag[q] == c + 1
         case Copy(next, pending) => next < |Sources(cf, c, r)| || pending == {}
         case _ => false
       else if Receives(cf, c, r) then
         match core.pc
         case Start => true
         case Wait => core.flag[q] == c + 1
         case _ => false
       else core.pc == Start
  }

  predicate CanLand(cf: Config, s: State, r: nat, k: nat, i: nat)
    requires Shape(cf, s)
  {
    && r < cf.n && k < cf.cores && s.round[r] < |cf.rounds| && Sends(cf, s.round[r], r)
    && s.cores[r][k].pc.Copy? && i in s.cores[r][k].pc.pending && Peer(cf, s.round[r], r) < cf.n
    && i < |Sources(cf, s.round[r], r)| && i < |Targets(cf, s.round[r], r)|
    && Sources(cf, s.round[r], r)[i] < cf.blocks && Targets(cf, s.round[r], r)[i] < cf.blocks
  }

  predicate CanAdvance(cf: Config, s: State, r: nat)
    requires Shape(cf, s)
  {
    r < cf.n && s.round[r] < |cf.rounds| && forall k :: 0 <= k < cf.cores ==> s.cores[r][k].pc == Done
  }

  predicate Enabled(cf: Config, s: State, a: Action)
    requires Shape(cf, s)
  {
    match a
    case Act(r, k) => CanAct(cf, s, r, k)
    case Land(r, k, i) => CanLand(cf, s, r, k, i)
    case Advance(r) => CanAdvance(cf, s, r)
  }

  function WithCore(s: State, r: nat, k: nat, core: Core): State
    requires r < |s.cores| && k < |s.cores[r]|
  {
    s.(cores := s.cores[r := s.cores[r][k := core]])
  }

  function NextPc(cf: Config, c: nat, r: nat, pc: Pc): Pc
  {
    match pc
    case Start => if Sends(cf, c, r) then Copy(0, {}) else if Receives(cf, c, r) then Wait else Done
    case Copy(next, pending) => if next < |Sources(cf, c, r)| then Copy(next + 1, pending + {next}) else Done
    case _ => Done
  }

  /** The step sets the flag at the peer. */
  predicate Signals(cf: Config, c: nat, r: nat, pc: Pc)
  {
    if Sends(cf, c, r) then pc.Copy? && pc.next >= |Sources(cf, c, r)| else Receives(cf, c, r) && pc == Start
  }

  function Next(cf: Config, s: State, a: Action): State
    requires Shape(cf, s) && Enabled(cf, s, a)
  {
    match a
    case Act(r, k) =>
      var c, core, q := s.round[r], s.cores[r][k], Peer(cf, s.round[r], r);
      var s1 := WithCore(s, r, k, core.(pc := NextPc(cf, c, r, core.pc)));
      if Signals(cf, c, r, core.pc) then
        var other := s1.cores[q][k];
        WithCore(s1, q, k, other.(flag := other.flag[r := c + 1]))
      else s1
    case Land(r, k, i) =>
      var c, core, q := s.round[r], s.cores[r][k], Peer(cf, s.round[r], r);
      var s1 := WithCore(s, r, k, core.(pc := Copy(core.pc.next, core.pc.pending - {i})));
      var other := s1.cores[q][k];
      WithCore(s1, q, k, other.(lane := other.lane[Targets(cf, c, r)[i] := core.lane[Sources(cf, c, r)[i]]]))
    case Advance(r) =>
      s.(round := s.round[r := s.round[r] + 1],
         cores := s.cores[r := seq(cf.cores, k requires 0 <= k < cf.cores => Renewed(s.cores[r][k]))])
  }

  function Renewed(core: Core): Core
  {
    core.(pc := Start, hist := core.hist + [core.lane])
  }

  ghost predicate Runs(cf: Config, s: State, trace: seq<Action>, t: State)
    decreases |trace|
  {
    if trace == [] then s == t
    else Shape(cf, s) && Enabled(cf, s, trace[0]) && Runs(cf, Next(cf, s, trace[0]), trace[1..], t)
  }

  /** All flags are zero, as the constructor leaves them, and round 0 has the count 1. */
  ghost predicate Init(cf: Config, s: State)
  {
    && Shape(cf, s)
    && (forall r :: 0 <= r < cf.n ==> s.round[r] == 0)
    && (forall r, k :: 0 <= r < cf.n && 0 <= k < cf.cores ==>
          var core := s.cores[r][k];
          core.pc == Start && core.hist == [core.lane] && core.flag == seq(cf.n, _ => 0))
  }

  // ---- the invariant ----

  /** How far a core is in round `c`: 0 before its first handshake step, 2 after its last. */
  function Stage(c: nat, round: nat, pc: Pc): nat
  {
    if round > c then 2 else if round < c then 0
    else match pc case Start => 0 case Done => 2 case _ => 1
  }

  /** The last count rank `p` had signalled to rank `o` before round `c`. */
  function Last(cf: Config, p: nat, o: nat, c: nat): nat
  {
    if c == 0 then 0 else if Meets(cf, c - 1, p, o) then c else Last(cf, p, o, c - 1)
  }

  function Signalled(cf: Config, p: nat, o: nat, round: nat, pc: Pc): nat
  {
    if Meets(cf, round, p, o) && (pc == Done || pc == Wait) then round + 1 else Last(cf, p, o, round)
  }

  ghost predicate Hand(c: nat, roundS: nat, pcS: Pc, roundR: nat, pcR: Pc)
  {
    && (Stage(c, roundS, pcS) >= 1 ==> Stage(c, roundR, pcR) >= 1)
    && (Stage(c, roundR, pcR) == 2 ==> Stage(c, roundS, pcS) == 2)
  }

  /** The position fits the role, and the history has one entry per round started. */
  ghost predicate CoreOk(cf: Config, r: nat, round: nat, core: Core)
  {
    && round <= |cf.rounds| && |core.hist| == round + 1
    && (forall c :: 0 <= c <= round ==> |core.hist[c]| == cf.blocks)
    && (round == |cf.rounds| ==> core.pc == Start)
    && (core.pc == Wait ==> Receives(cf, round, r))
    && (core.pc.Copy? ==>
          && Sends(cf, round, r) && core.pc.next <= |Sources(cf, round, r)|
          && forall i :: i in core.pc.pending ==> i < core.pc.next)
  }

  /** `lane` is `before` with the blocks listed by `done` overwritten from `from`. */
  ghost predicate Mixed(src: seq<nat>, dst: seq<nat>, done: set<nat>, before: seq<int>, from: seq<int>, lane: seq<int>)
  {
    && |lane| == |before|
    && forall d: nat :: d < |lane| ==> MixedAt(src, dst, done, before, from, lane, d)
  }

  ghost predicate MixedAt(src: seq<nat>, dst: seq<nat>, done: set<nat>, before: seq<int>, from: seq<int>,
                          lane: seq<int>, d: nat)
    requires d < |lane| == |before|
  {
    || (lane[d] == before[d] && forall i :: i in done && i < |dst| ==> dst[i] != d)
    || exists i: nat :: Hits(src, dst, done, from, i, d) && lane[d] == from[src[i]]
  }

  ghost predicate Hits(src: seq<nat>, dst: seq<nat>, done: set<nat>, from: seq<int>, i: nat, d: nat)
  {
    i in done && i < |dst| == |src| && dst[i] == d && src[i] < |from|
  }

  predicate Below(i: nat, m: nat)
  {
    i < m
  }

  function All(m: nat): set<nat>
  {
    set i: nat | i < m && Below(i, m)
  }

  /** The blocks the sender's core has landed in round `c`. */
  function Landed(cf: Config, c: nat, s: nat, round: nat, pc: Pc): set<nat>
  {
    if Stage(c, round, pc) == 0 then {}
    else if Stage(c, round, pc) == 1 && pc.Copy? then All(pc.next) - pc.pending
    else All(|Sources(cf, c, s)|)
  }

  function Entry(hist: seq<seq<int>>, c: nat): seq<int>
  {
    if c < |hist| then hist[c] else []
  }

  ghost predicate LaneOk(cf: Config, r: nat, round: nat, core: Core, peerRound: nat, peer: Core)
    requires |core.hist| == round + 1
  {
    if Receives(cf, round, r) then
      var s := Peer(cf, round, r);
      Mixed(Sources(cf, round, s), Targets(cf, round, s), Landed(cf, round, s, peerRound, peer.pc),
            core.hist[round], Entry(peer.hist, round), core.lane)
    else core.lane == core.hist[round]
  }

  /** What round `c` must do to a slice: receivers get the sender's listed blocks, others keep theirs. */
  ghost predicate Shuffled(cf: Config, c: nat, r: nat, before: seq<int>, from: seq<int>, after: seq<int>)
  {
    if Receives(cf, c, r) then
      var s := Peer(cf, c, r);
      Mixed(Sources(cf, c, s), Targets(cf, c, s), All(|Sources(cf, c, s)|), before, from, after)
    else after == before
  }

  ghost predicate HistOk(cf: Config, c: nat, r: nat, hist: seq<seq<int>>, peer: seq<seq<int>>)
    requires c + 1 < |hist|
  {
    (Receives(cf, c, r) ==> c < |peer|) && Shuffled(cf, c, r, hist[c], Entry(peer, c), hist[c + 1])
  }

  ghost predicate CoresInv(cf: Config, s: State)
    requires Shape(cf, s)
  {
    forall r: nat, k: nat :: r < cf.n && k < cf.cores ==> CoreOk(cf, r, s.round[r], s.cores[r][k])
  }

  ghost predicate FlagsInv(cf: Config, s: State)
    requires Shape(cf, s)
  {
    forall o: nat, p: nat, k: nat :: o < cf.n && p < cf.n && k < cf.cores ==>
      s.cores[o][k].flag[p] == Signalled(cf, p, o, s.round[p], s.cores[p][k].pc)
  }

  ghost predicate HandsInv(cf: Config, s: State)
    requires Shape(cf, s)
  {
    forall c: nat, p: nat, k: nat :: Sends(cf, c, p) && p < cf.n && Peer(cf, c, p) < cf.n && k < cf.cores ==>
      Hand(c, s.round[p], s.cores[p][k].pc, s.round[Peer(cf, c, p)], s.cores[Peer(cf, c, p)][k].pc)
  }

  ghost predicate LanesInv(cf: Config, s: State)
    requires Shape(cf, s)
  {
    forall r: nat, k: nat :: r < cf.n && k < cf.cores && Peer(cf, s.round[r], r) < cf.n ==>
      && |s.cores[r][k].hist| == s.round[r] + 1
      && var q := Peer(cf, s.round[r], r); LaneOk(cf, r, s.round[r], s.cores[r][k], s.round[q], s.cores[q][k])
  }

  ghost predicate HistsInv(cf: Config, s: State)
    requires Shape(cf, s)
  {
    forall c: nat, r: nat, k: nat ::
      r < cf.n && k < cf.cores && c + 1 < |s.cores[r][k].hist| && Peer(cf, c, r) < cf.n ==>
      HistOk(cf, c, r, s.cores[r][k].hist, s.cores[Peer(cf, c, r)][k].hist)
  }

  ghost predicate Inv(cf: Config, s: State)
  {
    Shape(cf, s) && CoresInv(cf, s) && FlagsInv(cf, s) && HandsInv(cf, s) && LanesInv(cf, s) && HistsInv(cf, s)
  }

  lemma InitInv(cf: Config, s: State)
    requires Valid(cf) && Init(cf, s)
    ensures Inv(cf, s)
  {
    hide Valid, Meets, Sources, Targets;
    assert CoresInv(cf, s) && FlagsInv(cf, s) && HandsInv(cf, s);
    forall r: nat, k: nat | r < cf.n && k < cf.cores && Peer(cf, s.round[r], r) < cf.n
      ensures |s.cores[r][k].hist| == s.round[r] + 1
      ensures var q := Peer(cf, s.round[r], r); LaneOk(cf, r, s.round[r], s.cores[r][k], s.round[q], s.cores[q][k])
    {
      InitLane(cf, r, s.cores[r][k], s.cores[Peer(cf, 0, r)][k]);
    }
  }

  lemma InitLane(cf: Config, r: nat, core: Core, peer: Core)
    requires core.hist == [core.lane] && peer.pc == Start
    ensures LaneOk(cf, r, 0, core, 0, peer)
  {
    var s := Peer(cf, 0, r);
    MixedNone(Sources(cf, 0, s), Targets(cf, 0, s), core.lane, Entry(peer.hist, 0), core.lane);
  }

  // ---- Act ----

  /** Everything an `Act` changes: the core's own position and perhaps one flag of the peer's core. */
  lemma ActEffect(cf: Config, s: State, r: nat, k: nat)
    requires Valid(cf) && Shape(cf, s) && CanAct(cf, s, r, k)
    ensures var s', c, q, pc := Next(cf, s, Act(r, k)), s.round[r], Peer(cf, s.round[r], r), s.cores[r][k].pc;
            && Shape(cf, s') && s'.round == s.round && s'.cores[r][k].pc == NextPc(cf, c, r, pc)
            && (forall o, j :: 0 <= o < cf.n && 0 <= j < cf.cores ==>
                  && s'.cores[o][j].lane == s.cores[o][j].lane && s'.cores[o][j].hist == s.cores[o][j].hist
                  && (!(o == r && j == k) ==> s'.cores[o][j].pc == s.cores[o][j].pc)
                  && (!(o == q && j == k) ==> s'.cores[o][j].flag == s.cores[o][j].flag))
            && s'.cores[q][k].flag == if Signals(cf, c, r, pc) then s.cores[q][k].flag[r := c + 1]
               else s.cores[q][k].flag
  {
    Roles(cf, s.round[r], r);
    hide Valid, CanAct, Receives, Sends, Sources, Peer;
  }

  lemma LastBound(cf: Config, p: nat, o: nat, c: nat)
    ensures Last(cf, p, o, c) <= c
  {
  }

  /** A flag that equals the count of round `c` means its writer has signalled in round `c`. */
  lemma FlagMeans(cf: Config, p: nat, o: nat, c: nat, round: nat, core: Core)
    requires CoreOk(cf, p, round, core) && Signalled(cf, p, o, round, core.pc) == c + 1
    ensures Stage(c, round, core.pc) >= 1 && (Sends(cf, c, p) ==> Stage(c, round, core.pc) == 2)
  {
    LastBound(cf, p, o, round);
  }

  /** The step of the core itself: it moves on in its handshake only when its peer allows it. */
  lemma ActStage(cf: Config, s: State, r: nat, k: nat)
    requires Valid(cf) && Inv(cf, s) && CanAct(cf, s, r, k)
    ensures Peer(cf, s.round[r], r) < cf.n
    ensures var c, q := s.round[r], Peer(cf, s.round[r], r);
            var pc, pc', other := s.cores[r][k].pc, NextPc(cf, s.round[r], r, s.cores[r][k].pc), s.cores[q][k].pc;
            && (Sends(cf, c, r) ==> Hand(c, c, pc', s.round[q], other))
            && (Receives(cf, c, r) ==> Hand(c, s.round[q], other, c, pc'))
  {
    var c, q := s.round[r], Peer(cf, s.round[r], r);
    Roles(cf, c, r);
    assert CoreOk(cf, r, s.round[r], s.cores[r][k]);
    assert CoreOk(cf, q, s.round[q], s.cores[q][k]);
    if s.cores[r][k].flag[q] == c + 1 { FlagMeans(cf, q, r, c, s.round[q], s.cores[q][k]); }
    if Sends(cf, c, r) {
      assert Hand(c, s.round[r], s.cores[r][k].pc, s.round[q], s.cores[q][k].pc);
    } else if Receives(cf, c, r) {
      assert Hand(c, s.round[q], s.cores[q][k].pc, s.round[r], s.cores[r][k].pc);
    }
  }

  lemma ActHands(cf: Config, s: State, r: nat, k: nat)
    requires Valid(cf) && Inv(cf, s) && CanAct(cf, s, r, k)
    ensures Shape(cf, Next(cf, s, Act(r, k))) && HandsInv(cf, Next(cf, s, Act(r, k)))
  {
    hide Valid, CoresInv, FlagsInv, LanesInv, HistsInv, NextPc, CanAct, Next, Hand;
    var s' := Next(cf, s, Act(r, k));
    ActEffect(cf, s, r, k);
    ActStage(cf, s, r, k);
    forall c: nat, p: nat, j: nat | Sends(cf, c, p) && p < cf.n && Peer(cf, c, p) < cf.n && j < cf.cores
      ensures Hand(c, s'.round[p], s'.cores[p][j].pc, s'.round[Peer(cf, c, p)], s'.cores[Peer(cf, c, p)][j].pc)
    {
      Roles(cf, c, p);
      var q := Peer(cf, c, p);
      assert Hand(c, s.round[p], s.cores[p][j].pc, s.round[q], s.cores[q][j].pc);
      if (p != r && q != r) || j != k || c != s.round[r] {
        HandOther(c, s.round[p], s.cores[p][j].pc, s'.cores[p][j].pc, s.round[q], s.cores[q][j].pc, s'.cores[q][j].pc);
      }
    }
  }

  /** A core's position in one round says nothing about its handshake in another. */
  lemma HandOther(c: nat, roundS: nat, pcS: Pc, pcS': Pc, roundR: nat, pcR: Pc, pcR': Pc)
    requires Hand(c, roundS, pcS, roundR, pcR) && (pcS' == pcS || c != roundS) && (pcR' == pcR || c != roundR)
    ensures Hand(c, roundS, pcS', roundR, pcR')
  {
  }

  lemma ActFlags(cf: Config, s: State, r: nat, k: nat)
    requires Valid(cf) && Inv(cf, s) && CanAct(cf, s, r, k)
    ensures Shape(cf, Next(cf, s, Act(r, k))) && FlagsInv(cf, Next(cf, s, Act(r, k)))
  {
    hide Next, Valid, HandsInv, LanesInv, HistsInv, Meets, Last, Sources, Peer;
    var s', c, q := Next(cf, s, Act(r, k)), s.round[r], Peer(cf, s.round[r], r);
    ActEffect(cf, s, r, k);
    Roles(cf, c, r);
    assert CoreOk(cf, r, s.round[r], s.cores[r][k]);
    hide CoreOk, CoresInv;
    forall o: nat, p: nat, j: nat | o < cf.n && p < cf.n && j < cf.cores
      ensures s'.cores[o][j].flag[p] == Signalled(cf, p, o, s'.round[p], s'.cores[p][j].pc)
    {
      assert s.cores[o][j].flag[p] == Signalled(cf, p, o, s.round[p], s.cores[p][j].pc);
    }
  }

  lemma ActCores(cf: Config, s: State, r: nat, k: nat)
    requires Valid(cf) && Inv(cf, s) && CanAct(cf, s, r, k)
    ensures Shape(cf, Next(cf, s, Act(r, k))) && CoresInv(cf, Next(cf, s, Act(r, k)))
  {
    var s' := Next(cf, s, Act(r, k));
    ActEffect(cf, s, r, k);
    assert CoreOk(cf, r, s.round[r], s.cores[r][k]);
    assert CoreOk(cf, r, s'.round[r], s'.cores[r][k]);
    hide Next, Valid, HandsInv, LanesInv, HistsInv, FlagsInv;
    forall o: nat, j: nat | o < cf.n && j < cf.cores ensures CoreOk(cf, o, s'.round[o], s'.cores[o][j]) {
      assert CoreOk(cf, o, s.round[o], s.cores[o][j]);
    }
  }

  /** Neither issuing a put nor signalling lands anything. */
  lemma ActLanded(cf: Config, r: nat, round: nat, core: Core)
    requires CoreOk(cf, r, round, core) && round < |cf.rounds| && Sends(cf, round, r)
    requires core.pc == Start || (core.pc.Copy? && (core.pc.next < |Sources(cf, round, r)| || core.pc.pending == {}))
    ensures Landed(cf, round, r, round, NextPc(cf, round, r, core.pc)) == Landed(cf, round, r, round, core.pc)
  {
  }

  lemma ActLanes(cf: Config, s: State, r: nat, k: nat)
    requires Valid(cf) && Inv(cf, s) && CanAct(cf, s, r, k)
    ensures Shape(cf, Next(cf, s, Act(r, k))) && LanesInv(cf, Next(cf, s, Act(r, k)))
  {
    hide Next, Valid, HandsInv, HistsInv, FlagsInv, NextPc, Mixed;
    var s', c := Next(cf, s, Act(r, k)), s.round[r];
    ActEffect(cf, s, r, k);
    Roles(cf, c, r);
    assert CoreOk(cf, r, c, s.cores[r][k]);
    if Sends(cf, c, r) { ActLanded(cf, r, c, s.cores[r][k]); }
    hide CoreOk, CoresInv;
    forall o: nat, j: nat | o < cf.n && j < cf.cores && Peer(cf, s'.round[o], o) < cf.n
      ensures |s'.cores[o][j].hist| == s'.round[o] + 1
      ensures var p := Peer(cf, s'.round[o], o); LaneOk(cf, o, s'.round[o], s'.cores[o][j], s'.round[p], s'.cores[p][j])
    {
      var p := Peer(cf, s.round[o], o);
      assert LaneOk(cf, o, s.round[o], s.cores[o][j], s.round[p], s.cores[p][j]);
      if Receives(cf, s.round[o], o) {
        Roles(cf, s.round[o], o);
        if p == r && j == k { LandedOther(cf, s.round[o], r, s.round[r], s.cores[r][k].pc, s'.cores[r][k].pc); }
        hide Landed, CanAct, Peer, Sends, Receives;
      }
    }
  }

  /** The position in one round says nothing about what has landed in another. */
  lemma LandedOther(cf: Config, c: nat, s: nat, round: nat, pc: Pc, pc': Pc)
    ensures c != round ==> Landed(cf, c, s, round, pc) == Landed(cf, c, s, round, pc')
  {
  }

  lemma ActHists(cf: Config, s: State, r: nat, k: nat)
    requires Valid(cf) && Inv(cf, s) && CanAct(cf, s, r, k)
    ensures Shape(cf, Next(cf, s, Act(r, k))) && HistsInv(cf, Next(cf, s, Act(r, k)))
  {
    ActEffect(cf, s, r, k);
    hide Next, Valid, HandsInv, LanesInv, FlagsInv, NextPc, HistOk;
  }

  lemma ActInv(cf: Config, s: State, r: nat, k: nat)
    requires Valid(cf) && Inv(cf, s) && CanAct(cf, s, r, k)
    ensures Inv(cf, Next(cf, s, Act(r, k)))
  {
    hide Valid, CoresInv, FlagsInv, LanesInv, HistsInv, HandsInv, Next, CanAct;
    ActCores(cf, s, r, k);
    ActFlags(cf, s, r, k);
    ActHands(cf, s, r, k);
    ActLanes(cf, s, r, k);
    ActHists(cf, s, r, k);
  }

  // ---- Land ----

  lemma LandEffect(cf: Config, s: State, r: nat, k: nat, i: nat)
    requires Valid(cf) && Shape(cf, s) && CanLand(cf, s, r, k, i)
    ensures var s', c, q, pc := Next(cf, s, Land(r, k, i)), s.round[r], Peer(cf, s.round[r], r), s.cores[r][k].pc;
            && q != r && Shape(cf, s') && s'.round == s.round && s'.cores[r][k].pc == Copy(pc.next, pc.pending - {i})
            && (forall o, j :: 0 <= o < cf.n && 0 <= j < cf.cores ==>
                  && s'.cores[o][j].flag == s.cores[o][j].flag && s'.cores[o][j].hist == s.cores[o][j].hist
                  && (!(o == r && j == k) ==> s'.cores[o][j].pc == s.cores[o][j].pc)
                  && (!(o == q && j == k) ==> s'.cores[o][j].lane == s.cores[o][j].lane))
            && s'.cores[q][k].lane
               == s.cores[q][k].lane[Targets(cf, c, r)[i] := s.cores[r][k].lane[Sources(cf, c, r)[i]]]
  {
    Roles(cf, s.round[r], r);
    hide Valid, Receives, Sends, Sources, Targets, Peer;
  }

  /** A sender writes a receiver's slice only while that receiver's core is waiting in the same round. */
  lemma LandWindow(cf: Config, s: State, r: nat, k: nat, i: nat)
    requires Valid(cf) && Inv(cf, s) && CanLand(cf, s, r, k, i)
    ensures var q := Peer(cf, s.round[r], r);
            s.round[q] == s.round[r] && s.cores[q][k].pc == Wait && Receives(cf, s.round[r], q)
  {
    var c, q := s.round[r], Peer(cf, s.round[r], r);
    Roles(cf, c, r);
    hide FlagsInv, LanesInv, HistsInv, Valid;
    assert Hand(c, s.round[r], s.cores[r][k].pc, s.round[q], s.cores[q][k].pc);
    assert CoreOk(cf, q, s.round[q], s.cores[q][k]);
  }

  lemma LandMixed(src: seq<nat>, dst: seq<nat>, done: set<nat>, before: seq<int>, from: seq<int>, lane: seq<int>,
                  i: nat)
    requires Mixed(src, dst, done, before, from, lane) && i < |dst| == |src| && src[i] < |from| && dst[i] < |lane|
    ensures Mixed(src, dst, done + {i}, before, from, lane[dst[i] := from[src[i]]])
  {
    var lane' := lane[dst[i] := from[src[i]]];
    forall d: nat | d < |lane| ensures MixedAt(src, dst, done + {i}, before, from, lane', d) {
      assert MixedAt(src, dst, done, before, from, lane, d);
      if d == dst[i] {
        assert Hits(src, dst, done + {i}, from, i, d);
      } else if h: nat :| Hits(src, dst, done, from, h, d) && lane[d] == from[src[h]] {
        assert Hits(src, dst, done + {i}, from, h, d);
      }
    }
  }

  lemma LandLanded(cf: Config, r: nat, round: nat, core: Core, i: nat)
    requires CoreOk(cf, r, round, core) && core.pc.Copy? && i in core.pc.pending
    ensures Landed(cf, round, r, round, Copy(core.pc.next, core.pc.pending - {i}))
            == Landed(cf, round, r, round, core.pc) + {i}
  {
  }

  lemma LandLane(cf: Config, s: State, r: nat, k: nat, i: nat)
    requires Valid(cf) && Inv(cf, s) && CanLand(cf, s, r, k, i)
    ensures var s', c, q := Next(cf, s, Land(r, k, i)), s.round[r], Peer(cf, s.round[r], r);
            && s'.round[q] == c && |s'.cores[q][k].hist| == c + 1 && Peer(cf, c, q) == r
            && LaneOk(cf, q, c, s'.cores[q][k], c, s'.cores[r][k])
  {
    hide FlagsInv, HistsInv, HandsInv, Valid, Next;
    var s', c, q := Next(cf, s, Land(r, k, i)), s.round[r], Peer(cf, s.round[r], r);
    LandEffect(cf, s, r, k, i);
    LandWindow(cf, s, r, k, i);
    Roles(cf, c, r);
    assert CoreOk(cf, r, c, s.cores[r][k]);
    assert CoreOk(cf, q, c, s.cores[q][k]);
    LandLanded(cf, r, c, s.cores[r][k], i);
    assert LaneOk(cf, q, c, s.cores[q][k], c, s.cores[r][k]);
    assert LaneOk(cf, r, c, s.cores[r][k], c, s.cores[q][k]);
    assert s.cores[r][k].lane == Entry(s.cores[r][k].hist, c);
    LandMixed(Sources(cf, c, r), Targets(cf, c, r), Landed(cf, c, r, c, s.cores[r][k].pc), s.cores[q][k].hist[c],
              s.cores[r][k].lane, s.cores[q][k].lane, i);
  }

  lemma LandLanes(cf: Config, s: State, r: nat, k: nat, i: nat)
    requires Valid(cf) && Inv(cf, s) && CanLand(cf, s, r, k, i)
    ensures Shape(cf, Next(cf, s, Land(r, k, i))) && LanesInv(cf, Next(cf, s, Land(r, k, i)))
  {
    hide FlagsInv, HistsInv, HandsInv, Valid, Next, CanLand, Landed, Mixed;
    var s' := Next(cf, s, Land(r, k, i));
    LandEffect(cf, s, r, k, i);
    LandLane(cf, s, r, k, i);
    forall o: nat, j: nat | o < cf.n && j < cf.cores && Peer(cf, s'.round[o], o) < cf.n
      ensures |s'.cores[o][j].hist| == s'.round[o] + 1
      ensures var p := Peer(cf, s'.round[o], o); LaneOk(cf, o, s'.round[o], s'.cores[o][j], s'.round[p], s'.cores[p][j])
    {
      var p := Peer(cf, s.round[o], o);
      assert LaneOk(cf, o, s.round[o], s.cores[o][j], s.round[p], s.cores[p][j]);
      if s.round[o] < |cf.rounds| { Roles(cf, s.round[o], o); }
      LandedOther(cf, s.round[o], p, s.round[p], s.cores[p][j].pc, s'.cores[p][j].pc);
    }
  }

  lemma LandCores(cf: Config, s: State, r: nat, k: nat, i: nat)
    requires Valid(cf) && Inv(cf, s) && CanLand(cf, s, r, k, i)
    ensures Shape(cf, Next(cf, s, Land(r, k, i))) && CoresInv(cf, Next(cf, s, Land(r, k, i)))
  {
    hide Valid, LanesInv, HistsInv, FlagsInv, HandsInv, Next, Sources, Targets, Peer, Sends, Receives;
    LandEffect(cf, s, r, k, i);
    var s' := Next(cf, s, Land(r, k, i));
    forall o: nat, j: nat | o < cf.n && j < cf.cores ensures CoreOk(cf, o, s'.round[o], s'.cores[o][j]) {
      assert CoreOk(cf, o, s.round[o], s.cores[o][j]);
    }
  }

  /** A core that is copying has not signalled, whatever it has landed. */
  lemma LandSteady(cf: Config, s: State, r: nat, k: nat, i: nat)
    requires Valid(cf) && Inv(cf, s) && CanLand(cf, s, r, k, i)
    ensures var s' := Next(cf, s, Land(r, k, i));
            Shape(cf, s') && FlagsInv(cf, s') && HandsInv(cf, s') && HistsInv(cf, s')
  {
    hide Valid, CoresInv, LanesInv, Next, HistOk, Meets, Last, Sends, Peer, Sources, Targets;
    LandEffect(cf, s, r, k, i);
    var s' := Next(cf, s, Land(r, k, i));
    forall c: nat, p: nat, j: nat | Sends(cf, c, p) && p < cf.n && Peer(cf, c, p) < cf.n && j < cf.cores
      ensures Hand(c, s'.round[p], s'.cores[p][j].pc, s'.round[Peer(cf, c, p)], s'.cores[Peer(cf, c, p)][j].pc)
    {
      assert Hand(c, s.round[p], s.cores[p][j].pc, s.round[Peer(cf, c, p)], s.cores[Peer(cf, c, p)][j].pc);
    }
  }

  lemma LandInv(cf: Config, s: State, r: nat, k: nat, i: nat)
    requires Valid(cf) && Inv(cf, s) && CanLand(cf, s, r, k, i)
    ensures Inv(cf, Next(cf, s, Land(r, k, i)))
  {
    hide Valid, CoresInv, FlagsInv, LanesInv, HistsInv, HandsInv, Next, CanLand;
    LandCores(cf, s, r, k, i);
    LandSteady(cf, s, r, k, i);
    LandLanes(cf, s, r, k, i);
  }

  // ---- Advance ----

  lemma AdvanceEffect(cf: Config, s: State, r: nat)
    requires Shape(cf, s) && CanAdvance(cf, s, r)
    ensures var s' := Next(cf, s, Advance(r));
            && Shape(cf, s') && s'.round[r] == s.round[r] + 1
            && (forall o :: 0 <= o < cf.n && o != r ==> s'.round[o] == s.round[o] && s'.cores[o] == s.cores[o])
            && (forall k :: 0 <= k < cf.cores ==> s'.cores[r][k] == Renewed(s.cores[r][k]))
  {
  }

  /** Starting the next round changes neither how far the rank is in any round nor what it has signalled. */
  lemma AdvanceStage(cf: Config, r: nat, o: nat, c: nat, round: nat)
    requires round < |cf.rounds|
    ensures Stage(c, round + 1, Start) == Stage(c, round, Done)
    ensures Signalled(cf, r, o, round + 1, Start) == Signalled(cf, r, o, round, Done)
    ensures Landed(cf, c, r, round + 1, Start) == Landed(cf, c, r, round, Done)
  {
  }

  lemma AdvanceSteady(cf: Config, s: State, r: nat)
    requires Valid(cf) && Inv(cf, s) && CanAdvance(cf, s, r)
    ensures var s' := Next(cf, s, Advance(r)); Shape(cf, s') && CoresInv(cf, s') && FlagsInv(cf, s') && HandsInv(cf, s')
  {
    hide Valid, LanesInv, HistsInv, Next, Meets, Last, Signalled, Stage;
    AdvanceEffect(cf, s, r);
    var s' := Next(cf, s, Advance(r));
    forall o: nat, j: nat | o < cf.n && j < cf.cores ensures CoreOk(cf, o, s'.round[o], s'.cores[o][j]) {
      assert CoreOk(cf, o, s.round[o], s.cores[o][j]);
    }
    forall o: nat, p: nat, j: nat | o < cf.n && p < cf.n && j < cf.cores
      ensures s'.cores[o][j].flag[p] == Signalled(cf, p, o, s'.round[p], s'.cores[p][j].pc)
    {
      AdvanceStage(cf, r, o, 0, s.round[r]);
      assert s.cores[o][j].flag[p] == Signalled(cf, p, o, s.round[p], s.cores[p][j].pc);
    }
    forall c: nat, p: nat, j: nat | Sends(cf, c, p) && p < cf.n && Peer(cf, c, p) < cf.n && j < cf.cores
      ensures Hand(c, s'.round[p], s'.cores[p][j].pc, s'.round[Peer(cf, c, p)], s'.cores[Peer(cf, c, p)][j].pc)
    {
      AdvanceStage(cf, r, 0, c, s.round[r]);
      assert Hand(c, s.round[p], s.cores[p][j].pc, s.round[Peer(cf, c, p)], s.cores[Peer(cf, c, p)][j].pc);
    }
  }

  lemma MixedNone(src: seq<nat>, dst: seq<nat>, before: seq<int>, from: seq<int>, lane: seq<int>)
    ensures Mixed(src, dst, {}, before, from, lane) <==> lane == before
  {
    if Mixed(src, dst, {}, before, from, lane) {
      forall d: nat | d < |lane| ensures lane[d] == before[d] {
        assert MixedAt(src, dst, {}, before, from, lane, d);
        assert forall i: nat :: !Hits(src, dst, {}, from, i, d);
      }
    }
  }

  /** The rank that advances starts its new round with nothing landed. */
  lemma AdvanceOwnLane(cf: Config, s: State, r: nat, k: nat)
    requires Valid(cf) && Inv(cf, s) && CanAdvance(cf, s, r) && k < cf.cores
    ensures var c', core := s.round[r] + 1, Renewed(s.cores[r][k]);
            && |core.hist| == c' + 1
            && forall q :: q == Peer(cf, c', r) < cf.n && q != r ==> LaneOk(cf, r, c', core, s.round[q], s.cores[q][k])
  {
    hide LanesInv, HistsInv, FlagsInv, Mixed;
    var c', core := s.round[r] + 1, Renewed(s.cores[r][k]);
    assert CoreOk(cf, r, s.round[r], s.cores[r][k]);
    if Receives(cf, c', r) {
      var q := Peer(cf, c', r);
      Roles(cf, c', r);
      hide Valid;
      assert Hand(c', s.round[q], s.cores[q][k].pc, s.round[r], s.cores[r][k].pc);
      MixedNone(Sources(cf, c', q), Targets(cf, c', q), core.hist[c'], Entry(s.cores[q][k].hist, c'), core.lane);
    }
  }

  lemma AdvanceLanes(cf: Config, s: State, r: nat)
    requires Valid(cf) && Inv(cf, s) && CanAdvance(cf, s, r)
    ensures var s' := Next(cf, s, Advance(r)); Shape(cf, s') && LanesInv(cf, s')
  {
    hide HistsInv, FlagsInv, HandsInv, Valid, Mixed, Next, Landed, Sends;
    var s' := Next(cf, s, Advance(r));
    AdvanceEffect(cf, s, r);
    forall o: nat, j: nat | o < cf.n && j < cf.cores && Peer(cf, s'.round[o], o) < cf.n
      ensures |s'.cores[o][j].hist| == s'.round[o] + 1
      ensures var p := Peer(cf, s'.round[o], o); LaneOk(cf, o, s'.round[o], s'.cores[o][j], s'.round[p], s'.cores[p][j])
    {
      var p := Peer(cf, s'.round[o], o);
      if s'.round[o] < |cf.rounds| { Roles(cf, s'.round[o], o); }
      if o == r {
        AdvanceOwnLane(cf, s, r, j);
      } else {
        assert LaneOk(cf, o, s.round[o], s.cores[o][j], s.round[p], s.cores[p][j]);
        if p == r && Receives(cf, s.round[o], o) { AdvancePeerLane(cf, s, r, o, j); }
      }
    }
  }

  lemma AdvancePeerLane(cf: Config, s: State, r: nat, o: nat, j: nat)
    requires Valid(cf) && Inv(cf, s) && CanAdvance(cf, s, r) && o < cf.n && j < cf.cores && o != r
    requires Receives(cf, s.round[o], o) && Peer(cf, s.round[o], o) == r
    ensures |s.cores[o][j].hist| == s.round[o] + 1
    ensures LaneOk(cf, o, s.round[o], s.cores[o][j], s.round[r] + 1, Renewed(s.cores[r][j]))
  {
    hide HistsInv, FlagsInv, HandsInv, Valid, Mixed, Sends, Sources, Targets;
    var c, core, peer := s.round[o], s.cores[o][j], s.cores[r][j];
    assert CoreOk(cf, r, s.round[r], peer);
    assert LaneOk(cf, o, c, core, s.round[r], peer);
    AdvanceStage(cf, r, o, c, s.round[r]);
    if c == s.round[r] + 1 {
      MixedNone(Sources(cf, c, r), Targets(cf, c, r), core.hist[c], Entry(peer.hist, c), core.lane);
      MixedNone(Sources(cf, c, r), Targets(cf, c, r), core.hist[c], Entry(Renewed(peer).hist, c), core.lane);
    }
  }

  /** The round a rank leaves has done to its slices exactly what the table asks. */
  lemma AdvanceOwnHist(cf: Config, s: State, r: nat, k: nat)
    requires Valid(cf) && Inv(cf, s) && CanAdvance(cf, s, r) && k < cf.cores
    ensures var c := s.round[r];
            && Peer(cf, c, r) < cf.n && |s.cores[r][k].hist| == c + 1
            && HistOk(cf, c, r, Renewed(s.cores[r][k]).hist, s.cores[Peer(cf, c, r)][k].hist)
  {
    hide HistsInv, FlagsInv, Mixed;
    var c := s.round[r];
    Roles(cf, c, r);
    hide Valid;
    var q := Peer(cf, c, r);
    assert CoreOk(cf, r, c, s.cores[r][k]);
    assert CoreOk(cf, q, s.round[q], s.cores[q][k]);
    assert LaneOk(cf, r, c, s.cores[r][k], s.round[q], s.cores[q][k]);
    if Receives(cf, c, r) { assert Hand(c, s.round[q], s.cores[q][k].pc, c, Done); }
  }

  lemma AdvanceHists(cf: Config, s: State, r: nat)
    requires Valid(cf) && Inv(cf, s) && CanAdvance(cf, s, r)
    ensures var s' := Next(cf, s, Advance(r)); Shape(cf, s') && HistsInv(cf, s')
  {
    hide FlagsInv, HandsInv, LanesInv, Valid, Mixed, Next, Sends, Peer, Receives;
    var s' := Next(cf, s, Advance(r));
    AdvanceEffect(cf, s, r);
    forall c: nat, o: nat, j: nat | o < cf.n && j < cf.cores && c + 1 < |s'.cores[o][j].hist| && Peer(cf, c, o) < cf.n
      ensures HistOk(cf, c, o, s'.cores[o][j].hist, s'.cores[Peer(cf, c, o)][j].hist)
    {
      var p := Peer(cf, c, o);
      assert CoreOk(cf, o, s.round[o], s.cores[o][j]);
      if o == r && c == s.round[r] {
        AdvanceOwnHist(cf, s, r, j);
        Roles(cf, c, r);
      } else {
        assert HistOk(cf, c, o, s.cores[o][j].hist, s.cores[p][j].hist);
      }
    }
  }

  // ---- every step keeps the invariant ----

  lemma NextInv(cf: Config, s: State, a: Action)
    requires Valid(cf) && Inv(cf, s) && Enabled(cf, s, a)
    ensures Inv(cf, Next(cf, s, a))
  {
    hide Valid, CoresInv, FlagsInv, LanesInv, HistsInv, HandsInv, Next, CanAct, CanLand, CanAdvance;
    match a {
      case Act(r, k) => ActInv(cf, s, r, k);
      case Land(r, k, i) => LandInv(cf, s, r, k, i);
      case Advance(r) =>
        AdvanceSteady(cf, s, r);
        AdvanceLanes(cf, s, r);
        AdvanceHists(cf, s, r);
    }
  }

  lemma {:induction false} RunsInv(cf: Config, s: State, trace: seq<Action>, t: State)
    requires Valid(cf) && Inv(cf, s) && Runs(cf, s, trace, t)
    ensures Inv(cf, t)
    decreases |trace|
  {
    hide Inv, Valid;
    if trace != [] {
      NextInv(cf, s, trace[0]);
      RunsInv(cf, Next(cf, s, trace[0]), trace[1..], t);
    }
  }
}
