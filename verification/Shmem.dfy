/**
 The one-sided communication model shared by the MoE protocols.

 A core runs a straight-line script of remote puts and quiets. A put is only *issued* by its
 core; it becomes visible in the destination's window later, and pending puts land in any
 order. A quiet on a channel completes only when nothing of that core is pending on it.

 A `Plan` says what each window location is for: which core writes it, which value it
 receives, and which other locations have to be visible before it may be published.
 `Safe` is the discipline a script must follow for its plan; `NetInv` is what every
 interleaving of cores that follow it keeps.
 */
module Shmem {
  import opened Arith

  /** A window slot holds one row or one 32-byte status slot, as a sequence of words. */
  type Val = seq<int>

  /** A 32-byte slot with the same word in all eight places. */
  function Filled(v: int): Val
  {
    [v, v, v, v, v, v, v, v]
  }

  const READY: Val := Filled(1)
  const NOT_READY: Val := Filled(0)

  datatype Region = Payload | AssistRank | AssistToken | AssistTopk | Ready | Count | Data | Status

  /** A slot of a region in the symmetric window of processing element `pe`. */
  datatype Loc = Loc(pe: int, region: Region, slot: int)

  datatype Channel = Direct | Sdma

  datatype Op = Put(ch: Channel, loc: Loc, val: Val) | Quiet(ch: Channel)

  datatype Id = Id(rank: int, aiv: int)

  /** `visible` records the locations this core's puts have reached; it guides no step. */
  datatype Core = Core(todo: seq<Op>, pending: set<Op>, visible: set<Loc>)

  /** `consumed` records the slots their owner has put back to their initial value. */
  datatype Net = Net(mem: map<Loc, Val>, cores: seq<seq<Core>>, consumed: set<Loc>)

  datatype Plan = Plan(needs: Loc -> set<Loc>, content: Loc -> Val, owner: Loc -> Id)

  type Scripts = seq<seq<seq<Op>>>

  function Read(mem: map<Loc, Val>, l: Loc): Val
  {
    if l in mem then mem[l] else []
  }

  predicate HasCore(net: Net, c: Id)
  {
    0 <= c.rank < |net.cores| && 0 <= c.aiv < |net.cores[c.rank]|
  }

  function CoreAt(net: Net, c: Id): Core
    requires HasCore(net, c)
  {
    net.cores[c.rank][c.aiv]
  }

  function WithCore(net: Net, c: Id, core: Core): Net
    requires HasCore(net, c)
  {
    net.(cores := net.cores[c.rank := net.cores[c.rank][c.aiv := core]])
  }

  ghost predicate Visible(pl: Plan, net: Net, l: Loc)
  {
    HasCore(net, pl.owner(l)) && l in CoreAt(net, pl.owner(l)).visible
  }

  // ---- steps of the senders ----

  function OnChannel(ops: set<Op>, ch: Channel): set<Op>
  {
    set o | o in ops && o.ch == ch
  }

  ghost function Locs(ops: set<Op>): set<Loc>
  {
    set o | o in ops && o.Put? :: o.loc
  }

  predicate CanIssue(net: Net, c: Id)
  {
    && HasCore(net, c)
    && var core := CoreAt(net, c);
    && core.todo != []
    && (core.todo[0].Quiet? ==> OnChannel(core.pending, core.todo[0].ch) == {})
  }

  function Issue(net: Net, c: Id): Net
    requires CanIssue(net, c)
  {
    var core := CoreAt(net, c);
    var pending := if core.todo[0].Put? then core.pending + {core.todo[0]} else core.pending;
    WithCore(net, c, core.(todo := core.todo[1..], pending := pending))
  }

  predicate CanLand(net: Net, c: Id, o: Op)
  {
    HasCore(net, c) && o in CoreAt(net, c).pending && o.Put?
  }

  function Land(net: Net, c: Id, o: Op): Net
    requires CanLand(net, c, o)
  {
    var core := CoreAt(net, c);
    WithCore(net, c, core.(pending := core.pending - {o}, visible := core.visible + {o.loc}))
      .(mem := net.mem[o.loc := o.val])
  }

  /** The owner of the window stores `v` into one of its own slots after having read it. */
  function Consume(net: Net, l: Loc, v: Val): Net
  {
    net.(mem := net.mem[l := v], consumed := net.consumed + {l})
  }

  function Launch(mem: map<Loc, Val>, scripts: Scripts): Net
  {
    Net(mem,
        seq(|scripts|, r requires 0 <= r < |scripts| =>
          seq(|scripts[r]|, a requires 0 <= a < |scripts[r]| => Core(scripts[r][a], {}, {}))),
        {})
  }

  // ---- the publication discipline ----

  ghost function PutLocs(ops: seq<Op>): set<Loc>
  {
    set i | 0 <= i < |ops| && ops[i].Put? :: ops[i].loc
  }

  /** What a core may still issue, when `pend` may still be in flight and `done` is visible. */
  ghost predicate Safe(pl: Plan, c: Id, todo: seq<Op>, pend: set<Op>, done: set<Loc>)
    decreases |todo|
  {
    todo == [] ||
    match todo[0]
    case Put(ch, l, v) =>
      && l !in done && l !in Locs(pend)
      && pl.owner(l) == c && pl.content(l) == v && pl.needs(l) <= done
      && Safe(pl, c, todo[1..], pend + {todo[0]}, done)
    case Quiet(ch) =>
      Safe(pl, c, todo[1..], pend - OnChannel(pend, ch), done + Locs(OnChannel(pend, ch)))
  }

  /** The pending puts after `ops` ran to the end with nothing landing before its quiet. */
  ghost function PendAfter(ops: seq<Op>, pend: set<Op>): set<Op>
    decreases |ops|
  {
    if ops == [] then pend
    else if ops[0].Put? then PendAfter(ops[1..], pend + {ops[0]})
    else PendAfter(ops[1..], pend - OnChannel(pend, ops[0].ch))
  }

  ghost function DoneAfter(ops: seq<Op>, pend: set<Op>, done: set<Loc>): set<Loc>
    decreases |ops|
  {
    if ops == [] then done
    else if ops[0].Put? then DoneAfter(ops[1..], pend + {ops[0]}, done)
    else DoneAfter(ops[1..], pend - OnChannel(pend, ops[0].ch), done + Locs(OnChannel(pend, ops[0].ch)))
  }

  lemma SafeNone(pl: Plan, c: Id, pend: set<Op>, done: set<Loc>)
    ensures Safe(pl, c, [], pend, done) && PendAfter([], pend) == pend && DoneAfter([], pend, done) == done
            && PutLocs([]) == {}
  {
  }

  lemma {:induction false} SafeConcat(pl: Plan, c: Id, a: seq<Op>, b: seq<Op>, pend: set<Op>, done: set<Loc>)
    requires Safe(pl, c, a, pend, done)
    requires Safe(pl, c, b, PendAfter(a, pend), DoneAfter(a, pend, done))
    ensures Safe(pl, c, a + b, pend, done)
    ensures PendAfter(a + b, pend) == PendAfter(b, PendAfter(a, pend))
    ensures DoneAfter(a + b, pend, done) == DoneAfter(b, PendAfter(a, pend), DoneAfter(a, pend, done))
    decreases |a|
  {
    if a == [] {
      assert a + b == b;
    } else {
      assert (a + b)[1..] == a[1..] + b;
      if a[0].Put? {
        SafeConcat(pl, c, a[1..], b, pend + {a[0]}, done);
      } else {
        var on := OnChannel(pend, a[0].ch);
        SafeConcat(pl, c, a[1..], b, pend - on, done + Locs(on));
      }
    }
  }

  lemma PutLocsConcat(a: seq<Op>, b: seq<Op>)
    ensures PutLocs(a + b) == PutLocs(a) + PutLocs(b)
  {
    forall l | l in PutLocs(a) + PutLocs(b) ensures l in PutLocs(a + b) {
      if l in PutLocs(a) {
        var i :| 0 <= i < |a| && a[i].Put? && a[i].loc == l;
        assert (a + b)[i] == a[i];
      } else {
        var i :| 0 <= i < |b| && b[i].Put? && b[i].loc == l;
        assert (a + b)[|a| + i] == b[i];
      }
    }
  }

  lemma PutLocsHead(ops: seq<Op>)
    requires ops != []
    ensures PutLocs(ops) == PutLocs(ops[1..]) + (if ops[0].Put? then {ops[0].loc} else {})
  {
    PutLocsConcat(ops[..1], ops[1..]);
    assert ops == ops[..1] + ops[1..];
    assert PutLocs(ops[..1]) == if ops[0].Put? then {ops[0].loc} else {} by {
      if ops[0].Put? { assert ops[..1][0].loc in PutLocs(ops[..1]); }
    }
  }

  /** Running a script moves its locations into the ones in flight or done, and no others. */
  lemma {:induction false} UsedAfter(ops: seq<Op>, pend: set<Op>, done: set<Loc>)
    ensures Locs(PendAfter(ops, pend)) + DoneAfter(ops, pend, done) == Locs(pend) + done + PutLocs(ops)
    decreases |ops|
  {
    if ops != [] {
      PutLocsHead(ops);
      if ops[0].Put? {
        UsedAfter(ops[1..], pend + {ops[0]}, done);
        assert Locs(pend + {ops[0]}) == Locs(pend) + {ops[0].loc} by {
          assert ops[0] in pend + {ops[0]};
        }
      } else {
        var on := OnChannel(pend, ops[0].ch);
        UsedAfter(ops[1..], pend - on, done + Locs(on));
        assert Locs(pend - on) + Locs(on) == Locs(pend);
      }
    }
  }

  lemma {:induction false} DoneGrows(ops: seq<Op>, pend: set<Op>, done: set<Loc>)
    ensures done <= DoneAfter(ops, pend, done)
    decreases |ops|
  {
    if ops != [] {
      if ops[0].Put? {
        DoneGrows(ops[1..], pend + {ops[0]}, done);
      } else {
        var on := OnChannel(pend, ops[0].ch);
        DoneGrows(ops[1..], pend - on, done + Locs(on));
      }
    }
  }

  /** When a put may be issued with `pend` in flight and `done` visible. */
  ghost predicate MayPut(pl: Plan, c: Id, o: Op, pend: set<Op>, done: set<Loc>)
  {
    && o.Put? && o.loc !in done && o.loc !in Locs(pend)
    && pl.owner(o.loc) == c && pl.content(o.loc) == o.val && pl.needs(o.loc) <= done
  }

  lemma LocsAdd(pend: set<Op>, o: Op)
    requires o.Put?
    ensures Locs(pend + {o}) == Locs(pend) + {o.loc}
  {
    assert o in pend + {o};
  }

  /** A block of puts to distinct locations, each of which may be issued, may be issued in a row. */
  lemma {:induction false} SafePuts(pl: Plan, c: Id, ops: seq<Op>, pend: set<Op>, done: set<Loc>)
    requires forall i :: 0 <= i < |ops| ==> MayPut(pl, c, ops[i], pend, done)
    requires forall i, j :: 0 <= i < j < |ops| && ops[i].Put? && ops[j].Put? ==> ops[i].loc != ops[j].loc
    ensures Safe(pl, c, ops, pend, done)
    ensures PendAfter(ops, pend) == pend + (set i | 0 <= i < |ops| :: ops[i]) && DoneAfter(ops, pend, done) == done
    decreases |ops|
  {
    if ops != [] {
      var rest := ops[1..];
      LocsAdd(pend, ops[0]);
      forall i | 0 <= i < |rest| ensures MayPut(pl, c, rest[i], pend + {ops[0]}, done) {
        assert rest[i] == ops[i + 1];
      }
      SafePuts(pl, c, rest, pend + {ops[0]}, done);
      assert MayPut(pl, c, ops[0], pend, done);
      assert (set i | 0 <= i < |ops| :: ops[i]) == {ops[0]} + (set i | 0 <= i < |rest| :: rest[i]) by {
        forall i | 0 <= i < |rest| ensures rest[i] in (set i | 0 <= i < |ops| :: ops[i]) {
          assert rest[i] == ops[i + 1];
        }
        forall i | 0 <= i < |ops| ensures ops[i] in {ops[0]} + (set i | 0 <= i < |rest| :: rest[i]) {
          if i > 0 { assert ops[i] == rest[i - 1]; }
        }
      }
    }
  }

  /** A put that is quieted at once is visible before anything else is issued. */
  lemma SafePutQuiet(pl: Plan, c: Id, o: Op, pend: set<Op>, done: set<Loc>)
    requires MayPut(pl, c, o, pend, done)
    requires forall p :: p in pend ==> p.Put? && p.ch != o.ch
    ensures Safe(pl, c, [o, Quiet(o.ch)], pend, done)
    ensures PendAfter([o, Quiet(o.ch)], pend) == pend
    ensures DoneAfter([o, Quiet(o.ch)], pend, done) == done + {o.loc}
    ensures PutLocs([o, Quiet(o.ch)]) == {o.loc}
  {
    var ops := [o, Quiet(o.ch)];
    assert ops[1..] == [Quiet(o.ch)] && ops[1..][1..] == [];
    assert OnChannel(pend + {o}, o.ch) == {o};
    assert Locs({o}) == {o.loc} by { assert o in {o}; }
    assert o !in pend;
    assert pend + {o} - {o} == pend;
    assert PendAfter(ops[1..], pend + {o}) == PendAfter([], pend);
    assert DoneAfter(ops[1..], pend + {o}, done) == DoneAfter([], pend, done + {o.loc});
    assert Safe(pl, c, ops[1..], pend + {o}, done);
    assert ops[0].loc in PutLocs(ops);
  }

  /** A closing quiet on the only channel in use makes everything visible. */
  lemma QuietAll(pl: Plan, c: Id, ch: Channel, pend: set<Op>, done: set<Loc>)
    requires forall o :: o in pend ==> o.Put? && o.ch == ch
    ensures Safe(pl, c, [Quiet(ch)], pend, done)
    ensures PendAfter([Quiet(ch)], pend) == {}
    ensures DoneAfter([Quiet(ch)], pend, done) == done + Locs(pend)
  {
    assert OnChannel(pend, ch) == pend;
    assert [Quiet(ch)][1..] == [];
  }

  /** Landing early never breaks the discipline. */
  lemma {:induction false} SafeLand(pl: Plan, c: Id, todo: seq<Op>, pend: set<Op>, done: set<Loc>, o: Op)
    requires Safe(pl, c, todo, pend, done) && o in pend && o.Put?
    requires forall p :: p in pend ==> p.Put?
    requires forall p, q :: p in pend && q in pend && p.loc == q.loc ==> p == q
    ensures Safe(pl, c, todo, pend - {o}, done + {o.loc})
    decreases |todo|
  {
    if todo != [] {
      match todo[0]
      case Put(ch, l, v) =>
        SafeLand(pl, c, todo[1..], pend + {todo[0]}, done, o);
        assert pend + {todo[0]} - {o} == pend - {o} + {todo[0]};
      case Quiet(ch) =>
        var on := OnChannel(pend, ch);
        if o.ch == ch {
          assert pend - {o} - OnChannel(pend - {o}, ch) == pend - on;
          assert done + {o.loc} + Locs(OnChannel(pend - {o}, ch)) == done + Locs(on) by {
            assert on == OnChannel(pend - {o}, ch) + {o};
          }
        } else {
          SafeLand(pl, c, todo[1..], pend - on, done + Locs(on), o);
          assert OnChannel(pend - {o}, ch) == on;
          assert pend - {o} - on == pend - on - {o};
          assert done + {o.loc} + Locs(on) == done + Locs(on) + {o.loc};
        }
    }
  }

  // ---- what every interleaving keeps ----

  ghost predicate CoreInv(pl: Plan, c: Id, script: seq<Op>, core: Core)
  {
    && Safe(pl, c, core.todo, core.pending, core.visible)
    && (forall p :: p in core.pending ==>
          p.Put? && pl.owner(p.loc) == c && p.val == pl.content(p.loc)
          && p.loc !in core.visible && pl.needs(p.loc) <= core.visible)
    && (forall p, q :: p in core.pending && q in core.pending && p.loc == q.loc ==> p == q)
    && (forall l :: l in core.visible ==> pl.owner(l) == c && pl.needs(l) <= core.visible)
    && PutLocs(core.todo) + Locs(core.pending) + core.visible == PutLocs(script)
  }

  predicate SameShape(net: Net, scripts: Scripts)
  {
    && |net.cores| == |scripts|
    && forall r :: 0 <= r < |scripts| ==> |net.cores[r]| == |scripts[r]|
  }

  ghost predicate CoresInv(pl: Plan, scripts: Scripts, net: Net)
  {
    && SameShape(net, scripts)
    && forall c :: HasCore(net, c) ==> CoreInv(pl, c, scripts[c.rank][c.aiv], CoreAt(net, c))
  }

  /** A slot shows the value put there from the moment the put lands until its owner consumes it. */
  ghost predicate MemInv(pl: Plan, init: map<Loc, Val>, net: Net)
  {
    && (forall l :: l in net.consumed ==> Visible(pl, net, l))
    && forall l :: Read(net.mem, l)
                   == if Visible(pl, net, l) && l !in net.consumed then pl.content(l) else Read(init, l)
  }

  ghost predicate NetInv(pl: Plan, scripts: Scripts, init: map<Loc, Val>, net: Net)
  {
    CoresInv(pl, scripts, net) && MemInv(pl, init, net)
  }

  ghost predicate SafeScripts(pl: Plan, scripts: Scripts)
  {
    forall r, a :: 0 <= r < |scripts| && 0 <= a < |scripts[r]| ==>
      Safe(pl, Id(r, a), scripts[r][a], {}, {})
  }

  /** What is visible only grows, and nothing is put back. */
  ghost predicate Grows(pl: Plan, net: Net, net': Net)
  {
    && (forall l :: Visible(pl, net, l) ==> Visible(pl, net', l))
    && net.consumed == net'.consumed
  }

  lemma LaunchInv(pl: Plan, scripts: Scripts, mem: map<Loc, Val>)
    requires SafeScripts(pl, scripts)
    ensures NetInv(pl, scripts, mem, Launch(mem, scripts))
  {
    var net := Launch(mem, scripts);
    forall c | HasCore(net, c) ensures CoreInv(pl, c, scripts[c.rank][c.aiv], CoreAt(net, c)) {
      assert c == Id(c.rank, c.aiv);
      assert CoreAt(net, c) == Core(scripts[c.rank][c.aiv], {}, {});
      assert Locs({}) == {};
    }
  }

  lemma LocsNone()
    ensures Locs({}) == {}
  {
  }

  lemma LocsHas(pend: set<Op>, p: Op)
    requires p in pend && p.Put?
    ensures p.loc in Locs(pend)
  {
  }

  lemma IssueCoreInv(pl: Plan, c: Id, script: seq<Op>, core: Core)
    requires CoreInv(pl, c, script, core) && core.todo != []
    requires core.todo[0].Quiet? ==> OnChannel(core.pending, core.todo[0].ch) == {}
    ensures var o := core.todo[0];
            CoreInv(pl, c, script, core.(todo := core.todo[1..],
                    pending := if o.Put? then core.pending + {o} else core.pending))
  {
    hide PutLocs, Locs, OnChannel;
    var o := core.todo[0];
    PutLocsHead(core.todo);
    LocsNone();
    if o.Put? {
      var pending := core.pending + {o};
      LocsAdd(core.pending, o);
      forall p | p in core.pending ensures p.loc != o.loc { LocsHas(core.pending, p); }
    } else {
      var on := OnChannel(core.pending, o.ch);
      assert core.pending - on == core.pending;
      assert Locs(on) == {};
      assert core.visible + Locs(on) == core.visible;
    }
  }

  lemma IssueInv(pl: Plan, scripts: Scripts, init: map<Loc, Val>, net: Net, c: Id)
    requires NetInv(pl, scripts, init, net) && CanIssue(net, c)
    ensures NetInv(pl, scripts, init, Issue(net, c)) && Grows(pl, net, Issue(net, c))
  {
    hide CoreInv;
    var net' := Issue(net, c);
    IssueCoreInv(pl, c, scripts[c.rank][c.aiv], CoreAt(net, c));
    forall d | HasCore(net', d) ensures
      && CoreInv(pl, d, scripts[d.rank][d.aiv], CoreAt(net', d))
      && CoreAt(net', d).visible == CoreAt(net, d).visible
    {
      if d != c { assert CoreAt(net', d) == CoreAt(net, d); }
    }
    assert forall l :: Visible(pl, net', l) <==> Visible(pl, net, l);
  }

  lemma LandCoreInv(pl: Plan, c: Id, script: seq<Op>, core: Core, o: Op)
    requires CoreInv(pl, c, script, core) && o in core.pending
    ensures CoreInv(pl, c, script, core.(pending := core.pending - {o}, visible := core.visible + {o.loc}))
  {
    SafeLand(pl, c, core.todo, core.pending, core.visible, o);
    assert Locs(core.pending) == Locs(core.pending - {o}) + {o.loc} by {
      assert core.pending == core.pending - {o} + {o};
    }
  }

  lemma PendingFacts(pl: Plan, c: Id, script: seq<Op>, core: Core, o: Op)
    requires CoreInv(pl, c, script, core) && o in core.pending
    ensures o.Put? && pl.owner(o.loc) == c && o.val == pl.content(o.loc) && o.loc !in core.visible
            && pl.needs(o.loc) <= core.visible
  {
    hide Safe;
  }

  lemma LandInv(pl: Plan, scripts: Scripts, init: map<Loc, Val>, net: Net, c: Id, o: Op)
    requires NetInv(pl, scripts, init, net) && CanLand(net, c, o)
    ensures NetInv(pl, scripts, init, Land(net, c, o)) && Grows(pl, net, Land(net, c, o))
  {
    hide CoreInv;
    var net' := Land(net, c, o);
    LandCoreInv(pl, c, scripts[c.rank][c.aiv], CoreAt(net, c), o);
    PendingFacts(pl, c, scripts[c.rank][c.aiv], CoreAt(net, c), o);
    forall d | HasCore(net', d) ensures
      && CoreInv(pl, d, scripts[d.rank][d.aiv], CoreAt(net', d))
      && CoreAt(net', d).visible == CoreAt(net, d).visible + if d == c then {o.loc} else {}
    {
      if d != c { assert CoreAt(net', d) == CoreAt(net, d); }
    }
    assert forall l :: Visible(pl, net', l) <==> (Visible(pl, net, l) || l == o.loc);
  }

  lemma ConsumeInv(pl: Plan, scripts: Scripts, init: map<Loc, Val>, net: Net, l: Loc, v: Val)
    requires NetInv(pl, scripts, init, net) && Visible(pl, net, l) && v == Read(init, l)
    ensures NetInv(pl, scripts, init, Consume(net, l, v))
    ensures forall m :: Visible(pl, net, m) <==> Visible(pl, Consume(net, l, v), m)
  {
    hide CoreInv;
    var net' := Consume(net, l, v);
    assert forall c :: HasCore(net', c) ==> CoreAt(net', c) == CoreAt(net, c);
  }

  /** Publication: whatever a visible slot relies on is visible with it. */
  lemma Published(pl: Plan, scripts: Scripts, init: map<Loc, Val>, net: Net, l: Loc, m: Loc)
    requires NetInv(pl, scripts, init, net) && Visible(pl, net, l) && m in pl.needs(l)
    ensures Visible(pl, net, m)
  {
    assert CoreInv(pl, pl.owner(l), scripts[pl.owner(l).rank][pl.owner(l).aiv], CoreAt(net, pl.owner(l)));
  }

  /** Once a core is drained, everything its script puts is visible. */
  lemma Drained(pl: Plan, scripts: Scripts, init: map<Loc, Val>, net: Net, c: Id, l: Loc)
    requires NetInv(pl, scripts, init, net) && HasCore(net, c)
    requires CoreAt(net, c).todo == [] && CoreAt(net, c).pending == {}
    requires l in PutLocs(scripts[c.rank][c.aiv])
    ensures Visible(pl, net, l)
  {
    assert CoreInv(pl, c, scripts[c.rank][c.aiv], CoreAt(net, c));
    assert PutLocs([]) == {} && Locs({}) == {};
  }

  lemma {:induction false} SafeFresh(pl: Plan, c: Id, todo: seq<Op>, pend: set<Op>, done: set<Loc>)
    requires Safe(pl, c, todo, pend, done)
    ensures PutLocs(todo) !! done + Locs(pend)
    ensures forall i, j :: 0 <= i < j < |todo| && todo[i].Put? && todo[j].Put? ==> todo[i].loc != todo[j].loc
    ensures forall i :: 0 <= i < |todo| && todo[i].Put? ==>
            pl.owner(todo[i].loc) == c && pl.content(todo[i].loc) == todo[i].val
    decreases |todo|
  {
    if todo != [] {
      PutLocsHead(todo);
      var rest := todo[1..];
      if todo[0].Put? {
        SafeFresh(pl, c, rest, pend + {todo[0]}, done);
        assert Locs(pend + {todo[0]}) == Locs(pend) + {todo[0].loc} by { assert todo[0] in pend + {todo[0]}; }
        forall j | 0 < j < |todo| && todo[j].Put? ensures todo[j].loc != todo[0].loc {
          assert rest[j - 1].loc in PutLocs(rest);
        }
      } else {
        var on := OnChannel(pend, todo[0].ch);
        SafeFresh(pl, c, rest, pend - on, done + Locs(on));
        assert Locs(pend - on) + Locs(on) == Locs(pend);
      }
      forall i, j | 0 <= i < j < |todo| && todo[i].Put? && todo[j].Put? ensures todo[i].loc != todo[j].loc {
        if i > 0 { assert rest[i - 1] == todo[i] && rest[j - 1] == todo[j]; }
      }
      forall i | 0 <= i < |todo| && todo[i].Put?
        ensures pl.owner(todo[i].loc) == c && pl.content(todo[i].loc) == todo[i].val {
        if i > 0 { assert rest[i - 1] == todo[i]; }
      }
    }
  }

  /** A location is put at most once: what is visible is neither in flight nor still to be issued. */
  lemma NotAgain(pl: Plan, scripts: Scripts, init: map<Loc, Val>, net: Net, c: Id, l: Loc)
    requires NetInv(pl, scripts, init, net) && HasCore(net, c) && Visible(pl, net, l)
    ensures l !in PutLocs(CoreAt(net, c).todo) && l !in Locs(CoreAt(net, c).pending)
  {
    var core := CoreAt(net, c);
    assert CoreInv(pl, c, scripts[c.rank][c.aiv], core);
    SafeFresh(pl, c, core.todo, core.pending, core.visible);
  }

  /** No put that is still to be issued or in flight can hit a slot that was consumed. */
  lemma NoLateWrite(pl: Plan, scripts: Scripts, init: map<Loc, Val>, net: Net, c: Id, l: Loc)
    requires NetInv(pl, scripts, init, net) && HasCore(net, c) && l in net.consumed
    ensures l !in PutLocs(CoreAt(net, c).todo) && l !in Locs(CoreAt(net, c).pending)
  {
    NotAgain(pl, scripts, init, net, c, l);
  }

  // ---- progress ----

  function Work(core: Core): nat
  {
    2 * |core.todo| + |core.pending|
  }

  ghost function Works(row: seq<Core>): seq<int>
  {
    seq(|row|, a requires 0 <= a < |row| => Work(row[a]))
  }

  ghost function RowWorks(cores: seq<seq<Core>>): seq<int>
  {
    seq(|cores|, r requires 0 <= r < |cores| => Sum(Works(cores[r])))
  }

  ghost function NetWork(cores: seq<seq<Core>>): int
  {
    Sum(RowWorks(cores))
  }

  lemma NetWorkNonNegative(cores: seq<seq<Core>>)
    ensures NetWork(cores) >= 0
  {
    forall r | 0 <= r < |cores| ensures RowWorks(cores)[r] >= 0 {
      SumNonNegative(Works(cores[r]));
    }
    SumNonNegative(RowWorks(cores));
  }

  lemma WithCoreWork(net: Net, c: Id, core: Core)
    requires HasCore(net, c)
    ensures NetWork(WithCore(net, c, core).cores) == NetWork(net.cores) - Work(CoreAt(net, c)) + Work(core)
  {
    var row := net.cores[c.rank];
    var row' := row[c.aiv := core];
    assert Works(row') == Works(row)[c.aiv := Work(core)];
    SumUpdate(Works(row), c.aiv, Work(core));
    assert RowWorks(WithCore(net, c, core).cores) == RowWorks(net.cores)[c.rank := Sum(Works(row'))];
    SumUpdate(RowWorks(net.cores), c.rank, Sum(Works(row')));
  }

  /** Every sender step uses up work, so no schedule of the senders goes on for ever. */
  lemma SenderWork(net: Net, c: Id)
    ensures CanIssue(net, c) ==> NetWork(Issue(net, c).cores) < NetWork(net.cores)
    ensures forall o :: CanLand(net, c, o) ==> NetWork(Land(net, c, o).cores) < NetWork(net.cores)
  {
    if CanIssue(net, c) {
      var core := CoreAt(net, c);
      var pending := if core.todo[0].Put? then core.pending + {core.todo[0]} else core.pending;
      WithCoreWork(net, c, core.(todo := core.todo[1..], pending := pending));
    }
    forall o | CanLand(net, c, o) ensures NetWork(Land(net, c, o).cores) < NetWork(net.cores) {
      var core := CoreAt(net, c);
      WithCoreWork(net, c, core.(pending := core.pending - {o}, visible := core.visible + {o.loc}));
    }
  }

  /** A core that is not drained can always go on: a blocked quiet has a put that can land. */
  lemma SenderProgress(pl: Plan, scripts: Scripts, net: Net, c: Id)
    requires CoresInv(pl, scripts, net) && HasCore(net, c)
    requires CoreAt(net, c).todo != [] || CoreAt(net, c).pending != {}
    ensures CanIssue(net, c) || exists o :: CanLand(net, c, o)
  {
    var core := CoreAt(net, c);
    assert CoreInv(pl, c, scripts[c.rank][c.aiv], core);
    if core.pending != {} {
      var o :| o in core.pending;
      assert CanLand(net, c, o);
    } else if core.todo[0].Quiet? {
      assert OnChannel(core.pending, core.todo[0].ch) == {};
    }
  }
}
