/**
 The start-up exchange over TCP: rank 0 accepts one connection per other rank, every peer claims
 its rank in a 4-byte header and sends its data, and the root answers with the data of all ranks.
 A socket's calls may move any part of what is asked, be interrupted, or fail.
 */
module TcpAllGather {
  import opened Arith

  /** What the next call on a socket does. */
  datatype Event = Interrupted | Broken | Moves(most: nat)

  /** One call follows the first event: it is interrupted, fails, or moves as much as it may, up to `limit`. */
  ghost predicate Called(events: seq<Event>, rest: seq<Event>, n: int, retry: bool, limit: nat)
  {
    if events == [] then n < 0 && !retry && rest == events
    else
      && rest == events[1..]
      && match events[0]
         case Interrupted => n < 0 && retry
         case Broken => n < 0 && !retry
         case Moves(most) => !retry && n == if most < limit then most else limit
  }

  /** How many bytes a socket's calls can move before one fails; interruptions are skipped. */
  function Carries(events: seq<Event>): nat
  {
    if events == [] then 0
    else
      match events[0]
      case Interrupted => Carries(events[1..])
      case Broken => 0
      case Moves(most) => if most == 0 then 0 else most + Carries(events[1..])
  }

  /** The calls left after moving `size` bytes. */
  function After(events: seq<Event>, size: nat): seq<Event>
  {
    if size == 0 || events == [] then events
    else
      match events[0]
      case Interrupted => After(events[1..], size)
      case Broken => events
      case Moves(most) => After(events[1..], if most < size then size - most else 0)
  }

  /** The calls can make transfers of these sizes, one after the other. */
  predicate Healthy(events: seq<Event>, sizes: seq<nat>)
    decreases |sizes|
  {
    sizes == [] || (Carries(events) >= sizes[0] && Healthy(After(events, sizes[0]), sizes[1..]))
  }

  /** Calls that are never refused and never cut short can make as many transfers as there are calls. */
  lemma {:induction false} MovingIsHealthy(events: seq<Event>, sizes: seq<nat>)
    requires |sizes| <= |events|
    requires forall i, k :: 0 <= i < |events| && 0 <= k < |sizes| ==> events[i].Moves? && events[i].most >= sizes[k] > 0
    ensures Healthy(events, sizes)
    decreases |sizes|
  {
    if sizes != [] {
      assert After(events, sizes[0]) == events[1..] by { assert After(events[1..], 0) == events[1..]; }
      MovingIsHealthy(events[1..], sizes[1..]);
    }
  }

  /** `inbox` are the bytes the other side has sent that were not received yet. */
  class Socket {
    var inbox: seq<int>
    var sent: seq<int>
    var events: seq<Event>

    constructor (incoming: seq<int>, calls: seq<Event>)
      ensures inbox == incoming && events == calls && sent == []
    {
      inbox, events, sent := incoming, calls, [];
    }

    /** The system call: how many bytes were taken, or a failure that may be retried. */
    method Send(data: seq<int>) returns (n: int, retry: bool)
      modifies this
      ensures inbox == old(inbox) && n <= |data| && (retry ==> n < 0)
      ensures if n > 0 then sent == old(sent) + data[..n] else sent == old(sent)
      ensures n > 0 || retry ==> |events| < |old(events)|
      ensures Called(old(events), events, n, retry, |data|)
    {
      n, retry := -1, false;
      if events != [] {
        var event := events[0];
        events := events[1..];
        if event == Interrupted {
          retry := true;
        } else if event.Moves? {
          n := if event.most < |data| then event.most else |data|;
          sent := sent + data[..n];
        }
      }
    }

    method Recv(size: nat) returns (bytes: seq<int>, n: int, retry: bool)
      modifies this
      ensures sent == old(sent) && (retry ==> n < 0) && n <= size && n <= |old(inbox)|
      ensures if n > 0 then bytes == old(inbox)[..n] && inbox == old(inbox)[n..] else inbox == old(inbox)
      ensures n > 0 || retry ==> |events| < |old(events)|
      ensures Called(old(events), events, n, retry, if size < |old(inbox)| then size else |old(inbox)|)
    {
      bytes, n, retry := [], -1, false;
      if events != [] {
        var event := events[0];
        events := events[1..];
        if event == Interrupted {
          retry := true;
        } else if event.Moves? {
          n := if event.most < size then event.most else size;
          if n > |inbox| { n := |inbox|; }
          bytes := inbox[..n];
          inbox := inbox[n..];
        }
      }
    }
  }

  /** Success means that the whole buffer was sent once, failure that only a proper part of it was. */
  method SendAll(socket: Socket, data: seq<int>) returns (ok: bool)
    modifies socket
    ensures socket.inbox == old(socket.inbox)
    ensures ok <==> Carries(old(socket.events)) >= |data|
    ensures ok ==> socket.sent == old(socket.sent) + data && socket.events == After(old(socket.events), |data|)
    ensures !ok ==> exists k :: 0 <= k < |data| && socket.sent == old(socket.sent) + data[..k]
  {
    var at := 0;
    while at < |data|
      invariant 0 <= at <= |data| && socket.inbox == old(socket.inbox) && socket.sent == old(socket.sent) + data[..at]
      invariant Carries(old(socket.events)) >= |data| <==> Carries(socket.events) >= |data| - at
      invariant After(old(socket.events), |data|) == After(socket.events, |data| - at)
      decreases |socket.events|
    {
      var n, retry := socket.Send(data[at..]);
      if retry {
        continue;
      }
      if n <= 0 {
        return false;
      }
      assert data[..at] + data[at..][..n] == data[..at + n];
      at := at + n;
    }
    return true;
  }

  /** Success means that exactly the next `size` bytes of the stream are in the buffer. */
  method RecvAll(socket: Socket, buffer: array<int>, at: nat, size: nat) returns (ok: bool)
    requires at + size <= buffer.Length
    modifies socket, buffer
    ensures socket.sent == old(socket.sent)
    ensures ok <==> Carries(old(socket.events)) >= size && |old(socket.inbox)| >= size
    ensures ok ==> socket.events == After(old(socket.events), size)
    ensures ok ==> size <= |old(socket.inbox)| && buffer[at..at + size] == old(socket.inbox)[..size]
    ensures ok ==> socket.inbox == old(socket.inbox)[size..]
    ensures forall j :: 0 <= j < buffer.Length && !(at <= j < at + size) ==> buffer[j] == old(buffer[j])
  {
    var done := 0;
    while done < size
      invariant 0 <= done <= size && done <= |old(socket.inbox)| && socket.sent == old(socket.sent)
      invariant |old(socket.inbox)| >= size ==>
                  (Carries(old(socket.events)) >= size <==> Carries(socket.events) >= size - done)
      invariant |old(socket.inbox)| >= size ==> After(old(socket.events), size) == After(socket.events, size - done)
      invariant socket.inbox == old(socket.inbox)[done..]
      invariant forall j :: 0 <= j < done ==> buffer[at + j] == old(socket.inbox)[j]
      invariant forall j :: 0 <= j < buffer.Length && !(at <= j < at + size) ==> buffer[j] == old(buffer[j])
      decreases |socket.events|
    {
      var bytes, n, retry := socket.Recv(size - done);
      if retry {
        continue;
      }
      if n <= 0 {
        return false;
      }
      forall j | 0 <= j < n { buffer[at + done + j] := bytes[j]; }
      done := done + n;
    }
    return true;
  }

  // ---- the rank header ----

  /** The rank in network byte order. */
  function Header(rank: nat): (h: seq<int>)
    ensures |h| == 4
  {
    [rank / 0x100_0000 % 256, rank / 0x1_0000 % 256, rank / 0x100 % 256, rank % 256]
  }

  /** The header read back as a signed 32-bit integer. */
  function Claim(h: seq<int>): int
    requires |h| == 4
  {
    var v := ((h[0] * 256 + h[1]) * 256 + h[2]) * 256 + h[3];
    if v >= 0x8000_0000 then v - 0x1_0000_0000 else v
  }

  lemma HeaderRoundTrip(rank: nat)
    requires rank < 0x8000_0000
    ensures Claim(Header(rank)) == rank && Header(0x0102_0304) == [1, 2, 3, 4]
  {
    var a, b, c := rank / 256, rank / 0x1_0000, rank / 0x100_0000;
    assert b == a / 256 && c == b / 256;
    assert rank == a * 256 + rank % 256 && a == b * 256 + a % 256 && b == c * 256 + b % 256 && c < 256;
  }

  /** A header whose first byte has its highest bit set claims a negative rank. */
  lemma NegativeClaim(h: seq<int>)
    requires |h| == 4 && forall i :: 0 <= i < 4 ==> 0 <= h[i] < 256
    ensures Claim(h) < 0 <==> h[0] >= 128
    ensures -0x8000_0000 <= Claim(h) < 0x8000_0000
  {
  }

  // ---- the root ----

  ghost predicate InRange(order: seq<nat>, n: nat)
  {
    && (forall i :: 0 <= i < |order| ==> 0 < order[i] < n)
    && (forall i, j :: 0 <= i < j < |order| ==> order[i] != order[j])
  }

  function Ranks(n: nat): set<nat>
  {
    if n <= 1 then {} else Ranks(n - 1) + {n - 1}
  }

  lemma {:induction false} RanksAre(n: nat)
    ensures |Ranks(n)| == if n <= 1 then 0 else n - 1
    ensures forall p: nat :: p in Ranks(n) <==> 0 < p < n
  {
    if n > 1 { RanksAre(n - 1); }
  }

  lemma {:induction false} ValuesIn(order: seq<nat>, p: nat)
    ensures p in Values(order) <==> p in order
  {
    if order != [] {
      var init, last := order[..|order| - 1], order[|order| - 1];
      ValuesIn(init, p);
      assert order == init + [last];
    }
  }

  lemma {:induction false} ValuesDistinct(order: seq<nat>, n: nat)
    requires InRange(order, n)
    ensures |Values(order)| == |order|
  {
    if order != [] {
      var init, last := order[..|order| - 1], order[|order| - 1];
      ValuesDistinct(init, n);
      ValuesIn(init, last);
    }
  }

  function Values(order: seq<nat>): set<nat>
  {
    if order == [] then {} else Values(order[..|order| - 1]) + {order[|order| - 1]}
  }

  /** As many distinct claims as there are peers leave no peer out. */
  lemma Pigeonhole(order: seq<nat>, n: nat, p: nat)
    requires InRange(order, n) && |order| == n - 1 && 0 < p < n
    ensures p in order
  {
    if p !in order {
      ValuesDistinct(order, n);
      RanksAre(n);
      ValuesIn(order, p);
      forall q: nat | q in Values(order) ensures q in Ranks(n) { ValuesIn(order, q); }
      SubsetSize(Values(order) + {p}, Ranks(n));
    }
  }

  lemma {:induction false} SubsetSize(a: set<nat>, b: set<nat>)
    requires a <= b
    ensures |a| <= |b|
    decreases a
  {
    if x :| x in a {
      SubsetSize(a - {x}, b - {x});
      assert |a| == |a - {x}| + 1 && |b| == |b - {x}| + 1;
    }
  }

  /** Arrival `i` claimed rank `order[i]` and delivered the data now in that rank's slot. */
  ghost predicate Delivered(inbox: seq<int>, p: nat, size: nat, all: seq<int>)
  {
    && 4 + size <= |inbox| && Claim(inbox[..4]) == p
    && 0 <= p * size && p * size + size <= |all| && all[p * size..p * size + size] == inbox[4..4 + size]
  }

  /** A slot keeps its contents when another one is written. */
  lemma SlotFrame(inbox: seq<int>, p: nat, q: nat, size: nat, all: seq<int>, all': seq<int>)
    requires Delivered(inbox, p, size, all) && |all'| == |all| && p != q
    requires forall j :: 0 <= j < |all| && !(q * size <= j < q * size + size) ==> all'[j] == all[j]
    ensures Delivered(inbox, p, size, all')
  {
    if p < q { MulLe(p + 1, q, size); } else { MulLe(q + 1, p, size); }
    Distribute(p + 1, p, size);
    Distribute(q + 1, q, size);
    assert all'[p * size..p * size + size] == all[p * size..p * size + size];
  }

  lemma SlotInside(p: nat, n: nat, size: nat)
    requires p < n
    ensures 0 <= p * size && p * size + size <= n * size
  {
    MulLe(0, p, size);
    MulLe(p + 1, n, size);
    Distribute(p + 1, p, size);
  }

  lemma TwoTransfers(events: seq<Event>, a: nat, b: nat)
    ensures Healthy(events, [a, b]) <==> Carries(events) >= a && Carries(After(events, a)) >= b
  {
    assert [a, b][1..] == [b] && [b][1..] == [];
    assert Healthy(After(events, a), [b]) <==> Carries(After(events, a)) >= b;
  }

  lemma ThreeTransfers(events: seq<Event>, a: nat, b: nat, c: nat)
    ensures Healthy(events, [a, b, c]) <==> Healthy(events, [a, b]) && Carries(After(After(events, a), b)) >= c
  {
    TwoTransfers(events, a, b);
    TwoTransfers(After(events, a), b, c);
    assert [a, b, c][1..] == [b, c];
  }

  /** A connection that claims a rank in range, brings its data, and whose calls can move both. */
  ghost predicate Joins(inbox: seq<int>, events: seq<Event>, n: nat, size: nat)
  {
    4 + size <= |inbox| && Healthy(events, [4, size]) && 0 < Claim(inbox[..4]) < n
  }

  /** One accepted connection: read the claim, check it, read the data into the claimed slot. */
  method AcceptPeer(socket: Socket, n: nat, size: nat, peers: seq<int>, all: array<int>) returns (ok: bool, peer: int)
    requires |peers| == n && all.Length == n * size
    modifies socket, all
    ensures socket.sent == old(socket.sent)
    ensures ok <==> Joins(old(socket.inbox), old(socket.events), n, size)
                    && peers[Claim(old(socket.inbox)[..4])] < 0
    ensures ok ==> socket.events == After(After(old(socket.events), 4), size)
    ensures ok ==> 0 < peer < n && peers[peer] < 0 && Delivered(old(socket.inbox), peer, size, all[..])
    ensures ok ==> forall j :: 0 <= j < all.Length && !(peer * size <= j < peer * size + size) ==> all[j] == old(all[j])
  {
    TwoTransfers(socket.events, 4, size);
    var header := new int[4];
    peer := -1;
    ok := RecvAll(socket, header, 0, 4);
    assert ok ==> header[..] == header[0..4] == old(socket.inbox)[..4];
    if ok { peer := Claim(header[..]); }
    if !(ok && peer > 0 && peer < n && peers[peer] < 0) {
      return false, peer;
    }
    SlotInside(peer, n, size);
    assert header[..] == old(socket.inbox)[..4];
    ok := RecvAll(socket, all, peer * size, size);
    ghost var inbox := old(socket.inbox);
    if ok { assert inbox[4..][..size] == inbox[4..4 + size]; }
  }

  /** Everything the root knows after its first `|order|` accepted connections. */
  ghost predicate Claimed(order: seq<nat>, peers: seq<int>, inboxes: seq<seq<int>>, n: nat, size: nat, all: seq<int>)
  {
    && InRange(order, n) && |peers| == n && |order| <= |inboxes|
    && (forall p :: 0 <= p < n && peers[p] >= 0 ==> peers[p] < |order| && order[peers[p]] == p)
    && (forall i :: 0 <= i < |order| ==> peers[order[i]] == i)
    && (forall i :: 0 <= i < |order| ==> Delivered(inboxes[i], order[i], size, all))
  }

  lemma ClaimNext(order: seq<nat>, peers: seq<int>, inboxes: seq<seq<int>>, n: nat, size: nat, all: seq<int>, p: nat,
                  all': seq<int>)
    requires Claimed(order, peers, inboxes, n, size, all) && |order| < |inboxes| && 0 < p < n && peers[p] < 0
             && |all'| == |all|
    requires Delivered(inboxes[|order|], p, size, all')
    requires forall j :: 0 <= j < |all| && !(p * size <= j < p * size + size) ==> all'[j] == all[j]
    ensures Claimed(order + [p], peers[p := |order|], inboxes, n, size, all')
  {
    hide Delivered;
    forall i | 0 <= i < |order| ensures Delivered(inboxes[i], order[i], size, all') {
      SlotFrame(inboxes[i], order[i], p, size, all, all');
    }
  }

  ghost predicate Separate(arrivals: seq<Socket>)
  {
    forall i, j :: 0 <= i < j < |arrivals| ==> arrivals[i] != arrivals[j]
  }

  /** The first `m` connections join, each with a rank of its own. */
  ghost predicate Admitted(inboxes: seq<seq<int>>, events: seq<seq<Event>>, m: int, n: nat, size: nat)
  {
    && m <= |inboxes| == |events|
    && (forall i :: 0 <= i < m ==> Joins(inboxes[i], events[i], n, size))
    && forall i, k :: 0 <= i < k < m ==> Claim(inboxes[i][..4]) != Claim(inboxes[k][..4])
  }

  /** The next connection is admitted exactly if it joins and its claim is still free. */
  lemma AdmitNext(order: seq<nat>, peers: seq<int>, inboxes: seq<seq<int>>, events: seq<seq<Event>>, n: nat, size: nat,
                  all: seq<int>)
    requires Claimed(order, peers, inboxes, n, size, all) && |order| < |inboxes| == |events|
    requires Admitted(inboxes, events, |order|, n, size)
    ensures Admitted(inboxes, events, |order| + 1, n, size) <==>
              Joins(inboxes[|order|], events[|order|], n, size) && peers[Claim(inboxes[|order|][..4])] < 0
  {
    var m := |order|;
    forall i | 0 <= i < m ensures Claim(inboxes[i][..4]) == order[i] {
      assert Delivered(inboxes[i], order[i], size, all);
    }
    if Joins(inboxes[m], events[m], n, size) {
      var p := Claim(inboxes[m][..4]);
      hide Joins, Delivered, Claim;
      if peers[p] >= 0 { assert order[peers[p]] == p; }
    }
  }

  /** The accept loop; connections that never come make it fail. */
  method GatherPeers(n: nat, size: nat, arrivals: seq<Socket>, all: array<int>, ghost inboxes: seq<seq<int>>,
                     ghost events: seq<seq<Event>>)
    returns (ok: bool, peers: seq<int>, ghost order: seq<nat>)
    requires n > 0 && all.Length == n * size && size > 0 && Separate(arrivals)
    requires |inboxes| == |arrivals| && forall i :: 0 <= i < |arrivals| ==> arrivals[i].inbox == inboxes[i]
    requires |events| == |arrivals| && forall i :: 0 <= i < |arrivals| ==> arrivals[i].events == events[i]
    modifies all, arrivals
    ensures ok <==> Admitted(inboxes, events, n - 1, n, size)
    ensures ok ==> forall i :: 0 <= i < n - 1 ==> arrivals[i].events == After(After(events[i], 4), size)
    ensures forall i :: 0 <= i < |arrivals| ==> arrivals[i].sent == old(arrivals[i].sent)
    ensures ok ==> |order| == n - 1 <= |arrivals| && Claimed(order, peers, inboxes, n, size, all[..])
    ensures ok ==> all[..size] == old(all[..size])
  {
    hide Joins, Delivered, Carries, After, Claim;
    ok, peers, order := true, seq(n, _ => -1), [];
    var connected := 1;
    MulAtLeast(n, size);
    while ok && connected < n
      invariant 1 <= connected <= n && |peers| == n
      invariant forall i :: 0 <= i < |arrivals| ==> arrivals[i].sent == old(arrivals[i].sent)
      invariant ok ==> |order| == connected - 1 <= |arrivals| && Claimed(order, peers, inboxes, n, size, all[..])
      invariant ok ==> forall i :: |order| <= i < |arrivals| ==>
                  arrivals[i].inbox == inboxes[i] && arrivals[i].events == events[i]
      invariant ok ==> forall i :: 0 <= i < |order| ==> arrivals[i].events == After(After(events[i], 4), size)
      invariant ok <==> Admitted(inboxes, events, connected - 1, n, size)
      invariant ok ==> all[..size] == old(all[..size])
      decreases n - connected
    {
      if connected > |arrivals| {
        ok := false;
      } else {
        hide Claimed, Admitted, Delivered, InRange;
        ghost var before := all[..];
        AdmitNext(order, peers, inboxes, events, n, size, before);
        var peer;
        ok, peer := AcceptPeer(arrivals[connected - 1], n, size, peers, all);
        if ok {
          ClaimNext(order, peers, inboxes, n, size, before, peer, all[..]);
          peers := peers[peer := connected - 1];
          order := order + [peer];
          MulAtLeast(peer, size);
          assert forall j :: 0 <= j < size ==> all[j] == before[j];
          assert all[..size] == before[..size];
        }
      }
      connected := connected + 1;
    }
  }

  /** `after` is `before` followed by the beginning of `data`. */
  ghost predicate Partly(before: seq<int>, after: seq<int>, data: seq<int>)
  {
    exists k :: 0 <= k <= |data| && after == before + data[..k]
  }

  lemma PartlyEnds(before: seq<int>, data: seq<int>)
    ensures Partly(before, before, data) && Partly(before, before + data, data)
  {
    assert before == before + data[..0] && data[..|data|] == data;
  }

  lemma PartlySent(before: seq<int>, after: seq<int>, data: seq<int>, ok: bool)
    requires ok ==> after == before + data
    requires !ok ==> exists k :: 0 <= k < |data| && after == before + data[..k]
    ensures Partly(before, after, data)
  {
    PartlyEnds(before, data);
  }

  /** Every peer with a rank below `peer` can be sent the data. */
  ghost predicate CanBelow(order: seq<nat>, can: seq<bool>, peer: nat)
  {
    |order| <= |can| && forall i :: 0 <= i < |order| && order[i] < peer ==> can[i]
  }

  lemma CanNext(order: seq<nat>, can: seq<bool>, n: nat, peer: nat, a: nat)
    requires InRange(order, n) && |order| <= |can| && a < |order| && order[a] == peer
    ensures CanBelow(order, can, peer + 1) <==> CanBelow(order, can, peer) && can[a]
    ensures forall i :: 0 <= i < |order| && order[i] == peer ==> i == a
  {
    if CanBelow(order, can, peer) && can[a] {
      forall i | 0 <= i < |order| && order[i] < peer + 1 ensures can[i] {
        assert i == a || order[i] != order[a];
      }
    }
  }

  ghost predicate Owned(order: seq<nat>, peers: seq<int>)
  {
    forall i :: 0 <= i < |order| ==> order[i] < |peers| && peers[order[i]] == i
  }

  /** The socket that claimed a rank is found through `peers` and is no other connection's. */
  lemma Owner(arrivals: seq<Socket>, order: seq<nat>, peers: seq<int>, n: nat, peer: nat)
    requires Separate(arrivals) && |order| == n - 1 <= |arrivals| && |peers| == n && 0 < peer < n
    requires InRange(order, n) && Owned(order, peers)
    ensures 0 <= peers[peer] < n - 1 && order[peers[peer]] == peer
    ensures forall i :: 0 <= i < |arrivals| && i != peers[peer] ==> arrivals[i] != arrivals[peers[peer]]
  {
    Pigeonhole(order, n, peer);
  }

  lemma CanEnds(order: seq<nat>, can: seq<bool>, n: nat)
    requires InRange(order, n) && |order| <= |can|
    ensures CanBelow(order, can, 1)
    ensures CanBelow(order, can, n) <==> forall i :: 0 <= i < |order| ==> can[i]
    ensures forall peer: nat :: peer <= n && CanBelow(order, can, n) ==> CanBelow(order, can, peer)
    ensures forall i :: 0 <= i < |order| ==> 0 < order[i] < n
  {
  }

  /** A socket that has been sent the data, or one that still can be sent it just if `can`. */
  ghost predicate Answered(socket: Socket, before: seq<int>, can: bool, data: seq<int>, done: bool)
    reads socket
  {
    if done then socket.sent == before + data
    else socket.sent == before && (can <==> Carries(socket.events) >= |data|)
  }

  lemma NotYet(socket: Socket, before: seq<int>, can: bool, data: seq<int>)
    requires Answered(socket, before, can, data, false)
    ensures Partly(before, socket.sent, data)
  {
    PartlyEnds(before, data);
  }

  method AnswerOne(socket: Socket, data: seq<int>, ghost before: seq<int>, ghost can: bool) returns (ok: bool)
    requires Answered(socket, before, can, data, false)
    modifies socket
    ensures ok <==> can
    ensures ok ==> Answered(socket, before, can, data, true)
    ensures Partly(before, socket.sent, data)
  {
    ok := SendAll(socket, data);
    PartlySent(before, socket.sent, data, ok);
  }

  method AnswerEach(n: nat, arrivals: seq<Socket>, peers: seq<int>, data: seq<int>, ghost order: seq<nat>,
                    ghost before: seq<seq<int>>, ghost can: seq<bool>)
    returns (ok: bool)
    requires |order| == n - 1 <= |arrivals| == |before| == |can| && |peers| == n && Separate(arrivals)
    requires InRange(order, n) && Owned(order, peers)
    requires forall i :: 0 <= i < |arrivals| ==> Answered(arrivals[i], before[i], can[i], data, false)
    modifies arrivals
    ensures ok <==> CanBelow(order, can, n)
    ensures ok ==> forall i :: 0 <= i < n - 1 ==> Answered(arrivals[i], before[i], can[i], data, true)
    ensures forall i :: 0 <= i < |arrivals| ==> Partly(before[i], arrivals[i].sent, data)
  {
    hide Partly, CanBelow, InRange, Answered, Separate, Owned;
    ok := true;
    var peer := 1;
    CanEnds(order, can, n);
    forall i | 0 <= i < |arrivals| ensures Partly(before[i], arrivals[i].sent, data) {
      NotYet(arrivals[i], before[i], can[i], data);
    }
    while ok && peer < n
      invariant 1 <= peer <= n
      invariant ok <==> CanBelow(order, can, peer)
      invariant ok ==> forall i :: 0 <= i < n - 1 ==> Answered(arrivals[i], before[i], can[i], data, order[i] < peer)
      invariant forall i :: 0 <= i < |arrivals| ==> Partly(before[i], arrivals[i].sent, data)
      decreases n - peer
    {
      Owner(arrivals, order, peers, n, peer);
      ghost var a := peers[peer];
      CanNext(order, can, n, peer, a);
      ok := AnswerOne(arrivals[peers[peer]], data, before[a], can[a]);
      peer := peer + 1;
    }
  }

  /** Send everything to every peer; after a failure some have nothing and one may have a part. */
  method AnswerPeers(n: nat, arrivals: seq<Socket>, peers: seq<int>, data: seq<int>, ghost order: seq<nat>)
    returns (ok: bool)
    requires |order| == n - 1 <= |arrivals| && |peers| == n && Separate(arrivals)
    requires InRange(order, n) && Owned(order, peers)
    modifies arrivals
    ensures ok <==> forall i :: 0 <= i < n - 1 ==> Carries(old(arrivals[i].events)) >= |data|
    ensures ok ==> forall i :: 0 <= i < n - 1 ==> arrivals[i].sent == old(arrivals[i].sent) + data
    ensures forall i :: 0 <= i < |arrivals| ==> Partly(old(arrivals[i].sent), arrivals[i].sent, data)
  {
    hide Partly, CanBelow, InRange, Separate, Owned, Carries;
    ghost var before := seq(|arrivals|, i requires 0 <= i < |arrivals| reads arrivals => arrivals[i].sent);
    ghost var can := seq(|arrivals|, i requires 0 <= i < |arrivals| reads arrivals =>
      Carries(arrivals[i].events) >= |data|);
    CanEnds(order, can, n);
    ok := AnswerEach(n, arrivals, peers, data, order, before, can);
  }

  /** Every rank from 1 on has claimed one connection and filled its slot; slot 0 is the root's own. */
  ghost predicate Gathered(order: seq<nat>, inboxes: seq<seq<int>>, local: seq<int>, n: nat, all: seq<int>)
  {
    && 0 < n && |order| == n - 1 <= |inboxes| && InRange(order, n) && |all| == n * |local|
    && (forall i :: 0 <= i < |order| ==> Delivered(inboxes[i], order[i], |local|, all))
    && |local| <= |all| && all[..|local|] == local
  }

  /**
   The root's side. Success means that the first `n - 1` connections claimed the ranks 1 to n - 1
   once each, that every slot holds its claimant's data, and that all of them were sent everything.
   Whatever the outcome, no peer is sent anything but the beginning of a completely gathered array.
   */
  method Root(local: seq<int>, n: nat, arrivals: seq<Socket>, all: array<int>)
    returns (ok: bool, ghost gathered: bool, ghost order: seq<nat>, ghost inboxes: seq<seq<int>>,
             ghost events: seq<seq<Event>>)
    requires n > 0 && |local| > 0 && all.Length == n * |local| && Separate(arrivals)
    modifies all, arrivals
    ensures |inboxes| == |arrivals| && forall i :: 0 <= i < |arrivals| ==> inboxes[i] == old(arrivals[i].inbox)
    ensures |events| == |arrivals| && forall i :: 0 <= i < |arrivals| ==> events[i] == old(arrivals[i].events)
    ensures gathered <==> Admitted(inboxes, events, n - 1, n, |local|)
    ensures ok <==> gathered && forall i :: 0 <= i < n - 1 ==> Healthy(events[i], [4, |local|, n * |local|])
    ensures gathered ==> Gathered(order, inboxes, local, n, all[..]) && forall p: nat :: 0 < p < n ==> p in order
    ensures ok ==> gathered && forall i :: 0 <= i < n - 1 ==> arrivals[i].sent == old(arrivals[i].sent) + all[..]
    ensures forall i :: 0 <= i < |arrivals| ==>
              Partly(old(arrivals[i].sent), arrivals[i].sent, if gathered then all[..] else [])
  {
    hide Carries, After, Claim, Partly;
    var size := |local|;
    MulAtLeast(n, size);
    inboxes := seq(|arrivals|, i requires 0 <= i < |arrivals| reads arrivals => arrivals[i].inbox);
    events := seq(|arrivals|, i requires 0 <= i < |arrivals| reads arrivals => arrivals[i].events);
    forall j | 0 <= j < size { all[j] := local[j]; }
    assert all[..size] == local;
    var peers;
    ok, peers, order := GatherPeers(n, size, arrivals, all, inboxes, events);
    gathered := ok;
    if ok {
      forall i | 0 <= i < n - 1
        ensures Healthy(events[i], [4, size, n * size]) <==> Carries(arrivals[i].events) >= n * size
      {
        ThreeTransfers(events[i], 4, size, n * size);
        assert Joins(inboxes[i], events[i], n, size);
      }
      forall p: nat | 0 < p < n ensures p in order { Pigeonhole(order, n, p); }
      ok := AnswerPeers(n, arrivals, peers, all[..], order);
    } else {
      forall i | 0 <= i < |arrivals| ensures Partly(old(arrivals[i].sent), arrivals[i].sent, []) {
        PartlyEnds(old(arrivals[i].sent), []);
      }
    }
  }

  /** A peer's side: claim, data, then the answer. */
  method Peer(socket: Socket, rank: nat, local: seq<int>, all: array<int>) returns (ok: bool)
    modifies socket, all
    ensures ok ==> socket.sent == old(socket.sent) + (Header(rank) + local)
    ensures ok <==> Healthy(old(socket.events), [4, |local|, all.Length]) && all.Length <= |old(socket.inbox)|
    ensures Partly(old(socket.sent), socket.sent, Header(rank) + local)
    ensures ok ==> all.Length <= |old(socket.inbox)| && all[..] == old(socket.inbox)[..all.Length]
  {
    ghost var message := Header(rank) + local;
    ThreeTransfers(socket.events, 4, |local|, all.Length);
    TwoTransfers(socket.events, 4, |local|);
    ok := SendAll(socket, Header(rank));
    if !ok {
      PrefixOfMessage(old(socket.sent), socket.sent, Header(rank), [], local);
      return;
    }
    ok := SendAll(socket, local);
    if !ok {
      ghost var k :| 0 <= k < |local| && socket.sent == old(socket.sent) + Header(rank) + local[..k];
      PrefixOfMessage(old(socket.sent), socket.sent, Header(rank), local[..k], local);
      return;
    }
    assert socket.sent == old(socket.sent) + message;
    PartlyEnds(old(socket.sent), message);
    ok := RecvAll(socket, all, 0, all.Length);
    assert all[..] == all[0..all.Length];
  }

  /** Both ways a peer's message can break off leave a beginning of it. */
  lemma PrefixOfMessage(before: seq<int>, after: seq<int>, head: seq<int>, part: seq<int>, body: seq<int>)
    requires part <= body
    requires Partly(before, after, head) || after == before + head + part
    ensures Partly(before, after, head + body)
  {
    var message := head + body;
    if after == before + head + part {
      assert message[..|head| + |part|] == head + part;
      assert after == before + message[..|head| + |part|];
    } else {
      var k :| 0 <= k <= |head| && after == before + head[..k];
      assert message[..k] == head[..k];
    }
  }

  /** Slot `p` of the gathered array holds `data`. */
  ghost predicate SlotHolds(all: seq<int>, p: nat, data: seq<int>)
  {
    var size := |data|;
    0 <= p * size && p * size + size <= |all| && all[p * size..p * size + size] == data
  }

  /** Connection `i` carries what the peer of rank `ranks[i]` sends, as far as it was sent. */
  ghost predicate FromPeers(ranks: seq<nat>, data: seq<seq<int>>, inboxes: seq<seq<int>>)
  {
    && |ranks| == |inboxes| && 0 < |data| <= 0x8000_0000
    && (forall r :: 0 <= r < |data| ==> |data[r]| == |data[0]|)
    && forall i :: 0 <= i < |ranks| ==> ranks[i] < |data| && inboxes[i] <= Header(ranks[i]) + data[ranks[i]]
  }

  /** The root's slots hold every rank's own data, whatever the order of arrival. */
  lemma GatherComplete(order: seq<nat>, ranks: seq<nat>, data: seq<seq<int>>, inboxes: seq<seq<int>>, all: seq<int>,
                       p: nat)
    requires FromPeers(ranks, data, inboxes) && Gathered(order, inboxes, data[0], |data|, all) && p < |data|
    ensures SlotHolds(all, p, data[p])
  {
    hide Header, Claim, InRange;
    if p > 0 {
      Pigeonhole(order, |data|, p);
      var i :| 0 <= i < |order| && order[i] == p;
      var size, message := |data[0]|, Header(ranks[i]) + data[ranks[i]];
      HeaderRoundTrip(ranks[i]);
      assert Delivered(inboxes[i], p, size, all);
      assert inboxes[i] == message;
      assert message[..4] == Header(ranks[i]);
      assert message[4..4 + size] == data[ranks[i]];
    }
  }

  /** Bytes that fill the array can only come from a gathered one. */
  lemma HeldIsAll(gathered: bool, all: seq<int>, sent: seq<int>, inbox: seq<int>, held: seq<int>)
    requires |held| > 0 && (gathered ==> |all| == |held|) && Partly([], sent, if gathered then all else [])
    requires inbox <= sent && |held| <= |inbox| && held == inbox[..|held|]
    ensures gathered && held == all
  {
    var data := if gathered then all else [];
    var k :| 0 <= k <= |data| && sent == [] + data[..k];
    assert |sent| == k;
    assert held == sent[..|held|];
    assert data[..k] == data;
  }

  /**
   Both sides together. A successful peer has received as many bytes as the root's array has, and
   they are the beginning of what the root sent on its connection. So the root had gathered
   everything, even if it failed later, and the peer holds the root's array: every rank's data.
   */
  lemma PeerHoldsAll(order: seq<nat>, ranks: seq<nat>, data: seq<seq<int>>, inboxes: seq<seq<int>>, gathered: bool,
                     all: seq<int>, sent: seq<int>, inbox: seq<int>, held: seq<int>)
    requires FromPeers(ranks, data, inboxes) && |data[0]| > 0
    requires gathered ==> Gathered(order, inboxes, data[0], |data|, all)
    requires Partly([], sent, if gathered then all else [])
    requires inbox <= sent && |held| == |data| * |data[0]| <= |inbox| && held == inbox[..|held|]
    ensures gathered && held == all && forall p: nat :: p < |data| ==> SlotHolds(held, p, data[p])
  {
    hide Partly, SlotHolds, Delivered, InRange, Header;
    MulAtLeast(|data|, |data[0]|);
    HeldIsAll(gathered, all, sent, inbox, held);
    forall p: nat | p < |data| ensures SlotHolds(all, p, data[p]) {
      GatherComplete(order, ranks, data, inboxes, all, p);
    }
  }
}
