/**
 The loops of the all-gather kernel, proved against the model: which ranges a producer core puts
 and which flags it publishes, what the burst loop of a consumer core leaves in the output, and
 which arguments the big-data entry point passes to its rounds.
 */
module AllGatherKernel {
  import opened Arith
  import opened AllGather
  import opened AllGatherRounds

  /** A put of `count` elements at `at` in the round's part, followed by a signal of `flag`. */
  datatype Put = Put(at: nat, count: nat, flag: int)

  /** The put a producer makes for chunk `t`. */
  function ChunkPut(cf: Config, g: nat, t: nat): Put
    requires Valid(cf) && g < cf.groups
  {
    PublishedStep(cf, g, t, t + 1);
    Put(GroupOffset(cf, g) + Published(cf, g, t), Published(cf, g, t + 1) - Published(cf, g, t), cf.magic + (t + 1))
  }

  /** The put of chunk `t` moves exactly the elements the model's producer lands for it. */
  lemma ChunkPutExact(cf: Config, g: nat, t: nat, e: nat)
    requires Valid(cf) && g < cf.groups
    ensures var p := ChunkPut(cf, g, t);
            e in ChunkOf(cf, g, t) <==> p.at <= GroupOffset(cf, g) + e < p.at + p.count
  {
    PublishedStep(cf, g, t, t + 1);
  }

  /** `Chunks` whole chunks when the sizes divide, else a last shorter one. */
  lemma FullChunks(cf: Config, g: nat, t: nat, left: int)
    requires Valid(cf) && g < cf.groups && left == GroupLen(cf, g) - t * cf.chunk
    ensures left >= cf.chunk ==>
            t < Chunks(cf, g) && Published(cf, g, t) == t * cf.chunk && Published(cf, g, t + 1) == (t + 1) * cf.chunk
    ensures 0 < left < cf.chunk ==>
            t + 1 == Chunks(cf, g) && Published(cf, g, t) == t * cf.chunk && Published(cf, g, t + 1) == GroupLen(cf, g)
    ensures left == 0 ==> t == Chunks(cf, g)
  {
    assert (t + 1) * cf.chunk == t * cf.chunk + cf.chunk;
    ChunksComplete(cf, g, t);
    ChunksComplete(cf, g, t + 1);
    if left == 0 && t > 0 {
      assert (t - 1) * cf.chunk == t * cf.chunk - cf.chunk;
      ChunksComplete(cf, g, t - 1);
    }
    MulLe(0, t, cf.chunk);
  }

  /** The byte count left compares and divides like the element count left. */
  lemma Bytes(left: nat, chunk: nat, size: nat)
    requires size > 0
    ensures left * size / size == left && (left * size >= chunk * size <==> left >= chunk)
    ensures left * size - chunk * size == (left - chunk) * size && (left * size <= 0 <==> left == 0)
  {
    DivMod(left, size, 0);
    Distribute(left, chunk, size);
    if left >= chunk { MulLe(chunk, left, size); } else { MulLe(left + 1, chunk, size); }
    if left > 0 { MulAtLeast(left, size); }
  }

  /** A producer core: its share of the round, whole chunks while enough bytes are left, then the rest. */
  method EmitChunks(cf: Config, g: nat, size: nat) returns (puts: seq<Put>)
    requires Valid(cf) && g < cf.groups && size > 0
    ensures |puts| == Chunks(cf, g)
    ensures forall t :: 0 <= t < |puts| ==> puts[t] == ChunkPut(cf, g, t)
  {
    hide GroupOffset, GroupLen, Chunks, Published;
    ShareExact(cf, g);
    puts := [];
    var lenPerCore := cf.len / cf.groups;
    var num := lenPerCore;
    if g == cf.groups - 1 { num := cf.len - num * g; }
    var ub := cf.chunk * size;
    ghost var left := GroupLen(cf, g);
    var bytes, times := num * size, 0;
    while bytes >= ub
      invariant 0 <= times == |puts| && 0 <= left == GroupLen(cf, g) - times * cf.chunk && bytes == left * size
      invariant forall t :: 0 <= t < |puts| ==> puts[t] == ChunkPut(cf, g, t)
      decreases left
    {
      Bytes(left, cf.chunk, size);
      FullChunks(cf, g, times, left);
      assert (times + 1) * cf.chunk == times * cf.chunk + cf.chunk;
      MulLe(0, times, cf.chunk);
      puts := puts + [Put(g * lenPerCore + times * cf.chunk, cf.chunk, times + 1 + cf.magic)];
      times := times + 1;
      bytes, left := bytes - ub, left - cf.chunk;
    }
    Bytes(left, cf.chunk, size);
    FullChunks(cf, g, times, left);
    if bytes <= 0 {
      return;
    }
    MulLe(0, times, cf.chunk);
    puts := puts + [Put(g * lenPerCore + times * cf.chunk, bytes / size, times + 1 + cf.magic)];
  }

  /** A consumer core's bursts through half a buffer add up to one copy of the whole range. */
  method CopyBursts(output: array<int>, recv: nat, gva: seq<int>, send: nat, total: nat, half: nat)
    requires half > 0 && recv + total <= output.Length && send + total <= |gva|
    modifies output
    ensures output[..] == Replace(old(output[..]), recv, gva, send, total)
  {
    var num, done := total, 0;
    while num > 0
      invariant 0 <= num && done + num == total
      invariant forall i :: recv <= i < recv + done ==> output[i] == gva[send + i - recv]
      invariant forall i :: 0 <= i < output.Length && !(recv <= i < recv + done) ==> output[i] == old(output[i])
    {
      var count := if num > half then half else num;
      forall i | recv + done <= i < recv + done + count { output[i] := gva[send + i - recv]; }
      done, num := done + count, num - count;
    }
    ReplaceIs(old(output[..]), output[..], recv, gva, send, total);
  }

  lemma ReplaceIs(dst: seq<int>, dst': seq<int>, at: nat, src: seq<int>, from: nat, m: nat)
    requires at + m <= |dst| == |dst'| && from + m <= |src|
    requires forall i :: at <= i < at + m ==> dst'[i] == src[from + i - at]
    requires forall i :: 0 <= i < |dst| && !(at <= i < at + m) ==> dst'[i] == dst[i]
    ensures dst' == Replace(dst, at, src, from, m)
  {
  }

  /**
   What `k` steps of a consumer do to it and to the output, while the flag and the memory it reads
   stay as they are.
   */
  function Repeat(cf: Config, c: Cons, flag: int, x: nat, gva: seq<int>, out: seq<int>, k: nat): (r: (Cons, seq<int>))
    requires cf.groups > 0 && |c.progress| == cf.groups
    ensures |r.0.progress| == cf.groups
  {
    if k == 0 then (c, out)
    else
      var r := Repeat(cf, c, flag, x, gva, out, k - 1);
      (ConsumerStep(cf, r.0, flag), CopyStep(cf, r.0, x, gva, r.1))
  }

  /** The byte sizes the consumer compares and divides, in elements. */
  lemma ReadySizes(ready: int, progress: nat, chunk: nat, len: nat, size: nat)
    requires size > 0
    ensures progress * (chunk * size) >= len * size <==> progress * chunk >= len
    ensures ready * (chunk * size) > len * size <==> ready * chunk > len
    ensures (len * size - progress * (chunk * size)) / size == len - progress * chunk
    ensures (ready - progress) * (chunk * size) / size == (ready - progress) * chunk
    ensures progress * (chunk * size) / size == progress * chunk
  {
    MulGroup(progress, chunk, size);
    MulGroup(ready, chunk, size);
    MulGroup(ready - progress, chunk, size);
    Distribute(len, progress * chunk, size);
    DivMod(len - progress * chunk, size, 0);
    DivMod((ready - progress) * chunk, size, 0);
    DivMod(progress * chunk, size, 0);
    Scaled(progress * chunk, len, size);
    Scaled(ready * chunk, len, size);
  }

  lemma MulGroup(a: int, b: int, c: int)
    ensures a * (b * c) == a * b * c
  {
  }

  lemma Scaled(a: int, b: int, size: int)
    requires size > 0
    ensures a * size >= b * size <==> a >= b
    ensures a * size > b * size <==> a > b
  {
    if a >= b { MulLe(b, a, size); } else { MulLe(a + 1, b, size); }
    if a > b { MulLe(b + 1, a, size); } else { MulLe(a, b, size); }
  }

  /** The first step of a visit decides what the visit does. */
  lemma FirstStep(cf: Config, c: Cons, flag: int, x: nat, gva: seq<int>, out: seq<int>)
    requires Valid(cf) && c.g < cf.groups == |c.progress| && c.mode == Polling
    ensures var p, next, ready := c.progress[c.g], c.(g := c.g + 1), flag - cf.magic;
            Repeat(cf, c, flag, x, gva, out, 1).0 ==
            if p == 0x7FFF_FFFF then next
            else if p * cf.chunk >= GroupLen(cf, c.g) then next.(progress := c.progress[c.g := 0x7FFF_FFFF])
            else if flag / 1024 != cf.magic / 1024 || ready <= 0 || p >= ready then next
            else c.(mode := Copying(ready, p * cf.chunk,
                                    if ready * cf.chunk > GroupLen(cf, c.g) then GroupLen(cf, c.g) - p * cf.chunk
                                    else (ready - p) * cf.chunk))
    ensures Repeat(cf, c, flag, x, gva, out, 1).1 == out
  {
    hide GroupLen;
    assert Repeat(cf, c, flag, x, gva, out, 0) == (c, out);
  }

  /** One more burst of a visit. */
  lemma NextBurst(cf: Config, c: Cons, flag: int, x: nat, gva: seq<int>, out: seq<int>, k: nat, mid: Cons,
                  before: seq<int>,
                  after: seq<int>, m: nat, from: nat, at: nat)
    requires Valid(cf) && mid.g < cf.groups == |c.progress| == |mid.progress| && mid.mode.Copying? && mid.mode.left > 0
    requires Repeat(cf, c, flag, x, gva, out, k) == (mid, before)
    requires m == (if mid.mode.left > cf.half then cf.half else mid.mode.left)
    requires from == GroupOffset(cf, mid.g) + mid.mode.at && at == x * cf.elements + (cf.off + from)
    requires at + m <= |before| == |after| && from + m <= |gva|
    requires forall i :: at <= i < at + m ==> after[i] == gva[from + i - at]
    requires forall i :: 0 <= i < |before| && !(at <= i < at + m) ==> after[i] == before[i]
    ensures Repeat(cf, c, flag, x, gva, out, k + 1)
         == (mid.(mode := Copying(mid.mode.ready, mid.mode.at + m, mid.mode.left - m)), after)
  {
    hide GroupOffset, GroupLen, Replace, Poll;
    ReplaceIs(before, after, at, gva, from, m);
  }

  /** The end of a visit. */
  lemma LastStep(cf: Config, c: Cons, flag: int, x: nat, gva: seq<int>, out: seq<int>, k: nat, mid: Cons, now: seq<int>)
    requires Valid(cf) && mid.g < cf.groups == |c.progress| == |mid.progress| && mid.mode.Copying? && mid.mode.left == 0
    requires Repeat(cf, c, flag, x, gva, out, k) == (mid, now)
    ensures Repeat(cf, c, flag, x, gva, out, k + 1)
         == (mid.(progress := mid.progress[mid.g := mid.mode.ready], mode := Polling, g := mid.g + 1), now)
  {
    hide GroupOffset, GroupLen, Replace, Poll;
  }

  lemma RowInside(x: nat, n: nat, elements: nat, off: nat, len: nat, from: nat)
    requires x < n && off + len <= elements && from <= len
    ensures 0 <= x * elements && x * elements + (off + from) <= n * elements
  {
    MulLe(0, x, elements);
    MulLe(x + 1, n, elements);
    Distribute(x + 1, x, elements);
  }

  /** The bursts of one visit. */
  method VisitCopy(cf: Config, g: nat, x: nat, gva: seq<int>, output: array<int>, at: nat, total: nat,
                   ghost c: Cons, ghost flag: int, ghost out: seq<int>, ghost ready: int)
    returns (ghost k: nat)
    requires Valid(cf) && g == c.g < cf.groups == |c.progress| && x < cf.n
    requires output.Length == cf.n * cf.elements && |gva| >= cf.len && at + total <= GroupLen(cf, g)
    requires Repeat(cf, c, flag, x, gva, out, 1) == (c.(mode := Copying(ready, at, total)), output[..])
    modifies output
    ensures Repeat(cf, c, flag, x, gva, out, k) == (c.(mode := Copying(ready, at + total, 0)), output[..])
  {
    hide GroupOffset, GroupLen, Repeat, Chunks;
    ShareExact(cf, g);
    GroupBound(cf, g);
    RowInside(x, cf.n, cf.elements, cf.off, cf.len, GroupOffset(cf, g) + at + total);
    var from := g * (cf.len / cf.groups);
    var into := x * cf.elements + cf.off + from;
    var sent, num := at, total;
    k := 1;
    while num > 0
      invariant 0 <= num && sent + num == at + total
      invariant Repeat(cf, c, flag, x, gva, out, k) == (c.(mode := Copying(ready, sent, num)), output[..])
    {
      ghost var before := output[..];
      var count := if num > cf.half then cf.half else num;
      forall i | into + sent <= i < into + sent + count { output[i] := gva[from + (i - into)]; }
      NextBurst(cf, c, flag, x, gva, out, k, c.(mode := Copying(ready, sent, num)), before, output[..], count,
                from + sent, into + sent);
      sent, num := sent + count, num - count;
      k := k + 1;
    }
  }

  /** A consumer core visits one group: every store and every burst is a step of the model's consumer. */
  method VisitGroup(cf: Config, g: nat, size: nat, x: nat, flag: int, gva: seq<int>, progress: array<int>,
                    output: array<int>)
    returns (ghost k: nat)
    requires Valid(cf) && g < cf.groups == progress.Length && size > 0 && x < cf.n && progress != output
    requires output.Length == cf.n * cf.elements && |gva| >= cf.len && progress[g] >= 0
    modifies progress, output
    ensures Repeat(cf, Cons(old(progress[..]), g, Polling, 0), flag, x, gva, old(output[..]), k)
         == (Cons(progress[..], g + 1, Polling, 0), output[..])
  {
    hide GroupOffset, GroupLen, Repeat, Chunks;
    ShareExact(cf, g);
    GroupBound(cf, g);
    k := 1;
    ghost var c, out := Cons(progress[..], g, Polling, 0), output[..];
    FirstStep(cf, c, flag, x, gva, out);
    if progress[g] == 0x7FFF_FFFF {
      return;
    }
    var lenPerCore := cf.len / cf.groups;
    var ub := cf.chunk * size;
    var all := lenPerCore * size;
    if g == cf.groups - 1 { all := (cf.len - g * lenPerCore) * size; }
    var ready := flag - cf.magic;
    ReadySizes(ready, progress[g], cf.chunk, GroupLen(cf, g), size);
    if progress[g] * ub >= all {
      progress[g] := 0x7FFF_FFFF;
      assert progress[..] == c.progress[g := 0x7FFF_FFFF];
      return;
    }
    if flag / 1024 != cf.magic / 1024 || ready <= 0 || progress[g] >= ready {
      return;
    }
    var at := progress[g] * ub / size;
    var num := (ready - progress[g]) * ub / size;
    if ready * ub > all { num := (all - progress[g] * ub) / size; }
    CopyRange(progress[g], ready, cf.chunk, GroupLen(cf, g), at, num);
    k := VisitCopy(cf, g, x, gva, output, at, num, c, flag, out, ready);
    LastStep(cf, c, flag, x, gva, out, k, c.(mode := Copying(ready, at + num, 0)), output[..]);
    progress[g] := ready;
    assert progress[..] == c.progress[g := ready];
    k := k + 1;
  }

  /** What a visit copies stays inside its group. */
  lemma CopyRange(progress: nat, ready: int, chunk: nat, len: nat, at: int, num: int)
    requires progress < ready && progress * chunk < len && at == progress * chunk
    requires num == if ready * chunk > len then len - progress * chunk else (ready - progress) * chunk
    ensures 0 <= at && 0 <= num && at + num <= len
  {
    MulLe(0, progress, chunk);
    MulLe(0, ready - progress, chunk);
    Distribute(ready, progress, chunk);
  }

  lemma RoundsAre(b: Launch)
    requires ValidLaunch(b)
    ensures Rounds(b) == (b.elements + GVA_BYTES / b.elemSize - 1) / (GVA_BYTES / b.elemSize)
            && PerRound(b) == GVA_BYTES / b.elemSize
  {
  }

  lemma RoundConfigIs(b: Launch, i: nat)
    requires ValidLaunch(b) && i < Rounds(b)
    ensures var m := PerRound(b);
            && 0 <= i * m && 0 < b.elements - i * m
            && RoundConfig(b, i) == Config(b.n, b.groups, b.perRank, b.elements, i * m,
                                           if b.elements - i * m > m then m else b.elements - i * m,
                                           UB_BYTES / b.elemSize, UB_BYTES / 2 / b.elemSize,
                                           (b.magic + i) * EPOCH, b.input)
  {
    RoundBound(b, i);
  }

  /** The big-data entry point: its shrinking remainder yields exactly the rounds of the model. */
  method BigDataRounds(b: Launch) returns (calls: seq<Config>)
    requires ValidLaunch(b)
    ensures |calls| == Rounds(b)
    ensures forall i :: 0 <= i < |calls| ==> calls[i] == RoundConfig(b, i)
  {
    hide Rounds, RoundLen, RoundConfig;
    RoundsAre(b);
    var most := 100 * 1024 * 1024 / b.elemSize;
    var times := (b.elements + most - 1) / most;
    var total: int := b.elements;
    calls := [];
    var i := 0;
    while i < times
      invariant 0 <= i <= times && |calls| == i && total == b.elements - i * most
      invariant forall k :: 0 <= k < i ==> calls[k] == RoundConfig(b, k)
    {
      RoundBound(b, i);
      RoundConfigIs(b, i);
      var len := if total > most then most else total;
      calls := calls + [Config(b.n, b.groups, b.perRank, b.elements, i * most, len, 190 * 1024 / b.elemSize,
                               190 * 1024 / 2 / b.elemSize, (b.magic + i) * 1024, b.input)];
      total := total - most;
      assert (i + 1) * most == i * most + most;
      i := i + 1;
    }
  }
}
