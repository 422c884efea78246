/**
 The checks the mega-MoE example makes before it starts, and what they guarantee: on every shape
 that is started the reference counts are exact. The limit on the symmetric heap is what keeps
 the 32-bit route sums from wrapping and the 32-bit counts from overflowing.
 */
module MegaMoeShape {
  import opened Arith
  import opened MegaMoe
  import opened CheckedSize

  datatype Shape = Shape(cf: Config, modelDim: nat, ffnDim: nat)

  /**
   What the argument parser lets through: 32-bit values, positive except for the capacity, and a
   signed rank count.
   */
  ghost predicate Parsed(sh: Shape)
  {
    && 0 < sh.cf.ranks < 0x8000_0000 && 0 < sh.cf.local < MegaMoe.WORD && 0 < sh.cf.tokens < MegaMoe.WORD
    && 0 < sh.cf.perToken < MegaMoe.WORD && sh.cf.capacity < MegaMoe.WORD
    && 0 < sh.modelDim < MegaMoe.WORD && 0 < sh.ffnDim < MegaMoe.WORD
  }

  // ---- the shape check ----

  datatype Option = Some(cf: Config) | None

  function Routes(cf: Config): nat
  {
    MulLe(0, cf.tokens, cf.perToken);
    cf.tokens * cf.perToken
  }

  predicate WorkspaceFits(rows: nat, dim: nat)
  {
    Succeeds([rows, dim, 4]) && Product([rows, dim, 4]) <= 0x7FFF_FFFF_FFFF_FFFF
  }

  /** The first check; `finite` is the outcome of the test on the reference value. */
  function ResolveShape(sh: Shape, finite: bool): Option
  {
    var cf := sh.cf;
    if || sh.ffnDim % 2 != 0 || Experts(cf) >= MegaMoe.WORD || cf.perToken > Experts(cf)
       || Routes(cf) >= MegaMoe.WORD || Required(cf) >= MegaMoe.WORD
       || Routes(cf) > 0x7FFF_FFFF_FFFF_FFFF / 4 || sh.modelDim * 2 >= MegaMoe.WORD
       || sh.modelDim + (sh.modelDim + 31) / 32 >= MegaMoe.WORD
    then None
    else if cf.capacity != 0 && cf.capacity < Required(cf) then None
    else
      var rows := if cf.capacity == 0 then Required(cf) else cf.capacity;
      if WorkspaceFits(rows, sh.modelDim) && WorkspaceFits(rows, sh.ffnDim) && finite
      then Some(cf.(capacity := rows)) else None
  }

  /** The second check: all host buffer sizes fit 64 bits. */
  predicate BuffersFit(sh: Shape, r: Config)
  {
    var scale1, scale2 := AlignTo(sh.modelDim, 64) / 64 * 2, AlignTo(sh.ffnDim / 2, 64) / 64 * 2;
    && Succeeds([r.tokens, sh.modelDim, 2]) && Succeeds([r.tokens, r.perToken, 4])
    && Succeeds([r.local, sh.ffnDim, sh.modelDim]) && Succeeds([r.local, sh.modelDim, sh.ffnDim / 2])
    && Succeeds([r.local, sh.ffnDim, scale1]) && Succeeds([r.local, sh.modelDim, scale2])
    && Succeeds([r.tokens, 1]) && Succeeds([r.capacity, 4]) && Succeeds([r.local, 4])
  }

  /** If the routes fit 32 bits the required capacity fits 64, so that no product of the first check wraps. */
  lemma RequiredNoWrap(sh: Shape)
    requires Parsed(sh)
    ensures sh.cf.tokens * sh.cf.ranks % LIMIT == sh.cf.tokens * sh.cf.ranks
    ensures sh.cf.ranks * sh.cf.local % LIMIT == Experts(sh.cf)
            && sh.cf.tokens * sh.cf.perToken % LIMIT == Routes(sh.cf)
    ensures var least := if sh.cf.perToken < sh.cf.local then sh.cf.perToken else sh.cf.local;
            Routes(sh.cf) < MegaMoe.WORD ==> sh.cf.tokens * sh.cf.ranks * least % LIMIT == Required(sh.cf)
  {
    var cf := sh.cf;
    ProductBelow(cf.tokens, cf.ranks, MegaMoe.WORD - 1, MegaMoe.WORD - 1);
    ProductBelow(cf.ranks, cf.local, MegaMoe.WORD - 1, MegaMoe.WORD - 1);
    ProductBelow(cf.tokens, cf.perToken, MegaMoe.WORD - 1, MegaMoe.WORD - 1);
    SmallMod(cf.tokens * cf.ranks, LIMIT);
    SmallMod(cf.ranks * cf.local, LIMIT);
    SmallMod(cf.tokens * cf.perToken, LIMIT);
    if cf.tokens * cf.perToken < MegaMoe.WORD {
      var least := Min(cf.perToken, cf.local);
      ProductBelow(cf.tokens, least, cf.tokens, cf.perToken);
      ProductBelow(cf.ranks, cf.tokens * least, MegaMoe.WORD - 1, MegaMoe.WORD - 1);
      Regroup(cf.ranks, cf.tokens, least);
      SmallMod(Required(cf), LIMIT);
    }
  }

  lemma ProductBelow(a: nat, b: nat, la: nat, lb: nat)
    requires a <= la && b <= lb
    ensures 0 <= a * b <= la * lb
  {
    MulLe(a, la, b);
    MulLe(b, lb, la);
    MulLe(0, a, b);
  }

  /** One workspace term. */
  method CheckWorkspace(rows: nat, dim: nat) returns (ok: bool)
    requires rows < MegaMoe.WORD && dim < MegaMoe.WORD
    ensures ok <==> WorkspaceFits(rows, dim)
  {
    var term;
    ok, term := CheckedProduct([rows, dim, 4]);
    ok := ok && term <= 0x7FFF_FFFF_FFFF_FFFF;
  }

  /** The first check with its 64-bit products. */
  method ResolveAndValidateShape(sh: Shape, finite: bool) returns (r: Option)
    requires Parsed(sh)
    ensures r == ResolveShape(sh, finite)
  {
    RequiredNoWrap(sh);
    hide WorkspaceFits, Required, Experts, Routes;
    var cf := sh.cf;
    var experts, routes := cf.ranks * cf.local % LIMIT, cf.tokens * cf.perToken % LIMIT;
    var least := if cf.perToken < cf.local then cf.perToken else cf.local;
    var required := cf.tokens * cf.ranks % LIMIT;
    required := required * least % LIMIT;
    var row := sh.modelDim + (sh.modelDim + 31) / 32;
    if || sh.ffnDim % 2 != 0 || experts > 0xFFFF_FFFF || cf.perToken > experts || routes > 0xFFFF_FFFF
       || required > 0xFFFF_FFFF || routes > 0x7FFF_FFFF_FFFF_FFFF / 4 || sh.modelDim * 2 > 0xFFFF_FFFF
       || row > 0xFFFF_FFFF
    {
      return None;
    }
    var rows := cf.capacity;
    if rows == 0 {
      rows := required;
    } else if rows < required {
      return None;
    }
    var first := CheckWorkspace(rows, sh.modelDim);
    var second := CheckWorkspace(rows, sh.ffnDim);
    r := if first && second && finite then Some(cf.(capacity := rows)) else None;
  }

  /** The second check, product by product. */
  method CalculateBufferSizes(sh: Shape, r: Config) returns (ok: bool)
    requires r.tokens < MegaMoe.WORD && r.perToken < MegaMoe.WORD && r.local < MegaMoe.WORD && r.capacity < MegaMoe.WORD
    requires sh.modelDim < MegaMoe.WORD && sh.ffnDim < MegaMoe.WORD
    ensures ok <==> BuffersFit(sh, r)
  {
    hide Succeeds;
    var scale1 := (sh.modelDim + 64 - 1) / 64 * 64 / 64 * 2;
    var scale2 := (sh.ffnDim / 2 + 64 - 1) / 64 * 64 / 64 * 2;
    var size;
    ok, size := CheckedProduct([r.tokens, sh.modelDim, 2]);
    if ok { ok, size := CheckedProduct([r.tokens, r.perToken, 4]); }
    if ok { ok, size := CheckedProduct([r.tokens, r.perToken, 4]); }
    if ok { ok, size := CheckedProduct([r.local, sh.ffnDim, sh.modelDim]); }
    if ok { ok, size := CheckedProduct([r.local, sh.modelDim, sh.ffnDim / 2]); }
    if ok { ok, size := CheckedProduct([r.local, sh.ffnDim, scale1]); }
    if ok { ok, size := CheckedProduct([r.local, sh.modelDim, scale2]); }
    if ok { ok, size := CheckedProduct([r.tokens, 1]); }
    if ok { ok, size := CheckedProduct([r.capacity, 4]); }
    if ok { ok, size := CheckedProduct([r.tokens, sh.modelDim, 2]); }
    if ok { ok, size := CheckedProduct([r.local, 4]); }
  }

  // ---- the symmetric heap ----

  const CONTROL_BYTES: nat := 60 * 1024
  const RESERVE_BYTES: nat := 64 * 1024 * 1024
  const HEAP_LIMIT: nat := 1024 * 1024 * 1024

  /** One routing mask per expert, with a 32-byte count behind it. */
  function MaskSlot(cf: Config): nat
  {
    AlignTo(AlignTo(Routes(cf) * 4, 256) / 4 / 8, 32) + 32
  }

  function MaskBytes(cf: Config): nat
  {
    MulLe(0, Experts(cf), MaskSlot(cf));
    AlignTo(Experts(cf) * MaskSlot(cf), 512)
  }

  /** One quantized token: its data and one scale per 32 elements. */
  function TokenBytes(dim: nat): nat
  {
    AlignTo(AlignTo(dim, 256) + (dim + 31) / 32, 32)
  }

  function QuantizedBytes(tokens: nat, dim: nat): nat
  {
    MulLe(0, tokens, TokenBytes(dim));
    AlignTo(tokens * TokenBytes(dim), 512)
  }

  function CombineBytes(cf: Config, dim: nat): nat
  {
    MulLe(0, Routes(cf), dim);
    Routes(cf) * dim * 2
  }

  /** The symmetric memory a shape needs. */
  function HeapBytes(sh: Shape): nat
  {
    AlignTo(CONTROL_BYTES + MaskBytes(sh.cf) + QuantizedBytes(sh.cf.tokens, sh.modelDim)
            + CombineBytes(sh.cf, sh.modelDim) + RESERVE_BYTES, 512)
  }

  /** What the first check leaves of the sizes. */
  ghost predicate Bounded(sh: Shape)
  {
    && sh.cf.tokens < MegaMoe.WORD && sh.cf.perToken < MegaMoe.WORD && sh.cf.local < MegaMoe.WORD
    && sh.cf.ranks < MegaMoe.WORD && Routes(sh.cf) < MegaMoe.WORD && Experts(sh.cf) < MegaMoe.WORD
    && sh.modelDim < 0x8000_0000
  }

  /** The mask region: none of its steps can overflow on a bounded shape. */
  method MaskRegion(sh: Shape) returns (ok: bool, mask: nat)
    requires Bounded(sh)
    ensures ok && mask == MaskBytes(sh.cf) && mask < 0x8000_0000_0000_0000
  {
    var cf := sh.cf;
    var routes, compare, slot, count;
    ok, routes := CheckedMultiply(cf.tokens, cf.perToken);
    ok, compare := CheckedMultiply(routes, 4);
    ok, compare := CheckedAlignUp(compare, 256);
    count := compare / 4;
    ok, slot := CheckedAlignUp(count / 8, 32);
    ok, slot := CheckedAdd(slot, 32);
    assert slot == MaskSlot(cf) < 0x4000_0000;
    assert Experts(cf) == cf.local * cf.ranks by { assert cf.ranks * cf.local == cf.local * cf.ranks; }
    ok, mask := CheckedMultiply(cf.local, cf.ranks);
    ProductBelow(mask, slot, MegaMoe.WORD, 0x4000_0000);
    ok, mask := CheckedMultiply(mask, slot);
    ok, mask := CheckedAlignUp(mask, 512);
  }

  /** The region of quantized tokens. */
  method TokenRegion(sh: Shape) returns (ok: bool, bytes: nat)
    requires Bounded(sh)
    ensures ok && bytes == QuantizedBytes(sh.cf.tokens, sh.modelDim) && bytes < LIMIT
  {
    var data, token;
    var scales := (sh.modelDim + 31) / 32;
    ok, data := CheckedAlignUp(sh.modelDim, 256);
    ok, token := CheckedAdd(data, scales);
    ok, token := CheckedAlignUp(token, 32);
    assert token == TokenBytes(sh.modelDim) < 0xC000_0000;
    ProductBelow(sh.cf.tokens, token, MegaMoe.WORD, 0xC000_0000);
    ok, bytes := CheckedMultiply(sh.cf.tokens, token);
    ok, bytes := CheckedAlignUp(bytes, 512);
  }

  method CombineRegion(sh: Shape) returns (ok: bool, bytes: nat)
    requires Bounded(sh)
    ensures ok && bytes == CombineBytes(sh.cf, sh.modelDim) && bytes < LIMIT
  {
    var routes;
    ok, routes := CheckedMultiply(sh.cf.tokens, sh.cf.perToken);
    ProductBelow(routes, sh.modelDim, MegaMoe.WORD - 1, 0x7FFF_FFFF);
    ok, bytes := CheckedMultiply(routes, sh.modelDim);
    ok, bytes := CheckedMultiply(bytes, 2);
  }

  /**
   The size calculation with its checked steps. It fails exactly if the size does not fit 64 bits,
   and then only in the sums at the end.
   */
  method CalculateSymmetricMemorySize(sh: Shape) returns (ok: bool, result: nat)
    requires Bounded(sh)
    ensures ok <==> HeapBytes(sh) < LIMIT
    ensures ok ==> result == HeapBytes(sh)
  {
    hide MaskBytes, QuantizedBytes, CombineBytes, Bounded;
    var mask, tokens, combine, offset;
    ok, mask := MaskRegion(sh);
    ok, offset := CheckedAdd(CONTROL_BYTES, mask);
    ok, tokens := TokenRegion(sh);
    ok, offset := CheckedAdd(offset, tokens);
    if !ok { return false, 0; }
    ok, combine := CombineRegion(sh);
    ok, offset := CheckedAdd(offset, combine);
    if !ok { return false, 0; }
    ok, offset := CheckedAdd(offset, RESERVE_BYTES);
    if !ok { return false, 0; }
    AlignFits(offset, 512);
    ok, result := CheckedAlignUp(offset, 512);
  }

  // ---- shapes that are started ----

  /** The shape passes the parser and all three checks, the last one against the 1 GiB heap. */
  ghost predicate Started(sh: Shape, finite: bool, r: Config)
  {
    Parsed(sh) && ResolveShape(sh, finite) == Some(r) && BuffersFit(sh, r) && HeapBytes(sh) <= HEAP_LIMIT
  }

  lemma AtLeastFactor(a: int, m: int)
    requires a >= 1 && m >= 1
    ensures a * m >= a && a * m >= m
  {
  }

  /** A resolved shape is bounded, so that its heap size is computed without overflow before the sums. */
  lemma ResolvedBounded(sh: Shape, finite: bool, r: Config)
    requires Parsed(sh) && ResolveShape(sh, finite) == Some(r)
    ensures Bounded(sh) && r == sh.cf.(capacity := r.capacity)
    ensures Valid(r) && r.ranks <= Experts(r) && r.perToken <= Experts(r) && Required(r) <= r.capacity == Capacity(r)
  {
    AtLeastFactor(sh.cf.ranks, sh.cf.local);
    assert Experts(r) == Experts(sh.cf) && Required(r) == Required(sh.cf);
  }

  /** The heap limit leaves at most 2 to the 29 routes, so no route sum wraps. */
  lemma StartedFacts(sh: Shape, finite: bool, r: Config)
    requires Started(sh, finite, r)
    ensures Valid(r) && r.ranks <= Experts(r) && r.perToken <= Experts(r) && Required(r) <= r.capacity == Capacity(r)
    ensures Routes(r) <= 0x2000_0000 && NoWrap(r)
  {
    ResolvedBounded(sh, finite, r);
    hide ResolveShape, BuffersFit, MaskBytes, QuantizedBytes;
    assert Routes(r) == Routes(sh.cf);
    AtLeastFactor(r.tokens, r.perToken);
    AtLeastFactor(Routes(r), sh.modelDim);
    assert CombineBytes(sh.cf, sh.modelDim) <= HEAP_LIMIT;
  }

  /** The stored count of every expert of every rank is what the expert receives. */
  ghost predicate CountsExact(r: Config)
    requires Experts(r) > 0
  {
    forall rank: nat, e: nat :: rank < r.ranks && e < r.local ==> Keeps(r, rank, e)
  }

  ghost predicate Keeps(r: Config, rank: nat, e: nat)
    requires Experts(r) > 0
  {
    && rank * r.local >= 0
    && ToInt32(Accepted(r, rank, e)) == Accepted(r, rank, e) == ExpertTotal(r, rank * r.local + e, r.ranks)
    && Accepted(r, rank, e) <= 0x2000_0000
  }

  lemma RankKeeps(r: Config, rank: nat, e: nat)
    requires Experts(r) > 0 && e < r.local && RankTotal(r, rank) <= Capacity(r)
    requires NoWrap(r) && r.ranks <= Experts(r) && Routes(r) <= 0x2000_0000
    ensures Keeps(r, rank, e)
  {
    MulLe(0, rank, r.local);
    var lo := rank * r.local;
    RangeSplit(r, lo, e + 1, r.local - (e + 1));
    RangeSplit(r, lo, e, r.local - e);
    ExpertBound(r, lo + e);
  }

  /** The stored counts of one rank. */
  function StoredSum(cf: Config, rank: nat, n: nat): int
    requires Experts(cf) > 0
  {
    if n == 0 then 0 else StoredSum(cf, rank, n - 1) + ToInt32(Accepted(cf, rank, n - 1))
  }

  function AllStored(cf: Config, d: nat): int
    requires Experts(cf) > 0
  {
    if d == 0 then 0 else AllStored(cf, d - 1) + StoredSum(cf, d - 1, cf.local)
  }

  lemma {:induction false} KeptSum(r: Config, rank: nat, n: nat)
    requires Experts(r) > 0 && forall e: nat :: e < n ==> Keeps(r, rank, e)
    ensures rank * r.local >= 0 && StoredSum(r, rank, n) == RangeTotal(r, rank * r.local, n)
  {
    hide ToInt32, Accepted;
    MulLe(0, rank, r.local);
    if n > 0 {
      KeptSum(r, rank, n - 1);
      assert Keeps(r, rank, n - 1);
    }
  }

  lemma {:induction false} KeptTotal(r: Config, d: nat)
    requires Experts(r) > 0 && CountsExact(r) && d <= r.ranks
    ensures AllStored(r, d) == RanksTotal(r, d)
  {
    hide Keeps;
    if d > 0 {
      KeptTotal(r, d - 1);
      KeptSum(r, d - 1, r.local);
    }
  }

  /**
   On every shape that is started the reference drops nothing and overflows nothing: each stored
   count is the full number received, below 2 to the 31, and the counts of all ranks add up to one
   per rank, token and route.
   */
  lemma StartedCounts(sh: Shape, finite: bool, r: Config)
    requires Started(sh, finite, r)
    ensures Experts(r) > 0 && CountsExact(r) && AllStored(r, r.ranks) == r.ranks * (r.tokens * r.perToken)
  {
    StartedFacts(sh, finite, r);
    hide Started, Keeps, AllStored, RanksTotal;
    forall rank: nat, e: nat | rank < r.ranks && e < r.local ensures Keeps(r, rank, e) {
      RequiredIsEnough(r, rank);
      RankKeeps(r, rank, e);
    }
    KeptTotal(r, r.ranks);
    Conserved(r);
  }

  // ---- any capacity ----

  lemma AcceptedBound(cf: Config, rank: nat, e: nat)
    requires Experts(cf) > 0 && NoWrap(cf) && cf.ranks <= Experts(cf)
    ensures 0 <= Accepted(cf, rank, e) <= Routes(cf)
  {
    MulLe(0, rank, cf.local);
    ExpertBound(cf, rank * cf.local + e);
  }

  /**
   With any capacity at all, the stored counts of a rank add up to the smaller of what it receives
   and its capacity, as long as there are fewer than 2 to the 31 routes.
   */
  lemma {:induction false} StoredTotal(cf: Config, rank: nat, n: nat)
    requires Experts(cf) > 0 && NoWrap(cf) && cf.ranks <= Experts(cf) && Routes(cf) < 0x8000_0000
    ensures rank * cf.local >= 0
    ensures StoredSum(cf, rank, n) == Clip(Capacity(cf), RangeTotal(cf, rank * cf.local, n))
  {
    MulLe(0, rank, cf.local);
    if n > 0 {
      StoredTotal(cf, rank, n - 1);
      AcceptedBound(cf, rank, n - 1);
    }
  }

  /** On a started shape this holds whatever the capacity is set to. */
  lemma StartedAnyCapacity(sh: Shape, finite: bool, r: Config, capacity: nat, rank: nat)
    requires Started(sh, finite, r) && rank < r.ranks
    ensures var cf := r.(capacity := capacity);
            Experts(cf) > 0 && StoredSum(cf, rank, cf.local) == Clip(Capacity(cf), RankTotal(cf, rank))
  {
    StartedFacts(sh, finite, r);
    hide Started, StoredSum, RangeTotal, Required, Clip;
    var cf := r.(capacity := capacity);
    assert Experts(cf) == Experts(r) && Routes(cf) == Routes(r);
    StoredTotal(cf, rank, cf.local);
  }

  // ---- the default shape ----

  /** One rank, one expert, one token, and rows of 1024 elements. */
  function DefaultShape(): Shape
  {
    Shape(Config(1, 1, 1, 1, 0), 1024, 1024)
  }

  lemma DefaultStarts()
    ensures Started(DefaultShape(), true, Config(1, 1, 1, 1, 1))
    ensures HeapBytes(DefaultShape()) == 67_174_400 && HEAP_LIMIT == 1_073_741_824
  {
    DefaultSizes();
    DefaultHeap();
    hide HeapBytes, Succeeds, Product;
    var sh := DefaultShape();
    assert Experts(sh.cf) == 1 && Required(sh.cf) == 1 && Routes(sh.cf) == 1;
  }

  lemma DefaultHeap()
    ensures HeapBytes(DefaultShape()) == 67_174_400
  {
    var sh := DefaultShape();
    assert Experts(sh.cf) == 1 && Routes(sh.cf) == 1;
    assert MaskSlot(sh.cf) == 64 && MaskBytes(sh.cf) == 512;
    assert TokenBytes(1024) == 1056 && QuantizedBytes(1, 1024) == 1536 && CombineBytes(sh.cf, 1024) == 2048;
  }

  lemma DefaultSizes()
    ensures WorkspaceFits(1, 1024)
    ensures BuffersFit(DefaultShape(), Config(1, 1, 1, 1, 1))
  {
    var sh := DefaultShape();
    assert Experts(sh.cf) == 1 && Required(sh.cf) == 1 && Routes(sh.cf) == 1;
    ThreeFactors(1, 1024, 4);
    ThreeFactors(1, 1024, 2);
    ThreeFactors(1, 1, 4);
    ThreeFactors(1, 1024, 1024);
    ThreeFactors(1, 1024, 512);
    ThreeFactors(1, 1024, 32);
    ThreeFactors(1, 1024, 16);
    CallsExact([1, 1]);
    CallsExact([1, 4]);
    TwoFactors(1, 1);
    TwoFactors(1, 4);
  }

  lemma ThreeFactors(a: nat, b: nat, c: nat)
    requires a < MegaMoe.WORD && b < MegaMoe.WORD && a * b * c < LIMIT
    ensures Succeeds([a, b, c]) && Product([a, b, c]) == a * b * c
  {
    CallsExact([a, b, c]);
    assert [a, b, c][..2] == [a, b];
    TwoFactors(a, b);
  }
}
