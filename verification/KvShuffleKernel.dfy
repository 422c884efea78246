/**
 The parts of the KV shuffle beside its handshake: the round counter of the host object, the
 block loop of a sending core, and how the cores' slices cut up a block. The slices are right
 for exactly one number of cores.
 */
module KvShuffleKernel {
  import opened Arith
  import opened KvShuffle

  datatype Launch = Launch(table: Table, count: int)

  /** Launches on one stream run in order; every one carries the number of calls so far. */
  class ShuffleOps {
    var count: int
    var launches: seq<Launch>

    constructor ()
      ensures Valid() && launches == []
    {
      count, launches := 0, [];
    }

    predicate Valid()
      reads this
    {
      count == |launches| && forall c :: 0 <= c < |launches| ==> launches[c].count == c + 1
    }

    method Compute(table: Table)
      requires Valid()
      modifies this
      ensures Valid() && launches == old(launches) + [Launch(table, old(count) + 1)]
    {
      count := count + 1;
      launches := launches + [Launch(table, count)];
    }
  }

  // ---- the block loop ----

  datatype Plane = Keys | Values

  datatype Put = Put(plane: Plane, from: nat, to: nat, count: nat)

  function CoreSize(cores: nat, size: nat): nat
    requires cores >= 2
  {
    size / (cores / 2)
  }

  function PlaneOf(k: nat): Plane
  {
    if k < 8 then Keys else Values
  }

  function SliceAt(cores: nat, size: nat, k: nat): nat
    requires cores >= 2
  {
    MulLe(0, k % 8, CoreSize(cores, size));
    k % 8 * CoreSize(cores, size)
  }

  function SlicePut(cores: nat, size: nat, k: nat, src: nat, dst: nat): Put
    requires cores >= 2
  {
    MulLe(0, src, size);
    MulLe(0, dst, size);
    Put(PlaneOf(k), src * size + SliceAt(cores, size, k), dst * size + SliceAt(cores, size, k), CoreSize(cores, size))
  }

  method EmitBlocks(cores: nat, size: nat, k: nat, src: seq<nat>, dst: seq<nat>) returns (puts: seq<Put>)
    requires cores >= 2 && |src| == |dst|
    ensures |puts| == |src|
    ensures forall i :: 0 <= i < |puts| ==> puts[i] == SlicePut(cores, size, k, src[i], dst[i])
  {
    puts := [];
    var coreSize := size / (cores / 2);
    var i := 0;
    while i < |src|
      invariant 0 <= i == |puts| <= |src|
      invariant forall j :: 0 <= j < i ==> puts[j] == SlicePut(cores, size, k, src[j], dst[j])
    {
      var srcBlock, dstBlock := src[i], dst[i];
      MulLe(0, srcBlock, size);
      MulLe(0, dstBlock, size);
      MulLe(0, k % 8, coreSize);
      var srcOffset := srcBlock * size + k % 8 * coreSize;
      var dstOffset := dstBlock * size + k % 8 * coreSize;
      if k < 8 {
        puts := puts + [Put(Keys, srcOffset, dstOffset, coreSize)];
      }
      if k >= 8 {
        puts := puts + [Put(Values, srcOffset, dstOffset, coreSize)];
      }
      i := i + 1;
    }
  }

  // ---- slices and blocks ----

  predicate Covers(cores: nat, size: nat, k: nat, plane: Plane, b: nat)
    requires cores >= 2
  {
    PlaneOf(k) == plane && SliceAt(cores, size, k) <= b < SliceAt(cores, size, k) + CoreSize(cores, size)
  }

  /** The slices stay inside the block, and every byte of both caches belongs to exactly one core. */
  ghost predicate Tiles(cores: nat, size: nat)
    requires cores >= 2
  {
    && (forall k: nat, plane, b: nat :: k < cores && Covers(cores, size, k, plane, b) ==> b < size)
    && (forall plane, b: nat :: b < size ==> Owned(cores, size, plane, b))
    && (forall plane, b: nat, k: nat, k': nat ::
          k < cores && k' < cores && Covers(cores, size, k, plane, b) && Covers(cores, size, k', plane, b) ==> k == k')
  }

  ghost predicate Owned(cores: nat, size: nat, plane: Plane, b: nat)
    requires cores >= 2
  {
    exists k: nat :: k < cores && Covers(cores, size, k, plane, b)
  }

  lemma SixteenTile(size: nat)
    requires size % 8 == 0
    ensures Tiles(16, size)
  {
    hide Covers;
    var w := size / 8;
    forall plane: Plane, b: nat | b < size ensures Owned(16, size, plane, b) {
      OwnerOf(size, plane, b);
    }
    forall k: nat, plane: Plane, b: nat | k < 16 && Covers(16, size, k, plane, b)
      ensures b < size && k % 8 == b / w && PlaneOf(k) == plane
    {
      CoveredBy(size, k, plane, b);
    }
  }

  lemma OwnerOf(size: nat, plane: Plane, b: nat)
    requires size % 8 == 0 && b < size
    ensures Owned(16, size, plane, b)
  {
    var w := size / 8;
    UnpackBound(b, w, 8);
    Recompose(b, w);
    var k := if plane == Keys then b / w else 8 + b / w;
    assert k % 8 == b / w;
    assert Covers(16, size, k, plane, b);
  }

  lemma CoveredBy(size: nat, k: nat, plane: Plane, b: nat)
    requires size % 8 == 0 && k < 16 && Covers(16, size, k, plane, b)
    ensures b < size && k % 8 == b / (size / 8) && PlaneOf(k) == plane
  {
    var w := size / 8;
    DivMod(k % 8, w, b - k % 8 * w);
    MulLe(k % 8 + 1, 8, w);
    assert (k % 8 + 1) * w == k % 8 * w + w;
  }

  /** Core 7 must stay inside the block, and a value core must end it, so a block is eight slices. */
  lemma TilesSixteen(cores: nat, size: nat)
    requires cores >= 2 && size > 0 && Tiles(cores, size)
    ensures cores == 16 && size % 8 == 0
  {
    var w := CoreSize(cores, size);
    assert Owned(cores, size, Values, size - 1);
    var j: nat :| j < cores && Covers(cores, size, j, Values, size - 1);
    LastSlice(cores, size, j);
    assert w > 0;
    assert Covers(cores, size, 7, Keys, 7 * w + w - 1);
    if j % 8 < 7 { MulLe(j % 8 + 1, 7, w); }
    if cores > 16 {
      assert Covers(cores, size, 8, Values, 0);
      assert Covers(cores, size, 16, Values, 0);
    }
  }

  /** The cores cut every block up correctly for sixteen cores and block sizes they share evenly, and for no others. */
  lemma TilesExactly(cores: nat, size: nat)
    requires cores >= 2 && size > 0
    ensures Tiles(cores, size) <==> cores == 16 && size % 8 == 0
  {
    if Tiles(cores, size) { TilesSixteen(cores, size); }
    if cores == 16 && size % 8 == 0 { SixteenTile(size); }
  }

  /** With half as many cores the value cache is never copied and key slices run past their block. */
  lemma EightCoresOverrun()
    ensures !Owned(8, 64, Values, 0) && Covers(8, 64, 7, Keys, 127) && !Tiles(8, 64)
  {
    TilesExactly(8, 64);
  }

  /** The slice that holds the last byte ends at it, so the block is a whole number of slices. */
  lemma LastSlice(cores: nat, size: nat, k: nat)
    requires cores >= 2 && size > 0 && k < cores && Covers(cores, size, k, PlaneOf(k), size - 1)
    requires forall b: nat :: Covers(cores, size, k, PlaneOf(k), b) ==> b < size
    ensures size == (k % 8 + 1) * CoreSize(cores, size)
  {
    var w := CoreSize(cores, size);
    assert Covers(cores, size, k, PlaneOf(k), SliceAt(cores, size, k) + w - 1);
    assert (k % 8 + 1) * w == k % 8 * w + w;
  }

  /** Some core's put for some listed block writes address `a` of the cache. */
  ghost predicate Written(cores: nat, size: nat, src: seq<nat>, dst: seq<nat>, plane: Plane, a: nat, i: nat, k: nat)
    requires cores >= 2
  {
    && i < |src| == |dst| && k < cores
    && var p := SlicePut(cores, size, k, src[i], dst[i]); p.plane == plane && p.to <= a < p.to + p.count
  }

  /** All cores together write exactly the target blocks, each byte from the same place in its source block. */
  lemma WholeBlocks(size: nat, src: seq<nat>, dst: seq<nat>, plane: Plane, i: nat, a: nat)
    requires size > 0 && size % 8 == 0 && i < |src| == |dst|
    ensures (exists k: nat :: Written(16, size, src, dst, plane, a, i, k)) <==> dst[i] * size <= a < (dst[i] + 1) * size
    ensures forall k: nat :: Written(16, size, src, dst, plane, a, i, k) ==>
              var p := SlicePut(16, size, k, src[i], dst[i]); p.from + (a - p.to) == src[i] * size + (a - dst[i] * size)
  {
    SixteenTile(size);
    assert (dst[i] + 1) * size == dst[i] * size + size;
    var b := a - dst[i] * size;
    if 0 <= b < size {
      assert Owned(16, size, plane, b);
      var k: nat :| k < 16 && Covers(16, size, k, plane, b);
      assert Written(16, size, src, dst, plane, a, i, k);
    }
    forall k: nat | Written(16, size, src, dst, plane, a, i, k) ensures 0 <= b < size {
      assert Covers(16, size, k, plane, b);
    }
  }
}
