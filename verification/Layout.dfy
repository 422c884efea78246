/**
 The byte layout of the symmetric windows. Host and kernel compute it separately, the host in
 bytes and the kernel in elements; the models of dispatch and combine rely on what is shown
 here: the two agree, slots never overlap, and every slot lies inside the allocated window.
 */
module Layout {
  import opened Arith

  const ALIGN: nat := 32

  /** The length of `total` bytes rounded up to whole 32-byte units. */
  function AlignUp(total: nat): (r: nat)
    ensures total <= r < total + ALIGN && r % ALIGN == 0
  {
    (total + ALIGN - 1) / ALIGN * ALIGN
  }

  /** `elem` is the size of an element in bytes. */
  datatype Shape = Shape(bs: nat, h: nat, k: nat, n: nat, local: nat, elem: nat)

  predicate Fits(s: Shape)
  {
    s.elem > 0 && ALIGN % s.elem == 0
  }

  function Segments(s: Shape): nat { Times(s.n, s.local) }

  function Slots(s: Shape): nat { Times(Segments(s), Times(s.bs, s.k)) }

  function Times(a: nat, b: nat): nat
  {
    MulLe(0, a, b);
    a * b
  }

  // ---- regions ----

  /** `count` slots, `pitch` bytes apart, of which `width` bytes each are used. */
  datatype Region = Region(base: nat, pitch: nat, width: nat, count: nat)

  function SlotBegin(r: Region, i: nat): nat { r.base + Times(i, r.pitch) }

  function SlotEnd(r: Region, i: nat): nat { SlotBegin(r, i) + r.width }

  function RegionEnd(r: Region): nat { r.base + Times(r.count, r.pitch) }

  predicate Apart(b1: nat, e1: nat, b2: nat, e2: nat)
  {
    e1 <= b2 || e2 <= b1
  }

  lemma SlotInRegion(r: Region, i: nat)
    requires i < r.count && r.width <= r.pitch
    ensures r.base <= SlotBegin(r, i) && SlotEnd(r, i) <= RegionEnd(r)
  {
    MulLe(i + 1, r.count, r.pitch);
    Distribute(i + 1, i, r.pitch);
  }

  lemma SlotsApart(r: Region, i: nat, j: nat)
    requires i != j && r.width <= r.pitch
    ensures Apart(SlotBegin(r, i), SlotEnd(r, i), SlotBegin(r, j), SlotEnd(r, j))
  {
    if i < j { MulLe(i + 1, j, r.pitch); } else { MulLe(j + 1, i, r.pitch); }
    Distribute(i + 1, i, r.pitch);
    Distribute(j + 1, j, r.pitch);
  }

  /** Regions laid out one behind the other. */
  ghost predicate Stacked(rs: seq<Region>)
  {
    && (forall a :: 0 <= a < |rs| ==> rs[a].width <= rs[a].pitch)
    && (forall a, b :: 0 <= a < b < |rs| ==> RegionEnd(rs[a]) <= rs[b].base)
  }

  /** In stacked regions no two different slots share a byte. */
  lemma StackedApart(rs: seq<Region>, a: nat, i: nat, b: nat, j: nat)
    requires Stacked(rs) && a < |rs| && b < |rs| && i < rs[a].count && j < rs[b].count && (a, i) != (b, j)
    ensures Apart(SlotBegin(rs[a], i), SlotEnd(rs[a], i), SlotBegin(rs[b], j), SlotEnd(rs[b], j))
  {
    if a == b {
      SlotsApart(rs[a], i, j);
    } else {
      SlotInRegion(rs[a], i);
      SlotInRegion(rs[b], j);
    }
  }

  // ---- the kernel's view ----

  /** The distance of two rows, counted in elements. */
  function Stride(s: Shape): nat
    requires s.elem > 0
  {
    AlignUp(Times(s.h, s.elem)) / s.elem
  }

  lemma MulAssoc(a: int, b: int, c: int)
    ensures a * (b * c) == a * b * c
  {
  }

  /** Rounding to 32 bytes loses nothing when an element divides 32. */
  lemma StrideBytes(s: Shape)
    requires Fits(s)
    ensures Times(Stride(s), s.elem) == AlignUp(Times(s.h, s.elem)) && s.h <= Stride(s)
  {
    var bytes, e := AlignUp(Times(s.h, s.elem)), s.elem;
    var q, u := bytes / ALIGN, ALIGN / e;
    assert bytes == q * ALIGN && ALIGN == u * e;
    MulAssoc(q, u, e);
    DivMod(q * u, e, 0);
    if s.h > Stride(s) {
      MulLe(Stride(s) + 1, s.h, e);
      Distribute(Stride(s) + 1, Stride(s), e);
    }
  }

  function KernelPayload(s: Shape): nat
    requires s.elem > 0
  {
    Times(Times(Slots(s), Stride(s)), s.elem)
  }

  /** Payload, assist, ready and count regions as the dispatch kernel's base pointers place them. */
  function DispatchRegions(s: Shape): seq<Region>
    requires s.elem > 0
  {
    var payload, words := KernelPayload(s), Times(Slots(s), ALIGN);
    [Region(0, Times(Stride(s), s.elem), Times(s.h, s.elem), Slots(s)), Region(payload, ALIGN, 12, Slots(s)),
     Region(payload + words, ALIGN, ALIGN, Slots(s)), Region(payload + words + words, ALIGN, ALIGN, Segments(s))]
  }

  function CombineRegions(s: Shape): seq<Region>
    requires s.elem > 0
  {
    var slots := Times(s.bs, s.k);
    [Region(0, Times(Stride(s), s.elem), Times(s.h, s.elem), slots),
     Region(Times(Times(slots, Stride(s)), s.elem), ALIGN, ALIGN, slots)]
  }

  // ---- the host's view ----

  function DispatchWindowBytes(s: Shape): nat
  {
    var slots, stride := Slots(s), AlignUp(Times(s.h, s.elem));
    Times(slots, stride) + Times(slots, ALIGN) + Times(slots, ALIGN) + Times(Segments(s), ALIGN)
      + Times(Segments(s), ALIGN)
  }

  function DispatchCountOffset(s: Shape): nat
  {
    var slots, stride := Slots(s), AlignUp(Times(s.h, s.elem));
    Times(slots, stride) + Times(slots, ALIGN) + Times(slots, ALIGN)
  }

  function DispatchCountBytes(s: Shape): nat { Times(Segments(s), ALIGN) }

  function CombineWindowBytes(s: Shape): nat
  {
    Times(Times(s.bs, s.k), AlignUp(Times(s.h, s.elem))) + Times(Times(s.bs, s.k), ALIGN)
  }

  // ---- agreement ----

  lemma TimesTimes(a: nat, b: nat, c: nat)
    ensures Times(Times(a, b), c) == Times(a, Times(b, c))
  {
    MulAssoc(a, b, c);
  }

  lemma RowsWide(s: Shape)
    requires Fits(s)
    ensures Times(s.h, s.elem) <= Times(Stride(s), s.elem)
  {
    StrideBytes(s);
    MulLe(s.h, Stride(s), s.elem);
  }

  /**
   For dispatch the host initialises exactly the bytes the kernel uses as count slots, and every
   slot of every region lies inside the window and shares no byte with another.
   */
  lemma DispatchLayout(s: Shape, a: nat, i: nat, b: nat, j: nat)
    requires Fits(s) && a < 4 && b < 4 && i < DispatchRegions(s)[a].count && j < DispatchRegions(s)[b].count
    ensures var rs := DispatchRegions(s);
            && DispatchCountOffset(s) == rs[3].base
               && DispatchCountOffset(s) + DispatchCountBytes(s) == RegionEnd(rs[3])
            && DispatchWindowBytes(s) == RegionEnd(rs[3]) + DispatchCountBytes(s)
            && SlotEnd(rs[a], i) <= DispatchWindowBytes(s)
            && ((a, i) != (b, j) ==>
                Apart(SlotBegin(rs[a], i), SlotEnd(rs[a], i), SlotBegin(rs[b], j), SlotEnd(rs[b], j)))
  {
    StrideBytes(s);
    RowsWide(s);
    TimesTimes(Slots(s), Stride(s), s.elem);
    hide Times, Stride, AlignUp, Slots, Segments;
    var rs := DispatchRegions(s);
    assert Stacked(rs);
    SlotInRegion(rs[a], i);
    if (a, i) != (b, j) { StackedApart(rs, a, i, b, j); }
  }

  lemma CombineLayout(s: Shape, a: nat, i: nat, b: nat, j: nat)
    requires Fits(s) && a < 2 && b < 2 && i < CombineRegions(s)[a].count && j < CombineRegions(s)[b].count
    ensures var rs := CombineRegions(s);
            && RegionEnd(rs[1]) == CombineWindowBytes(s) && SlotEnd(rs[a], i) <= CombineWindowBytes(s)
            && ((a, i) != (b, j) ==>
                Apart(SlotBegin(rs[a], i), SlotEnd(rs[a], i), SlotBegin(rs[b], j), SlotEnd(rs[b], j)))
  {
    StrideBytes(s);
    RowsWide(s);
    TimesTimes(Times(s.bs, s.k), Stride(s), s.elem);
    hide Times, Stride, AlignUp;
    var rs := CombineRegions(s);
    assert Stacked(rs);
    SlotInRegion(rs[a], i);
    if (a, i) != (b, j) { StackedApart(rs, a, i, b, j); }
  }

  /** The sizes in plain numbers: 64 bytes beside each padded row in dispatch, 32 in combine. */
  lemma WindowSizes(s: Shape)
    requires s.elem > 0
    ensures var row, segments, pairs := (s.h * s.elem + 31) / 32 * 32, s.n * s.local, s.bs * s.k;
            && DispatchWindowBytes(s) == segments * pairs * (row + 64) + segments * 64
            && CombineWindowBytes(s) == pairs * (row + 32)
            && |DispatchRegions(s)| == 4 && |CombineRegions(s)| == 2 && DispatchRegions(s)[3].count == segments
            && (forall a :: 0 <= a < 3 ==> DispatchRegions(s)[a].count == segments * pairs)
            && (forall a :: 0 <= a < 2 ==> CombineRegions(s)[a].count == pairs)
            && DispatchRegions(s)[0].width == CombineRegions(s)[0].width == s.h * s.elem
            && DispatchRegions(s)[1].width == 12 && DispatchRegions(s)[2].width == DispatchRegions(s)[3].width == 32
            && CombineRegions(s)[1].width == 32
            && DispatchCountOffset(s) == segments * pairs * (row + 64) && DispatchCountBytes(s) == segments * 32
  {
    var row, segments, pairs := (s.h * s.elem + 31) / 32 * 32, s.n * s.local, s.bs * s.k;
    assert segments * pairs * (row + 64) == segments * pairs * row + segments * pairs * 64;
    assert pairs * (row + 32) == pairs * row + pairs * 32;
  }

  /** The two views agree exactly when the padded row is a whole number of elements. */
  lemma LayoutsAgree(s: Shape)
    requires s.elem > 0
    ensures DispatchRegions(s)[3].base == DispatchCountOffset(s)
            <==> Slots(s) == 0 || AlignUp(Times(s.h, s.elem)) % s.elem == 0
  {
    var bytes, slots := AlignUp(Times(s.h, s.elem)), Slots(s);
    Recompose(bytes, s.elem);
    TimesTimes(slots, Stride(s), s.elem);
    if bytes % s.elem != 0 && slots > 0 {
      MulAtLeast(slots, bytes % s.elem);
      assert slots * bytes == slots * (bytes / s.elem * s.elem) + slots * (bytes % s.elem);
    }
  }
}
