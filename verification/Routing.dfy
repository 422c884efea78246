/**
 Token routing: which (source rank, flat topK index) goes to which expert, in which segment
 and at which place. Everything the dispatch and combine kernels recompute with running
 counters is given here in closed form, and the closed forms are shown to be injective,
 in bounds and conserving.
 */
module Routing {
  import opened Arith

  /** `ids[r][f]` is the expert chosen by rank `r` for flat index `f = token * k + topk`. */
  datatype Routing = Routing(n: nat, experts: nat, bs: nat, k: nat, ids: seq<seq<nat>>)

  function Flats(rt: Routing): nat
  {
    rt.bs * rt.k
  }

  function Segments(rt: Routing): nat
  {
    rt.experts * rt.n
  }

  ghost predicate Valid(rt: Routing)
  {
    && rt.n > 0 && rt.experts > 0 && rt.k > 0
    && |rt.ids| == rt.n
    && (forall r :: 0 <= r < rt.n ==> |rt.ids[r]| == Flats(rt))
    && (forall r, f :: 0 <= r < rt.n && 0 <= f < Flats(rt) ==> rt.ids[r][f] < rt.n * rt.experts)
  }

  // ---- one source rank ----

  /** How many of the first `f` entries choose expert `e`. */
  function CountTo(s: seq<nat>, e: int, f: nat): nat
    requires f <= |s|
  {
    if f == 0 then 0 else CountTo(s, e, f - 1) + if s[f - 1] == e then 1 else 0
  }

  /** The indices below `f` that choose expert `e`, in ascending order. */
  function Select(s: seq<nat>, e: int, f: nat): seq<nat>
    requires f <= |s|
  {
    if f == 0 then [] else Select(s, e, f - 1) + if s[f - 1] == e then [f - 1] else []
  }

  lemma {:induction false} SelectFacts(s: seq<nat>, e: int, f: nat)
    requires f <= |s|
    ensures |Select(s, e, f)| == CountTo(s, e, f) <= f
    ensures forall i :: 0 <= i < |Select(s, e, f)| ==>
              Select(s, e, f)[i] < f && s[Select(s, e, f)[i]] == e && CountTo(s, e, Select(s, e, f)[i]) == i
  {
    if f > 0 { SelectFacts(s, e, f - 1); }
  }

  /** An index stands in its expert's selection exactly at the place its rank says. */
  lemma {:induction false} SelectAt(s: seq<nat>, f: nat, g: nat)
    requires f < g <= |s|
    ensures CountTo(s, s[f], f) < CountTo(s, s[f], g)
    ensures CountTo(s, s[f], f) < |Select(s, s[f], g)| && Select(s, s[f], g)[CountTo(s, s[f], f)] == f
  {
    hide Select, CountTo;
    var e := s[f];
    SelectFacts(s, e, g - 1);
    SelectStep(s, e, g - 1);
    if g > f + 1 {
      SelectAt(s, f, g - 1);
    }
  }

  lemma SelectStep(s: seq<nat>, e: int, f: nat)
    requires f < |s|
    ensures Select(s, e, f + 1) == Select(s, e, f) + if s[f] == e then [f] else []
    ensures CountTo(s, e, f + 1) == CountTo(s, e, f) + if s[f] == e then 1 else 0
  {
  }

  lemma SlotParts(slot: int, a: int, b: int)
    requires a > 0 && b > 0
    ensures slot >= 0 ==> slot / a / b >= 0
  {
    if slot >= 0 {
      Recompose(slot, a);
      Recompose(slot / a, b);
    }
  }

  /** How many of the first `f` entries choose an expert below `e`. */
  ghost function CountBelow(s: seq<nat>, e: int, f: nat): nat
    requires f <= |s|
  {
    if f == 0 then 0 else CountBelow(s, e, f - 1) + if s[f - 1] < e then 1 else 0
  }

  lemma {:induction false} CountBelowStep(s: seq<nat>, e: int, f: nat)
    requires f <= |s|
    ensures CountBelow(s, e + 1, f) == CountBelow(s, e, f) + CountTo(s, e, f)
  {
    if f > 0 { CountBelowStep(s, e, f - 1); }
  }

  lemma {:induction false} CountBelowAll(s: seq<nat>, e: int, f: nat)
    requires f <= |s| && forall i :: 0 <= i < f ==> s[i] < e
    ensures CountBelow(s, e, f) == f
  {
    if f > 0 { CountBelowAll(s, e, f - 1); }
  }

  lemma {:induction false} CountBelowNone(s: seq<nat>, f: nat)
    requires f <= |s|
    ensures CountBelow(s, 0, f) == 0
  {
    if f > 0 { CountBelowNone(s, f - 1); }
  }

  // ---- segments of a destination rank: (local expert, source rank), source rank fastest ----

  /** Segment `g` of destination rank `d`: the flat indices source `g % n` sends to local expert `g / n`. */
  function Segment(rt: Routing, d: nat, g: nat): seq<nat>
    requires Valid(rt)
  {
    Select(rt.ids[g % rt.n], d * rt.experts + g / rt.n, Flats(rt))
  }

  function Size(rt: Routing, d: nat, g: nat): nat
    requires Valid(rt)
  {
    |Segment(rt, d, g)|
  }

  /** Where segment `g` starts in the compacted output of rank `d`. */
  function Begin(rt: Routing, d: nat, g: nat): nat
    requires Valid(rt)
  {
    if g == 0 then 0 else Begin(rt, d, g - 1) + Size(rt, d, g - 1)
  }

  function Total(rt: Routing, d: nat): nat
    requires Valid(rt)
  {
    Begin(rt, d, Segments(rt))
  }

  lemma {:induction false} BeginMonotone(rt: Routing, d: nat, g: nat, g': nat)
    requires Valid(rt) && g <= g'
    ensures Begin(rt, d, g) <= Begin(rt, d, g')
    decreases g'
  {
    if g < g' { BeginMonotone(rt, d, g, g' - 1); }
  }

  /** Every compacted row belongs to a segment and a place in it. */
  lemma {:induction false} Locate(rt: Routing, d: nat, g: nat, p: nat) returns (q: nat, i: nat)
    requires Valid(rt) && p < Begin(rt, d, g)
    ensures q < g && i < Size(rt, d, q) && p == Begin(rt, d, q) + i
    decreases g
  {
    if p >= Begin(rt, d, g - 1) {
      q, i := g - 1, p - Begin(rt, d, g - 1);
    } else {
      q, i := Locate(rt, d, g - 1, p);
    }
  }

  lemma SegmentFacts(rt: Routing, d: nat, g: nat, i: nat)
    requires Valid(rt) && i < Size(rt, d, g)
    ensures var f := Segment(rt, d, g)[i];
            && f < Flats(rt)
            && rt.ids[g % rt.n][f] == d * rt.experts + g / rt.n
            && CountTo(rt.ids[g % rt.n], rt.ids[g % rt.n][f], f) == i
  {
    SelectFacts(rt.ids[g % rt.n], d * rt.experts + g / rt.n, Flats(rt));
  }

  /** The destination rank, segment and place of flat index `f` of source rank `r`. */
  function Dest(rt: Routing, r: nat, f: nat): nat
    requires Valid(rt) && r < rt.n && f < Flats(rt)
  {
    rt.ids[r][f] / rt.experts
  }

  function SegmentOf(rt: Routing, r: nat, f: nat): nat
    requires Valid(rt) && r < rt.n && f < Flats(rt)
  {
    rt.ids[r][f] % rt.experts * rt.n + r
  }

  function PlaceOf(rt: Routing, r: nat, f: nat): nat
    requires Valid(rt) && r < rt.n && f < Flats(rt)
  {
    CountTo(rt.ids[r], rt.ids[r][f], f)
  }

  /** Every routed pair has exactly one home: its own place in its own segment. */
  lemma HomeOf(rt: Routing, r: nat, f: nat)
    requires Valid(rt) && r < rt.n && f < Flats(rt)
    ensures var d, g, i := Dest(rt, r, f), SegmentOf(rt, r, f), PlaceOf(rt, r, f);
            && d < rt.n && g < Segments(rt) && g % rt.n == r && g / rt.n == rt.ids[r][f] % rt.experts
            && d * rt.experts + g / rt.n == rt.ids[r][f]
            && i < Size(rt, d, g) && Segment(rt, d, g)[i] == f
  {
    var e := rt.ids[r][f];
    UnpackBound(e, rt.experts, rt.n);
    Recompose(e, rt.experts);
    DivMod(e % rt.experts, rt.n, r);
    PackBound(e % rt.experts, rt.n, r, rt.experts);
    SelectAt(rt.ids[r], f, Flats(rt));
  }

  /** The converse: a place in a segment is the home of the pair it holds. */
  lemma HomeIs(rt: Routing, d: nat, g: nat, i: nat)
    requires Valid(rt) && d < rt.n && g < Segments(rt) && i < Size(rt, d, g)
    ensures var r, f := g % rt.n, Segment(rt, d, g)[i];
            && r < rt.n && f < Flats(rt)
            && Dest(rt, r, f) == d && SegmentOf(rt, r, f) == g && PlaceOf(rt, r, f) == i
  {
    SegmentFacts(rt, d, g, i);
    UnpackBound(g, rt.n, rt.experts);
    DivMod(d, rt.experts, g / rt.n);
    Recompose(g, rt.n);
  }

  // ---- window slots ----

  /** The window slot of place `i` in the block that source `src` owns for local expert `le`. */
  function Slot(rt: Routing, src: nat, le: nat, i: nat): nat
  {
    (src * rt.experts + le) * Flats(rt) + i
  }

  function SlotSource(rt: Routing, slot: int): (src: int)
    requires Flats(rt) > 0 && rt.experts > 0
    ensures slot >= 0 ==> src >= 0
  {
    SlotParts(slot, Flats(rt), rt.experts);
    slot / Flats(rt) / rt.experts
  }

  function SlotExpert(rt: Routing, slot: int): (le: int)
    requires Flats(rt) > 0 && rt.experts > 0
    ensures 0 <= le < rt.experts
  {
    slot / Flats(rt) % rt.experts
  }

  function SlotPlace(rt: Routing, slot: int): (i: int)
    requires Flats(rt) > 0
    ensures 0 <= i < Flats(rt)
  {
    slot % Flats(rt)
  }

  /** A slot determines its source, expert and place, and lies inside the window. */
  lemma SlotCodec(rt: Routing, src: nat, le: nat, i: nat)
    requires src < rt.n && le < rt.experts && i < Flats(rt)
    ensures var s := Slot(rt, src, le, i);
            && SlotSource(rt, s) == src && SlotExpert(rt, s) == le && SlotPlace(rt, s) == i
            && 0 <= s < rt.n * rt.experts * Flats(rt)
  {
    DivMod(src * rt.experts + le, Flats(rt), i);
    DivMod(src, rt.experts, le);
    PackBound(src, rt.experts, le, rt.n);
    PackBound(src * rt.experts + le, Flats(rt), i, rt.n * rt.experts);
  }

  /** Slots of distinct (source, expert, place) triples are distinct. */
  lemma SlotsInjective(rt: Routing, src: nat, le: nat, i: nat, src': nat, le': nat, i': nat)
    requires src < rt.n && le < rt.experts && i < Flats(rt)
    requires src' < rt.n && le' < rt.experts && i' < Flats(rt)
    requires Slot(rt, src, le, i) == Slot(rt, src', le', i')
    ensures src == src' && le == le' && i == i'
  {
    SlotCodec(rt, src, le, i);
    SlotCodec(rt, src', le', i');
  }

  function SlotOf(rt: Routing, r: nat, f: nat): nat
    requires Valid(rt) && r < rt.n && f < Flats(rt)
  {
    Slot(rt, r, rt.ids[r][f] % rt.experts, PlaceOf(rt, r, f))
  }

  /** Different (source, flat index) pairs with the same destination get different slots there. */
  lemma PairSlotsInjective(rt: Routing, r: nat, f: nat, r': nat, f': nat)
    requires Valid(rt) && r < rt.n && f < Flats(rt) && r' < rt.n && f' < Flats(rt)
    requires Dest(rt, r, f) == Dest(rt, r', f') && SlotOf(rt, r, f) == SlotOf(rt, r', f')
    ensures r == r' && f == f'
  {
    HomeOf(rt, r, f);
    HomeOf(rt, r', f');
    PlaceBelow(rt, r, f);
    PlaceBelow(rt, r', f');
    hide Select, CountTo, Slot;
    SlotsInjective(rt, r, rt.ids[r][f] % rt.experts, PlaceOf(rt, r, f),
                   r', rt.ids[r'][f'] % rt.experts, PlaceOf(rt, r', f'));
    SameDivMod(SegmentOf(rt, r, f), SegmentOf(rt, r', f'), rt.n);
  }

  lemma PlaceBelow(rt: Routing, r: nat, f: nat)
    requires Valid(rt) && r < rt.n && f < Flats(rt)
    ensures PlaceOf(rt, r, f) < Flats(rt)
  {
    SelectFacts(rt.ids[r], rt.ids[r][f], f);
  }

  // ---- conservation ----

  /** The pairs of the first `src` source ranks that choose an expert below `e`. */
  ghost function Below(rt: Routing, e: int, src: nat): nat
    requires Valid(rt) && src <= rt.n
  {
    if src == 0 then 0 else Below(rt, e, src - 1) + CountBelow(rt.ids[src - 1], e, Flats(rt))
  }

  /** Segment boundaries of one expert advance with the pairs that choose it. */
  lemma {:induction false} BeginWithinExpert(rt: Routing, d: nat, le: nat, src: nat)
    requires Valid(rt) && src <= rt.n
    ensures Begin(rt, d, le * rt.n + src)
            == Begin(rt, d, le * rt.n) + Below(rt, d * rt.experts + le + 1, src) - Below(rt, d * rt.experts + le, src)
  {
    if src > 0 {
      var g, e := le * rt.n + (src - 1), d * rt.experts + le;
      BeginWithinExpert(rt, d, le, src - 1);
      DivMod(le, rt.n, src - 1);
      MulLe(0, le, rt.n);
      MulLe(0, d, rt.experts);
      CountBelowStep(rt.ids[src - 1], e, Flats(rt));
      SelectFacts(rt.ids[src - 1], e, Flats(rt));
      hide Flats, Select, CountTo;
      assert Begin(rt, d, g + 1) == Begin(rt, d, g) + Size(rt, d, g);
    }
  }

  /** The boundary before local expert `le` counts the pairs sent to the experts before it. */
  lemma {:induction false} BeginOfExpert(rt: Routing, d: nat, le: nat)
    requires Valid(rt)
    ensures Begin(rt, d, le * rt.n) == Below(rt, d * rt.experts + le, rt.n) - Below(rt, d * rt.experts, rt.n)
  {
    if le > 0 {
      BeginOfExpert(rt, d, le - 1);
      BeginWithinExpert(rt, d, le - 1, rt.n);
      assert (le - 1) * rt.n + rt.n == le * rt.n;
    }
  }

  ghost function TotalTo(rt: Routing, d: nat): nat
    requires Valid(rt)
  {
    if d == 0 then 0 else TotalTo(rt, d - 1) + Total(rt, d - 1)
  }

  lemma {:induction false} TotalToIsBelow(rt: Routing, d: nat)
    requires Valid(rt)
    ensures TotalTo(rt, d) == Below(rt, d * rt.experts, rt.n)
  {
    if d == 0 {
      BelowNone(rt, rt.n);
    } else {
      hide Begin, Below;
      TotalToIsBelow(rt, d - 1);
      BeginOfExpert(rt, d - 1, rt.experts);
      assert (d - 1) * rt.experts + rt.experts == d * rt.experts;
    }
  }

  lemma {:induction false} BelowNone(rt: Routing, src: nat)
    requires Valid(rt) && src <= rt.n
    ensures Below(rt, 0, src) == 0
  {
    if src > 0 { BelowNone(rt, src - 1); CountBelowNone(rt.ids[src - 1], Flats(rt)); }
  }

  lemma {:induction false} BelowAll(rt: Routing, src: nat)
    requires Valid(rt) && src <= rt.n
    ensures Below(rt, rt.n * rt.experts, src) == src * Flats(rt)
  {
    if src > 0 {
      BelowAll(rt, src - 1);
      CountBelowAll(rt.ids[src - 1], rt.n * rt.experts, Flats(rt));
      Distribute(src, 1, Flats(rt));
    }
  }

  /** Conservation: over all ranks, exactly as many rows are received as pairs were routed. */
  lemma Conservation(rt: Routing)
    requires Valid(rt)
    ensures TotalTo(rt, rt.n) == rt.n * Flats(rt)
  {
    TotalToIsBelow(rt, rt.n);
    BelowAll(rt, rt.n);
  }

  lemma {:induction false} TotalToMonotone(rt: Routing, d: nat, d': nat)
    requires Valid(rt) && d <= d'
    ensures TotalTo(rt, d) <= TotalTo(rt, d')
    decreases d'
  {
    if d < d' { TotalToMonotone(rt, d, d' - 1); }
  }

  /** No rank can receive more rows than its output buffers hold. */
  lemma TotalBound(rt: Routing, d: nat)
    requires Valid(rt) && d < rt.n
    ensures Total(rt, d) <= rt.n * Flats(rt)
  {
    Conservation(rt);
    TotalToMonotone(rt, d + 1, rt.n);
  }
}
