/**
 The overflow-checked arithmetic of the mega-MoE example, on 64-bit sizes.
 */
module CheckedSize {
  import opened Arith

  const WORD: nat := 0x1_0000_0000
  const LIMIT: nat := 0x1_0000_0000_0000_0000

  function Product(fs: seq<nat>): nat
  {
    if fs == [] then 1 else
      MulLe(0, Product(fs[..|fs| - 1]), fs[|fs| - 1]);
      Product(fs[..|fs| - 1]) * fs[|fs| - 1]
  }

  /** The division guard of the checked product decides exactly whether the product fits. */
  lemma GuardExact(a: nat, f: nat)
    requires a < LIMIT
    ensures (f != 0 && a > (LIMIT - 1) / f) <==> a * f >= LIMIT
  {
    if f != 0 {
      var q := (LIMIT - 1) / f;
      Recompose(LIMIT - 1, f);
      if a > q {
        MulLe(q + 1, a, f);
        assert (q + 1) * f == q * f + f;
      } else {
        MulLe(a, q, f);
      }
    }
  }

  /** Succeeds exactly when no prefix of the factors has a product beyond 64 bits. */
  method CheckedProduct(factors: seq<nat>) returns (ok: bool, result: nat)
    requires forall i :: 0 <= i < |factors| ==> factors[i] < LIMIT
    ensures ok <==> Succeeds(factors)
    ensures ok ==> result == Product(factors)
  {
    result := 1;
    var i := 0;
    while i < |factors|
      invariant 0 <= i <= |factors| && result == Product(factors[..i])
      invariant forall m :: 0 <= m <= i ==> Product(factors[..m]) < LIMIT
    {
      var factor := factors[i];
      assert factors[..i + 1][..i] == factors[..i];
      GuardExact(result, factor);
      if factor != 0 && result > 0xFFFF_FFFF_FFFF_FFFF / factor {
        assert Product(factors[..i + 1]) >= LIMIT;
        return false, result;
      }
      result := result * factor;
      i := i + 1;
    }
    assert factors[..|factors|] == factors;
    ok := true;
  }

  lemma {:induction false} PrefixProduct(fs: seq<nat>, m: nat)
    requires m <= |fs| && forall i :: 0 <= i < |fs| ==> fs[i] > 0
    ensures 1 <= Product(fs[..m]) <= Product(fs)
  {
    if fs == [] {
      assert fs[..m] == fs;
    } else {
      var init := fs[..|fs| - 1];
      var last := fs[|fs| - 1];
      PrefixProduct(init, if m < |fs| then m else |init|);
      assert Product(fs) >= Product(init) by {
        MulLe(1, last, Product(init));
        assert last * Product(init) == Product(init) * last;
      }
      if m < |fs| { assert fs[..m] == init[..m]; } else { assert fs[..m] == fs; assert init[..|init|] == init; }
    }
  }

  /** The checked product goes through: no prefix overflows. */
  predicate Succeeds(fs: seq<nat>)
  {
    forall m :: 0 <= m <= |fs| ==> Product(fs[..m]) < LIMIT
  }

  function FirstZero(fs: seq<nat>): (z: nat)
    ensures z <= |fs| && (z < |fs| ==> fs[z] == 0) && forall i :: 0 <= i < z ==> fs[i] > 0
  {
    if fs == [] then 0 else
      var z := FirstZero(fs[..|fs| - 1]);
      if z == |fs| - 1 && fs[z] > 0 then |fs| else z
  }

  lemma {:induction false} ZeroProduct(fs: seq<nat>, z: nat)
    requires z < |fs| && fs[z] == 0
    ensures Product(fs) == 0
  {
    if z < |fs| - 1 { ZeroProduct(fs[..|fs| - 1], z); }
  }

  /** The routine succeeds exactly when the factors before the first zero have a product that fits. */
  lemma SucceedsExactly(fs: seq<nat>)
    ensures Succeeds(fs) <==> Product(fs[..FirstZero(fs)]) < LIMIT
  {
    var z := FirstZero(fs);
    if Product(fs[..z]) < LIMIT {
      forall m | 0 <= m <= |fs| ensures Product(fs[..m]) < LIMIT {
        if m <= z {
          PrefixProduct(fs[..z], m);
          assert fs[..z][..m] == fs[..m];
        } else {
          ZeroProduct(fs[..m], z);
        }
      }
    }
  }

  /** Success means that the product fits, and nothing else, if and only if no zero comes behind an overflow. */
  lemma ProductExactly(fs: seq<nat>)
    ensures (Succeeds(fs) <==> Product(fs) < LIMIT)
            <==> (FirstZero(fs) == |fs| || Product(fs[..FirstZero(fs)]) < LIMIT)
  {
    var z := FirstZero(fs);
    SucceedsExactly(fs);
    if z == |fs| { assert fs[..z] == fs; } else { ZeroProduct(fs, z); }
  }

  /** A zero behind an overflow is refused although the product is 0. */
  lemma LateZero()
    ensures !Succeeds([WORD, WORD, 0]) && Product([WORD, WORD, 0]) == 0
  {
    assert [WORD, WORD, 0][..2] == [WORD, WORD];
    assert [WORD, WORD][..1] == [WORD];
    assert [WORD][..0] == [];
    assert Product([WORD]) == WORD;
    assert Product([WORD, WORD, 0][..2]) == LIMIT;
  }

  /** The program passes two or three factors, the first two of 32 bits: on those the check is exact. */
  lemma CallsExact(fs: seq<nat>)
    requires 2 <= |fs| <= 3 && fs[0] < WORD && fs[1] < WORD
    ensures Succeeds(fs) <==> Product(fs) < LIMIT
  {
    ProductExactly(fs);
    var z := FirstZero(fs);
    if z < |fs| {
      assert fs[..z] == [] || fs[..z] == [fs[0]] || fs[..z] == [fs[0], fs[1]];
      TwoFactors(fs[0], fs[1]);
    }
  }

  lemma TwoFactors(a: nat, b: nat)
    requires a < WORD && b < WORD
    ensures Product([]) < LIMIT && Product([a]) == a && Product([a, b]) == a * b < LIMIT
  {
    assert [a][..0] == [] && [a, b][..1] == [a];
    MulLe(a, WORD - 1, b);
    MulLe(b, WORD - 1, WORD - 1);
  }

  method CheckedAdd(a: nat, b: nat) returns (ok: bool, result: nat)
    requires a < LIMIT && b < LIMIT
    ensures ok <==> a + b < LIMIT
    ensures ok ==> result == a + b
  {
    if a > 0xFFFF_FFFF_FFFF_FFFF - b { return false, 0; }
    return true, a + b;
  }

  method CheckedMultiply(a: nat, b: nat) returns (ok: bool, result: nat)
    requires a < LIMIT && b < LIMIT
    ensures ok <==> a * b < LIMIT
    ensures ok ==> result == a * b
  {
    GuardExact(a, b);
    MulLe(0, a, b);
    if b != 0 && a > 0xFFFF_FFFF_FFFF_FFFF / b { return false, 0; }
    return true, a * b;
  }

  /** The least multiple of `a` that is not below `v`. */
  function AlignTo(v: nat, a: nat): (w: nat)
    requires a > 0
    ensures w % a == 0 && v <= w < v + a
  {
    Recompose(v + a - 1, a);
    DivMod((v + a - 1) / a, a, 0);
    MulLe(0, (v + a - 1) / a, a);
    (v + a - 1) / a * a
  }

  /** For alignments that divide 2 to the 64 the test before rounding is the test after it. */
  lemma AlignFits(v: nat, a: nat)
    requires a > 0 && LIMIT % a == 0
    ensures v + a - 1 < LIMIT <==> AlignTo(v, a) < LIMIT
  {
    var w := AlignTo(v, a);
    if w < LIMIT {
      var p, q := w / a, LIMIT / a;
      Recompose(w, a);
      Recompose(LIMIT, a);
      if p >= q { MulLe(q, p, a); }
      MulLe(p + 1, q, a);
      Distribute(p + 1, p, a);
    }
  }

  /** The result is the least multiple of the alignment that is not below the value. */
  method CheckedAlignUp(value: nat, alignment: nat) returns (ok: bool, result: nat)
    requires value < LIMIT && alignment < LIMIT
    ensures ok <==> alignment != 0 && value + alignment - 1 < LIMIT
    ensures ok ==> result == AlignTo(value, alignment) && result % alignment == 0
                   && value <= result < value + alignment && result < LIMIT
  {
    if alignment == 0 { return false, 0; }
    var fits, adjusted := CheckedAdd(value, alignment - 1);
    if !fits { return false, 0; }
    MulLe(0, adjusted / alignment, alignment);
    result := adjusted / alignment * alignment;
    assert result == AlignTo(value, alignment);
    ok := true;
  }
}
