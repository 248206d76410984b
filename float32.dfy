/** IEEE-754 single precision, as far as the ingestion service needs it: the value a
    float32 bit pattern denotes, and Go's ordered comparisons of such a value with an
    exactly representable constant (every comparison with NaN is false). */
module Float32 {
  import opened Ccsds
  datatype Float = Finite(value: real) | Infinity(negative: bool) | NaN

  function Pow2(n: nat): (r: nat)
    ensures r >= 1
  {
    if n == 0 then 1 else 2 * Pow2(n - 1)
  }

  /** The value of a bit pattern: sign bit 31, biased exponent bits 30..23, fraction
      bits 22..0; exponent 255 is infinity or NaN, exponent 0 is subnormal. */
  function Decode(w: uint32): (f: Float)
    ensures f.NaN? <==> (w / 0x80_0000) % 0x100 == 0xFF && w % 0x80_0000 != 0
    ensures f.Infinity? <==> (w / 0x80_0000) % 0x100 == 0xFF && w % 0x80_0000 == 0
    ensures f.Finite? && w < 0x8000_0000 ==> f.value >= 0.0
    ensures f.Finite? && w >= 0x8000_0000 ==> f.value <= 0.0
  {
    var negative := w >= 0x8000_0000;
    var exponent := ((w / 0x80_0000) % 0x100) as nat;
    var fraction := (w % 0x80_0000) as nat;
    if exponent == 0xFF then
      if fraction == 0 then Infinity(negative) else NaN
    else
      var significand := if exponent == 0 then fraction else 0x80_0000 + fraction;
      var scale := if exponent == 0 then 1 else exponent;
      var magnitude :=
        if scale >= 150 then (significand * Pow2(scale - 150)) as real
        else significand as real / Pow2(150 - scale) as real;
      Finite(if negative then -magnitude else magnitude)
  }

  /** Go's `x < c` for a float32 `x` and a constant `c`. */
  predicate Below(x: Float, c: real)
  {
    match x
    case Finite(v) => v < c
    case Infinity(negative) => negative
    case NaN => false
  }

  /** Go's `x > c` for a float32 `x` and a constant `c`. */
  predicate Above(x: Float, c: real)
  {
    match x
    case Finite(v) => v > c
    case Infinity(negative) => !negative
    case NaN => false
  }

  /** The value lies outside the closed band [lo, hi]; NaN lies nowhere. */
  predicate Outside(x: Float, lo: real, hi: real)
  {
    match x
    case Finite(v) => !(lo <= v <= hi)
    case Infinity(_) => true
    case NaN => false
  }

  /** Go's `x < lo || x > hi` holds exactly when the value lies outside [lo, hi]. */
  lemma OutsideBand(x: Float, lo: real, hi: real)
    requires lo <= hi
    ensures Below(x, lo) || Above(x, hi) <==> Outside(x, lo, hi)
  {
  }

  lemma Pow2Values()
    ensures Pow2(16) == 0x1_0000 && Pow2(17) == 0x2_0000
  {
    assert Pow2(4) == 16;
    assert Pow2(8) == 256;
    assert Pow2(12) == 4096;
  }

  /** Two band edges the ingestion service compares against, 100.0 and -90.0, as bit patterns. */
  lemma DecodeBandEdges()
    ensures Decode(0x42C8_0000) == Finite(100.0)
    ensures Decode(0xC2B4_0000) == Finite(-90.0)
  {
    Pow2Values();
    var hundred: uint32 := 0x42C8_0000;
    assert (hundred / 0x80_0000) % 0x100 == 0x85 && hundred % 0x80_0000 == 0x48_0000;
    assert 0xC8_0000 as real / 0x2_0000 as real == 100.0;
    var minusNinety: uint32 := 0xC2B4_0000;
    assert (minusNinety / 0x80_0000) % 0x100 == 0x85 && minusNinety % 0x80_0000 == 0x34_0000;
    assert 0xB4_0000 as real / 0x2_0000 as real == 90.0;
  }

  /** Both zeros are the finite value 0. */
  lemma DecodeZeros()
    ensures Decode(0x0000_0000) == Finite(0.0)
    ensures Decode(0x8000_0000) == Finite(0.0)
  {
  }

  /** Exponent 255 gives an infinity (zero fraction) or NaN (any other fraction). */
  lemma DecodeNonFinite()
    ensures Decode(0x7F80_0000) == Infinity(false)
    ensures Decode(0xFF80_0000) == Infinity(true)
    ensures Decode(0x7FC0_0000) == NaN
  {
  }
}
