/** Arithmetic helpers shared by the engine: Python's `min(max(..))` clamping,
    `math.modf`'s fractional part, and the transcendental functions and rounding
    that the model treats as abstract collaborators. */
module Numerics {

  /** `min(max(v, lo), hi)`, in that order (so `hi` wins when `lo > hi`). */
  function Clamp(v: real, lo: real, hi: real): (r: real)
    ensures lo <= hi ==> lo <= r <= hi
    ensures lo <= v <= hi ==> r == v
    ensures v < lo && lo <= hi ==> r == lo
    ensures hi < v && lo <= hi ==> r == hi
  {
    var m := if v < lo then lo else v;
    if m < hi then m else hi
  }

  /** Fractional part as returned by `math.modf(x)[0]`: it keeps the sign of
      `x`, i.e. the integer part is truncated toward zero. */
  function Frac(x: real): (r: real)
    ensures 0.0 <= x ==> 0.0 <= r < 1.0
    ensures x < 0.0 ==> -1.0 < r <= 0.0
  {
    if 0.0 <= x then x - x.Floor as real
    else x + (-x).Floor as real
  }

  /** What `modf` removes is a whole number. */
  lemma FracWhole(x: real)
    ensures (x - Frac(x)).Floor as real == x - Frac(x)
  {
    if 0.0 <= x {
      var f := x.Floor;
      assert (f as real).Floor == f;
    } else {
      var g := (-x).Floor;
      assert ((-g) as real).Floor == -g;
    }
  }

  /** The transcendental functions and the rounding the engine takes from
      Python's `math` module and built-ins. They are parameters of the model;
      `Lawful` lists the only facts about them that the proofs use. */
  datatype Maths = Maths(
    sin: real -> real,       // math.sin
    pi: real,                // math.pi
    log10: real -> real,     // math.log10
    pow10: real -> real,     // 10.0 ** e
    round: real -> int       // built-in round
  )

  ghost predicate Lawful(m: Maths) {
    && m.pi > 0.0
    && (forall z :: -1.0 <= m.sin(z) <= 1.0)
    && m.sin(0.0) == 0.0
    && m.pow10(0.0) == 1.0
    && (forall z :: m.pow10(z) > 0.0)
    && (forall z :: z > 0.0 ==> m.pow10(m.log10(z)) == z)
    && (forall z :: -0.5 <= m.round(z) as real - z <= 0.5)
  }

  /** A lawful rounding leaves integers alone. */
  lemma RoundOfInteger(m: Maths, k: int)
    requires Lawful(m)
    ensures m.round(k as real) == k
  {
    var r := m.round(k as real);
    assert -0.5 <= r as real - k as real <= 0.5;
  }
}
