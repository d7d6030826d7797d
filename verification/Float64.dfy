/** Conversion of a non-negative integer to IEEE 754-2019 binary64, round half to even (section 4.3.1).
    Scores of the Redis sorted sets are binary64, so two clock readings closer than the spacing may collide. */
module Float64 {

  const TWO53: nat := 0x20_0000_0000_0000
  const TWO60: nat := 0x1000_0000_0000_0000
  const TWO61: nat := 0x2000_0000_0000_0000

  /** The distance between neighbouring binary64 values around x. */
  function Spacing(x: nat): (u: nat)
    ensures u > 0
  {
    if x < TWO53 then 1 else 2 * Spacing(x / 2)
  }

  /** The multiple of u nearest to x; a tie goes to the even multiple. */
  function RoundTo(x: nat, u: nat): (r: nat)
    requires u > 0
  {
    var q := x / u;
    if 2 * (x % u) < u || (2 * (x % u) == u && q % 2 == 0) then q * u else (q + 1) * u
  }

  function F64(x: nat): nat {
    RoundTo(x, Spacing(x))
  }

  /** Rounding never crosses a multiple of the spacing. */
  lemma RoundToBounds(x: nat, u: nat, q: nat)
    requires u > 0
    ensures q * u <= x ==> q * u <= RoundTo(x, u)
    ensures x <= q * u ==> RoundTo(x, u) <= q * u
  {
    var k := RoundNear(x, u);
    if q * u <= x {
      if q > k { MulMono(k + 1, q, u); }
      MulMono(q, k, u);
    } else {
      if q <= k { MulMono(q, k, u); }
      MulMono(k + 1, q, u);
    }
    if x == q * u { DivUnique(x, u, q); }
  }

  lemma RoundNear(x: nat, u: nat) returns (k: nat)
    requires u > 0
    ensures k == x / u && k * u <= x < (k + 1) * u == k * u + u
    ensures RoundTo(x, u) == k * u || RoundTo(x, u) == (k + 1) * u
    ensures x == k * u ==> RoundTo(x, u) == x
    ensures 2 * RoundTo(x, u) <= 2 * x + u && 2 * x <= 2 * RoundTo(x, u) + u
  {
    k := x / u;
    assert x == k * u + x % u;
    assert (k + 1) * u == k * u + u;
  }

  lemma MulMono(a: nat, b: nat, u: nat)
    ensures a <= b ==> a * u <= b * u
  {
    if a <= b { assert (b - a) * u >= 0; }
  }

  lemma RoundToMono(x: nat, y: nat, u: nat)
    requires u > 0 && x <= y
    ensures RoundTo(x, u) <= RoundTo(y, u)
  {
    var q := y / u;
    assert y == q * u + y % u;
    if x < q * u {
      RoundToBounds(x, u, q);
      RoundToBounds(y, u, q);
    } else {
      assert x == q * u + (x - q * u);
      DivUnique(x, u, q);
    }
  }

  lemma DivUnique(x: nat, u: nat, q: nat)
    requires u > 0 && q * u <= x < q * u + u
    ensures x / u == q && x % u == x - q * u
  {
    var k := x / u;
    assert x == k * u + x % u;
    if k < q { MulMono(k + 1, q, u); }
    if k > q { MulMono(q + 1, k, u); }
  }

  /** All values in one binade share a spacing, and the binade starts at TWO53 spacings. */
  lemma SpacingBinade(x: nat)
    requires x >= TWO53
    ensures TWO53 / 2 * Spacing(x) <= x < TWO53 * Spacing(x)
    decreases x
  {
    if x / 2 >= TWO53 { SpacingBinade(x / 2); }
  }

  lemma SpacingMono(x: nat, y: nat)
    requires x <= y
    ensures Spacing(x) <= Spacing(y)
    ensures Spacing(x) < Spacing(y) ==> 2 * Spacing(x) <= Spacing(y)
    decreases y
  {
    if y >= TWO53 && x >= TWO53 { SpacingMono(x / 2, y / 2); }
    if y >= TWO53 && x < TWO53 { assert Spacing(y / 2) >= 1; }
  }

  /** Multiples of the spacing below the top of the binade are representable. */
  lemma SpacingDivides(x: nat, y: nat) returns (q: nat)
    requires x <= y
    ensures q >= 1 && Spacing(y) == q * Spacing(x)
    decreases y
  {
    if y < TWO53 {
      q := 1;
    } else if x < TWO53 {
      q := Spacing(y);
    } else {
      q := SpacingDivides(x / 2, y / 2);
      assert 2 * (q * Spacing(x / 2)) == q * (2 * Spacing(x / 2));
    }
  }

  /** Rounding keeps the order of clock readings, over the whole range. */
  lemma Monotone(x: nat, y: nat)
    requires x <= y
    ensures F64(x) <= F64(y)
  {
    var u, v := Spacing(x), Spacing(y);
    if u == v {
      RoundToMono(x, y, u);
    } else {
      SpacingMono(x, y);
      BinadeTop(x, y);
    }
  }

  /** x and y in different binades: the first value of y's binade separates them. */
  lemma BinadeTop(x: nat, y: nat)
    requires x <= y && Spacing(x) != Spacing(y)
    ensures F64(x) <= TWO53 / 2 * Spacing(y) <= F64(y)
  {
    SpacingMono(x, y);
    var v := Spacing(y);
    SpacingBinade(y);
    RoundToBounds(y, v, TWO53 / 2);
    if x >= TWO53 { SpacingBinade(x); }
    var q := SpacingDivides(x, y);
    BelowBinade(x, Spacing(x), q, TWO53 / 2);
  }

  lemma BelowBinade(x: nat, u: nat, q: nat, half: nat)
    requires u > 0 && q >= 2 && x <= 2 * half * u
    ensures RoundTo(x, u) <= half * (q * u)
  {
    assert half * (q * u) == (half * q) * u;
    assert 2 * half * u <= (half * q) * u by { MulMono(2 * half, half * q, u); MulMono(2, q, half); }
    RoundToBounds(x, u, half * q);
  }

  /** A value already rounded stays put. */
  lemma Idempotent(x: nat)
    ensures F64(F64(x)) == F64(x)
  {
    var u := Spacing(x);
    var k := RoundNear(x, u);
    var r := F64(x);
    if x < TWO53 {
    } else {
      SpacingBinade(x);
      RoundToBounds(x, u, TWO53);
      RoundToBounds(x, u, TWO53 / 2);
      var q := if r == k * u then k else k + 1;
      assert r == q * u;
      SpacingOf(x, r);
      var w := RoundNear(r, Spacing(r));
      if r < TWO53 * u {
        DivUnique(r, u, q);
      } else {
        assert r == (TWO53 / 2) * (2 * u);
        DivUnique(r, 2 * u, TWO53 / 2);
      }
    }
  }

  /** The spacing is fixed by the binade. */
  lemma SpacingOf(x: nat, r: nat)
    requires x >= TWO53 && TWO53 / 2 * Spacing(x) <= r <= TWO53 * Spacing(x)
    ensures Spacing(r) == if r < TWO53 * Spacing(x) then Spacing(x) else 2 * Spacing(x)
    decreases x
  {
    if x / 2 >= TWO53 {
      SpacingOf(x / 2, r / 2);
    } else {
      assert Spacing(x / 2) == 1 && Spacing(x) == 2;
      assert r / 2 < TWO53 || r == 2 * TWO53;
      if r == 2 * TWO53 { assert Spacing(r / 2) == 2 * Spacing(r / 4); }
    }
  }

  /** Clock readings of the years 2006 to 2043 are spaced 256 ns. */
  lemma SpacingIs256(x: nat)
    requires TWO60 <= x < TWO61
    ensures Spacing(x) == 256
  {
    SpacingMono(TWO60, x);
    SpacingMono(x, TWO61 - 1);
    SpacingOf(TWO60, TWO61 - 1);
  }

  lemma RoundTo256(x: nat)
    requires TWO60 <= x < TWO61
    ensures F64(x) % 256 == 0 && TWO60 <= F64(x) <= TWO61
    ensures x - 128 <= F64(x) <= x + 128
    ensures x % 256 == 0 ==> F64(x) == x
  {
    SpacingIs256(x);
    var k := RoundNear(x, 256);
    RoundToBounds(x, 256, TWO60 / 256);
    RoundToBounds(x, 256, TWO61 / 256);
  }
}
