/** The scheduler's load arithmetic (hw4/sched.c): the reciprocal multiplication of `calc_delta_mine`
    with 64-bit longs, and the decaying averages of `update_cpu_load`.
 */
module LoadMath {

  import opened Words

  const TWO_16: nat := 0x1_0000
  const TWO_32: nat := 0x1_0000_0000
  const LONG_MAX: nat := 0x7fff_ffff_ffff_ffff

  /** The heaviest task weight, that of nice level -20. */
  const MAX_WEIGHT: nat := 88761

  /** `struct load_weight`: `invWeight` caches the inverse, 0 when it is not known. */
  class LoadWeight {
    var weight: nat
    var invWeight: nat

    constructor (weight: nat)
      ensures this.weight == weight && invWeight == 0
    {
      this.weight := weight;
      invWeight := 0;
    }
  }

  function Inverse(w: nat): (inv: nat)
    ensures inv > 0
  {
    if w >= TWO_32 then 1 else 1 + (TWO_32 - w / 2) / (w + 1)
  }

  /** SRR: shift right by 16 or 32 bits and round. */
  function RoundShift16(x: nat): nat { (x + 0x8000) % TWO_64 / TWO_16 }

  function RoundShift32(x: nat): nat { (x + 0x8000_0000) % TWO_64 / TWO_32 }

  function Scaled(product: nat, inv: nat): nat {
    Min(LONG_MAX,
        if product > TWO_32 then RoundShift16(RoundShift16(product) * inv % TWO_64)
        else RoundShift32(product * inv % TWO_64))
  }

  /** `calc_delta_mine`: the inverse is computed on first use and kept. */
  method CalcDeltaMine(delta: nat, weight: nat, lw: LoadWeight) returns (r: nat)
    modifies lw`invWeight
    ensures lw.invWeight == if old(lw.invWeight) == 0 then Inverse(lw.weight) else old(lw.invWeight)
    ensures r == Scaled(delta * weight % TWO_64, lw.invWeight)
    ensures old(lw.invWeight) == 0 && 0 < lw.weight <= MAX_WEIGHT && delta * weight <= TWO_32 ==>
              var t, w := delta * weight, lw.weight;
              (r + 1) * (w + 1) > t && 2 * r * w <= 2 * t + w
    ensures old(lw.invWeight) == 0 && 0 < lw.weight <= MAX_WEIGHT && TWO_32 < delta * weight < TWO_16 * TWO_32 ==>
              var t, w := delta * weight, lw.weight;
              && TWO_32 * r * w <= TWO_32 * t + 0x8000_0000 * w + 0x8000 * lw.invWeight * w
              && TWO_32 * (r + 1) * (w + 1) + 0x8000 * lw.invWeight * (w + 1) + t * (w / 2) > TWO_32 * t
  {
    if lw.invWeight == 0 {
      lw.invWeight := if lw.weight >= TWO_32 then 1 else 1 + (TWO_32 - lw.weight / 2) / (lw.weight + 1);
    }
    var tmp := delta * weight % TWO_64;
    if old(lw.invWeight) == 0 && 0 < lw.weight <= MAX_WEIGHT {
      if delta * weight <= TWO_32 {
        SmallProduct(delta * weight, lw.weight);
      } else if delta * weight < TWO_16 * TWO_32 {
        LargeProduct(delta * weight, lw.weight);
      }
    }
    if tmp > TWO_32 {
      tmp := RoundShift16(RoundShift16(tmp) * lw.invWeight % TWO_64);
    } else {
      tmp := RoundShift32(tmp * lw.invWeight % TWO_64);
    }
    r := Min(tmp, LONG_MAX);
  }

  /** The inverse is one more than the rounded-down quotient; weights that do not fit in 32 bits get 1. */
  lemma InverseIs(w: nat)
    ensures w >= TWO_32 ==> Inverse(w) == 1
    ensures w < TWO_32 ==> (Inverse(w) - 1) * (w + 1) <= TWO_32 - w / 2 < Inverse(w) * (w + 1)
  {
    if w < TWO_32 {
      Quotient(TWO_32 - w / 2, w + 1);
    }
  }

  /** The inverse sits between 2^32 / (w + 1), up to half a unit of the product, and 2^32 / w. */
  lemma InverseBounds(w: nat)
    requires 0 < w <= MAX_WEIGHT
    ensures Inverse(w) * (w + 1) > TWO_32 - w / 2
    ensures Inverse(w) * w <= TWO_32
    ensures Inverse(w) <= 0x8000_0001
  {
    var n := TWO_32 - w / 2;
    Quotient(n, w + 1);
    InverseWithin(w, n, n / (w + 1));
  }

  lemma Quotient(n: nat, d: nat)
    requires d > 0
    ensures n / d * d <= n < (n / d + 1) * d
  {
    assert n == n / d * d + n % d;
  }

  lemma InverseWithin(w: nat, n: nat, q: nat)
    requires 0 < w <= MAX_WEIGHT && n == TWO_32 - w / 2 && q * (w + 1) <= n < (q + 1) * (w + 1)
    ensures (q + 1) * w <= TWO_32 && q <= 0x8000_0000
  {
    var h := (w + 1) / 2;
    assert h <= 44381 && w + 1 <= 88762;
    MulMono(h, 44381, w + 1, 88762);
    if q < h {
      MulMono(q + 1, h, w + 1, w + 1);
    }
    assert (q + 1) * w == q * (w + 1) + w - q;
    MulMono(q, q, 2, w + 1);
  }

  lemma MulMono(a: nat, b: nat, c: nat, d: nat)
    requires a <= b && c <= d
    ensures a * c <= b * d
  {
    assert b * d - a * c == (b - a) * d + a * (d - c);
    assert (b - a) * d >= 0 && a * (d - c) >= 0;
  }

  /** A rounding shift that does not wrap misses by at most half a unit below and less above. */
  lemma ShiftBounds32(x: nat)
    requires x + 0x8000_0000 < TWO_64
    ensures x % TWO_64 == x
    ensures var r := RoundShift32(x); TWO_32 * r <= x + 0x8000_0000 < TWO_32 * (r + 1) && r <= LONG_MAX
  {
  }

  lemma ShiftBounds16(x: nat)
    requires x + 0x8000 < TWO_64
    ensures x % TWO_64 == x
    ensures var r := RoundShift16(x); TWO_16 * r <= x + 0x8000 < TWO_16 * (r + 1) && r <= LONG_MAX
  {
  }

  lemma ProductFits(t: nat, inv: nat)
    requires t <= TWO_32 && inv <= 0x8000_0001
    ensures t * inv + 0x8000_0000 < TWO_64
  {
    MulMono(t, TWO_32, inv, 0x8000_0001);
  }

  lemma SmallProduct(t: nat, w: nat)
    requires t <= TWO_32 && 0 < w <= MAX_WEIGHT
    ensures t % TWO_64 == t
    ensures var r := Scaled(t, Inverse(w)); (r + 1) * (w + 1) > t && 2 * r * w <= 2 * t + w
  {
    InverseBounds(w);
    var inv := Inverse(w);
    ProductFits(t, inv);
    ShiftBounds32(t * inv);
    var r := RoundShift32(t * inv);
    assert Scaled(t, inv) == r;
    SmallUpper(t, w, inv, r);
    SmallLower(t, w, inv, r);
  }

  lemma SmallUpper(t: nat, w: nat, inv: nat, r: nat)
    requires inv * w <= TWO_32 && TWO_32 * r <= t * inv + 0x8000_0000
    ensures 2 * r * w <= 2 * t + w
  {
    MulMono(TWO_32 * r, t * inv + 0x8000_0000, w, w);
    assert TWO_32 * r * w <= (t * inv + 0x8000_0000) * w;
    assert (t * inv + 0x8000_0000) * w == t * (inv * w) + 0x8000_0000 * w;
    MulMono(t, t, inv * w, TWO_32);
    assert TWO_32 * (r * w) <= TWO_32 * t + 0x8000_0000 * w;
  }

  lemma SmallLower(t: nat, w: nat, inv: nat, r: nat)
    requires t <= TWO_32 && inv * (w + 1) > TWO_32 - w / 2 && w / 2 <= TWO_32
    requires t * inv + 0x8000_0000 < TWO_32 * (r + 1)
    ensures (r + 1) * (w + 1) > t
  {
    var lo, h := TWO_32 - w / 2, w / 2;
    MulMono(t, t, lo, inv * (w + 1));
    LowerPart(t, h, w);
    ExpandSum(t, inv, w);
    var x := t * inv + 0x8000_0000;
    MulMono(x + 1, TWO_32 * (r + 1), w + 1, w + 1);
    assert (x + 1) * (w + 1) > x * (w + 1);
    Regroup(r + 1, w + 1);
  }

  lemma LowerPart(t: nat, h: nat, w: nat)
    requires t <= TWO_32 && 2 * h <= w
    ensures t * (TWO_32 - h) + 0x8000_0000 * (w + 1) >= t * TWO_32
  {
    assert t * (TWO_32 - h) == t * TWO_32 - t * h;
    MulMono(t, TWO_32, h, h);
  }

  lemma ExpandSum(t: nat, inv: nat, w: nat)
    ensures (t * inv + 0x8000_0000) * (w + 1) == t * (inv * (w + 1)) + 0x8000_0000 * (w + 1)
  {
    assert t * inv * (w + 1) == t * (inv * (w + 1));
  }

  lemma Regroup(a: nat, b: nat)
    ensures TWO_32 * a * b == TWO_32 * (a * b)
  {
  }

  /** Shifting twice costs at most inv_weight / 2^17 on either side, and the halving inside the inverse at
      most t / 2^33 below. */
  lemma LargeProduct(t: nat, w: nat)
    requires TWO_32 < t < TWO_16 * TWO_32 && 0 < w <= MAX_WEIGHT
    ensures t % TWO_64 == t
    ensures var r, inv := Scaled(t, Inverse(w)), Inverse(w);
            && TWO_32 * r * w <= TWO_32 * t + 0x8000_0000 * w + 0x8000 * inv * w
            && TWO_32 * (r + 1) * (w + 1) + 0x8000 * inv * (w + 1) + t * (w / 2) > TWO_32 * t
  {
    InverseBounds(w);
    var inv, m := Inverse(w), RoundShift16(t);
    ShiftBounds16(t);
    assert m <= TWO_32;
    ProductFits(m, inv);
    ShiftBounds16(m * inv);
    var r := RoundShift16(m * inv);
    assert Scaled(t, inv) == r;
    LargeUpper(t, w, inv, m, r);
    LargeLower(t, w, inv, m, r);
  }

  lemma LargeLower(t: nat, w: nat, inv: nat, m: nat, r: nat)
    requires inv * (w + 1) > TWO_32 - w / 2 && w / 2 <= TWO_32
    requires t + 0x8000 < TWO_16 * (m + 1) && m * inv + 0x8000 < TWO_16 * (r + 1)
    ensures TWO_32 * (r + 1) * (w + 1) + 0x8000 * inv * (w + 1) + t * (w / 2) > TWO_32 * t
  {
    ShiftedTwice(t, inv, m, r);
    LowerScaled(t, w + 1, inv, TWO_32 * (r + 1), 0x8000 * inv);
    LowerHalved(t, w / 2, inv * (w + 1));
  }

  lemma LowerScaled(t: nat, b: nat, inv: nat, a: nat, e: nat)
    requires b > 0 && a + e > t * inv
    ensures a * b + e * b > t * (inv * b)
  {
    MulMono(t * inv + 1, a + e, b, b);
    ScaledUp(t * inv, b);
    assert (a + e) * b == a * b + e * b;
    assert t * inv * b == t * (inv * b);
  }

  lemma LowerHalved(t: nat, h: nat, y: nat)
    requires y > TWO_32 - h && h <= TWO_32
    ensures t * y + t * h >= TWO_32 * t
  {
    MulMono(t, t, TWO_32 - h, y);
    assert t * (TWO_32 - h) == t * TWO_32 - t * h;
  }

  lemma ShiftedTwice(t: nat, inv: nat, m: nat, r: nat)
    requires t + 0x8000 < TWO_16 * (m + 1) && m * inv + 0x8000 < TWO_16 * (r + 1)
    ensures TWO_32 * (r + 1) + 0x8000 * inv > t * inv
  {
    MulMono(t, TWO_16 * m + 0x8000, inv, inv);
    assert (TWO_16 * m + 0x8000) * inv == TWO_16 * (m * inv) + 0x8000 * inv;
  }

  lemma ScaledUp(a: nat, b: nat)
    requires b > 0
    ensures (a + 1) * b > a * b
  {
  }

  lemma LargeUpper(t: nat, w: nat, inv: nat, m: nat, r: nat)
    requires inv * w <= TWO_32 && TWO_16 * m <= t + 0x8000 && TWO_16 * r <= m * inv + 0x8000
    ensures TWO_32 * r * w <= TWO_32 * t + 0x8000_0000 * w + 0x8000 * inv * w
  {
    MulMono(TWO_16 * m, t + 0x8000, inv, inv);
    assert TWO_32 * r <= TWO_16 * m * inv + 0x8000_0000;
    assert (t + 0x8000) * inv == t * inv + 0x8000 * inv;
    assert TWO_32 * r <= t * inv + 0x8000 * inv + 0x8000_0000;
    MulMono(TWO_32 * r, t * inv + 0x8000 * inv + 0x8000_0000, w, w);
    assert (t * inv + 0x8000 * inv + 0x8000_0000) * w == t * (inv * w) + 0x8000 * inv * w + 0x8000_0000 * w;
    MulMono(t, t, inv * w, TWO_32);
  }

  // ----- update_cpu_load -----

  const CPU_LOAD_IDX_MAX: nat := 5

  /** Loads below this never wrap the averaging sum. */
  const LOAD_LIMIT: nat := 0x0800_0000_0000_0000

  type Index = i: nat | i < CPU_LOAD_IDX_MAX

  /** 2 ^ i */
  function Scale(i: Index): nat {
    if i == 0 then 1 else if i == 1 then 2 else if i == 2 then 4 else if i == 3 then 8 else 16
  }

  /** x >> i */
  function ShiftRight(x: nat, i: Index): nat {
    if i == 0 then x else if i == 1 then x / 2 else if i == 2 then x / 4 else if i == 3 then x / 8 else x / 16
  }

  function Averaged(oldLoad: nat, thisLoad: nat, i: Index): nat {
    var newLoad := if thisLoad > oldLoad then thisLoad + (Scale(i) - 1) else thisLoad;
    ShiftRight((oldLoad * (Scale(i) - 1) + newLoad) % TWO_64, i)
  }

  /** How far a distance shrinks in one tick: by d / 2^i, rounded up. */
  function Decay(d: nat, i: Index): (r: nat)
    ensures r <= d && (d > 0 ==> r < d)
  {
    d - ShiftRight(d + Scale(i) - 1, i)
  }

  /** One tick moves the load towards the current one by exactly the decayed distance, from either side. */
  lemma OneTick(oldLoad: nat, thisLoad: nat, i: Index)
    requires oldLoad < LOAD_LIMIT && thisLoad < LOAD_LIMIT
    ensures Averaged(oldLoad, thisLoad, i) ==
            if oldLoad >= thisLoad then thisLoad + Decay(oldLoad - thisLoad, i)
            else thisLoad - Decay(thisLoad - oldLoad, i)
  {
    NoWrap(oldLoad, thisLoad, i);
    var newLoad := if thisLoad > oldLoad then thisLoad + (Scale(i) - 1) else thisLoad;
    var x := oldLoad * (Scale(i) - 1) + newLoad;
    assert Averaged(oldLoad, thisLoad, i) == ShiftRight(x % TWO_64, i);
    assert x % TWO_64 == x;
    WithoutWrap(oldLoad, thisLoad, i, x);
  }

  lemma NoWrap(oldLoad: nat, thisLoad: nat, i: Index)
    requires oldLoad < LOAD_LIMIT && thisLoad < LOAD_LIMIT
    ensures oldLoad * (Scale(i) - 1) + thisLoad + Scale(i) - 1 < TWO_64
  {
    MulMono(oldLoad, LOAD_LIMIT, Scale(i) - 1, 15);
  }

  lemma WithoutWrap(oldLoad: nat, thisLoad: nat, i: Index, x: nat)
    requires x == oldLoad * (Scale(i) - 1) + if thisLoad > oldLoad then thisLoad + (Scale(i) - 1) else thisLoad
    ensures ShiftRight(x, i) == if oldLoad >= thisLoad then thisLoad + Decay(oldLoad - thisLoad, i)
                                else thisLoad - Decay(thisLoad - oldLoad, i)
  {
    if i == 0 {
    } else if i == 1 {
    } else if i == 2 {
    } else if i == 3 {
    } else {
    }
  }

  function LoadAfter(oldLoad: nat, thisLoad: nat, i: Index, ticks: nat): nat {
    if ticks == 0 then oldLoad else Averaged(LoadAfter(oldLoad, thisLoad, i, ticks - 1), thisLoad, i)
  }

  function DistanceAfter(d: nat, i: Index, ticks: nat): nat {
    if ticks == 0 then d else Decay(DistanceAfter(d, i, ticks - 1), i)
  }

  function Power(b: nat, e: nat): nat {
    if e == 0 then 1 else b * Power(b, e - 1)
  }

  lemma {:induction false} DistanceShrinks(d: nat, i: Index, ticks: nat)
    ensures DistanceAfter(d, i, ticks) <= d
    ensures DistanceAfter(d, i, ticks) + ticks <= d || DistanceAfter(d, i, ticks) == 0
  {
    if ticks > 0 {
      DistanceShrinks(d, i, ticks - 1);
    }
  }

  /** The load at distance `d` from the current one, on the side of the old one. */
  function Towards(oldLoad: nat, thisLoad: nat, d: nat): int {
    if oldLoad >= thisLoad then thisLoad + d else thisLoad - d
  }

  function Distance(a: nat, b: nat): nat { if a >= b then a - b else b - a }

  lemma TickTowards(oldLoad: nat, thisLoad: nat, i: Index, d: nat)
    requires d <= Distance(oldLoad, thisLoad) && oldLoad < LOAD_LIMIT && thisLoad < LOAD_LIMIT
    ensures Towards(oldLoad, thisLoad, d) >= 0
    ensures Averaged(Towards(oldLoad, thisLoad, d), thisLoad, i) == Towards(oldLoad, thisLoad, Decay(d, i))
  {
    OneTick(Towards(oldLoad, thisLoad, d), thisLoad, i);
  }

  /** Under constant load an average never overshoots: its distance decays on the side where it began,
      and after enough ticks it is exact. */
  lemma {:induction false} ConvergesFromEitherSide(oldLoad: nat, thisLoad: nat, i: Index, ticks: nat)
    requires oldLoad < LOAD_LIMIT && thisLoad < LOAD_LIMIT
    ensures LoadAfter(oldLoad, thisLoad, i, ticks) ==
            Towards(oldLoad, thisLoad, DistanceAfter(Distance(oldLoad, thisLoad), i, ticks))
    ensures ticks >= Distance(oldLoad, thisLoad) ==> LoadAfter(oldLoad, thisLoad, i, ticks) == thisLoad
  {
    var d := Distance(oldLoad, thisLoad);
    DistanceShrinks(d, i, ticks);
    if ticks > 0 {
      ConvergesFromEitherSide(oldLoad, thisLoad, i, ticks - 1);
      DistanceShrinks(d, i, ticks - 1);
      TickTowards(oldLoad, thisLoad, i, DistanceAfter(d, i, ticks - 1));
    }
  }

  lemma DecayScaled(d: nat, i: Index)
    ensures Decay(d, i) * Scale(i) <= d * (Scale(i) - 1)
  {
    if i == 0 {
    } else if i == 1 {
    } else if i == 2 {
    } else if i == 3 {
    } else {
    }
  }

  /** The distance is bounded by the geometric decay ((2^i - 1) / 2^i) ^ ticks. */
  lemma {:induction false} GeometricBound(d: nat, i: Index, ticks: nat)
    ensures DistanceAfter(d, i, ticks) * Power(Scale(i), ticks) <= d * Power(Scale(i) - 1, ticks)
  {
    if ticks > 0 {
      GeometricBound(d, i, ticks - 1);
      var x := DistanceAfter(d, i, ticks - 1);
      DecayScaled(x, i);
      GeometricStep(d, x, Decay(x, i), Scale(i), Power(Scale(i), ticks - 1), Power(Scale(i) - 1, ticks - 1));
    }
  }

  lemma GeometricStep(d: nat, x: nat, y: nat, scale: nat, p: nat, p': nat)
    requires scale > 0 && y * scale <= x * (scale - 1) && x * p <= d * p'
    ensures y * (scale * p) <= d * ((scale - 1) * p')
  {
    MulMono(y * scale, x * (scale - 1), p, p);
    assert y * (scale * p) == y * scale * p;
    MulMono(x * p, d * p', scale - 1, scale - 1);
    assert x * (scale - 1) * p == x * p * (scale - 1);
    assert d * p' * (scale - 1) == d * ((scale - 1) * p');
  }

  lemma DecayMonotone(d: nat, e: nat, i: Index, j: Index)
    requires d <= e && i <= j
    ensures Decay(d, i) <= Decay(e, j)
  {
    DecayMonotoneDistance(d, e, i);
    DecayMonotoneIndex(e, i, j);
  }

  lemma DecayMonotoneDistance(d: nat, e: nat, i: Index)
    requires d <= e
    ensures Decay(d, i) <= Decay(e, i)
  {
    if i == 0 {
    } else if i == 1 {
    } else if i == 2 {
    } else if i == 3 {
    } else {
    }
  }

  lemma {:induction false} DecayMonotoneIndex(d: nat, i: Index, j: Index)
    requires i <= j
    ensures Decay(d, i) <= Decay(d, j)
    decreases j - i
  {
    if i < j {
      if i == 0 {
      } else if i == 1 {
      } else if i == 2 {
      } else {
      }
      DecayMonotoneIndex(d, i + 1, j);
    }
  }

  /** Slower averages stay farther away: indices starting at the same distance stay ordered. */
  lemma {:induction false} StaysOrdered(d: nat, i: Index, j: Index, ticks: nat)
    requires i <= j
    ensures DistanceAfter(d, i, ticks) <= DistanceAfter(d, j, ticks)
  {
    if ticks > 0 {
      StaysOrdered(d, i, j, ticks - 1);
      DecayMonotone(DistanceAfter(d, i, ticks - 1), DistanceAfter(d, j, ticks - 1), i, j);
    }
  }

  class CpuLoad {
    const cpuLoad: array<nat>
    var weight: nat
    var updates: nat

    constructor (weight: nat)
      ensures fresh(cpuLoad) && cpuLoad.Length == CPU_LOAD_IDX_MAX
      ensures forall i :: 0 <= i < CPU_LOAD_IDX_MAX ==> cpuLoad[i] == 0
      ensures this.weight == weight && updates == 0
    {
      cpuLoad := new nat[CPU_LOAD_IDX_MAX](_ => 0);
      this.weight := weight;
      updates := 0;
    }

    /** `update_cpu_load`: one tick of every average. */
    method UpdateCpuLoad()
      requires cpuLoad.Length == CPU_LOAD_IDX_MAX
      modifies this`updates, cpuLoad
      ensures updates == old(updates) + 1
      ensures forall i: Index :: cpuLoad[i] == Averaged(old(cpuLoad[i]), weight, i)
    {
      updates := updates + 1;
      var i, scale := 0, 1;
      while i < CPU_LOAD_IDX_MAX
        invariant updates == old(updates) + 1
        invariant 0 <= i <= CPU_LOAD_IDX_MAX && (i < CPU_LOAD_IDX_MAX ==> scale == Scale(i))
        invariant forall k: Index :: k < i ==> cpuLoad[k] == Averaged(old(cpuLoad[k]), weight, k)
        invariant forall k: Index :: i <= k ==> cpuLoad[k] == old(cpuLoad[k])
      {
        var oldLoad, newLoad := cpuLoad[i], weight;
        if newLoad > oldLoad {
          newLoad := newLoad + (scale - 1);
        }
        cpuLoad[i] := ShiftRight((oldLoad * (scale - 1) + newLoad) % TWO_64, i);
        i, scale := i + 1, scale + scale;
      }
    }
  }
}
