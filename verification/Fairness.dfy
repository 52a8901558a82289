/** Per-tenant service accounting and the choice of the next tenant. */
module Fairness {
  import opened Types
  import opened Policy

  function Get(m: map<U64, U64>, t: U64): U64 { if t in m then m[t] else 0 }

  /** `m[t] += work` in wrapping 64-bit arithmetic. */
  function NoteWork(m: map<U64, U64>, t: U64, work: U64): map<U64, U64> {
    m[t := Add64(Get(m, t), work)]
  }

  function NoteDone(m: map<U64, U64>, t: U64, work: U64): map<U64, U64> {
    m[t := if Get(m, t) > work then Get(m, t) - work else 0]
  }

  predicate AtCap(f: FairnessPolicy, outstanding: map<U64, U64>, t: U64) {
    f.maxOutstanding != 0 && Get(outstanding, t) >= f.maxOutstanding
  }

  function Weight(f: FairnessPolicy, t: U64): U32 {
    if t in f.weights then f.weights[t] else f.defaultWeight
  }

  /** The divisor used in comparisons: a zero weight counts as one. */
  function Divisor(f: FairnessPolicy, t: U64): (w: nat)
    ensures w > 0
  {
    if Weight(f, t) == 0 then 1 else Weight(f, t)
  }

  /** Work served per unit of weight, as an exact rational. */
  function Ratio(f: FairnessPolicy, served: map<U64, U64>, t: U64): real {
    Get(served, t) as real / Divisor(f, t) as real
  }

  /** Strictly less served, the smaller tenant number breaking ties. */
  predicate Prefer(f: FairnessPolicy, served: map<U64, U64>, x: U64, y: U64) {
    || Ratio(f, served, x) < Ratio(f, served, y)
    || (Ratio(f, served, x) == Ratio(f, served, y) && x < y)
  }

  // ---- the same in whole numbers ----

  /** `a` is the weight of tenant `t`: what is configured for it, or else the default;
      zero counts as one. */
  predicate Weighs(f: FairnessPolicy, t: U64, a: nat) {
    && (t in f.weights && f.weights[t] != 0 ==> a == f.weights[t])
    && (t !in f.weights && f.defaultWeight != 0 ==> a == f.defaultWeight)
    && ((if t in f.weights then f.weights[t] else f.defaultWeight) == 0 ==> a == 1)
  }

  /** Tenant `x` of weight `a` comes before tenant `y` of weight `b`: it has been served
      less for its weight, or just as much and has the smaller number. */
  predicate LessServed(served: map<U64, U64>, x: U64, a: nat, y: U64, b: nat) {
    var sx, sy := if x in served then served[x] else 0, if y in served then served[y] else 0;
    sx * b < sy * a || (sx * b == sy * a && x < y)
  }

  lemma CrossMultiplied(sx: nat, a: nat, sy: nat, b: nat)
    requires a > 0 && b > 0
    ensures sx as real / a as real < sy as real / b as real <==> sx * b < sy * a
    ensures sx as real / a as real == sy as real / b as real <==> sx * b == sy * a
  {
    var x, y, u, v := sx as real, sy as real, a as real, b as real;
    assert (sx * b) as real == x * v && (sy * a) as real == y * u;
    Crossed(x, u, y, v);
  }

  lemma Crossed(x: real, u: real, y: real, v: real)
    requires u > 0.0 && v > 0.0
    ensures x / u < y / v <==> x * v < y * u
    ensures x / u == y / v <==> x * v == y * u
  {
    var p, q := x / u, y / v;
    assert x == p * u && y == q * v;
    assert x * v == p * (u * v) && y * u == q * (u * v);
    assert u * v > 0.0;
    Scaled(p, q, u * v);
  }

  lemma Scaled(p: real, q: real, k: real)
    requires k > 0.0
    ensures p < q <==> p * k < q * k
    ensures p == q <==> p * k == q * k
  {
    if p < q { assert (q - p) * k > 0.0; }
    if q < p { assert (p - q) * k > 0.0; }
  }

  /** The order of preference compares served work against configured weights. */
  lemma PreferExact(f: FairnessPolicy, served: map<U64, U64>, x: U64, a: nat, y: U64, b: nat)
    requires Weighs(f, x, a) && Weighs(f, y, b)
    ensures Prefer(f, served, x, y) <==> LessServed(served, x, a, y, b)
  {
    CrossMultiplied(Get(served, x), a, Get(served, y), b);
  }

  /** Nobody in the list comes before `best`. */
  ghost predicate LeastServed(f: FairnessPolicy, served: map<U64, U64>, cands: seq<U64>, best: U64) {
    && best in cands
    && forall c, a, b | c in cands && c != best && Weighs(f, best, a) && Weighs(f, c, b) :: LessServed(served, best, a, c, b)
  }

  lemma PreferOrders(f: FairnessPolicy, served: map<U64, U64>, x: U64, y: U64, z: U64)
    ensures x != y ==> Prefer(f, served, x, y) || Prefer(f, served, y, x)
    ensures Prefer(f, served, x, y) && Prefer(f, served, y, z) ==> Prefer(f, served, x, z)
  {
    hide Ratio;
  }

  /** FairnessController::select_next: the least under (served / weight, number),
      in whatever order the candidates come. */
  method SelectNext(f: FairnessPolicy, served: map<U64, U64>, cands: seq<U64>) returns (best: U64)
    ensures cands == [] ==> best == 0
    ensures cands != [] ==> best in cands && forall c :: c in cands && c != best ==> Prefer(f, served, best, c)
    ensures cands != [] ==> LeastServed(f, served, cands, best)
  {
    hide Ratio, Weighs, LessServed;
    if cands == [] { return 0; }
    best := cands[0];
    for i := 1 to |cands|
      invariant best in cands[..i]
      invariant forall c :: c in cands[..i] && c != best ==> Prefer(f, served, best, c)
    {
      var bestUnder := Ratio(f, served, best) < Ratio(f, served, cands[i]);
      var candUnder := Ratio(f, served, cands[i]) < Ratio(f, served, best);
      assert cands[..i + 1] == cands[..i] + [cands[i]];
      forall c | c in cands[..i] ensures Prefer(f, served, cands[i], best) && Prefer(f, served, best, c) ==> Prefer(f, served, cands[i], c) {
        PreferOrders(f, served, cands[i], best, c);
      }
      if candUnder && !bestUnder {
        best := cands[i];
      } else if !candUnder && !bestUnder && cands[i] < best {
        best := cands[i];
      }
    }
    assert cands[..|cands|] == cands;
    forall c, a, b | c in cands && c != best && Weighs(f, best, a) && Weighs(f, c, b) ensures LessServed(served, best, a, c, b) {
      PreferExact(f, served, best, a, c, b);
    }
  }
}
