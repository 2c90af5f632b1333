// Small pieces shared by both views: an option type, the percent clamp both
// `percent` setters apply, and the Kotlin integer / Float conversions the
// geometry relies on.

module Common {

  datatype Option<T> = None | Some(value: T)

  function Abs(x: int): (r: nat)
    ensures r == x || r == -x
  {
    if x < 0 then -x else x
  }

  function Dist(a: int, b: int): nat
  {
    Abs(a - b)
  }

  /** The value a `percent` setter stores: the point of 0..100 nearest to `value`. */
  function Clamp(value: int): (r: int)
    ensures 0 <= r <= 100
    ensures 0 <= value <= 100 ==> r == value
    ensures forall v :: 0 <= v <= 100 ==> Dist(value, r) <= Dist(value, v)
  {
    if value < 0 then 0 else if value > 100 then 100 else value
  }

  /** Kotlin's `Int / Int` for a positive divisor: the quotient rounded toward zero. */
  function Quot(a: int, b: int): (q: int)
    requires b > 0
    ensures Abs(q) == Abs(a) / b
    ensures a >= 0 ==> q >= 0
    ensures a < 0 ==> q <= 0
  {
    if a >= 0 then a / b else -((-a) / b)
  }

  /** Kotlin's `Float.toInt()` on a finite value: drops the fraction, toward zero. */
  function TruncReal(x: real): (r: int)
    ensures x >= 0.0 ==> r as real <= x < r as real + 1.0
    ensures x < 0.0 ==> r as real - 1.0 < x <= r as real
  {
    if x >= 0.0 then x.Floor else -((-x).Floor)
  }

  function Min(a: int, b: int): (r: int)
    ensures r <= a && r <= b && (r == a || r == b)
  {
    if a <= b then a else b
  }

  function Max(a: int, b: int): (r: int)
    ensures r >= a && r >= b && (r == a || r == b)
  {
    if a >= b then a else b
  }

  /** Sum of a sequence of integers. */
  function SumInts(s: seq<int>): int
  {
    if s == [] then 0 else s[0] + SumInts(s[1..])
  }

  /** Adding `v` to one entry adds `v` to the sum. */
  lemma {:induction false} SumIntsBump(s: seq<int>, i: nat, v: int)
    requires i < |s|
    ensures SumInts(s[i := s[i] + v]) == SumInts(s) + v
  {
    if i > 0 {
      SumIntsBump(s[1..], i - 1, v);
      assert s[i := s[i] + v][1..] == s[1..][i - 1 := s[i] + v];
    }
  }

  /** Sum of all zeros is zero. */
  lemma {:induction false} SumIntsZeros(n: nat)
    ensures SumInts(seq(n, _ => 0)) == 0
  {
    if n > 0 {
      assert seq(n, _ => 0)[1..] == seq(n - 1, _ => 0);
      SumIntsZeros(n - 1);
    }
  }
}
