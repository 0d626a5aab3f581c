/** Vocabulary shared by every module: market sides, optional values and exact arithmetic helpers.
    `Decimal` and `f64` of the program are both modelled as exact reals. */
module Common {

  datatype Option<+T> = None | Some(value: T)

  /** Which token of the binary market. */
  datatype Side = Yes | No

  function Other(side: Side): Side {
    if side == Yes then No else Yes
  }

  /** Orders are named by their position in the exchange's order of acceptance, so ids are unique. */
  type OrderId = nat

  function Max(a: real, b: real): real {
    if a < b then b else a
  }

  function Min(a: real, b: real): real {
    if a < b then a else b
  }

  function Abs(x: real): real {
    if x < 0.0 then -x else x
  }

  function Clamp(x: real, lo: real, hi: real): real {
    if x < lo then lo else if hi < x then hi else x
  }

  /** `u64::saturating_sub`. */
  function SaturatingSub(a: nat, b: nat): nat {
    if a < b then 0 else a - b
  }

  /** Products of reals, one factor at a time: the solver is asked for nothing harder than these. */
  lemma MulMono(a: real, b: real, c: real)
    requires a <= b && 0.0 <= c
    ensures a * c <= b * c
  {
  }

  lemma MulStrict(a: real, b: real, c: real)
    requires a < b && 0.0 < c
    ensures a * c < b * c
  {
  }

  lemma CancelFactor(a: real, b: real, c: real)
    requires a * c < b * c && 0.0 <= c
    ensures a < b
  {
    if b <= a {
      MulMono(b, a, c);
    }
  }

  lemma PositiveFactor(a: real, b: real)
    requires 0.0 < a * b && 0.0 <= b
    ensures 0.0 < a
  {
    CancelFactor(0.0, a, b);
  }

  lemma QuotientIs(a: real, b: real, q: real)
    requires 0.0 < b && a == q * b
    ensures a / b == q
  {
    if a / b < q {
      MulStrict(a / b, q, b);
    } else if q < a / b {
      MulStrict(q, a / b, b);
    }
  }

  lemma QuotientAtMost(a: real, b: real, k: real)
    requires 0.0 < b && a / b <= k
    ensures a <= k * b
  {
    MulMono(a / b, k, b);
    QuotientTimes(a, b);
  }

  lemma QuotientMoreThan(a: real, b: real, k: real)
    requires 0.0 < b && k < a / b
    ensures k * b < a
  {
    MulStrict(k, a / b, b);
    QuotientTimes(a, b);
  }

  lemma QuotientTimes(a: real, b: real)
    requires 0.0 < b
    ensures a / b * b == a
  {
  }
}
