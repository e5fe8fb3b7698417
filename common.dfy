/** Shared vocabulary of the pricing model: optional values, money in cents,
    time in seconds, the clamps and the two Decimal rounding modes the
    application uses when it quantizes an amount to 0.01. */
module Common {

  datatype Option<T> = None | Some(value: T)

  /** A Decimal amount with two places, as an exact number of hundredths. */
  type Cents = int

  /** An instant, in seconds. */
  type Time = int

  type UserId = nat

  const DAY: int := 86400

  function Max0(x: int): (r: int)
    ensures r >= 0 && r >= x
    ensures r == 0 || r == x
  {
    if x < 0 then 0 else x
  }

  function Min(a: int, b: int): (r: int)
    ensures r <= a && r <= b
    ensures r == a || r == b
  {
    if a <= b then a else b
  }

  /** `max(lo, min(hi, x))` */
  function Clamp(lo: int, hi: int, x: int): (r: int)
    requires lo <= hi
    ensures lo <= r <= hi
    ensures lo <= x <= hi ==> r == x
    ensures x < lo ==> r == lo
    ensures hi < x ==> r == hi
  {
    if x < lo then lo else if hi < x then hi else x
  }

  /** `(n / d).quantize(1)` under Decimal's default context, ROUND_HALF_EVEN:
      the integer nearest to n/d, a tie going to the even neighbour. */
  function RoundHalfEven(n: int, d: int): (r: int)
    requires d > 0
    ensures -d <= 2 * (n - r * d) <= d
    ensures 2 * (n - r * d) == d ==> r % 2 == 0
    ensures 2 * (n - r * d) == -d ==> r % 2 == 0
  {
    var q, rem := n / d, n % d;
    QuotientFacts(n, d);
    if 2 * rem < d then q
    else if 2 * rem > d then q + 1
    else if q % 2 == 0 then q
    else q + 1
  }

  /** Euclidean division in the linear form the rounding proofs use. */
  lemma QuotientFacts(n: int, d: int)
    requires d > 0
    ensures n - (n / d) * d == n % d
    ensures (n / d + 1) * d == (n / d) * d + d
  {
  }

  lemma MulNeg(s: int, d: int)
    ensures (-s) * d == -(s * d)
  {
  }

  /** `(n / d).quantize(1, rounding=ROUND_HALF_UP)`: the integer nearest to
      n/d, a tie going away from zero (Decimal's meaning of HALF_UP). */
  function RoundHalfUp(n: int, d: int): (r: int)
    requires d > 0
    ensures -d <= 2 * (n - r * d) <= d
    ensures 2 * (n - r * d) == d ==> n < 0
    ensures 2 * (n - r * d) == -d ==> n >= 0
  {
    if n >= 0 then RoundHalfUpNat(n, d)
    else
      var s := RoundHalfUpNat(-n, d);
      MulNeg(s, d);
      -s
  }

  /** Rounding half up of a non-negative quotient: a tie goes up. */
  function RoundHalfUpNat(n: nat, d: int): (r: int)
    requires d > 0
    ensures -d <= 2 * (n - r * d) <= d
    ensures 2 * (n - r * d) != d
  {
    var q, rem := n / d, n % d;
    QuotientFacts(n, d);
    if 2 * rem >= d then q + 1 else q
  }

  /** `n` copies of `x`: the rows a loop that creates the same record `n`
      times appends. */
  function Repeat<T>(x: T, n: nat): (r: seq<T>)
    ensures |r| == n && forall i | 0 <= i < n :: r[i] == x
  {
    if n == 0 then [] else Repeat(x, n - 1) + [x]
  }
}
