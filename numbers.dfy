/** JavaScript number helpers used by the chart utilities, over exact reals. */
module Numbers {

  /** `Math.round`: the nearest integer, a half rounded towards +infinity. */
  function Round(x: real): (r: int)
    ensures x - 0.5 < r as real <= x + 0.5
  {
    (x + 0.5).Floor
  }

  /** `Math.round(x * 10) / 10`: a value with at most one decimal place. */
  function RoundTo1(x: real): (r: real)
    ensures x - 0.05 < r <= x + 0.05
    ensures (r * 10.0).Floor as real == r * 10.0
  {
    Round(x * 10.0) as real / 10.0
  }

  lemma RoundMonotone(x: real, y: real)
    requires x <= y
    ensures Round(x) <= Round(y)
  {
  }

  lemma RoundTo1Monotone(x: real, y: real)
    requires x <= y
    ensures RoundTo1(x) <= RoundTo1(y)
  {
    RoundMonotone(x * 10.0, y * 10.0);
  }

  lemma DivideBounds(v: real, n: real, s: real)
    requires s > 0.0 && v - 0.5 <= n <= v + 0.5
    ensures v / s - 0.5 / s <= n / s <= v / s + 0.5 / s
  {
    assert (v - 0.5) / s <= n / s;
    assert n / s <= (v + 0.5) / s;
  }

  /**
   * The digits `x.toFixed(d)` prints, as one integer (scale = 10^d): the
   * integer nearest to x * scale, a tie going away from zero (up for a
   * non-negative x, down for a negative one).
   */
  function FixedDigits(x: real, scale: nat): (n: int)
    requires scale > 0
    ensures x >= 0.0 ==> 0 <= n && x * scale as real - 0.5 < n as real <= x * scale as real + 0.5
    ensures x < 0.0 ==> n <= 0 && x * scale as real - 0.5 <= n as real < x * scale as real + 0.5
  {
    if x < 0.0 then
      assert -x * scale as real == -(x * scale as real);
      -(-x * scale as real + 0.5).Floor
    else
      (x * scale as real + 0.5).Floor
  }

  /**
   * `parseFloat(x.toFixed(d))` with scale = 10^d: `toFixed` rounds the
   * magnitude, a tie going up, and puts the sign back, so ties go away
   * from zero (unlike `Math.round`). The result is a whole number of
   * 1/scale steps, so it has at most d decimals.
   */
  function ToFixed(x: real, scale: nat): (r: real)
    requires scale > 0
    ensures r == FixedDigits(x, scale) as real / scale as real
    ensures -(0.5 / scale as real) <= r - x <= 0.5 / scale as real
    ensures x >= 0.0 ==> r >= 0.0
    ensures x <= 0.0 ==> r <= 0.0
  {
    var n := FixedDigits(x, scale);
    DivideBounds(x * scale as real, n as real, scale as real);
    assert (x * scale as real) / scale as real == x;
    n as real / scale as real
  }

  /** `toFixed` is symmetric in the sign; `Math.round` is not. */
  lemma ToFixedIsOdd(x: real, scale: nat)
    requires scale > 0
    ensures ToFixed(-x, scale) == -ToFixed(x, scale)
  {
  }

  /** -0.25 shows the difference: `Math.round` gives -0.2, `toFixed(1)` gives -0.3. */
  lemma HalvesDiffer()
    ensures RoundTo1(-0.25) == -0.2
    ensures ToFixed(-0.25, 10) == -0.3
  {
    assert (-0.25 * 10.0 + 0.5).Floor == -2;
    assert (0.25 * 10.0 + 0.5).Floor == 3;
  }

  /** The sum of a sequence of integers. */
  function Sum(q: seq<int>): int
  {
    if q == [] then 0 else q[0] + Sum(q[1..])
  }

  lemma {:induction false} SumUpdate(q: seq<int>, i: nat, d: int)
    requires i < |q|
    ensures Sum(q[i := q[i] + d]) == Sum(q) + d
  {
    if i > 0 {
      SumUpdate(q[1..], i - 1, d);
      assert q[i := q[i] + d][1..] == q[1..][i - 1 := q[i] + d];
    }
  }

  lemma {:induction false} SumOfZeros(q: seq<int>)
    requires forall i :: 0 <= i < |q| ==> q[i] == 0
    ensures Sum(q) == 0
  {
    if q != [] {
      SumOfZeros(q[1..]);
    }
  }

  /** The sum of a sequence of reals. */
  function SumReals(q: seq<real>): real
  {
    if q == [] then 0.0 else q[0] + SumReals(q[1..])
  }

  lemma {:induction false} SumRealsUpdate(q: seq<real>, i: nat, d: real)
    requires i < |q|
    ensures SumReals(q[i := q[i] + d]) == SumReals(q) + d
  {
    if i > 0 {
      SumRealsUpdate(q[1..], i - 1, d);
      assert q[i := q[i] + d][1..] == q[1..][i - 1 := q[i] + d];
    }
  }

  lemma {:induction false} SumRealsOfZeros(q: seq<real>)
    requires forall i :: 0 <= i < |q| ==> q[i] == 0.0
    ensures SumReals(q) == 0.0
  {
    if q != [] {
      SumRealsOfZeros(q[1..]);
    }
  }
}
