/** The channel-vector helpers of the daemon: `vector_diff`, `vector_mac`
    and the brightness curve `normalized_to_pwm`. A channel vector is a
    sequence of reals, one per LED; Python floats are modelled as exact
    reals. */
module Vectors {

  /** `[0.0 for v in range(n)]`. */
  function Zeros(n: nat): seq<real> {
    seq(n, _ => 0.0)
  }

  /** `vector_diff(a, b, fact)`: `(a[k] - b[k]) * fact` over `zip(a, b)`, so
      as long as the shorter argument. */
  function VectorDiff(a: seq<real>, b: seq<real>, fact: real): (r: seq<real>)
    ensures |r| <= |a| && |r| <= |b| && (|r| == |a| || |r| == |b|)
    ensures fact != 0.0 ==> forall k :: 0 <= k < |r| ==> b[k] + r[k] / fact == a[k]
  {
    var n := if |a| <= |b| then |a| else |b|;
    seq(n, k requires 0 <= k < n => (a[k] - b[k]) * fact)
  }

  /** The value `vector_mac(acc, v, m)` leaves in `acc`. */
  function Mac(acc: seq<real>, v: seq<real>, m: real): seq<real>
    requires |v| >= |acc|
  {
    seq(|acc|, k requires 0 <= k < |acc| => acc[k] + v[k] * m)
  }

  /** `vector_mac(acc, v, m)`: adds `v[k] * m` to every `acc[k]` in place;
      `v` must be at least as long as `acc` (Python raises IndexError
      otherwise). */
  method VectorMac(acc: array<real>, v: seq<real>, m: real)
    requires |v| >= acc.Length
    modifies acc
    ensures acc[..] == Mac(old(acc[..]), v, m)
  {
    for k := 0 to acc.Length
      invariant forall j :: 0 <= j < k ==> acc[j] == old(acc[j]) + v[j] * m
      invariant forall j :: k <= j < acc.Length ==> acc[j] == old(acc[j])
    {
      acc[k] := acc[k] + v[k] * m;
    }
    assert forall j :: 0 <= j < acc.Length ==> acc[..][j] == Mac(old(acc[..]), v, m)[j];
  }

  /** Accumulating twice along the same direction is accumulating once by
      the sum of the two factors: the partial steps of a fade add up. */
  lemma MacTwice(acc: seq<real>, v: seq<real>, x: real, y: real)
    requires |v| >= |acc|
    ensures Mac(Mac(acc, v, x), v, y) == Mac(acc, v, x + y)
  {
    forall k | 0 <= k < |acc|
      ensures Mac(Mac(acc, v, x), v, y)[k] == Mac(acc, v, x + y)[k]
    {
      assert v[k] * x + v[k] * y == v[k] * (x + y);
    }
  }

  /** `zip` stops at the shorter vector, so only the first `|b|` entries of
      a longer `a` matter. */
  lemma DiffTruncates(a: seq<real>, b: seq<real>, fact: real)
    requires |a| >= |b|
    ensures VectorDiff(a, b, fact) == VectorDiff(a[..|b|], b, fact)
  {
    forall k | 0 <= k < |b|
      ensures VectorDiff(a, b, fact)[k] == VectorDiff(a[..|b|], b, fact)[k]
    {
    }
  }

  /** Accumulating with factor zero changes nothing. */
  lemma MacZero(acc: seq<real>, v: seq<real>)
    requires |v| >= |acc|
    ensures Mac(acc, v, 0.0) == acc
  {
  }

  /** A fade's step vector `(tgt - curr) / T`, accumulated over the whole
      duration `T`, lands exactly on the target (the part of it as long as
      `curr`). */
  lemma DiffLandsOnTarget(tgt: seq<real>, curr: seq<real>, time: real)
    requires time > 0.0 && |tgt| >= |curr|
    ensures |VectorDiff(tgt, curr, 1.0 / time)| == |curr|
    ensures Mac(curr, VectorDiff(tgt, curr, 1.0 / time), time) == tgt[..|curr|]
  {
    var d := VectorDiff(tgt, curr, 1.0 / time);
    forall k | 0 <= k < |curr|
      ensures Mac(curr, d, time)[k] == tgt[k]
    {
      assert (1.0 / time) * time == 1.0;
      calc {
        d[k] * time;
        (tgt[k] - curr[k]) * ((1.0 / time) * time);
        tgt[k] - curr[k];
      }
    }
  }

  /** `min(1.0, max(0.0, x))`. */
  function Clamp01(x: real): real {
    if x <= 0.0 then 0.0 else if x >= 1.0 then 1.0 else x
  }

  lemma CubeMonotone(a: real, b: real)
    requires 0.0 <= a <= b
    ensures 0.0 <= a * a * a <= b * b * b
  {
    assert 0.0 <= a * a <= a * b <= b * b;
    assert a * a * a <= b * b * a <= b * b * b;
  }

  /** The duty value of one channel whose scaled brightness is `x`:
      `int(0.5 + 4095.0 * min(1.0, max(0.0, x)) ** 3)`; the argument of
      `int` is positive, so truncation is the floor. */
  function PwmLevel(x: real): (r: int)
    ensures 0 <= r <= 4095
    ensures x <= 0.0 ==> r == 0
    ensures x >= 1.0 ==> r == 4095
  {
    var c := Clamp01(x);
    CubeMonotone(0.0, c);
    CubeMonotone(c, 1.0);
    (0.5 + 4095.0 * (c * c * c)).Floor
  }

  /** The brightness curve never decreases: a brighter channel never gets a
      smaller duty value. */
  lemma PwmLevelMonotone(x: real, y: real)
    requires x <= y
    ensures PwmLevel(x) <= PwmLevel(y)
  {
    var cx, cy := Clamp01(x), Clamp01(y);
    CubeMonotone(cx, cy);
    assert 4095.0 * (cx * cx * cx) <= 4095.0 * (cy * cy * cy);
  }

  /** The duty value of one channel of value `v` under brightness `bright`. */
  function Level(v: real, bright: real): int {
    PwmLevel(v * bright)
  }

  /** `normalized_to_pwm(arr, bright)`: the duty value of every channel after
      scaling it by the global brightness. */
  function NormalizedToPwm(arr: seq<real>, bright: real): (r: seq<int>)
    ensures |r| == |arr|
    ensures forall k :: 0 <= k < |r| ==> r[k] == PwmLevel(arr[k] * bright) && 0 <= r[k] <= 4095
  {
    seq(|arr|, k requires 0 <= k < |arr| => Level(arr[k], bright))
  }

  /** The curve's fixed points: a channel whose scaled value is at most 0 is
      off, one at 1 or more is fully on. */
  lemma PwmSaturates(arr: seq<real>, bright: real, k: int)
    requires 0 <= k < |arr|
    ensures arr[k] * bright <= 0.0 ==> NormalizedToPwm(arr, bright)[k] == 0
    ensures arr[k] * bright >= 1.0 ==> NormalizedToPwm(arr, bright)[k] == 4095
  {
  }

  /** Zero brightness, or an all-zero vector, turns every LED off. */
  lemma PwmDark(arr: seq<real>, bright: real)
    ensures NormalizedToPwm(arr, 0.0) == seq(|arr|, _ => 0)
    ensures NormalizedToPwm(Zeros(|arr|), bright) == seq(|arr|, _ => 0)
  {
  }

  /** For a fixed non-negative brightness, the duty values are monotone in
      the channel values. */
  lemma {:induction false} PwmMonotone(v: seq<real>, w: seq<real>, bright: real)
    requires |v| == |w| && bright >= 0.0
    requires forall k :: 0 <= k < |v| ==> v[k] <= w[k]
    ensures forall k :: 0 <= k < |v| ==> NormalizedToPwm(v, bright)[k] <= NormalizedToPwm(w, bright)[k]
  {
    forall k | 0 <= k < |v|
      ensures NormalizedToPwm(v, bright)[k] <= NormalizedToPwm(w, bright)[k]
    {
      assert v[k] * bright <= w[k] * bright;
      PwmLevelMonotone(v[k] * bright, w[k] * bright);
    }
  }
}
