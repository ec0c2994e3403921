/** Axis arithmetic of the activity charts over exact reals (apps/web-panel/client/chart.ts:37-52). */
module Chart {

  // ----- the top of the y axis

  function Pow10(e: int): (p: real)
    ensures p > 0.0
    decreases if e < 0 then -e else e
  {
    if e == 0 then 1.0 else if e > 0 then 10.0 * Pow10(e - 1) else Pow10(e + 1) / 10.0
  }

  lemma Pow10Step(e: int)
    ensures Pow10(e + 1) == 10.0 * Pow10(e)
  {
  }

  lemma {:induction false} Pow10Order(a: int, b: int)
    requires a < b
    ensures 10.0 * Pow10(a) <= Pow10(b)
    decreases b - a
  {
    Pow10Step(b - 1);
    if a < b - 1 {
      Pow10Order(a, b - 1);
    }
  }

  /** The integer part of the decimal logarithm. */
  function FloorLog10(x: real): (e: int)
    requires x > 0.0
    ensures Pow10(e) <= x < Pow10(e + 1)
    decreases if x >= 1.0 then 0 else 1, if x >= 1.0 then x.Floor else (1.0 / x).Floor
  {
    if x >= 10.0 then FloorLog10(x / 10.0) + 1
    else if x < 1.0 then
      assert (1.0 / x) == 10.0 * (1.0 / (10.0 * x));
      var e := FloorLog10(10.0 * x);
      Pow10Step(e - 1); Pow10Step(e);
      e - 1
    else 0
  }

  const STEPS: seq<real> := [1.0, 2.0, 2.5, 5.0, 10.0]

  function FirstReaching(steps: seq<real>, magnitude: real, peak: real): real {
    if steps == [] then 10.0 * magnitude
    else if steps[0] * magnitude >= peak then steps[0] * magnitude
    else FirstReaching(steps[1..], magnitude, peak)
  }

  function NiceMax(peak: real): real {
    if peak <= 0.0 then 1.0 else FirstReaching(STEPS, Pow10(FloorLog10(peak)), peak)
  }

  /** A round number: one of the steps times a power of ten. */
  predicate Nice(step: real, e: int, value: real) {
    step in STEPS && value == step * Pow10(e)
  }

  lemma NiceMaxCases(peak: real)
    requires peak > 0.0
    ensures var m := Pow10(FloorLog10(peak));
            NiceMax(peak) == if peak <= m then m else if peak <= 2.0 * m then 2.0 * m
                             else if peak <= 2.5 * m then 2.5 * m else if peak <= 5.0 * m then 5.0 * m else 10.0 * m
  {
    var m := Pow10(FloorLog10(peak));
    assert STEPS[1..] == [2.0, 2.5, 5.0, 10.0] && [2.0, 2.5, 5.0, 10.0][1..] == [2.5, 5.0, 10.0];
    assert [2.5, 5.0, 10.0][1..] == [5.0, 10.0] && [5.0, 10.0][1..] == [10.0];
    assert FirstReaching([10.0], m, peak) == 10.0 * m;
    assert FirstReaching([5.0, 10.0], m, peak) == if peak <= 5.0 * m then 5.0 * m else 10.0 * m;
    assert FirstReaching([2.5, 5.0, 10.0], m, peak) ==
           if peak <= 2.5 * m then 2.5 * m else FirstReaching([5.0, 10.0], m, peak);
    assert FirstReaching([2.0, 2.5, 5.0, 10.0], m, peak) ==
           if peak <= 2.0 * m then 2.0 * m else FirstReaching([2.5, 5.0, 10.0], m, peak);
    assert STEPS[0] * m == m;
  }

  /** The axis holds the peak and wastes less than half its height. */
  lemma NiceMaxHoldsThePeak(peak: real)
    requires peak > 0.0
    ensures peak <= NiceMax(peak) < 2.0 * peak
  {
    NiceMaxCases(peak);
    Pow10Step(FloorLog10(peak));
  }

  /** Without data the axis goes to one, as it does for a peak of one. */
  lemma AxisWithoutData(peak: real)
    requires peak <= 0.0 || peak == 1.0
    ensures NiceMax(peak) == 1.0
  {
    if peak > 0.0 {
      NiceMaxCases(1.0);
      assert FloorLog10(1.0) == 0;
    }
  }

  /** The axis top is the least round number that holds the peak. */
  lemma NiceMaxIsLeast(peak: real, step: real, e: int, value: real)
    requires peak > 0.0 && Nice(step, e, value) && value >= peak
    ensures NiceMax(peak) <= value
  {
    var k := FloorLog10(peak);
    NiceMaxCases(peak);
    Pow10Step(k);
    var m, p := Pow10(k), Pow10(e);
    hide Pow10, FloorLog10, NiceMax, Nice;
    StepBounds(step, p);
    if e < k {
      Pow10Order(e, k);
    } else if e > k {
      Pow10Order(k, e);
    }
  }

  lemma StepBounds(step: real, p: real)
    requires step in STEPS && p > 0.0
    ensures p <= step * p <= 10.0 * p
    ensures step * p in {p, 2.0 * p, 2.5 * p, 5.0 * p, 10.0 * p}
  {
    assert step in [1.0, 2.0, 2.5, 5.0, 10.0];
  }

  lemma NiceMaxIsNice(peak: real)
    requires peak > 0.0
    ensures exists step :: Nice(step, FloorLog10(peak), NiceMax(peak))
  {
    NiceMaxCases(peak);
    var k := FloorLog10(peak);
    var m := Pow10(k);
    var step := if peak <= m then 1.0 else if peak <= 2.0 * m then 2.0
                else if peak <= 2.5 * m then 2.5 else if peak <= 5.0 * m then 5.0 else 10.0;
    assert step in STEPS by {
      assert STEPS[0] == 1.0 && STEPS[1] == 2.0 && STEPS[2] == 2.5 && STEPS[3] == 5.0 && STEPS[4] == 10.0;
    }
    assert Nice(step, k, NiceMax(peak));
  }

  /** Feeding an axis top back in leaves it alone. */
  lemma NiceMaxIsStable(peak: real)
    ensures NiceMax(NiceMax(peak)) == NiceMax(peak)
  {
    if peak > 0.0 {
      NiceMaxIsNice(peak);
      NiceMaxHoldsThePeak(peak);
      var top := NiceMax(peak);
      var step :| Nice(step, FloorLog10(peak), top);
      NiceMaxIsLeast(top, step, FloorLog10(peak), top);
      NiceMaxHoldsThePeak(top);
    } else {
      NiceMaxCases(1.0);
      assert FloorLog10(1.0) == 0;
    }
  }

  // ----- which buckets get a label

  /** Rounding to the nearest integer, halves upwards. */
  function Round(x: real): int {
    (x + 0.5).Floor
  }

  /** With `wanted` 1 the source divides by zero. */
  function TickIndices(length: nat, wanted: nat): seq<int>
    requires length <= wanted || wanted != 1
  {
    if length <= wanted then seq(length, i => i)
    else
      var stride := (length - 1) as real / (wanted - 1) as real;
      seq(wanted, i => Tick(i, stride))
  }

  function Tick(i: int, stride: real): int {
    Round(i as real * stride)
  }

  lemma FloorStep(x: real, stride: real)
    ensures stride.Floor <= Round(x + stride) - Round(x) <= stride.Floor + 1
  {
  }

  lemma TickGap(length: nat, wanted: nat, i: nat)
    requires length > wanted >= 2 && 0 < i < wanted
    ensures var t, q := TickIndices(length, wanted), (length - 1) / (wanted - 1); q <= t[i] - t[i - 1] <= q + 1
  {
    FloorOfQuotient(length - 1, wanted - 1);
    hide TickIndices;
    var stride := (length - 1) as real / (wanted - 1) as real;
    var x := (i - 1) as real * stride;
    assert i as real * stride == x + stride;
    FloorStep(x, stride);
  }

  /** From the first bucket to the last, every gap is the floor of the stride or one more. */
  lemma TicksAreEven(length: nat, wanted: nat)
    requires length > wanted >= 2
    ensures var t := TickIndices(length, wanted);
            && |t| == wanted && t[0] == 0 && t[wanted - 1] == length - 1
            && forall i :: 0 < i < wanted ==>
                 (length - 1) / (wanted - 1) <= t[i] - t[i - 1] <= (length - 1) / (wanted - 1) + 1
    ensures (length - 1) / (wanted - 1) >= 1
  {
    var n, w := length - 1, wanted - 1;
    assert w as real * (n as real / w as real) == n as real;
    forall i | 0 < i < wanted
      ensures n / w <= TickIndices(length, wanted)[i] - TickIndices(length, wanted)[i - 1] <= n / w + 1
    {
      TickGap(length, wanted, i);
    }
  }

  lemma FloorOfQuotient(n: nat, w: nat)
    requires w > 0
    ensures (n as real / w as real).Floor == n / w
  {
    var q, r := n / w, n % w;
    assert n == q * w + r;
    var x := n as real / w as real;
    assert n as real == q as real * w as real + r as real;
    assert x == q as real + r as real / w as real;
    assert 0.0 <= r as real / w as real < 1.0;
  }

  /** The labels are strictly increasing bucket indices, from the first bucket to the last. */
  lemma {:induction false} TicksIncrease(length: nat, wanted: nat, i: nat, j: nat)
    requires length <= wanted || wanted >= 2
    requires i < j < |TickIndices(length, wanted)|
    ensures 0 <= TickIndices(length, wanted)[i] < TickIndices(length, wanted)[j] < length
    decreases j - i
  {
    if length > wanted {
      TicksAreEven(length, wanted);
      TicksBounded(length, wanted, i);
      TicksBounded(length, wanted, j);
      if i < j - 1 {
        TicksIncrease(length, wanted, i, j - 1);
      }
    }
  }

  lemma {:induction false} TicksBounded(length: nat, wanted: nat, i: nat)
    requires length > wanted >= 2 && i < wanted
    ensures i <= TickIndices(length, wanted)[i] <= length - 1 - (wanted - 1 - i)
  {
    TicksFromFirst(length, wanted, i);
    TicksToLast(length, wanted, i);
  }

  lemma {:induction false} TicksFromFirst(length: nat, wanted: nat, i: nat)
    requires length > wanted >= 2 && i < wanted
    ensures i <= TickIndices(length, wanted)[i]
  {
    TicksAreEven(length, wanted);
    if i > 0 {
      TicksFromFirst(length, wanted, i - 1);
    }
  }

  lemma {:induction false} TicksToLast(length: nat, wanted: nat, i: nat)
    requires length > wanted >= 2 && i < wanted
    ensures TickIndices(length, wanted)[i] <= length - 1 - (wanted - 1 - i)
    decreases wanted - i
  {
    TicksAreEven(length, wanted);
    if i < wanted - 1 {
      TicksToLast(length, wanted, i + 1);
    }
  }
}
