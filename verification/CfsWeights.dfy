/**
 Weighted runtime accounting (userspace/schedulers/cfs/cfs_scheduler.h and .cc).
 */
module CfsWeights {

  const MIN_NICE := -20
  const MAX_NICE := 19

  /** 2^22, by which a product with an inverse weight is divided. */
  const SCALE := 0x40_0000

  const NICE_TO_WEIGHT: seq<nat> := [
    88761, 71755, 56483, 46273, 36291,
    29154, 23254, 18705, 14949, 11916,
    9548, 7620, 6100, 4904, 3906,
    3121, 2501, 1991, 1586, 1277,
    1024, 820, 655, 526, 423,
    335, 272, 215, 172, 137,
    110, 87, 70, 56, 45,
    36, 29, 23, 18, 15]

  const NICE_TO_INVERSE_WEIGHT: seq<nat> := [
    48388, 59856, 76040, 92818, 118348,
    147320, 184698, 229616, 287308, 360437,
    449829, 563644, 704093, 875809, 1099582,
    1376151, 1717300, 2157191, 2708050, 3363326,
    4194304, 5237765, 6557202, 8165337, 10153587,
    12820798, 15790321, 19976592, 24970740, 31350126,
    39045157, 49367440, 61356676, 76695844, 95443717,
    119304647, 148102320, 186737708, 238609294, 286331153]

  type Nice = n: int | MIN_NICE <= n <= MAX_NICE witness 0

  function Weight(nice: Nice): nat
  {
    NICE_TO_WEIGHT[nice - MIN_NICE]
  }

  function InverseWeight(nice: Nice): nat
  {
    NICE_TO_INVERSE_WEIGHT[nice - MIN_NICE]
  }

  /** The vruntime that a task is charged for a run of `runtime` nanoseconds. */
  function Charge(nice: Nice, runtime: nat): nat
  {
    InverseWeight(nice) * runtime / SCALE
  }

  /** Every inverse weight is 2^32 divided by the weight, to within one. */
  lemma {:induction false} Inverse(nice: Nice)
    ensures Weight(nice) > 0 && InverseWeight(nice) * Weight(nice) < 0x1_0000_0000 + Weight(nice)
    ensures 0x1_0000_0000 < InverseWeight(nice) * Weight(nice) + Weight(nice)
  {
  }

  /** The weight falls with every step of nice, by a factor between 6/5 and 23/18, from 1024 at nice 0 on. */
  lemma {:induction false} WeightSteps(nice: Nice)
    requires nice < MAX_NICE
    ensures Weight(nice + 1) < Weight(nice) && Weight(0) == 1024
    ensures 6 * Weight(nice + 1) <= 5 * Weight(nice) && 18 * Weight(nice) <= 23 * Weight(nice + 1)
    ensures InverseWeight(nice) < InverseWeight(nice + 1)
  {
  }

  /** So a task of higher nice is charged no less for the same run. */
  lemma {:induction false} NicerPaysMore(a: Nice, b: Nice, runtime: nat)
    requires a <= b
    ensures InverseWeight(a) <= InverseWeight(b) && Charge(a, runtime) <= Charge(b, runtime)
    decreases b - a
  {
    if a < b {
      WeightSteps(a);
      NicerPaysMore(a + 1, b, runtime);
      Scaled(InverseWeight(a), InverseWeight(a + 1), runtime);
    }
  }

  lemma {:induction false} Scaled(x: nat, y: nat, runtime: nat)
    requires x <= y
    ensures x * runtime / SCALE <= y * runtime / SCALE
  {
    assert x * runtime <= y * runtime;
  }

  /** The total length of some runs. */
  function Total(runs: seq<nat>): nat {
    if runs == [] then 0 else Total(runs[..|runs| - 1]) + runs[|runs| - 1]
  }

  /** The vruntime accumulated over some runs. */
  function Accumulated(nice: Nice, runs: seq<nat>): nat
  {
    if runs == [] then 0 else Accumulated(nice, runs[..|runs| - 1]) + Charge(nice, runs[|runs| - 1])
  }

  lemma {:induction false} RoundedDown(p: nat)
    ensures 0 <= p - p / SCALE * SCALE < SCALE
  {
  }

  lemma {:induction false} Distribute(a: int, x: int, y: int)
    ensures a * (x + y) == a * x + a * y
  {
  }

  /** Each run loses less than one nanosecond to rounding. */
  lemma {:induction false} Rounding(nice: Nice, runs: seq<nat>)
    ensures 0 <= InverseWeight(nice) * Total(runs) - Accumulated(nice, runs) * SCALE
    ensures runs != [] ==> InverseWeight(nice) * Total(runs) - Accumulated(nice, runs) * SCALE < |runs| * SCALE
  {
    if runs != [] {
      var before, last := runs[..|runs| - 1], runs[|runs| - 1];
      Rounding(nice, before);
      Distribute(InverseWeight(nice), Total(before), last);
      RoundedDown(InverseWeight(nice) * last);
    }
  }

  /**
   The bound on weighted accounting: over k runs of R nanoseconds in all,
   |vruntime - 1024 R / weight| < k + R / 2^22.
   */
  lemma {:induction false} AccountingBound(nice: Nice, runs: seq<nat>)
    requires runs != []
    ensures var w, r, v: int := Weight(nice), Total(runs), Accumulated(nice, runs);
      0 - (|runs| * SCALE + r) * w < (v * w - 1024 * r) * SCALE < (|runs| * SCALE + r) * w
  {
    Inverse(nice);
    Rounding(nice, runs);
    Bound(Weight(nice), InverseWeight(nice), Total(runs), Accumulated(nice, runs), |runs| * SCALE);
  }

  lemma {:induction false} Bound(w: int, inv: int, r: int, v: int, k: int)
    requires w > 0 && 0 < inv * w - 0x1_0000_0000 + w < 2 * w && 0 <= inv * r - v * SCALE < k && r >= 0
    ensures 0 - (k + r) * w < (v * w - 1024 * r) * SCALE < (k + r) * w
  {
    var e, d := inv * w - 0x1_0000_0000, inv * r - v * SCALE;
    assert r * e == r * (inv * w) - r * 0x1_0000_0000 by { Distribute(r, inv * w, -0x1_0000_0000); }
    assert d * w == inv * r * w - v * SCALE * w by { Distribute(w, inv * r, -(v * SCALE)); }
    assert r * (inv * w) == inv * r * w;
    assert v * SCALE * w == v * w * SCALE;
    Between(r, e, w);
    Below(d, k, w);
    Distribute(w, k, r);
  }

  lemma {:induction false} Between(r: int, e: int, w: int)
    requires r >= 0 && -w < e < w
    ensures -(r * w) <= r * e <= r * w
  {
  }

  lemma {:induction false} Below(d: int, k: int, w: int)
    requires 0 <= d < k && w > 0
    ensures 0 <= d * w < k * w
  {
  }

  /** At nice 0 the vruntime is the runtime. */
  lemma {:induction false} NiceZero(runs: seq<nat>)
    ensures Accumulated(0, runs) == Total(runs)
  {
    if runs != [] {
      NiceZero(runs[..|runs| - 1]);
      assert InverseWeight(0) == SCALE;
    }
  }

  /** The charge for one run fits 64 bits while the run is shorter than 2^57 nanoseconds. */
  lemma {:induction false} FitsWord(nice: Nice, runtime: nat)
    requires runtime < 0x200_0000_0000_0000
    ensures Charge(nice, runtime) < 0x1_0000_0000_0000_0000
  {
    LargestInverse(nice);
    assert InverseWeight(nice) * runtime <= 286331153 * runtime;
    assert Charge(nice, runtime) * SCALE <= InverseWeight(nice) * runtime;
  }

  /** For a run twice as long it need not. */
  lemma {:induction false} NeedNotFit()
    ensures Charge(MAX_NICE, 0x400_0000_0000_0000) >= 0x1_0000_0000_0000_0000
  {
    assert InverseWeight(MAX_NICE) == 286331153;
  }

  lemma {:induction false} LargestInverse(nice: Nice)
    ensures InverseWeight(nice) <= 286331153
  {
  }
}
