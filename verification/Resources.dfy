/** Capacity and overhead of an instance type (pkg/providers/instancetype/types.go). Quantities of CPU are
    thousandths of a core, quantities of memory bytes unless a name says MiB; fractions are exact reals
    where the source has floating point. */
module Resources {
  import opened Options

  const MIB: int := 1024 * 1024
  const DEFAULT_MAX_PODS := 110
  const MEMORY_AVAILABLE := "memory.available"
  const CPU := "cpu"
  const MEMORY := "memory"
  const EPHEMERAL := "ephemeral-storage"

  function Ceil(x: real): int {
    -((-x).Floor)
  }

  function Min(a: int, b: int): int { if a < b then a else b }

  // ---------------------------------------------------------------- reserved CPU

  datatype Tier = Tier(start: int, end: int, percentage: real)

  const TIERS: seq<Tier> := [
    Tier(0, 1000, 0.06),
    Tier(1000, 2000, 0.01),
    Tier(2000, 4000, 0.005),
    Tier(4000, 0x8000_0000, 0.0025)
  ]

  /** The part of `x` that lies in a tier. */
  function Part(x: int, t: Tier): int {
    if x < t.start then 0 else if x < t.end then x - t.start else t.end - t.start
  }

  /** The exact piecewise-linear reservation: 6% of the first core, 1% of the second, 0.5% of the next
      two, 0.25% of the rest up to 2^31. */
  function ExactReserve(x: int): real {
    if x <= 0 then 0.0
    else if x <= 1000 then 0.06 * x as real
    else if x <= 2000 then 60.0 + 0.01 * (x - 1000) as real
    else if x <= 4000 then 70.0 + 0.005 * (x - 2000) as real
    else if x <= 0x8000_0000 then 80.0 + 0.0025 * (x - 4000) as real
    else 80.0 + 0.0025 * (0x8000_0000 - 4000) as real
  }

  /** The curve by its slope: what the next thousandth of a core adds. */
  lemma ReserveSlope(x: nat)
    ensures ExactReserve(0) == 0.0
    ensures ExactReserve(x + 1) - ExactReserve(x) ==
      if x < 1000 then 0.06
      else if x < 2000 then 0.01
      else if x < 4000 then 0.005
      else if x < 2147483648 then 0.0025
      else 0.0
  {
  }

  /** The sum of the truncated contributions of the first `n` tiers. */
  function Truncated(x: int, n: nat): int
    requires n <= |TIERS|
  {
    if n == 0 then 0 else Truncated(x, n - 1) + (Part(x, TIERS[n - 1]) as real * TIERS[n - 1].percentage).Floor
  }

  /** Truncating tier by tier loses nothing against truncating the exact sum once: only the last tier a
      machine reaches can leave a fraction. */
  lemma TruncatedIsFloor(x: int)
    ensures Truncated(x, 4) == ExactReserve(x).Floor
  {
    assert Truncated(x, 4) == Truncated(x, 3) + (Part(x, TIERS[3]) as real * 0.0025).Floor;
    assert Truncated(x, 3) == Truncated(x, 2) + (Part(x, TIERS[2]) as real * 0.005).Floor;
    assert Truncated(x, 2) == Truncated(x, 1) + (Part(x, TIERS[1]) as real * 0.01).Floor;
    assert Truncated(x, 1) == Truncated(x, 0) + (Part(x, TIERS[0]) as real * 0.06).Floor;
  }

  /** The tier loop. None: no tier applies, which is so for a negative amount only. */
  method ReservedCPU(cpuMilli: int) returns (r: Option<int>)
    ensures r == if cpuMilli < 0 then None else Some(ExactReserve(cpuMilli).Floor)
  {
    r := None;
    for i := 0 to |TIERS|
      invariant cpuMilli < 0 ==> r.None?
      invariant cpuMilli >= 0 && i > 0 ==> r.Some?
      invariant (if r.Some? then r.value else 0) == Truncated(cpuMilli, i)
    {
      var t := TIERS[i];
      if cpuMilli >= t.start {
        var share := if cpuMilli < t.end then cpuMilli - t.start else t.end - t.start;
        var sum := if r.Some? then r.value else 0;
        r := Some(sum + (share as real * t.percentage).Floor);
      }
    }
    TruncatedIsFloor(cpuMilli);
  }

  /** More CPU never reserves less, and never more than 6% is reserved. */
  lemma ReserveMonotoneAndBounded(x: int, y: int)
    requires 0 <= x <= y
    ensures 0 <= ExactReserve(x).Floor <= ExactReserve(y).Floor
    ensures 100 * ExactReserve(x).Floor <= 6 * x
  {
  }

  /** The whole reservation: computed values, over which the NodeClass's own always win. */
  method KubeReserved(cpuMilli: int, pods: int, kubeReserved: map<string, int>) returns (r: map<string, int>)
    ensures forall k :: k in kubeReserved ==> k in r && r[k] == kubeReserved[k]
    ensures MEMORY !in kubeReserved ==> MEMORY in r && r[MEMORY] == (11 * pods + 255) * 1_048_576
    ensures CPU !in kubeReserved ==>
      if cpuMilli < 0 then CPU !in r else CPU in r && r[CPU] == ExactReserve(cpuMilli).Floor
    ensures EPHEMERAL !in kubeReserved ==> EPHEMERAL in r && r[EPHEMERAL] == 1_073_741_824
    ensures r.Keys == kubeReserved.Keys + {MEMORY, EPHEMERAL} + (if cpuMilli < 0 then {} else {CPU})
  {
    assert |CPU| < |MEMORY| < |EPHEMERAL|;
    r := map[MEMORY := ReservedMemory(pods), EPHEMERAL := 1024 * MIB];
    var cpu := ReservedCPU(cpuMilli);
    if cpu.Some? {
      r := r[CPU := cpu.value];
    }
    r := r + kubeReserved;
  }

  // ---------------------------------------------------------------- memory and pods

  function ReservedMemory(pods: int): int {
    (11 * pods + 255) * MIB
  }

  /** The advertised memory in MiB, by the source's ceiling of the lost part. */
  function MemoryMiB(ram: int, overhead: real): int {
    ram - Ceil(ram as real * overhead)
  }

  /** It is the floor of what is left, between nothing and everything, and more RAM never advertises
      less. */
  lemma MemoryBounds(ram: nat, more: nat, overhead: real)
    requires 0.0 <= overhead < 1.0 && ram <= more
    ensures MemoryMiB(ram, overhead) == (ram as real * (1.0 - overhead)).Floor
    ensures 0 <= MemoryMiB(ram, overhead) <= ram
    ensures MemoryMiB(ram, overhead) <= MemoryMiB(more, overhead)
  {
    var lost := ram as real * overhead;
    var kept := 1.0 - overhead;
    var extra := (more - ram) as real;
    ProductNonNegative(ram as real, overhead);
    ProductNonNegative(ram as real, kept);
    ProductNonNegative(extra, kept);
    assert ram as real * kept == ram as real - lost;
    assert more as real * kept == ram as real * kept + extra * kept;
    assert more as real * kept == more as real - more as real * overhead;
  }

  lemma ProductNonNegative(a: real, b: real)
    requires a >= 0.0 && b >= 0.0
    ensures a * b >= 0.0
  {
  }

  function Pods(vcpus: int, maxPods: Option<int>, podsPerCore: Option<int>): int {
    var count := if maxPods.Some? then maxPods.value else DEFAULT_MAX_PODS;
    if podsPerCore.Some? && podsPerCore.value > 0 then Min(podsPerCore.value * vcpus, count) else count
  }

  /** A pod count is the configured maximum, or 110, or the count per core if that is set and gives fewer; more
      cores never mean fewer pods, nor less memory reserved for them. */
  lemma PodBounds(vcpus: int, more: int, maxPods: Option<int>, podsPerCore: Option<int>)
    requires vcpus <= more
    ensures var most := if maxPods.Some? then maxPods.value else 110;
      Pods(vcpus, maxPods, podsPerCore) ==
        if podsPerCore.Some? && podsPerCore.value > 0 && podsPerCore.value * vcpus < most
        then podsPerCore.value * vcpus else most
    ensures Pods(vcpus, maxPods, podsPerCore) <= Pods(more, maxPods, podsPerCore)
    ensures ReservedMemory(Pods(vcpus, maxPods, podsPerCore)) <= ReservedMemory(Pods(more, maxPods, podsPerCore))
  {
    if podsPerCore.Some? && podsPerCore.value > 0 {
      MulMonotone(podsPerCore.value, vcpus, more);
    }
    assert MIB > 0;
    MulMonotone(MIB, 11 * Pods(vcpus, maxPods, podsPerCore) + 255, 11 * Pods(more, maxPods, podsPerCore) + 255);
  }

  lemma MulMonotone(k: int, a: int, b: int)
    requires k >= 0 && a <= b
    ensures k * a <= k * b
  {
    assert k * b == k * a + k * (b - a);
  }

  // ---------------------------------------------------------------- eviction

  datatype Signal = Percent(p: real) | Absolute(bytes: int)

  /** 100% switches a threshold off. */
  function Resolve(capacity: int, s: Signal): int {
    match s
    case Absolute(bytes) => bytes
    case Percent(p) => if p == 100.0 then 0 else Ceil(capacity as real / 100.0 * p)
  }

  type Signals = Option<map<string, Signal>>

  predicate Present(m: Signals) {
    m.Some? && MEMORY_AVAILABLE in m.value
  }

  function SignalOf(m: Signals): Signal
    requires Present(m)
  {
    m.value[MEMORY_AVAILABLE]
  }

  /** The fold over the maps that are there, and the default under it. */
  method EvictionThreshold(capacity: int, hard: Signals, soft: Signals) returns (threshold: int)
    ensures !Present(hard) && !Present(soft) ==> threshold == 104_857_600
    ensures Present(hard) && Present(soft) && SignalOf(hard).Absolute? && SignalOf(soft).Absolute? ==>
      var h, s := SignalOf(hard).bytes, SignalOf(soft).bytes;
      threshold == if h < s then s else h
    ensures Present(hard) ==> threshold >= Resolve(capacity, SignalOf(hard))
    ensures Present(soft) ==> threshold >= Resolve(capacity, SignalOf(soft))
    ensures Present(hard) || Present(soft) ==>
      || (Present(hard) && threshold == Resolve(capacity, SignalOf(hard)))
      || (Present(soft) && threshold == Resolve(capacity, SignalOf(soft)))
  {
    var signals: seq<map<string, Signal>> := [];
    if hard.Some? {
      signals := signals + [hard.value];
    }
    if soft.Some? {
      signals := signals + [soft.value];
    }
    var override: Option<int> := None;
    for i := 0 to |signals|
      invariant override.None? <==> forall k :: 0 <= k < i ==> MEMORY_AVAILABLE !in signals[k]
      invariant override.Some? ==> exists k :: && 0 <= k < i && MEMORY_AVAILABLE in signals[k]
                                               && override.value == Resolve(capacity, signals[k][MEMORY_AVAILABLE])
      invariant override.Some? ==> forall k :: 0 <= k < i && MEMORY_AVAILABLE in signals[k] ==>
                  override.value >= Resolve(capacity, signals[k][MEMORY_AVAILABLE])
    {
      if MEMORY_AVAILABLE in signals[i] {
        var value := Resolve(capacity, signals[i][MEMORY_AVAILABLE]);
        if override.None? || value > override.value {
          override := Some(value);
        }
      }
    }
    assert hard.Some? ==> signals[0] == hard.value;
    assert soft.Some? ==> signals[|signals| - 1] == soft.value;
    threshold := if override.Some? then override.value else 100 * MIB;
  }

  /** A percentage is rounded up and grows with the capacity, and 100% contributes nothing; an absolute amount is
      itself. */
  lemma SignalMeaning(capacity: nat, more: nat, p: real, bytes: int)
    requires 0.0 <= p && capacity <= more
    ensures Resolve(capacity, Absolute(bytes)) == bytes
    ensures Resolve(capacity, Percent(100.0)) == 0
    ensures p != 100.0 ==> 100.0 * (Resolve(capacity, Percent(p)) as real - 1.0) < capacity as real * p
                                <= 100.0 * Resolve(capacity, Percent(p)) as real
    ensures 0 <= Resolve(capacity, Percent(p)) <= Resolve(more, Percent(p))
  {
    var x := capacity as real / 100.0 * p;
    var y := more as real / 100.0 * p;
    assert 0.0 <= x;
    var extra := (more - capacity) as real / 100.0;
    assert 0.0 <= extra * p;
    assert y == x + extra * p;
    assert 100.0 * x == capacity as real * p;
  }
}
