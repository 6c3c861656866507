/** The capped exponential requeue delay of transitional phases
    (internal/controller/vibedapp_controller.go, transitionalRequeueAfter and notReadyFor). */
module Backoff {
  import opened Wrappers
  import opened AppStatus

  /** 60 s and 2 s, in nanoseconds. */
  const MAX_REQUEUE_DELAY := 60_000_000_000
  const DEFAULT_REQUEUE_DELAY := 2_000_000_000

  /** base * 2^n. */
  function Doublings(base: int, n: nat): (d: int)
    ensures base > 0 ==> d >= base
  {
    if n == 0 then base else 2 * Doublings(base, n - 1)
  }

  /** min(60s, base * 2^(t/base)): what the loop below computes. */
  function Delay(base: int, t: nat): int
    requires base > 0
  {
    var d := Doublings(base, t / base);
    if d > MAX_REQUEUE_DELAY then MAX_REQUEUE_DELAY else d
  }

  function NotReadyFor(cs: seq<Condition>, now: int): (d: nat) {
    match Find(cs, CONDITION_READY)
    case None => 0
    case Some(c) => if c.status == CondTrue || c.since == 0 then 0 else if now - c.since > 0 then now - c.since else 0
  }

  /** The time since the Ready condition last turned to what it is, while it is not True; none before it is set, when
      its time is unset, or when the clock is behind. */
  lemma NotReadyForIs(cs: seq<Condition>, now: int)
    ensures Find(cs, CONDITION_READY).None? ==> NotReadyFor(cs, now) == 0
    ensures Find(cs, CONDITION_READY).Some? ==>
              var c := Find(cs, CONDITION_READY).value;
              if c.status != CondTrue && c.since != 0 && now >= c.since then NotReadyFor(cs, now) == now - c.since
              else NotReadyFor(cs, now) == 0
  {
  }

  /** One more base period doubles the delay, up to a minute; within the first it is the base. */
  lemma DelayDoubles(base: int, t: nat)
    requires base > 0
    ensures t < base ==> Delay(base, t) == if base < 60_000_000_000 then base else 60_000_000_000
    ensures Delay(base, t + base) == if 2 * Delay(base, t) < 60_000_000_000 then 2 * Delay(base, t) else 60_000_000_000
  {
    if t < base {
      QuotientIs(t, base, 0);
    }
    QuotientStep(t, base);
  }

  lemma QuotientStep(t: nat, base: int)
    requires base > 0
    ensures (t + base) / base == t / base + 1
  {
    var n := t / base;
    assert base * n <= t < base * n + base;
    assert base * (n + 1) == base * n + base;
    QuotientIs(t + base, base, n + 1);
  }

  lemma QuotientIs(t: nat, base: int, n: nat)
    requires base > 0 && base * n <= t < base * n + base
    ensures t / base == n
  {
    var q := t / base;
    assert base * q <= t < base * q + base;
    if q < n {
      MulMonotone(base, q + 1, n);
    } else if n < q {
      MulMonotone(base, n + 1, q);
    }
  }

  function BaseDelay(requeueDelay: int): (base: int)
    ensures base > 0 && (requeueDelay > 0 ==> base == requeueDelay) && (requeueDelay <= 0 ==> base == 2_000_000_000)
  {
    if requeueDelay <= 0 then DEFAULT_REQUEUE_DELAY else requeueDelay
  }

  lemma {:induction false} DoublingsMonotone(base: int, m: nat, n: nat)
    requires base > 0 && m <= n
    ensures Doublings(base, m) <= Doublings(base, n)
    decreases n
  {
    if m < n {
      DoublingsMonotone(base, m, n - 1);
    }
  }

  lemma MulMonotone(b: int, x: int, y: int)
    requires b >= 0
    ensures x <= y ==> b * x <= b * y
  {
  }

  lemma DivMonotone(t: nat, t': nat, base: int)
    requires base > 0 && t <= t'
    ensures t / base <= t' / base
  {
    assert base * (t / base) <= t;
    assert t' < base * (t' / base + 1);
    MulMonotone(base, t' / base + 1, t / base);
  }

  /** The longer an app is stuck, the less often it is re-checked. */
  lemma DelayMonotone(base: int, t: nat, t': nat)
    requires base > 0 && t <= t'
    ensures Delay(base, t) <= Delay(base, t')
  {
    DivMonotone(t, t', base);
    DoublingsMonotone(base, t / base, t' / base);
  }

  /** The doubling loop. `peak` is the largest value d takes on the way: it never reaches twice the
      cap unless the configured base already exceeds the cap. */
  method TransitionalRequeueAfter(requeueDelay: int, cs: seq<Condition>, now: int) returns (d: int, peak: int)
    ensures d == Delay(BaseDelay(requeueDelay), NotReadyFor(cs, now))
    ensures 0 < d <= MAX_REQUEUE_DELAY
    ensures d <= peak
    ensures BaseDelay(requeueDelay) < MAX_REQUEUE_DELAY ==> peak < 2 * MAX_REQUEUE_DELAY
  {
    var base := requeueDelay;
    if base <= 0 {
      base := DEFAULT_REQUEUE_DELAY;
    }
    d := base;
    var total: nat := NotReadyFor(cs, now) / base;
    var periods := total;
    while periods > 0 && d < MAX_REQUEUE_DELAY
      invariant 0 <= periods <= total
      invariant d == Doublings(base, total - periods)
      invariant d >= base
      invariant base < MAX_REQUEUE_DELAY ==> d < 2 * MAX_REQUEUE_DELAY
    {
      d := d * 2;
      periods := periods - 1;
    }
    DoublingsMonotone(base, total - periods, total);
    peak := d;
    if d > MAX_REQUEUE_DELAY {
      d := MAX_REQUEUE_DELAY;
    }
  }
}
