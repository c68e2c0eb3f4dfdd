/**
 The rules Argus applies to one tracked pod (minos/argus/argus.go): the budget arithmetic in the source's 64-bit
 nanosecond durations, and the decision taken for a pod at one instant.
 */
module ArgusRules {
  import opened Options
  import opened Tasks

  const NANOS_PER_SECOND := 1_000_000_000
  const TWO_63 := 0x8000_0000_0000_0000
  const TWO_64 := 0x1_0000_0000_0000_0000

  /** Two's-complement wrap-around of Go's int64. */
  function Wrap64(x: int): int {
    (x + TWO_63) % TWO_64 - TWO_63
  }

  predicate Fits64(x: int) {
    -TWO_63 <= x < TWO_63
  }

  /** Go's integer division, which truncates toward zero. */
  function Quo(x: int, d: int): int
    requires d > 0
  {
    if x >= 0 then x / d else -(-x / d)
  }

  datatype Config = Config(stallThreshold: int, warningPct: int, escalationPct: int)

  datatype Phase = PhaseUnknown | PhasePending | PhaseRunning | PhaseSucceeded | PhaseFailed {
    predicate Terminal() {
      this == PhaseSucceeded || this == PhaseFailed
    }
  }

  /** What PodPhase can answer: a phase, ErrPodNotFound, or any other dispatcher error. */
  datatype Answer = Seen(phase: Phase) | NoSuchPod | Unreachable

  /** The wall-clock cap of a run and the wall-clocks at which to warn and to escalate. */
  datatype Limits = Limits(maxWallClock: int, warningAt: int, escalationAt: int)

  /** What Argus remembers about one tracked pod. */
  datatype Entry = Entry(
    runId: RunId,
    podName: PodName,
    startedAt: Time,
    lastHeartbeat: Time,
    limits: Limits,
    warned: bool,
    escalated: bool,
    terminated: bool
  )

  function Cap(b: Budget): int {
    Wrap64(b.maxWallClockSeconds * NANOS_PER_SECOND)
  }

  function Percentage(ofTask: int, ofConfig: int): int {
    if ofTask == 0 then ofConfig else ofTask
  }

  function Threshold(cap: int, pct: int): int {
    Quo(Wrap64(cap * pct), 100)
  }

  /** discover and TrackTask skip rows without an envelope, a pod or a run. */
  predicate Trackable(t: Task) {
    t.budget.Some? && t.podName.Some? && t.runId.Some?
  }

  function LimitsOf(cfg: Config, b: Budget): Limits {
    Limits(Cap(b),
           Threshold(Cap(b), Percentage(b.warningPct, cfg.warningPct)),
           Threshold(Cap(b), Percentage(b.escalationPct, cfg.escalationPct)))
  }

  function NewEntry(cfg: Config, t: Task, started: Time, now: Time): Entry
    requires Trackable(t)
  {
    Entry(t.runId.value, t.podName.value, started, now, LimitsOf(cfg, t.budget.value), false, false, false)
  }

  /** The start discover records: the stored one, or the creation time when none is stored. */
  function DiscoveredStart(t: Task): Time {
    if t.startedAt == None || t.startedAt.value == ZERO_TIME then t.createdAt else t.startedAt.value
  }

  function PercentOf(elapsed: int, total: int): int
    requires total >= 0
  {
    if total == 0 then 0 else Quo(Wrap64(elapsed * 100), total)
  }

  datatype Verdict =
    | Hibernate
    | MarkFailed
    | Terminate
    | Escalate(pct: int)
    | Warn(pct: int)
    | LeaveAlone

  predicate OverCap(e: Entry, now: Time) {
    e.limits.maxWallClock > 0 && now - e.startedAt >= e.limits.maxWallClock
  }

  predicate Stalled(cfg: Config, e: Entry, now: Time) {
    cfg.stallThreshold > 0 && now - e.lastHeartbeat >= cfg.stallThreshold
  }

  predicate EscalationDue(e: Entry, now: Time) {
    e.limits.maxWallClock > 0 && !e.escalated && e.limits.escalationAt > 0 && now - e.startedAt >= e.limits.escalationAt
  }

  predicate WarningDue(e: Entry, now: Time) {
    e.limits.maxWallClock > 0 && !e.warned && e.limits.warningAt > 0 && now - e.startedAt >= e.limits.warningAt
  }

  /** The branch evaluate takes for a pod that has not been terminated. */
  function Judge(cfg: Config, e: Entry, answer: Answer, now: Time): Verdict {
    if answer == Seen(PhaseSucceeded) then Hibernate
    else if answer == Seen(PhaseFailed) then MarkFailed
    else if OverCap(e, now) || Stalled(cfg, e, now) then Terminate
    else if EscalationDue(e, now) then Escalate(PercentOf(now - e.startedAt, e.limits.maxWallClock))
    else if WarningDue(e, now) then Warn(PercentOf(now - e.startedAt, e.limits.maxWallClock))
    else LeaveAlone
  }

  /** The verdicts after which Argus deletes the pod and stops tracking the task. */
  predicate Final(v: Verdict) {
    v == Hibernate || v == MarkFailed || v == Terminate
  }

  function FinalState(v: Verdict): State {
    if v == Hibernate then AwaitingReview else Failed
  }

  // ---- Budget arithmetic ----

  /** Percentages a project configures, and caps short enough for the products to stay in 64 bits. */
  predicate SaneBudget(cfg: Config, b: Budget) {
    && 0 <= b.maxWallClockSeconds <= 92233720
    && 1 <= Percentage(b.warningPct, cfg.warningPct) <= 100
    && 1 <= Percentage(b.escalationPct, cfg.escalationPct) <= 100
  }

  lemma WrapIsIdentity(x: int)
    ensures Wrap64(x) == x <==> Fits64(x)
  {
  }

  /** At percentage 100, the bound 92233720 is exact: one second more and the threshold product overflows. */
  lemma ThresholdProductFits(seconds: int, pct: int)
    requires 0 <= seconds && 1 <= pct <= 100
    ensures seconds <= 92233720 ==> Fits64(seconds * NANOS_PER_SECOND) && Fits64(seconds * NANOS_PER_SECOND * pct)
    ensures pct == 100 ==> (Fits64(seconds * NANOS_PER_SECOND * pct) <==> seconds <= 92233720)
  {
    var ns := seconds * NANOS_PER_SECOND;
    if seconds <= 92233720 {
      assert ns <= 92233720 * NANOS_PER_SECOND;
      assert ns * pct <= ns * 100 by {
        assert ns * (100 - pct) >= 0;
        assert ns * 100 == ns * pct + ns * (100 - pct);
      }
    }
  }

  /** Within the bound no product wraps, and the thresholds are the exact percentages of the cap. */
  lemma SaneThresholds(cfg: Config, b: Budget, pct: int)
    requires 0 <= b.maxWallClockSeconds <= 92233720 && 1 <= pct <= 100
    ensures Cap(b) == b.maxWallClockSeconds * NANOS_PER_SECOND
    ensures Threshold(Cap(b), pct) * 100 == Cap(b) * pct
    ensures 0 <= Threshold(Cap(b), pct) <= Cap(b) <= 92233720 * NANOS_PER_SECOND
  {
    WrapIsIdentity(b.maxWallClockSeconds * NANOS_PER_SECOND);
    ThresholdExact(b.maxWallClockSeconds * 10_000_000, pct);
  }

  lemma ThresholdExact(m: int, pct: int)
    requires 0 <= m <= 92233720 * 10_000_000 && 1 <= pct <= 100
    ensures Threshold(100 * m, pct) == m * pct
    ensures Threshold(100 * m, pct) * 100 == 100 * m * pct
    ensures 0 <= m * pct <= 100 * m
  {
    PercentOfHundreds(m, pct);
    WrapIsIdentity(100 * m * pct);
  }

  lemma PercentOfHundreds(m: int, pct: int)
    requires m >= 0 && 1 <= pct <= 100
    ensures 100 * m * pct == 100 * (m * pct)
    ensures 0 <= m * pct <= 100 * m
    ensures Quo(100 * m * pct, 100) == m * pct
  {
    assert m * (100 - pct) >= 0;
    assert m * (100 - pct) == 100 * m - m * pct;
  }

  /**
   The percentage quoted in a warning or an escalation is the exact floor, at least the configured threshold and at
   most 99.
   */
  lemma QuotedPercentage(b: Budget, pct: int, wall: int)
    requires 0 < b.maxWallClockSeconds <= 92233720 && 1 <= pct <= 100
    requires Threshold(Cap(b), pct) <= wall < Cap(b)
    ensures Fits64(wall * 100)
    ensures pct <= PercentOf(wall, Cap(b)) <= 99
  {
    SaneThresholds(Config(0, 1, 1), b, pct);
    var cap := Cap(b);
    assert wall * 100 < cap * 100 && cap * pct <= wall * 100;
    assert 0 <= wall * 100;
    DivBetween(wall * 100, cap, pct, 100);
  }

  lemma MulMonotone(a: int, b: int, d: int)
    requires a <= b && d >= 0
    ensures a * d <= b * d
  {
  }

  lemma DivBetween(x: int, d: int, low: int, high: int)
    requires d > 0 && low * d <= x < high * d
    ensures low <= x / d < high
  {
    var q := x / d;
    assert q * d <= x < (q + 1) * d;
    if q < low {
      MulMonotone(q + 1, low, d);
    }
    if q >= high {
      MulMonotone(high, q, d);
    }
  }
}
