/** How little traffic reaches a dependency that stays broken. */
module BreakerOutage {
  import opened Wrappers
  import opened GoTime
  import opened Classify
  import opened BreakerCore
  import opened BreakerRuns

  function TimeOf(op: Op): Time {
    op.now
  }

  /** The clock readings of `ops` are in order and lie in [from, to]. */
  ghost predicate Timely(ops: seq<Op>, from: Time, to: Time) {
    && (forall i :: 0 <= i < |ops| ==> from <= TimeOf(ops[i]) <= to)
    && (forall i, j :: 0 <= i < j < |ops| ==> TimeOf(ops[i]) <= TimeOf(ops[j]))
  }

  /** At no point of the run from `w` is the breaker closed. */
  ghost predicate NeverCloses(cfg: Config, w: World, ops: seq<Op>)
    requires Shaped(cfg, w.core)
  {
    && RunFrom(cfg, w, ops).core.state != Closed
    && (ops != [] ==> NeverCloses(cfg, w, ops[..|ops| - 1]))
  }

  /** `e` episodes and `n` admissions after a trip at T: each episode started a full OpenDuration
      after the previous failure, and spent at most its cap. */
  ghost predicate Throttled(cfg: Config, T: Time, c: Core, e: int, n: int, last: Time) {
    var cap := EpisodeCap(cfg);
    && 0 <= e
    && T + e * cfg.openDuration <= last
    && (c.state == Open ==> T + e * cfg.openDuration <= c.openedAt && n <= e * cap)
    && (c.state == HalfOpen ==>
          && 1 <= e
          && n <= (e - 1) * cap + c.halfOpen + c.consecutiveOK
          && c.halfOpen <= cfg.halfOpenMaxCalls
          && 0 <= c.consecutiveOK < cfg.halfOpenSuccesses)
  }

  lemma AskThrottled(cfg: Config, T: Time, c: Core, e: int, n: int, last: Time, now: Time)
    requires cfg.Validate() && Throttled(cfg, T, c, e, n, last) && c.state != Closed && last <= now
    ensures var (c', ok) := Allow(cfg, c, now);
            Throttled(cfg, T, c', if c.state == Open && c'.state == HalfOpen then e + 1 else e, if ok then n + 1 else n, now)
  {
    assert (e + 1) * cfg.openDuration == e * cfg.openDuration + cfg.openDuration;
  }

  lemma RecordThrottled(cfg: Config, T: Time, c: Core, e: int, n: int, last: Time, now: Time, failed: bool)
    requires Shaped(cfg, c) && Throttled(cfg, T, c, e, n, last) && c.state != Closed && last <= now
    ensures Throttled(cfg, T, Record(cfg, c, now, failed), e, n, now)
  {
    assert (e - 1) * EpisodeCap(cfg) + EpisodeCap(cfg) == e * EpisodeCap(cfg);
  }

  function LastTime(T: Time, ops: seq<Op>): Time {
    if ops == [] then T else TimeOf(ops[|ops| - 1])
  }

  /** The same, for a world reached from `w`. */
  ghost predicate ThrottledSince(cfg: Config, w: World, w': World, last: Time) {
    Throttled(cfg, w.core.openedAt, w'.core, w'.episode - w.episode, |w'.tokens| - |w.tokens|, last)
  }

  lemma StepThrottled(cfg: Config, w: World, m: World, op: Op, last: Time)
    requires Shaped(cfg, m.core) && ThrottledSince(cfg, w, m, last) && m.core.state != Closed && last <= TimeOf(op)
    ensures ThrottledSince(cfg, w, Step(cfg, m, op), TimeOf(op))
  {
    var e, n := m.episode - w.episode, |m.tokens| - |w.tokens|;
    match op {
      case Ask(now) => AskThrottled(cfg, w.core.openedAt, m.core, e, n, last, now);
      case Done(id, now, err) => RecordThrottled(cfg, w.core.openedAt, m.core, e, n, last, now, CountsAsFailure(err));
    }
  }

  lemma {:induction false} RunThrottled(cfg: Config, w: World, ops: seq<Op>, to: Time)
    requires Shaped(cfg, w.core) && w.core.state == Open
    requires Timely(ops, w.core.openedAt, to) && NeverCloses(cfg, w, ops)
    ensures ThrottledSince(cfg, w, RunFrom(cfg, w, ops), LastTime(w.core.openedAt, ops))
  {
    if ops != [] {
      var before, op := ops[..|ops| - 1], ops[|ops| - 1];
      RunThrottled(cfg, w, before, to);
      if before != [] {
        assert TimeOf(ops[|ops| - 2]) <= TimeOf(op);
      }
      StepThrottled(cfg, w, RunFrom(cfg, w, before), op, LastTime(w.core.openedAt, before));
    }
  }

  /** After a trip at T, for as long as the breaker does not close, at most
      floor(D / OpenDuration) * (HalfOpenMaxCalls + HalfOpenSuccesses - 1) calls are admitted in
      [T, T + D]; in particular none before T + OpenDuration. */
  lemma OutageRate(cfg: Config, w: World, ops: seq<Op>, D: nat)
    requires Shaped(cfg, w.core) && w.core.state == Open
    requires Timely(ops, w.core.openedAt, w.core.openedAt + D) && NeverCloses(cfg, w, ops)
    ensures |RunFrom(cfg, w, ops).tokens| - |w.tokens|
            <= (D / cfg.openDuration) * (cfg.halfOpenMaxCalls + cfg.halfOpenSuccesses - 1)
  {
    RunThrottled(cfg, w, ops, w.core.openedAt + D);
    var w' := RunFrom(cfg, w, ops);
    var e, n, cap := w'.episode - w.episode, |w'.tokens| - |w.tokens|, EpisodeCap(cfg);
    if w'.core.state == HalfOpen {
      assert (e - 1) * cap + cap == e * cap;
    }
    WholePeriods(e, D, cfg.openDuration, cap);
  }

  lemma WholePeriods(e: int, D: nat, period: int, cap: int)
    requires 0 <= e && period > 0 && cap > 0 && e * period <= D
    ensures e * cap <= (D / period) * cap
  {
    PartsFit(e, D, period);
    NoMore(e, D / period, cap);
  }

  lemma NoMore(a: int, b: int, cap: int)
    requires a <= b && cap > 0
    ensures a * cap <= b * cap
  {}

  /** A report that trips or reopens the breaker silences it: whatever the clock does below the end
      of the open period, nothing is admitted and nothing changes state. */
  lemma {:induction false} OpenAdmitsNothing(cfg: Config, w: World, ops: seq<Op>)
    requires Shaped(cfg, w.core) && w.core.state == Open
    requires forall i :: 0 <= i < |ops| ==> TimeOf(ops[i]) < w.core.openedAt + cfg.openDuration
    ensures var w' := RunFrom(cfg, w, ops);
            && w'.tokens == w.tokens
            && w'.core.state == Open && w'.core.openedAt == w.core.openedAt
            && w'.core.observed == w.core.observed
  {
    if ops != [] {
      OpenAdmitsNothing(cfg, w, ops[..|ops| - 1]);
    }
  }
}
