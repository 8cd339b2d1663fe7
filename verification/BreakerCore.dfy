/** The circuit breaker's transitions as functions on its state. */
module BreakerCore {
  import opened GoTime
  import Window

  datatype State = Closed | Open | HalfOpen

  datatype Config = Config(
    minimumRequests: int,
    failureRatio: real,
    window: int,
    openDuration: int,
    halfOpenMaxCalls: int,
    halfOpenSuccesses: int,
    buckets: int)
  {
    /** The configurations that `Config.Validate` accepts. */
    predicate Validate() {
      && minimumRequests >= 1
      && 0.0 < failureRatio <= 1.0
      && window > 0
      && openDuration > 0
      && halfOpenMaxCalls >= 1
      && halfOpenSuccesses >= 1
    }

    /** Fewer than one bucket means one. */
    function Normalise(): Config {
      if buckets < 1 then this.(buckets := 1) else this
    }

    /** A validated configuration whose buckets are at least a nanosecond wide. */
    predicate Ready() {
      Validate() && 1 <= buckets <= window
    }

    function Shape(): (sh: Window.Shape)
      requires Ready()
      ensures sh.Valid() && sh.n == buckets
    {
      Window.Shape(window, buckets)
    }

    /** The trip condition on the window's contents. */
    predicate Trips(total: int, failures: int)
      requires Validate()
    {
      total >= minimumRequests && failures as real / total as real >= failureRatio
    }
  }

  datatype Bucket = Bucket(start: Time, total: int, failures: int)

  const ZERO_BUCKET := Bucket(ZERO_TIME, 0, 0)

  /** What the observer is told. */
  datatype StateChange = StateChange(from: State, to: State, failures: int, total: int)

  /** The fields of a breaker, and everything its observer has been told so far. */
  datatype Core = Core(
    state: State,
    buckets: seq<Bucket>,
    openedAt: Time,
    halfOpen: int,
    consecutiveOK: int,
    observed: seq<StateChange>)

  function EmptyBuckets(n: nat): seq<Bucket> {
    seq(n, i => ZERO_BUCKET)
  }

  function Initial(cfg: Config): Core
    requires cfg.buckets >= 0
  {
    Core(Closed, EmptyBuckets(cfg.buckets), ZERO_TIME, 0, 0, [])
  }

  predicate Shaped(cfg: Config, c: Core) {
    cfg.Ready() && |c.buckets| == cfg.buckets
  }

  /** The bucket slice after one report: the slot is recycled if stale, then counts the report. */
  function CountReport(cfg: Config, bs: seq<Bucket>, now: Time, failed: bool): (r: seq<Bucket>)
    requires cfg.Ready() && |bs| == cfg.buckets
    ensures |r| == |bs|
  {
    var i, start := cfg.Shape().Index(now), cfg.Shape().Start(now);
    var b := if bs[i].start == start then bs[i] else Bucket(start, 0, 0);
    bs[i := Bucket(b.start, b.total + 1, b.failures + if failed then 1 else 0)]
  }

  /** Sums over the first k buckets that start after the cutoff. */
  function Totals(bs: seq<Bucket>, cutoff: Time, k: nat): int
    requires k <= |bs|
  {
    if k == 0 then 0
    else Totals(bs, cutoff, k - 1) + if bs[k - 1].start > cutoff then bs[k - 1].total else 0
  }

  function Failures(bs: seq<Bucket>, cutoff: Time, k: nat): int
    requires k <= |bs|
  {
    if k == 0 then 0
    else Failures(bs, cutoff, k - 1) + if bs[k - 1].start > cutoff then bs[k - 1].failures else 0
  }

  function WindowTotal(cfg: Config, bs: seq<Bucket>, now: Time): int {
    Totals(bs, now - cfg.window, |bs|)
  }

  function WindowFailures(cfg: Config, bs: seq<Bucket>, now: Time): int {
    Failures(bs, now - cfg.window, |bs|)
  }

  function Transition(cfg: Config, c: Core, to: State, now: Time): Core {
    if c.state == to then c
    else
      var change := StateChange(c.state, to, WindowFailures(cfg, c.buckets, now), WindowTotal(cfg, c.buckets, now));
      var c' := if to == HalfOpen then c.(halfOpen := 0, consecutiveOK := 0) else c;
      c'.(state := to, observed := c.observed + [change])
  }

  function Trip(cfg: Config, c: Core, now: Time): Core {
    Transition(cfg, c.(openedAt := now), Open, now).(halfOpen := 0, consecutiveOK := 0)
  }

  function Reset(c: Core): Core {
    c.(buckets := EmptyBuckets(|c.buckets|), consecutiveOK := 0, halfOpen := 0)
  }

  /** Asking permission: the new state, and whether the call may proceed. */
  function Allow(cfg: Config, c: Core, now: Time): (Core, bool) {
    match c.state
    case Closed => (c, true)
    case Open =>
      if now - c.openedAt < cfg.openDuration then (c, false)
      else TakeProbe(cfg, Transition(cfg, c, HalfOpen, now))
    case HalfOpen => TakeProbe(cfg, c)
  }

  function TakeProbe(cfg: Config, c: Core): (Core, bool) {
    if c.halfOpen >= cfg.halfOpenMaxCalls then (c, false)
    else (c.(halfOpen := c.halfOpen + 1), true)
  }

  /** Reporting the outcome of a call that was allowed at some earlier point. */
  function Record(cfg: Config, c: Core, now: Time, failed: bool): Core
    requires Shaped(cfg, c)
  {
    var counted := c.(buckets := CountReport(cfg, c.buckets, now, failed));
    match c.state
    case HalfOpen =>
      var fewer := counted.(halfOpen := c.halfOpen - 1);
      if failed then Trip(cfg, fewer, now)
      else
        var ok := fewer.(consecutiveOK := c.consecutiveOK + 1);
        if ok.consecutiveOK >= cfg.halfOpenSuccesses then Reset(Transition(cfg, ok, Closed, now)) else ok
    case Closed =>
      if cfg.Trips(WindowTotal(cfg, counted.buckets, now), WindowFailures(cfg, counted.buckets, now))
      then Trip(cfg, counted, now)
      else counted
    case Open => counted
  }

  lemma RecordShaped(cfg: Config, c: Core, now: Time, failed: bool)
    requires Shaped(cfg, c)
    ensures Shaped(cfg, Record(cfg, c, now, failed))
  {}

  lemma ClosedRecord(cfg: Config, c: Core, now: Time, failed: bool, gate: bool)
    requires Shaped(cfg, c) && c.state == Closed
    requires var bs := CountReport(cfg, c.buckets, now, failed);
             gate == cfg.Trips(WindowTotal(cfg, bs, now), WindowFailures(cfg, bs, now))
    ensures var counted := c.(buckets := CountReport(cfg, c.buckets, now, failed));
            Record(cfg, c, now, failed) == if gate then Trip(cfg, counted, now) else counted
  {}

  /** A report never disturbs an open breaker, and an open breaker waits out its timeout. */
  lemma OpenIsStable(cfg: Config, c: Core, now: Time, failed: bool)
    requires Shaped(cfg, c) && c.state == Open
    ensures var c' := Record(cfg, c, now, failed);
            c'.state == Open && c'.openedAt == c.openedAt && c'.observed == c.observed
    ensures now < c.openedAt + cfg.openDuration ==> Allow(cfg, c, now) == (c, false)
  {}

  /** What `State` shows: an open breaker whose timeout has passed already reads as half-open. */
  function VisibleState(cfg: Config, c: Core, now: Time): State {
    if c.state == Open && now - c.openedAt >= cfg.openDuration then HalfOpen else c.state
  }

  /** A poller sees the state that a call asking at that instant would find itself in. */
  lemma VisibleStateForetells(cfg: Config, c: Core, now: Time)
    ensures VisibleState(cfg, c, now) == Allow(cfg, c, now).0.state
    ensures VisibleState(cfg, c, now) == Closed ==> Allow(cfg, c, now).1
    ensures VisibleState(cfg, c, now) == Open ==> !Allow(cfg, c, now).1
  {}
}
