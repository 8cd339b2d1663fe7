/** The circuit breaker as the object it is: fields and a bucket array updated in place. */
module Breakers {
  import opened Wrappers
  import opened GoTime
  import opened Classify
  import opened BreakerCore

  class Breaker {
    const cfg: Config
    const width: int
    const buckets: array<Bucket>
    var state: State
    var openedAt: Time
    var halfOpen: int
    var consecutiveOK: int
    /** The calls made to the observer, oldest first. */
    var observed: seq<StateChange>

    /** The configuration was validated.  That allows more buckets than nanoseconds, and then
        reports divide by a zero width; only `cfg.Ready()` rules it out. */
    predicate Valid()
      reads this
    {
      && cfg.Validate()
      && 1 <= cfg.buckets == buckets.Length
      && width == cfg.window / cfg.buckets
    }

    function Contents(): Core
      reads this, buckets
    {
      Core(state, buckets[..], openedAt, halfOpen, consecutiveOK, observed)
    }

    constructor Init(cfg: Config)
      requires cfg.Validate()
      ensures Valid() && fresh(buckets)
      ensures this.cfg == cfg.Normalise()
      ensures Contents() == Initial(this.cfg)
    {
      var c := cfg.Normalise();
      this.cfg := c;
      this.width := c.window / c.buckets;
      this.buckets := new Bucket[c.buckets](i => ZERO_BUCKET);
      this.state := Closed;
      this.openedAt := ZERO_TIME;
      this.halfOpen, this.consecutiveOK := 0, 0;
      this.observed := [];
      new;
      assert buckets[..] == EmptyBuckets(buckets.Length);
    }

    /** `New`: a breaker, or null when the configuration is rejected.  Validation does not look at
        the bucket count, so what New accepts can take reports exactly when its width is positive. */
    static method New(cfg: Config) returns (b: Breaker?)
      ensures b != null <==>
                && cfg.minimumRequests >= 1 && 0.0 < cfg.failureRatio <= 1.0 && cfg.window > 0 && cfg.openDuration > 0
                && cfg.halfOpenMaxCalls >= 1 && cfg.halfOpenSuccesses >= 1
      ensures b != null ==> fresh(b) && fresh(b.buckets) && b.Valid()
      ensures b != null ==> b.cfg == cfg.(buckets := if cfg.buckets < 1 then 1 else cfg.buckets)
      ensures b != null ==>
                && b.state == BreakerCore.Closed && b.observed == [] && b.halfOpen == 0 && b.consecutiveOK == 0
                && b.buckets.Length == b.cfg.buckets
                && (forall i :: 0 <= i < b.buckets.Length ==> b.buckets[i] == Bucket(ZERO_TIME, 0, 0))
      ensures b != null ==> b.Contents() == Initial(b.cfg)
      ensures b != null ==> (b.width >= 1 <==> b.cfg.buckets <= cfg.window) && (b.width >= 1 <==> b.cfg.Ready())
    {
      if !cfg.Validate() {
        return null;
      }
      b := new Breaker.Init(cfg);
      WidthPositiveIff(b.cfg.window, b.cfg.buckets);
    }

    static lemma WidthPositiveIff(window: int, n: int)
      requires window >= 1 && n >= 1
      ensures window / n >= 1 <==> n <= window
    {}

    /** Asks permission to make a call; a null token is the breaker-open rejection. */
    method Allow(now: Time) returns (done: Token?)
      requires Valid()
      modifies this
      ensures Valid()
      ensures Contents() == BreakerCore.Allow(cfg, old(Contents()), now).0
      ensures done != null <==> BreakerCore.Allow(cfg, old(Contents()), now).1
      ensures done != null ==> fresh(done) && done.breaker == this && !done.used
    {
      if state == Open {
        if now - openedAt < cfg.openDuration {
          return null;
        }
        Transition(HalfOpen, now);
      }
      if state == HalfOpen {
        if halfOpen >= cfg.halfOpenMaxCalls {
          return null;
        }
        halfOpen := halfOpen + 1;
      }
      done := new Token(this);
    }

    /** The current state as an observer polling at `now` sees it: the state that a call asking at
        that instant would find itself in. */
    method State(now: Time) returns (s: BreakerCore.State)
      ensures s == VisibleState(cfg, Contents(), now)
      ensures s == BreakerCore.Allow(cfg, Contents(), now).0.state
      ensures (s == Closed ==> BreakerCore.Allow(cfg, Contents(), now).1)
           && (s == BreakerCore.Open ==> !BreakerCore.Allow(cfg, Contents(), now).1)
    {
      VisibleStateForetells(cfg, Contents(), now);
      if state == Open && now - openedAt >= cfg.openDuration {
        return HalfOpen;
      }
      return state;
    }

    method RecordResult(callErr: Option<Err>, now: Time)
      requires Valid() && cfg.Ready()
      modifies this, buckets
      ensures Valid()
      ensures Contents() == Record(cfg, old(Contents()), now, CountsAsFailure(callErr))
    {
      var failed := CountsAsFailure(callErr);
      var cur := CurrentBucket(now);
      buckets[cur] := buckets[cur].(total := buckets[cur].total + 1);
      if failed {
        buckets[cur] := buckets[cur].(failures := buckets[cur].failures + 1);
      }
      assert buckets[..] == CountReport(cfg, old(buckets[..]), now, failed);

      match state {
        case HalfOpen =>
          halfOpen := halfOpen - 1;
          if failed {
            Trip(now);
            return;
          }
          consecutiveOK := consecutiveOK + 1;
          if consecutiveOK >= cfg.halfOpenSuccesses {
            Transition(Closed, now);
            Reset();
          }
        case Closed =>
          var total, failures := Sums(now);
          if total >= cfg.minimumRequests && failures as real / total as real >= cfg.failureRatio {
            Trip(now);
          }
        case Open =>
      }
    }

    method Trip(now: Time)
      requires Valid()
      modifies this
      ensures Valid()
      ensures Contents() == BreakerCore.Trip(cfg, old(Contents()), now)
    {
      openedAt := now;
      Transition(Open, now);
      halfOpen := 0;
      consecutiveOK := 0;
    }

    method Transition(to: BreakerCore.State, now: Time)
      requires Valid()
      modifies this
      ensures Valid()
      ensures Contents() == BreakerCore.Transition(cfg, old(Contents()), to, now)
    {
      if state == to {
        return;
      }
      var from := state;
      state := to;
      if to == HalfOpen {
        halfOpen := 0;
        consecutiveOK := 0;
      }
      var total, failures := Sums(now);
      observed := observed + [StateChange(from, to, failures, total)];
    }

    method Reset()
      requires Valid()
      modifies this, buckets
      ensures Valid()
      ensures Contents() == BreakerCore.Reset(old(Contents()))
    {
      for i := 0 to buckets.Length
        invariant forall j :: 0 <= j < i ==> buckets[j] == ZERO_BUCKET
        invariant state == old(state) && openedAt == old(openedAt) && observed == old(observed)
      {
        buckets[i] := ZERO_BUCKET;
      }
      assert buckets[..] == EmptyBuckets(buckets.Length);
      consecutiveOK := 0;
      halfOpen := 0;
    }

    method CurrentBucket(now: Time) returns (i: nat)
      requires Valid() && cfg.Ready()
      modifies buckets
      ensures i == cfg.Shape().Index(now) < buckets.Length
      ensures buckets[i] == if old(buckets[i]).start == cfg.Shape().Start(now) then old(buckets[i])
                            else Bucket(cfg.Shape().Start(now), 0, 0)
      ensures forall j :: 0 <= j < buckets.Length && j != i ==> buckets[j] == old(buckets[j])
    {
      var idx := TruncMod(TruncDiv(now, width), buckets.Length);
      TruncModRange(TruncDiv(now, width), buckets.Length);
      if idx < 0 {
        idx := idx + buckets.Length;
      }
      i := idx;
      var start := Truncate(now, width);
      if buckets[i].start != start {
        buckets[i] := Bucket(start, 0, 0);
      }
    }

    method Sums(now: Time) returns (total: int, failures: int)
      ensures total == WindowTotal(cfg, buckets[..], now)
      ensures failures == WindowFailures(cfg, buckets[..], now)
    {
      var cutoff := now - cfg.window;
      total, failures := 0, 0;
      for i := 0 to buckets.Length
        invariant total == Totals(buckets[..], cutoff, i)
        invariant failures == Failures(buckets[..], cutoff, i)
      {
        if buckets[i].start > cutoff {
          total := total + buckets[i].total;
          failures := failures + buckets[i].failures;
        }
      }
    }
  }

  /** The completion callback handed out by Allow; only its first call reports anything. */
  class Token {
    const breaker: Breaker
    var used: bool

    constructor (breaker: Breaker)
      ensures this.breaker == breaker && !used
    {
      this.breaker := breaker;
      this.used := false;
    }

    method Done(callErr: Option<Err>, now: Time)
      requires breaker.Valid() && breaker.cfg.Ready()
      modifies this, breaker, breaker.buckets
      ensures breaker.Valid() && used
      ensures breaker.Contents() == if old(used) then old(breaker.Contents())
                                    else Record(breaker.cfg, old(breaker.Contents()), now, CountsAsFailure(callErr))
    {
      if !used {
        used := true;
        breaker.RecordResult(callErr, now);
      }
    }
  }
}
