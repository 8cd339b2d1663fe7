/** The retry budget: retries as a share of the logical calls of a sliding window. */
module Budgets {
  import opened GoTime
  import opened EventLog
  import opened SlidingCounters
  import Window

  datatype Config = Config(ratio: real, minPerSecond: real, window: int, buckets: int) {
    predicate Validate() {
      0.0 <= ratio <= 1.0 && 0.0 <= minPerSecond && window > 0
    }

    /** Fewer than one bucket means one. */
    function Shape(): Window.Shape {
      Window.Shape(window, if buckets < 1 then 1 else buckets)
    }

    /** Validated, and no bucket shorter than a nanosecond. */
    predicate Ready() {
      Validate() && Shape().Valid()
    }

    /** The retries that are always allowed in one window. */
    function Floor(): (r: real)
      requires Validate()
      ensures r >= 0.0
    {
      minPerSecond * (window as real / SECOND as real)
    }

    function Allowance(requests: real): real
      requires Validate()
    {
      Share(requests, ratio) + Floor()
    }
  }

  /** The retries that a number of requests pays for. */
  function Share(requests: real, ratio: real): real {
    requests * ratio
  }

  /** The formula: Ratio of the requests, and MinPerSecond for every second of the window. */
  lemma AllowanceIs(cfg: Config, requests: real)
    requires cfg.Validate()
    ensures cfg.Allowance(requests) == requests * cfg.ratio + cfg.minPerSecond * (cfg.window as real / 1_000_000_000.0)
  {}

  /** What a counter with this log shows at `now`; without a bucket width it can only be empty. */
  function Counted(cfg: Config, log: seq<Event>, now: Time): real {
    if cfg.Shape().Valid() then Window.Sum(cfg.Shape(), Window.Replay(cfg.Shape(), log), now) else 0.0
  }

  class Budget {
    const cfg: Config
    const requests: SlidingCounter
    const retries: SlidingCounter
    var exhausted: nat

    ghost function Repr(): set<object> {
      {this, requests, requests.buckets, retries, retries.buckets}
    }

    /** The configuration was validated, which does not look at the bucket count; see `New`. */
    ghost predicate Valid()
      reads this, requests, requests.buckets, retries, retries.buckets
    {
      && cfg.Validate()
      && requests != retries && requests.buckets != retries.buckets
      && requests.Valid() && retries.Valid()
      && requests.Shape() == cfg.Shape() && retries.Shape() == cfg.Shape()
    }

    constructor Init(cfg: Config)
      requires cfg.Validate()
      ensures Valid() && fresh(Repr())
      ensures this.cfg == cfg && requests.log == [] && retries.log == [] && exhausted == 0
    {
      this.cfg := cfg;
      var a := new SlidingCounter(cfg.window, cfg.buckets);
      var b := new SlidingCounter(cfg.window, cfg.buckets);
      this.requests, this.retries := a, b;
      this.exhausted := 0;
    }

    /** `New`: a budget that has counted nothing, or null when the configuration is rejected.  What
        New accepts can count exactly when its buckets have a width. */
    static method New(cfg: Config) returns (b: Budget?)
      ensures b != null <==> 0.0 <= cfg.ratio <= 1.0 && cfg.minPerSecond >= 0.0 && cfg.window > 0
      ensures b != null ==> b.Valid() && fresh(b.Repr()) && b.cfg == cfg
      ensures b != null ==> b.requests.log == [] && b.retries.log == [] && b.exhausted == 0
      ensures b != null ==>
                var n := if cfg.buckets < 1 then 1 else cfg.buckets;
                && b.requests.Shape() == b.retries.Shape() == Window.Shape(cfg.window, n)
                && (b.requests.width >= 1 && b.retries.width >= 1 <==> n <= cfg.window)
      ensures b != null ==> (b.requests.width >= 1 && b.retries.width >= 1 <==> cfg.Ready())
    {
      if !cfg.Validate() {
        return null;
      }
      b := new Budget.Init(cfg);
      SlidingCounter.WidthPositiveIff(cfg.window, cfg.Shape().n);
    }

    /** Counts one logical call. */
    method RecordRequest(now: Time)
      requires Valid() && cfg.Ready()
      modifies requests, requests.buckets
      ensures Valid()
      ensures requests.log == old(requests.log) + [Event(now, 1.0)]
    {
      requests.Add(1.0, now);
    }

    /** Whether one more retry fits, charging it if so.  The two sums and the charge each read the
        clock for themselves.  Without a bucket width only a refusal goes well. */
    method Allow(totalAt: Time, usedAt: Time, chargeAt: Time) returns (ok: bool)
      requires Valid() && (cfg.Ready() || cfg.minPerSecond == 0.0)
      modifies this, retries, retries.buckets
      ensures Valid()
      ensures ok <==> Counted(cfg, old(retries.log), usedAt)
                      < Counted(cfg, requests.log, totalAt) * cfg.ratio
                        + cfg.minPerSecond * (cfg.window as real / 1_000_000_000.0)
      ensures requests.log == old(requests.log)
      ensures retries.log == if ok then old(retries.log) + [Event(chargeAt, 1.0)] else old(retries.log)
      ensures exhausted == if ok then old(exhausted) else old(exhausted) + 1
    {
      hide Counted, Config.Allowance, SlidingCounter.Valid, Config.Shape;
      TestIs(cfg, Counted(cfg, retries.log, usedAt), Counted(cfg, requests.log, totalAt));
      ok := TestAndCharge(totalAt, usedAt, chargeAt);
    }

    static lemma TestIs(cfg: Config, used: real, total: real)
      requires cfg.Validate()
      ensures used < cfg.Allowance(total) <==>
              used < total * cfg.ratio + cfg.minPerSecond * (cfg.window as real / 1_000_000_000.0)
      ensures cfg.minPerSecond == 0.0 ==> cfg.Allowance(0.0) == 0.0
    {}

    /** Allow in terms of the allowance. */
    method TestAndCharge(totalAt: Time, usedAt: Time, chargeAt: Time) returns (ok: bool)
      requires Valid() && (cfg.Ready() || cfg.Allowance(0.0) == 0.0)
      modifies this, retries, retries.buckets
      ensures Valid()
      ensures ok <==> Counted(cfg, old(retries.log), usedAt) < cfg.Allowance(Counted(cfg, requests.log, totalAt))
      ensures requests.log == old(requests.log)
      ensures retries.log == if ok then old(retries.log) + [Event(chargeAt, 1.0)] else old(retries.log)
      ensures exhausted == if ok then old(exhausted) else old(exhausted) + 1
    {
      hide Config.Allowance;
      var total := requests.Sum(totalAt);
      var used := retries.Sum(usedAt);
      if used >= cfg.Allowance(total) {
        exhausted := exhausted + 1;
        return false;
      }
      retries.Add(1.0, chargeAt);
      return true;
    }

    method Stats(requestsAt: Time, retriesAt: Time) returns (requests': real, retries': real, exhausted': nat)
      requires Valid()
      ensures requests' == Counted(cfg, requests.log, requestsAt)
      ensures retries' == Counted(cfg, retries.log, retriesAt)
      ensures exhausted' == exhausted
    {
      requests' := requests.Sum(requestsAt);
      retries' := retries.Sum(retriesAt);
      exhausted' := exhausted;
    }
  }
}
