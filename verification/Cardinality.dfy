/** The guard that counts distinct series per metric, and gives up on a metric that runs away. */
module CardinalityGuards {
  import opened SeriesKeys

  /** The guard's fields; a stopped metric keeps an empty entry. `warnings` are the calls made to
      onExceed. */
  datatype Guard = Guard(
    threshold: nat,
    hardCap: nat,
    series: map<string, set<string>>,
    reported: set<string>,
    stopped: set<string>,
    warnings: seq<(string, nat)>)

  /** The constructor replaces limits that make no sense. */
  function NewGuard(threshold: int, hardCap: int): Guard {
    var t := if threshold < 1 then 1000 else threshold;
    Guard(t, if hardCap < t then t * 10 else hardCap, map[], {}, {}, [])
  }

  function ObserveKey(g: Guard, metric: string, key: string): Guard {
    if metric in g.stopped then g
    else
      var keys := (if metric in g.series then g.series[metric] else {}) + {key};
      var n := |keys|;
      var warn := n >= g.threshold && metric !in g.reported;
      var stop := n >= g.hardCap;
      g.(series := g.series[metric := if stop then {} else keys],
         reported := if warn then g.reported + {metric} else g.reported,
         stopped := if stop then g.stopped + {metric} else g.stopped,
         warnings := if warn then g.warnings + [(metric, n)] else g.warnings)
  }

  class CardinalityGuard {
    const threshold: nat
    const hardCap: nat
    var series: map<string, set<string>>
    var reported: set<string>
    var stopped: set<string>
    var warnings: seq<(string, nat)>

    function State(): Guard
      reads this
    {
      Guard(threshold, hardCap, series, reported, stopped, warnings)
    }

    constructor (threshold: int, hardCap: int)
      ensures this.threshold == if threshold < 1 then 1000 else threshold
      ensures this.hardCap == if hardCap < this.threshold then 10 * this.threshold else hardCap
      ensures series == map[] && reported == {} && stopped == {} && warnings == []
      ensures State() == NewGuard(threshold, hardCap)
    {
      var t := if threshold < 1 then 1000 else threshold;
      this.threshold := t;
      this.hardCap := if hardCap < t then t * 10 else hardCap;
      series, reported, stopped, warnings := map[], {}, {}, [];
    }

    /** Records one label combination for a metric. */
    method Observe(metric: string, attrs: seq<Attribute>)
      modifies this
      ensures State() == ObserveKey(old(State()), metric, SeriesKey(attrs))
    {
      var key := BuildKey(attrs);
      if metric in stopped {
        return;
      }
      var n := Track(metric, key);
      if n >= threshold && metric !in reported {
        reported := reported + {metric};
        warnings := warnings + [(metric, n)];
      }
      if n >= hardCap {
        stopped := stopped + {metric};
        series := series[metric := {}];
        assert series == old(series)[metric := {}];
      }
    }

    /** Adds a key to a metric's set, creating the set if need be; n is its size. */
    method Track(metric: string, key: string) returns (n: nat)
      modifies this`series
      ensures series == old(series)[metric := (if metric in old(series) then old(series)[metric] else {}) + {key}]
      ensures n == |series[metric]|
    {
      if metric !in series {
        series := series[metric := {}];
      }
      series := series[metric := series[metric] + {key}];
      n := |series[metric]|;
    }

    /** The series count per metric; -1 for a metric that is no longer tracked. */
    method Snapshot() returns (out: map<string, int>)
      ensures out == SnapshotOf(State())
    {
      out := map[];
      var left := series.Keys;
      while left != {}
        invariant left <= series.Keys && out.Keys == series.Keys - left
        invariant forall m :: m in out ==> out[m] == if m in stopped then -1 else |series[m]|
        decreases |left|
      {
        var m :| m in left;
        out := out[m := if m in stopped then -1 else |series[m]|];
        left := left - {m};
      }
    }
  }

  function SnapshotOf(g: Guard): map<string, int> {
    map m | m in g.series :: if m in g.stopped then -1 else |g.series[m]|
  }

  // ----- every sequence of observations -----

  datatype Observation = Observation(metric: string, attrs: seq<Attribute>)

  function Run(threshold: int, hardCap: int, obs: seq<Observation>): Guard {
    if obs == [] then NewGuard(threshold, hardCap)
    else
      var o := obs[|obs| - 1];
      ObserveKey(Run(threshold, hardCap, obs[..|obs| - 1]), o.metric, SeriesKey(o.attrs))
  }

  /** The keys a metric was observed with: what an unbounded guard would hold. */
  ghost function Keys(obs: seq<Observation>, metric: string): set<string> {
    set i | 0 <= i < |obs| && obs[i].metric == metric :: SeriesKey(obs[i].attrs)
  }

  /** The warnings that were raised for a metric. */
  function WarningsFor(warnings: seq<(string, nat)>, metric: string): seq<nat> {
    if warnings == [] then []
    else
      var w := warnings[|warnings| - 1];
      WarningsFor(warnings[..|warnings| - 1], metric) + if w.0 == metric then [w.1] else []
  }

  /** What the guard knows about one metric, in terms of the keys it was observed with. */
  ghost predicate Knows(g: Guard, metric: string, keys: set<string>) {
    && (metric in g.stopped <==> |keys| >= g.hardCap)
    && (metric in g.reported <==> |keys| >= g.threshold)
    && (metric in g.series <==> keys != {})
    && (metric in g.series ==> g.series[metric] == if metric in g.stopped then {} else keys)
    && WarningsFor(g.warnings, metric) == if |keys| >= g.threshold then [g.threshold] else []
  }

  lemma KeysAppend(obs: seq<Observation>, o: Observation, metric: string)
    ensures Keys(obs + [o], metric) == Keys(obs, metric) + if o.metric == metric then {SeriesKey(o.attrs)} else {}
  {
    var all := obs + [o];
    forall k | k in Keys(obs, metric)
      ensures k in Keys(all, metric)
    {
      var i :| 0 <= i < |obs| && obs[i].metric == metric && SeriesKey(obs[i].attrs) == k;
      assert all[i] == obs[i];
    }
    if o.metric == metric {
      assert all[|obs|] == o && SeriesKey(all[|obs|].attrs) in Keys(all, metric);
    }
    forall k | k in Keys(all, metric)
      ensures k in Keys(obs, metric) || (o.metric == metric && k == SeriesKey(o.attrs))
    {
      var i :| 0 <= i < |all| && all[i].metric == metric && SeriesKey(all[i].attrs) == k;
      if i < |obs| {
        assert obs[i] == all[i];
      }
    }
  }

  lemma WarningsAppend(warnings: seq<(string, nat)>, w: (string, nat), metric: string)
    ensures WarningsFor(warnings + [w], metric) == WarningsFor(warnings, metric) + if w.0 == metric then [w.1] else []
  {
    assert (warnings + [w])[..|warnings|] == warnings;
  }

  lemma OneMoreKey(keys: set<string>, key: string)
    ensures |keys| <= |keys + {key}| <= |keys| + 1
    ensures |keys + {key}| == |keys| ==> keys + {key} == keys
    ensures keys + {key} != {}
  {
    if key in keys {
      assert keys + {key} == keys;
    }
    assert key in keys + {key};
  }

  lemma ObserveKnows(g: Guard, metric: string, key: string, keys: set<string>)
    requires 1 <= g.threshold <= g.hardCap && Knows(g, metric, keys)
    ensures Knows(ObserveKey(g, metric, key), metric, keys + {key})
  {
    OneMoreKey(keys, key);
    if metric !in g.stopped {
      ObserveTracked(g, metric, key, keys);
    }
  }

  lemma ObserveTracked(g: Guard, metric: string, key: string, keys: set<string>)
    requires 1 <= g.threshold <= g.hardCap && Knows(g, metric, keys) && metric !in g.stopped
    ensures Knows(ObserveKey(g, metric, key), metric, keys + {key})
  {
    hide WarningsFor;
    OneMoreKey(keys, key);
    var more, g' := keys + {key}, ObserveKey(g, metric, key);
    assert (if metric in g.series then g.series[metric] else {}) + {key} == more;
    assert g'.series[metric] == if |more| >= g.hardCap then {} else more;
    WarningsAppend(g.warnings, (metric, |more|), metric);
  }

  lemma ObserveOther(g: Guard, metric: string, key: string, other: string, keys: set<string>)
    requires other != metric && Knows(g, other, keys)
    ensures Knows(ObserveKey(g, metric, key), other, keys)
  {
    OtherWarnings(g, metric, key, other);
    var g' := ObserveKey(g, metric, key);
    assert other in g'.series <==> other in g.series;
    assert other in g.series ==> g'.series[other] == g.series[other];
  }

  lemma OtherWarnings(g: Guard, metric: string, key: string, other: string)
    requires other != metric
    ensures WarningsFor(ObserveKey(g, metric, key).warnings, other) == WarningsFor(g.warnings, other)
  {
    var keys := (if metric in g.series then g.series[metric] else {}) + {key};
    WarningsAppend(g.warnings, (metric, |keys|), other);
  }

  lemma StepKnows(g: Guard, obs: seq<Observation>, o: Observation, metric: string)
    requires 1 <= g.threshold <= g.hardCap && Knows(g, metric, Keys(obs, metric))
    ensures Knows(ObserveKey(g, o.metric, SeriesKey(o.attrs)), metric, Keys(obs + [o], metric))
  {
    KeysAppend(obs, o, metric);
    if o.metric == metric {
      ObserveKnows(g, metric, SeriesKey(o.attrs), Keys(obs, metric));
    } else {
      ObserveOther(g, o.metric, SeriesKey(o.attrs), metric, Keys(obs, metric));
    }
  }

  lemma {:induction false} RunKnows(threshold: int, hardCap: int, obs: seq<Observation>, metric: string)
    ensures var g := Run(threshold, hardCap, obs);
            && 1 <= g.threshold <= g.hardCap
            && g.threshold == NewGuard(threshold, hardCap).threshold && g.hardCap == NewGuard(threshold, hardCap).hardCap
            && Knows(g, metric, Keys(obs, metric))
  {
    if obs == [] {
      assert Keys(obs, metric) == {};
    } else {
      var before, o := obs[..|obs| - 1], obs[|obs| - 1];
      RunKnows(threshold, hardCap, before, metric);
      assert obs == before + [o];
      StepKnows(Run(threshold, hardCap, before), before, o, metric);
    }
  }

  /** Bounded, exact counting, for every sequence of observations and any limits: the snapshot shows
      the number of distinct keys until it reaches the hard cap, and -1 from then on; fewer keys than
      that are ever held; and the warning is raised once, when the count reaches the threshold.  A
      threshold below 1 means 1000, a hard cap below the threshold ten times the threshold. */
  lemma CountsExactly(threshold: int, hardCap: int, obs: seq<Observation>, metric: string)
    ensures var g, distinct := Run(threshold, hardCap, obs), |Keys(obs, metric)|;
            var warnAt := if threshold < 1 then 1000 else threshold;
            var stopAt := if hardCap < warnAt then 10 * warnAt else hardCap;
            && (metric in SnapshotOf(g) <==> distinct > 0)
            && (distinct > 0 ==> SnapshotOf(g)[metric] == if distinct < stopAt then distinct else -1)
            && (metric in g.series ==> |g.series[metric]| < stopAt)
            && WarningsFor(g.warnings, metric) == if distinct >= warnAt then [warnAt] else []
  {
    RunKnows(threshold, hardCap, obs, metric);
    if Keys(obs, metric) != {} {
      var k :| k in Keys(obs, metric);
      assert |Keys(obs, metric)| > 0;
    }
  }
}
