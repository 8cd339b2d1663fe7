/** One breaker per key, created on demand. */
module BreakerGroups {
  import opened GoTime
  import opened BreakerCore
  import opened Breakers

  function Key(target: string, procedure: string): string {
    target + "|" + procedure
  }

  /** Within one target, different procedures have different keys, whatever their names. */
  lemma KeyInjective(target: string, p: string, q: string)
    ensures Key(target, p) == Key(target, q) <==> p == q
  {
    var n := |target| + 1;
    assert Key(target, p)[n..] == p && Key(target, q)[n..] == q;
  }

  /** No procedure ends in '|' and another procedure. */
  ghost predicate SuffixSafe(procedures: set<string>) {
    forall p, q :: p in procedures && q in procedures ==> !EndsIn(q, "|" + p)
  }

  ghost predicate EndsIn(s: string, t: string) {
    |t| <= |s| && s[|s| - |t|..] == t
  }

  /** With these procedures, keys of one group tell targets and procedures apart. */
  ghost predicate KeysIdentify(procedures: set<string>) {
    forall t, u, p, q :: p in procedures && q in procedures && Key(t, p) == Key(u, q) ==> t == u && p == q
  }

  /** If two different procedures share a key, the longer one ends in '|' and the shorter one. */
  lemma SharedKey(t: string, u: string, p: string, q: string)
    requires Key(t, p) == Key(u, q) && |p| < |q|
    ensures EndsIn(q, "|" + p)
  {
    var key, n := Key(t, p), |p| + 1;
    assert key[|key| - n..] == "|" + p;
    assert key[|key| - |q|..] == q;
    assert q[|q| - n..] == key[|key| - n..];
  }

  lemma SameLengthKey(t: string, u: string, p: string, q: string)
    requires Key(t, p) == Key(u, q) && |p| == |q|
    ensures t == u && p == q
  {
    assert Key(t, p)[..|t|] == t && Key(u, q)[..|u|] == u;
    assert Key(t, p)[|t| + 1..] == p && Key(u, q)[|u| + 1..] == q;
  }

  /** All targets of a service share one group.  Different (target, procedure) pairs have different
      breakers exactly when no procedure ends in '|' and another procedure. */
  lemma KeysIdentifyIff(procedures: set<string>)
    ensures KeysIdentify(procedures) <==> SuffixSafe(procedures)
  {
    if SuffixSafe(procedures) {
      forall t, u, p, q | p in procedures && q in procedures && Key(t, p) == Key(u, q)
        ensures t == u && p == q
      {
        if |p| < |q| {
          SharedKey(t, u, p, q);
        } else if |q| < |p| {
          SharedKey(u, t, q, p);
        } else {
          SameLengthKey(t, u, p, q);
        }
      }
    } else {
      var p, q :| p in procedures && q in procedures && EndsIn(q, "|" + p);
      var x := q[..|q| - |p| - 1];
      assert q == x + ("|" + p);
      assert Key("|" + x, p) == "|" + q == Key("", q);
    }
  }

  /** In particular for the procedure names of RPC services, which contain no '|'. */
  lemma KeysIdentifyProcedures(t: string, u: string, p: string, q: string)
    requires '|' !in p && '|' !in q
    ensures Key(t, p) == Key(u, q) <==> t == u && p == q
  {
    forall a, b | a in {p, q} && b in {p, q}
      ensures !EndsIn(b, "|" + a)
    {
      NoBar(b, "|" + a);
    }
    KeysIdentifyIff({p, q});
  }

  lemma NoBar(s: string, t: string)
    requires '|' !in s && t != [] && t[0] == '|'
    ensures !EndsIn(s, t)
  {
    if |t| <= |s| {
      var end := s[|s| - |t|..];
      assert end[0] == s[|s| - |t|];
    }
  }

  class Group {
    const cfg: Config
    var breakers: map<string, Breaker>

    /** This group, its breakers and their buckets. */
    ghost var Repr: set<object>

    /** The config was validated, and every key has a working breaker of its own. */
    ghost predicate Valid()
      reads this, Repr
    {
      && this in Repr
      && cfg.Validate()
      && (forall k :: k in breakers ==>
            && breakers[k] in Repr && breakers[k].buckets in Repr
            && breakers[k].Valid() && breakers[k].cfg == cfg.Normalise())
      && (forall j, k :: j in breakers && k in breakers && j != k ==>
            breakers[j] != breakers[k] && breakers[j].buckets != breakers[k].buckets)
    }

    constructor (cfg: Config)
      requires cfg.Validate()
      ensures Valid() && fresh(Repr) && this.cfg == cfg && breakers == map[]
    {
      this.cfg := cfg;
      this.breakers := map[];
      this.Repr := {this};
    }

    /** `NewGroup`: null when the configuration is rejected. */
    static method New(cfg: Config) returns (g: Group?)
      ensures g != null <==>
                && cfg.minimumRequests >= 1 && 0.0 < cfg.failureRatio <= 1.0 && cfg.window > 0 && cfg.openDuration > 0
                && cfg.halfOpenMaxCalls >= 1 && cfg.halfOpenSuccesses >= 1
      ensures g != null ==> fresh(g.Repr) && g.Valid() && g.breakers == map[] && g.cfg == cfg
    {
      if !cfg.Validate() {
        return null;
      }
      g := new Group(cfg);
    }

    /** The breaker for a key: the one there is, or a new closed one.  No other entry changes. */
    method Get(key: string) returns (b: Breaker)
      requires Valid()
      modifies this
      ensures Valid()
      ensures breakers == old(breakers)[key := b]
      ensures b.Valid() && b.cfg == cfg.Normalise()
      ensures b.cfg == cfg.(buckets := if cfg.buckets < 1 then 1 else cfg.buckets)
      ensures key in old(breakers) ==> b == old(breakers)[key]
      ensures Repr == old(Repr) + {b, b.buckets} && fresh(Repr - old(Repr))
      ensures key !in old(breakers) ==> fresh(b) && fresh(b.buckets) && b.Contents() == Initial(b.cfg)
    {
      if key in breakers {
        b := breakers[key];
        assert breakers == breakers[key := b];
        return;
      }
      var created := Breaker.New(cfg);
      b := created;
      breakers := breakers[key := b];
      Repr := Repr + {b, b.buckets};
    }

    /** Every breaker's state, for the admin endpoint. */
    method Snapshot(now: Time) returns (out: map<string, State>)
      requires Valid()
      ensures out.Keys == breakers.Keys
      ensures forall k :: k in breakers ==> out[k] == VisibleState(breakers[k].cfg, breakers[k].Contents(), now)
    {
      out := map[];
      var left := breakers.Keys;
      while left != {}
        invariant left <= breakers.Keys && out.Keys == breakers.Keys - left
        invariant forall k :: k in out ==> out[k] == VisibleState(breakers[k].cfg, breakers[k].Contents(), now)
        decreases |left|
      {
        var k :| k in left;
        var s := breakers[k].State(now);
        out := out[k := s];
        left := left - {k};
      }
    }
  }
}
