/** The two lookups as they run on many goroutines: a read under the read lock, then, on a miss, a
    second region under the write lock.  Any number of callers may be between the two. */
module Caches {
  import opened Wrappers
  import opened Policies

  // ----- the double-checked breaker map -----

  datatype GetPhase =
    | Begun(key: string)
    | Missed(key: string)
    | Got(key: string, breaker: nat)

  /** Breakers are numbered in the order they are created. */
  datatype Map = Map(breakers: map<string, nat>, created: nat, callers: seq<GetPhase>)

  datatype GetStep = Enter(key: string) | Look(caller: nat) | LockAndRecheck(caller: nat)

  const NO_BREAKERS := Map(map[], 0, [])

  function NextGet(m: Map, step: GetStep): Map {
    match step
    case Enter(key) => m.(callers := m.callers + [Begun(key)])
    case Look(i) =>
      if i >= |m.callers| || !m.callers[i].Begun? then m
      else
        var key := m.callers[i].key;
        m.(callers := m.callers[i := if key in m.breakers then Got(key, m.breakers[key]) else Missed(key)])
    case LockAndRecheck(i) =>
      if i >= |m.callers| || !m.callers[i].Missed? then m
      else
        var key := m.callers[i].key;
        if key in m.breakers then m.(callers := m.callers[i := Got(key, m.breakers[key])])
        else m.(breakers := m.breakers[key := m.created],
                created := m.created + 1,
                callers := m.callers[i := Got(key, m.created)])
  }

  function RunGets(steps: seq<GetStep>): Map {
    if steps == [] then NO_BREAKERS else NextGet(RunGets(steps[..|steps| - 1]), steps[|steps| - 1])
  }

  ghost predicate MapInv(m: Map) {
    && (forall k :: k in m.breakers ==> m.breakers[k] < m.created)
    && (forall j, k :: j in m.breakers && k in m.breakers && j != k ==> m.breakers[j] != m.breakers[k])
    && (forall i :: 0 <= i < |m.callers| && m.callers[i].Got? ==>
          m.callers[i].key in m.breakers && m.callers[i].breaker == m.breakers[m.callers[i].key])
    && |m.breakers| == m.created
  }

  lemma NextGetKeepsInv(m: Map, step: GetStep)
    requires MapInv(m)
    ensures MapInv(NextGet(m, step))
  {
    var m' := NextGet(m, step);
    if m'.created > m.created {
      var key := m.callers[step.caller].key;
      assert m'.breakers.Keys == m.breakers.Keys + {key};
      assert |m'.breakers.Keys| == |m.breakers.Keys| + 1;
      forall i | 0 <= i < |m'.callers| && m'.callers[i].Got?
        ensures m'.callers[i].key in m'.breakers && m'.callers[i].breaker == m'.breakers[m'.callers[i].key]
      {
        if i != step.caller {
          assert m'.callers[i] == m.callers[i];
        }
      }
    }
  }

  lemma {:induction false} RunGetsInv(steps: seq<GetStep>)
    ensures MapInv(RunGets(steps))
  {
    if steps != [] {
      RunGetsInv(steps[..|steps| - 1]);
      NextGetKeepsInv(RunGets(steps[..|steps| - 1]), steps[|steps| - 1]);
    }
  }

  /** Under every interleaving two callers hold the same breaker exactly when they asked for the
      same key, and no breaker was created that is not in the map. */
  lemma SameKeySameBreaker(steps: seq<GetStep>, i: nat, j: nat)
    requires var m := RunGets(steps); i < |m.callers| && j < |m.callers| && m.callers[i].Got? && m.callers[j].Got?
    ensures var m := RunGets(steps);
            m.callers[i].breaker == m.callers[j].breaker <==> m.callers[i].key == m.callers[j].key
    ensures |RunGets(steps).breakers| == RunGets(steps).created
  {
    RunGetsInv(steps);
  }

  /** Left alone, a caller that has begun gets its key's breaker: the one in the map, or else a new
      one, which is then in the map. */
  lemma AloneGets(m: Map, i: nat)
    requires i < |m.callers| && m.callers[i].Begun?
    ensures var m', key := NextGet(NextGet(m, Look(i)), LockAndRecheck(i)), m.callers[i].key;
            && m'.callers == m.callers[i := Got(key, if key in m.breakers then m.breakers[key] else m.created)]
            && m'.breakers == (if key in m.breakers then m.breakers else m.breakers[key := m.created])
            && m'.created == m.created + if key in m.breakers then 0 else 1
  {}

  // ----- the policy cache, which is not double-checked -----

  datatype AskPhase =
    | Asked(procedure: string)
    | Uncached(procedure: string)
    | Resolved(procedure: string, allowed: bool)
    | Answered(procedure: string, allowed: bool)

  datatype Cache = Cache(entries: map<string, bool>, callers: seq<AskPhase>)

  datatype AskStep = Ask(procedure: string) | Read(caller: nat) | Resolve(caller: nat) | Store(caller: nat)

  function NextAsk(resolve: string -> Lookup, c: Cache, step: AskStep): Cache {
    match step
    case Ask(p) => c.(callers := c.callers + [Asked(p)])
    case Read(i) =>
      if i >= |c.callers| || !c.callers[i].Asked? then c
      else
        var p := c.callers[i].procedure;
        c.(callers := c.callers[i := if p in c.entries then Answered(p, c.entries[p]) else Uncached(p)])
    case Resolve(i) =>
      if i >= |c.callers| || !c.callers[i].Uncached? then c
      else
        var p := c.callers[i].procedure;
        c.(callers := c.callers[i := Resolved(p, Safe(resolve(p)))])
    case Store(i) =>
      if i >= |c.callers| || !c.callers[i].Resolved? then c
      else
        var p, allowed := c.callers[i].procedure, c.callers[i].allowed;
        c.(entries := c.entries[p := allowed], callers := c.callers[i := Answered(p, allowed)])
  }

  function RunAsks(resolve: string -> Lookup, steps: seq<AskStep>): Cache {
    if steps == [] then Cache(map[], [])
    else NextAsk(resolve, RunAsks(resolve, steps[..|steps| - 1]), steps[|steps| - 1])
  }

  /** However lookups race, every entry and every answer is what the descriptor says. */
  lemma {:induction false} CacheAgrees(resolve: string -> Lookup, steps: seq<AskStep>)
    ensures var c := RunAsks(resolve, steps);
            && (forall p :: p in c.entries ==> c.entries[p] == Safe(resolve(p)))
            && (forall i :: 0 <= i < |c.callers| && (c.callers[i].Resolved? || c.callers[i].Answered?) ==>
                  c.callers[i].allowed == Safe(resolve(c.callers[i].procedure)))
  {
    if steps != [] {
      CacheAgrees(resolve, steps[..|steps| - 1]);
    }
  }

  /** Left alone, a caller that has asked is answered from its procedure's descriptor. */
  lemma AloneIsAnswered(resolve: string -> Lookup, steps: seq<AskStep>, i: nat)
    requires var c := RunAsks(resolve, steps); i < |c.callers| && c.callers[i].Asked?
    ensures var c := RunAsks(resolve, steps);
            var c' := NextAsk(resolve, NextAsk(resolve, NextAsk(resolve, c, Read(i)), Resolve(i)), Store(i));
            var p := c.callers[i].procedure;
            && c'.callers == c.callers[i := Answered(p, Safe(resolve(p)))]
            && c'.entries == c.entries[p := Safe(resolve(p))]
  {
    CacheAgrees(resolve, steps);
    var c, p := RunAsks(resolve, steps), RunAsks(resolve, steps).callers[i].procedure;
    if p in c.entries {
      assert c.entries == c.entries[p := Safe(resolve(p))];
    }
  }
}
