/** One attempt of an outbound call: breaker, then transport, then the report to the breaker. */
module Operations {
  import opened Wrappers
  import opened GoTime
  import opened Classify
  import opened AttemptHeaders
  import opened BreakerCore
  import opened Breakers
  import opened BreakerGroups
  import opened GuardTraces

  datatype Response = Response(body: string)

  /** What the transport would answer to an attempt, and how long it would take. */
  datatype Reply = Reply(response: Option<Response>, err: Option<Err>, took: nat)

  /** The state of the breaker for a key; one that does not exist yet is as good as new. */
  ghost function StateOf(group: Group, key: string): Core
    requires group.Valid()
    reads group, group.Repr
  {
    if key in group.breakers then group.breakers[key].Contents() else Initial(group.cfg.Normalise())
  }

  ghost function OthersOf(group: Group, key: string): map<string, Core>
    requires group.Valid()
    reads group, group.Repr
  {
    map k | k in group.breakers && k != key :: group.breakers[k].Contents()
  }

  lemma StateShaped(group: Group, key: string, now: Time)
    requires group.Valid() && group.cfg.Normalise().Ready()
    ensures var cfg, c := group.cfg.Normalise(), StateOf(group, key);
            Shaped(cfg, c) && Shaped(cfg, Allow(cfg, c, now).0)
  {}

  /** The breakers, as a call on `key` finds them. */
  ghost function GuardsOf(group: Group?, key: string): Guards
    requires group != null ==> group.Valid()
    reads group
    reads if group != null then group.Repr else {}
  {
    if group == null then Bare else Shielded(group.cfg.Normalise(), StateOf(group, key), OthersOf(group, key))
  }

  /** The closure that the interceptor runs once per attempt, with the variables it captures: the
      request's retry header and the response of the latest attempt. */
  class Operation {
    const key: string
    const breakers: Group?
    var header: string
    var response: Option<Response>
    ghost var sends: nat

    constructor (target: string, procedure: string, breakers: Group?)
      ensures key == Key(target, procedure) && this.breakers == breakers
      ensures header == "" && response == None && sends == 0
    {
      this.key := Key(target, procedure);
      this.breakers := breakers;
      this.header := "";
      this.response := None;
      this.sends := 0;
    }

    /** The group's breakers can take reports. */
    ghost predicate Valid()
      reads breakers
      reads if breakers != null then breakers.Repr else {}
    {
      breakers != null ==> breakers.Valid() && breakers.cfg.Normalise().Ready()
    }

    ghost function Footprint(): set<object>
      reads breakers
    {
      {this} + if breakers != null then breakers.Repr else {}
    }

    /** The state of this call's breaker. */
    ghost function BreakerState(): Core
      requires Valid() && breakers != null
      reads breakers, breakers.Repr
    {
      StateOf(breakers, key)
    }

    /** The states of all the other breakers of the group. */
    ghost function Others(): map<string, Core>
      requires Valid() && breakers != null
      reads breakers, breakers.Repr
    {
      OthersOf(breakers, key)
    }

    twostate lemma SameEntries()
      requires old(Valid()) && Valid() && breakers != null
      requires breakers.breakers.Keys == old(breakers.breakers.Keys) + {key}
      requires forall k :: k in old(breakers.breakers) && k != key ==>
                 && breakers.breakers[k] == old(breakers.breakers[k])
                 && unchanged(old(breakers.breakers[k]))
                 && unchanged(old(breakers.breakers[k].buckets))
      ensures Others() == old(Others())
    {
      forall k | k in breakers.breakers && k != key
        ensures breakers.breakers[k].Contents() == old(breakers.breakers[k].Contents())
      {
        var b := old(breakers.breakers[k]);
        assert b.buckets[..] == old(b.buckets[..]);
      }
    }

    /** The breakers, as this call finds them. */
    ghost function Guards(): Guards
      requires Valid()
      reads breakers
      reads if breakers != null then breakers.Repr else {}
    {
      GuardsOf(breakers, key)
    }

    /** Runs one attempt at `now`; `end` is when it is over. */
    method Invoke(attempt: nat, now: Time, reply: Reply) returns (err: Option<Err>, sent: bool, end: Time)
      requires Valid()
      modifies Footprint()
      ensures Valid() && fresh(Footprint() - old(Footprint()))
      ensures header == if attempt == 0 then old(header) else AttemptHeader(attempt)
      ensures sends == old(sends) + if sent then 1 else 0
      ensures sent ==> err == reply.err && response == reply.response && end == now + reply.took
      ensures !sent ==> err == Some(ERR_BREAKER_OPEN) && response == None && end == now
      ensures breakers == null ==> sent
      ensures breakers != null ==>
                var cfg := breakers.cfg.Normalise();
                var (asked, ok) := Allow(cfg, old(BreakerState()), now);
                && sent == ok
                && BreakerState() == if ok then Record(cfg, asked, end, CountsAsFailure(reply.err)) else asked
      ensures breakers != null ==>
                breakers.breakers.Keys == old(breakers.breakers.Keys) + {key} && Others() == old(Others())
      ensures sent == Admits(old(Guards()), now)
      ensures Guards() == if sent then Told(Asked(old(Guards()), now), end, err) else Asked(old(Guards()), now)
    {
      hide Allow, Record, StateOf, OthersOf, Shaped, Asked, Told, Admits;
      if breakers != null {
        StateShaped(breakers, key, now);
      }
      MarkRetry(attempt);
      if breakers == null {
        sends := sends + 1;
        response := reply.response;
        err, sent, end := reply.err, true, now + reply.took;
        Unbroken(now, end, err);
        return;
      }
      var b := OwnBreaker();
      err, sent, end := Protected(b, now, reply);
      AttemptMoves(old(Guards()), Guards(), now, sent, end, reply.err);
    }

    /** Marks a request that is a retry. */
    method MarkRetry(attempt: nat)
      requires Valid()
      modifies this`header
      ensures header == if attempt == 0 then old(header) else AttemptHeader(attempt)
      ensures Valid() && (breakers != null ==> Others() == old(Others()) && BreakerState() == old(BreakerState()))
    {
      var v := AttemptHeader(attempt);
      if attempt > 0 {
        HeaderRoundTrip(attempt);
      }
      if v != "" {
        header := v;
      }
    }

    /** Finds or creates this call's breaker, which leaves every state as it was. */
    method OwnBreaker() returns (b: Breaker)
      requires Valid() && breakers != null
      modifies breakers
      ensures Valid() && key in breakers.breakers && b == breakers.breakers[key]
      ensures breakers.Repr == old(breakers.Repr) + {b, b.buckets}
      ensures fresh({b, b.buckets} - old(breakers.Repr))
      ensures breakers.breakers.Keys == old(breakers.breakers.Keys) + {key}
      ensures BreakerState() == old(BreakerState()) && Others() == old(Others())
    {
      b := breakers.Get(key);
      SameEntries();
    }

    method Protected(b: Breaker, now: Time, reply: Reply) returns (err: Option<Err>, sent: bool, end: Time)
      requires Valid() && breakers != null && key in breakers.breakers && b == breakers.breakers[key]
      modifies this`response, this`sends, b, b.buckets
      ensures Valid() && breakers.breakers == old(breakers.breakers)
      ensures sends == old(sends) + if sent then 1 else 0
      ensures sent ==> err == reply.err && response == reply.response && end == now + reply.took
      ensures !sent ==> err == Some(ERR_BREAKER_OPEN) && response == None && end == now
      ensures var cfg := breakers.cfg.Normalise();
              var (asked, ok) := Allow(cfg, old(BreakerState()), now);
              && sent == ok
              && BreakerState() == if ok then Record(cfg, asked, end, CountsAsFailure(reply.err)) else asked
      ensures Others() == old(Others())
    {
      err, sent, end := Guarded(b, now, reply);
      SameEntries();
    }

    /** The attempt proper, behind its breaker. */
    method Guarded(b: Breaker, now: Time, reply: Reply) returns (err: Option<Err>, sent: bool, end: Time)
      requires b.Valid() && b.cfg.Ready()
      modifies this`response, this`sends, b, b.buckets
      ensures b.Valid()
      ensures sends == old(sends) + if sent then 1 else 0
      ensures sent ==> err == reply.err && response == reply.response && end == now + reply.took
      ensures !sent ==> err == Some(ERR_BREAKER_OPEN) && response == None && end == now
      ensures var (asked, ok) := Allow(b.cfg, old(b.Contents()), now);
              && sent == ok
              && b.Contents() == if ok then Record(b.cfg, asked, end, CountsAsFailure(reply.err)) else asked
    {
      var done := b.Allow(now);
      if done == null {
        response := None;
        return Some(ERR_BREAKER_OPEN), false, now;
      }
      sends := sends + 1;
      done.Done(reply.err, now + reply.took);
      response := reply.response;
      return reply.err, true, now + reply.took;
    }
  }
}
