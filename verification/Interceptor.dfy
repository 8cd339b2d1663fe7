/** The client-side interceptor: retry loop around breaker around transport. */
module Interceptors {
  import opened Wrappers
  import opened GoTime
  import opened Classify
  import Deadlines
  import EventLog
  import opened RetryTraces
  import opened RetryLives
  import opened Circumstances
  import opened Operations
  import opened BreakerGroups
  import opened GuardTraces
  import opened Retriers
  import opened Policies

  /** The life of a call without a retrier. */
  function PlainTrace(ctx: Context, start: Time, admitted: bool, reply: Reply): seq<Event> {
    [Attempt(0, start)] + if admitted then [Sent, Returned(reply.err, start + reply.took, ctx.deadline)] else [Rejected]
  }

  /** The deadline, if any, leaves Buffer and Minimum. */
  ghost predicate RoomFor(budget: Deadlines.Budget, ctx: Context, now: Time) {
    ctx.deadline.Some? ==> ctx.deadline.value - now >= budget.buffer + budget.minimum
  }

  class Resilience {
    const target: string
    const retrier: Retrier?
    const breakers: Group?

    ghost function Repr(): set<object>
      reads breakers
    {
      (if retrier != null then retrier.Repr() else {}) + (if breakers != null then breakers.Repr else {})
    }

    ghost predicate Valid()
      reads if retrier != null then retrier.Repr() else {}
      reads breakers
      reads if breakers != null then breakers.Repr else {}
    {
      && (retrier != null ==> retrier.Valid())
      && (breakers != null ==> breakers.Valid() && breakers.cfg.Normalise().Ready())
      && (retrier != null && breakers != null ==> retrier.Repr() !! breakers.Repr)
    }

    constructor (target: string, retrier: Retrier?, breakers: Group?)
      requires retrier != null ==> retrier.Valid()
      requires breakers != null ==> breakers.Valid() && breakers.cfg.Normalise().Ready()
      requires retrier != null && breakers != null ==> retrier.Repr() !! breakers.Repr
      ensures Valid() && this.target == target && this.retrier == retrier && this.breakers == breakers
    {
      this.target := target;
      this.retrier := retrier;
      this.breakers := breakers;
    }

    /** One logical call; `sends` is how often it reached the wire, `trace` its life.

        With a retrier that is the one life that a call has in its circumstances.  A success yields
        the response of the last attempt, a failure none; nothing is sent exactly if the deadline
        leaves no room at the start or the breaker rejects the first attempt.  Without a retrier there
        is one attempt, and its response and error are passed on together; nothing is sent exactly
        if there is a breaker and it rejects.

        The life decides what became of the call's own breaker; the breakers of other keys are as
        they were. */
    method Intercept(ctx: Context, procedure: string, start: Time, env: nat -> Env)
      returns (resp: Option<Response>, err: Option<Err>, sends: nat, finish: Time, ghost trace: seq<Event>)
      requires Valid()
      modifies Repr()
      ensures Valid() && fresh(Repr() - old(Repr()))
      ensures var key := Key(target, procedure);
              && GuardsOf(breakers, key) == Replayed(old(GuardsOf(breakers, key)), trace)
              && (retrier != null ==> retrier.OneCall(ctx, procedure, start, env, old(GuardsOf(breakers, key)),
                    old(retrier.RequestLog()), old(retrier.RetryLog()), trace, err, finish))
              && (retrier == null ==>
                    trace == PlainTrace(ctx, start, Admits(old(GuardsOf(breakers, key)), start), env(0).reply))
      ensures sends == Sends(trace)
      ensures var admitted := Admits(old(GuardsOf(breakers, Key(target, procedure))), start);
              && (retrier == null ==> sends == if admitted then 1 else 0)
              && (breakers == null ==> admitted)
              && (retrier != null ==> (sends >= 1 <==> admitted && RoomFor(retrier.deadline, ctx, start)))
      ensures err == None ==> sends >= 1 && (resp, err) == Delivered(retrier != null, env(sends - 1).reply)
      ensures retrier != null && err.Some? ==> resp == None
      ensures retrier == null ==>
                && ((resp, err) == if sends == 0 then (None, Some(ERR_BREAKER_OPEN)) else Delivered(false, env(0).reply))
                && finish == start + if sends == 0 then 0 else env(0).reply.took
      ensures sends <= 1 + if retrier != null && Safe(retrier.policy.resolve(procedure)) then retrier.cfg.maxAttempts else 0
      ensures retrier != null && retrier.budget != null ==>
                sends <= 1 + (|retrier.budget.retries.log| - |old(retrier.budget.retries.log)|)
    {
      hide Key, GuardsOf, Replayed, Obeyed, Follow, Sends, Admits, Group.Valid, Retrier.Valid, Retrier.OneCall, PlainTrace;
      var op := new Operation(target, procedure, breakers);
      NoBreaker(op.key, start);
      if retrier == null {
        resp, err, sends, finish, trace := Direct(ctx, op, start, env(0).reply);
        return;
      }
      resp, err, sends, finish, trace := Retried(retrier, ctx, procedure, op, start, env);
    }

    static lemma NoBreaker(key: string, now: Time)
      ensures Admits(GuardsOf(null, key), now)
    {}

    /** The call without a retrier: one attempt, in the caller's own context. */
    static method Direct(ctx: Context, op: Operation, start: Time, reply: Reply)
      returns (resp: Option<Response>, err: Option<Err>, sends: nat, finish: Time, ghost trace: seq<Event>)
      requires op.Valid()
      modifies op.Footprint()
      ensures op.Valid() && fresh(op.Footprint() - old(op.Footprint()))
      ensures op.Guards() == Replayed(old(op.Guards()), trace)
      ensures trace == PlainTrace(ctx, start, Admits(old(op.Guards()), start), reply)
      ensures sends == Sends(trace) == if Admits(old(op.Guards()), start) then 1 else 0
      ensures (resp, err) == if sends == 0 then (None, Some(ERR_BREAKER_OPEN)) else Delivered(false, reply)
      ensures finish == start + if sends == 0 then 0 else reply.took
    {
      hide Operation.Guards, Asked, Told, Admits, Replayed, Sends, PlainTrace;
      hide Operation.Valid, Operation.BreakerState, Operation.Others;
      var sent: bool;
      err, sent, finish := op.Invoke(0, start, reply);
      trace := PlainTrace(ctx, start, sent, reply);
      PlainEffects(ctx, old(op.Guards()), start, sent, reply);
      sends := if sent then 1 else 0;
      resp := op.response;
    }

    static lemma PlainEffects(ctx: Context, g: Guards, start: Time, sent: bool, reply: Reply)
      requires sent == Admits(g, start)
      ensures var trace := PlainTrace(ctx, start, sent, reply);
              && Sends(trace) == (if sent then 1 else 0)
              && Replayed(g, trace) == if sent then Told(Asked(g, start), start + reply.took, reply.err) else Asked(g, start)
    {
      hide Asked, Told, Admits;
      OneMore(g, [], Attempt(0, start));
      assert [] + [Attempt(0, start)] == [Attempt(0, start)];
      if sent {
        AttemptSent(g, 0, start, reply.err, start + reply.took, ctx.deadline);
        OneMore(g, [Attempt(0, start)], Sent);
        var back := Returned(reply.err, start + reply.took, ctx.deadline);
        OneMore(g, [Attempt(0, start)] + [Sent], back);
        assert [Attempt(0, start)] + [Sent] + [back] == PlainTrace(ctx, start, sent, reply);
      } else {
        AttemptRejected(g, 0, start);
        OneMore(g, [Attempt(0, start)], Rejected);
      }
    }

    /** The call through a retrier: only a success keeps its response. */
    static method Retried(retrier: Retrier, ctx: Context, procedure: string, op: Operation, start: Time, env: nat -> Env)
      returns (resp: Option<Response>, err: Option<Err>, sends: nat, finish: Time, ghost trace: seq<Event>)
      requires retrier.Valid() && op.Valid() && op.Footprint() !! retrier.Repr()
      modifies op.Footprint(), retrier.Repr()
      ensures retrier.Valid() && op.Valid() && fresh(op.Footprint() - old(op.Footprint()))
      ensures op.Guards() == Replayed(old(op.Guards()), trace)
      ensures retrier.OneCall(ctx, procedure, start, env, old(op.Guards()),
                old(retrier.RequestLog()), old(retrier.RetryLog()), trace, err, finish)
      ensures sends == Sends(trace)
      ensures sends >= 1 <==> Admits(old(op.Guards()), start) && RoomFor(retrier.deadline, ctx, start)
      ensures err == None ==> sends >= 1 && (resp, err) == Delivered(true, env(sends - 1).reply)
      ensures err.Some? ==> resp == None
      ensures sends <= 1 + if Safe(retrier.policy.resolve(procedure)) then retrier.cfg.maxAttempts else 0
      ensures retrier.budget != null ==> sends <= 1 + (|retrier.budget.retries.log| - |old(retrier.budget.retries.log)|)
    {
      hide Operation.Guards, Replayed, Retrier.OneCall, Sends, Affordable, Honoured, Admits, RoomFor, Round;
      var events, last := [], 0;
      err, events, finish, last := retrier.Do(ctx, procedure, op, start, env);
      trace := events;
      sends := CountSends(events);
      CallCounts(retrier, ctx, procedure, start, env, old(op.Guards()), old(retrier.RequestLog()), old(retrier.RetryLog()),
        trace, err, finish);
      if err.Some? {
        resp := None;
        return;
      }
      resp := op.response;
    }

    static method CountSends(trace: seq<Event>) returns (n: nat)
      ensures n == Sends(trace)
    {
      n := 0;
      for i := 0 to |trace|
        invariant n == Sends(trace[..i])
      {
        assert trace[..i + 1] == trace[..i] + [trace[i]];
        CountAppend(trace[..i], trace[i]);
        if trace[i].Sent? {
          n := n + 1;
        }
      }
      assert trace[..|trace|] == trace;
    }
  }

  /** What the caller gets from an attempt that was sent and ended the call. */
  function Delivered(hasRetrier: bool, reply: Reply): (Option<Response>, Option<Err>) {
    (if hasRetrier && reply.err.Some? then None else reply.response, reply.err)
  }

  /** A partial response next to an error: passed on without a retrier, dropped with one. */
  lemma PartialResponse()
    ensures var reply := Reply(Some(Response("half")), Some(Err(Coded(DataLoss), [])), 0);
            && Delivered(false, reply) == (reply.response, reply.err)
            && Delivered(true, reply) == (None, reply.err)
  {}

  /** No reply can make a call yield a response together with an error, exactly when there is a
      retrier. */
  lemma NoPartialResponseIff(hasRetrier: bool)
    ensures (forall reply: Reply ::
               var (resp, err) := Delivered(hasRetrier, reply); !(resp.Some? && err.Some?)) <==> hasRetrier
  {
    if !hasRetrier {
      var reply := Reply(Some(Response("half")), Some(Err(Coded(DataLoss), [])), 0);
      assert Delivered(hasRetrier, reply) == (reply.response, reply.err);
    }
  }

  lemma CallCounts(retrier: Retrier, ctx: Context, procedure: string, start: Time, env: nat -> Env, guards: Guards,
      requests: seq<EventLog.Event>, retries: seq<EventLog.Event>, trace: seq<Event>, err: Option<Err>, finish: Time)
    requires retrier.OneCall(ctx, procedure, start, env, guards, requests, retries, trace, err, finish)
    ensures Sends(trace) >= 1 <==> Admits(guards, start) && RoomFor(retrier.deadline, ctx, start)
    ensures Sends(trace) <= 1 + retrier.RulesFor(procedure).Retries()
    ensures retrier.budget != null ==> Sends(trace) <= 1 + |retrier.budget.retries.log| - |retries|
    ensures err == None ==> Sends(trace) == Round(trace) + 1
  {
    hide Lived, Sends, Admits, Charged;
    var s := retrier.SettingFor(ctx, procedure, start, env, retrier.RequestLog(), retries, guards);
    LifeCounts(s, trace, err, finish);
  }

  /** The counts of a finished life. */
  lemma LifeCounts(s: Setting, trace: seq<Event>, err: Option<Err>, finish: Time)
    requires Lived(s, trace, Finished(err), finish)
    ensures Sends(trace) >= 1 <==> HasRoom(s, s.start) && Admits(s.guards, s.start)
    ensures Sends(trace) <= 1 + s.rules.Retries()
    ensures s.rules.budgeted ==> Sends(trace) <= 1 + |Charged(trace)|
    ensures err == None ==> Sends(trace) == Round(trace) + 1
  {
    SentAtAll(s, trace, err, finish);
    TraceBalances(s.rules, trace);
    ChargedCounts(trace);
    if err == None {
      SuccessWasSent(s.rules, trace);
      LastWasReturned(s.rules, trace);
    }
  }

  lemma {:induction false} ChargedCounts(trace: seq<Event>)
    ensures |Charged(trace)| == Grants(trace)
  {
    if trace != [] {
      var before, ev := trace[..|trace| - 1], trace[|trace| - 1];
      ChargedCounts(before);
      assert trace == before + [ev];
      CountAppend(before, ev);
    }
  }

  /** Only a transport reply can be a success, and then every attempt was sent. */
  lemma SuccessWasSent(rules: Rules, trace: seq<Event>)
    requires Follow(rules, trace) == Some(Finished(None))
    ensures Sends(trace) == |AttemptNumbers(trace)| >= 1
  {
    LastWasReturned(rules, trace);
    var before := trace[..|trace| - 1];
    assert trace == before + [trace[|trace| - 1]];
    TraceBalances(rules, before);
    CountAppend(before, trace[|trace| - 1]);
  }

  lemma LastWasReturned(rules: Rules, trace: seq<Event>)
    requires Follow(rules, trace) == Some(Finished(None))
    ensures trace != [] && trace[|trace| - 1].Returned?
    ensures var before := Follow(rules, trace[..|trace| - 1]); before.Some? && before.value.InFlight?
  {
    LastErrorKnown(rules, trace[..|trace| - 1]);
  }

  /** Before a retry there is always an error to return. */
  lemma {:induction false} LastErrorKnown(rules: Rules, trace: seq<Event>)
    requires Follow(rules, trace).Some?
    ensures var p := Follow(rules, trace).value;
            (p.Asking? || p.Pausing? || (p.Deriving? && p.n > 0)) ==> p.last.Some?
  {
    if trace != [] {
      LastErrorKnown(rules, trace[..|trace| - 1]);
    }
  }
}
