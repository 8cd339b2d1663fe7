/** The whole life of one logical call, told without the loop: what each event needs to have happened,
    and when, given the circumstances.  There is exactly one such life. */
module RetryLives {
  import opened Wrappers
  import opened GoTime
  import opened Classify
  import opened RetryTraces
  import opened GuardTraces
  import opened Circumstances
  import EventLog
  import Budgets
  import Deadlines

  /** Everything that decides the life of a call: the caller's context, when it begins, what happens
      around each attempt, the rules, the deadline budget, the retry budget with its logs, and the
      breakers. */
  datatype Setting = Setting(
    ctx: Context,
    start: Time,
    env: nat -> Env,
    rules: Rules,
    buffer: int,
    minimum: int,
    budget: Option<Budgets.Config>,
    requests: seq<EventLog.Event>,
    retries: seq<EventLog.Event>,
    guards: Guards)

  /** The time after some events; sends and rejections take none. */
  function Clock(start: Time, trace: seq<Event>): Time {
    if trace == [] then start
    else
      var ev := trace[|trace| - 1];
      if ev.Sent? || ev.Rejected? then Clock(start, trace[..|trace| - 1]) else ev.at
  }

  /** What the granted retries add to the budget's log. */
  function Charged(trace: seq<Event>): seq<EventLog.Event> {
    if trace == [] then []
    else
      var ev := trace[|trace| - 1];
      Charged(trace[..|trace| - 1]) + if ev.Granted? then [EventLog.Event(ev.at, 1.0)] else []
  }

  /** There is time for one more attempt at `now`. */
  ghost predicate HasRoom(s: Setting, now: Time) {
    s.ctx.deadline.Some? ==> s.ctx.deadline.value - now >= s.buffer + s.minimum
  }

  /** The retries counted at `now` leave room for one more beside the requests. */
  ghost predicate Affords(c: Budgets.Config, requests: seq<EventLog.Event>, retries: seq<EventLog.Event>, now: Time) {
    Budgets.Counted(c, retries, now)
    < Budgets.Counted(c, requests, now) * c.ratio + c.minPerSecond * (c.window as real / 1_000_000_000.0)
  }

  ghost predicate Granting(s: Setting, before: seq<Event>, now: Time) {
    s.budget.Some? && Affords(s.budget.value, s.requests, s.retries + Charged(before), now)
  }

  /** When the timer set before attempt n rings. */
  function TimerAt(s: Setting, n: nat, now: Time): Time
    requires n >= 1
  {
    now + if s.rules.cfg.Backoff(n) <= 0 then 0 else s.env(n).draw % s.rules.cfg.Backoff(n)
  }

  /** The sleep before attempt n: how long until something is ready, and when the call goes on. */
  ghost predicate SleepIs(s: Setting, n: nat, now: Time, took: int, at: Time)
    requires n >= 1
  {
    if s.rules.cfg.Backoff(n) <= 0 then took == 0 && at == now
    else took == s.ctx.FirstReady(now, TimerAt(s, n, now)) - now && at == now + took + s.env(n).lag
  }

  /** By the time it goes on the context has fired, and either the timer has not rung or the select
      takes the context. */
  ghost predicate GivesUp(s: Setting, n: nat, now: Time, at: Time)
    requires n >= 1
  {
    s.rules.cfg.Backoff(n) > 0 && s.ctx.Fired(at) && (at < TimerAt(s, n, now) || s.env(n).contextWins)
  }

  /** The deadline of an attempt. */
  function AttemptDeadline(s: Setting): Option<Time> {
    if s.ctx.deadline == None then None
    else Some(if s.buffer < 0 then s.ctx.deadline.value else s.ctx.deadline.value - s.buffer)
  }

  /** Why `ev` comes after `before`. */
  ghost predicate ExplainedAt(s: Setting, before: seq<Event>, ev: Event) {
    var now, n := Clock(s.start, before), |AttemptNumbers(before)|;
    match ev
    case Granted(at) => at == now && Granting(s, before, now)
    case Denied(at) => at == now && s.budget.Some? && !Granting(s, before, now)
    case Slept(took, at) => n >= 1 && SleepIs(s, n, now, took, at) && !GivesUp(s, n, now, at)
    case Interrupted(took, at, err) =>
      n >= 1 && SleepIs(s, n, now, took, at) && GivesUp(s, n, now, at)
      && err == Err(Coded(DeadlineExceeded), [s.ctx.DoneErr()])
    case NoTime(at, err) => at == now && !HasRoom(s, now) && err == Err(Coded(DeadlineExceeded), [Err(Other, [])])
    case Attempt(m, at) => m == n && at == now && HasRoom(s, now)
    case Rejected => true
    case Sent => true
    case Returned(result, at, due) =>
      n >= 1 && result == s.env(n - 1).reply.err && at == now + s.env(n - 1).reply.took && due == AttemptDeadline(s)
  }

  ghost predicate Explained(s: Setting, trace: seq<Event>) {
    trace != [] ==>
      Explained(s, trace[..|trace| - 1]) && ExplainedAt(s, trace[..|trace| - 1], trace[|trace| - 1])
  }

  /** A possible life so far: in phase p at time `now`. */
  ghost predicate Lived(s: Setting, trace: seq<Event>, p: Phase, now: Time) {
    Follow(s.rules, trace) == Some(p) && Explained(s, trace) && Obeyed(s.guards, trace) && now == Clock(s.start, trace)
  }

  // ----- one more event -----

  lemma ClockAppend(start: Time, trace: seq<Event>, ev: Event)
    ensures Clock(start, trace + [ev]) == if ev.Sent? || ev.Rejected? then Clock(start, trace) else ev.at
  {
    assert (trace + [ev])[..|trace|] == trace;
  }

  lemma ChargedAppend(trace: seq<Event>, ev: Event)
    ensures Charged(trace + [ev]) == Charged(trace) + if ev.Granted? then [EventLog.Event(ev.at, 1.0)] else []
  {
    assert (trace + [ev])[..|trace|] == trace;
  }

  lemma ExplainedAppend(s: Setting, trace: seq<Event>, ev: Event)
    requires Explained(s, trace) && ExplainedAt(s, trace, ev)
    ensures Explained(s, trace + [ev])
  {
    assert (trace + [ev])[..|trace|] == trace;
  }

  lemma ReplayedAppend(g: Guards, trace: seq<Event>, ev: Event)
    ensures Replayed(g, trace + [ev]) == GuardTraces.After(Replayed(g, trace), ev)
  {
    assert (trace + [ev])[..|trace|] == trace;
  }

  /** Whether the breaker, asked by the attempt that `before` ends in, lets it through. */
  ghost predicate LetThrough(g: Guards, before: seq<Event>, sent: bool) {
    && before != [] && before[|before| - 1].Attempt?
    && (sent <==> Admits(Replayed(g, before[..|before| - 1]), before[|before| - 1].at))
  }

  lemma ObeyedAppend(g: Guards, trace: seq<Event>, ev: Event)
    requires Obeyed(g, trace) && (ev.Sent? || ev.Rejected? ==> LetThrough(g, trace, ev.Sent?))
    ensures Obeyed(g, trace + [ev])
  {
    var all := trace + [ev];
    forall i | 0 <= i < |all| && (all[i].Sent? || all[i].Rejected?)
      ensures ObeyedAt(g, all, i)
    {
      if i < |trace| {
        assert ObeyedAt(g, trace, i);
        assert all[..i - 1] == trace[..i - 1];
      } else {
        assert all[..i - 1] == trace[..|trace| - 1];
      }
    }
  }

  lemma Extend(s: Setting, trace: seq<Event>, p: Phase, now: Time, ev: Event)
    requires Lived(s, trace, p, now) && Advance(s.rules, p, ev).Some? && ExplainedAt(s, trace, ev)
    requires ev.Sent? || ev.Rejected? ==> LetThrough(s.guards, trace, ev.Sent?)
    ensures Lived(s, trace + [ev], Advance(s.rules, p, ev).value, if ev.Sent? || ev.Rejected? then now else ev.at)
  {
    hide ExplainedAt, Obeyed, LetThrough, Advance;
    FollowAppend(s.rules, trace, ev);
    ExplainedAppend(s, trace, ev);
    ObeyedAppend(s.guards, trace, ev);
    ClockAppend(s.start, trace, ev);
  }

  /** Before the next attempt there have been n. */
  lemma AttemptsBefore(rules: Rules, trace: seq<Event>)
    requires Follow(rules, trace).Some?
    ensures var p := Follow(rules, trace).value;
            && (p.Asking? || p.Pausing? || p.Deriving? ==> |AttemptNumbers(trace)| == p.n)
            && (p.Calling? || p.InFlight? ==> |AttemptNumbers(trace)| == p.n + 1)
  {
    TraceBalances(rules, trace);
  }

  /** The round of the loop in which the trace ends: that of its last attempt if it ends with one,
      of the next one otherwise. */
  function Round(trace: seq<Event>): nat {
    var k := |AttemptNumbers(trace)|;
    if trace != [] && (trace[|trace| - 1].Returned? || trace[|trace| - 1].Rejected?) && k > 0 then k - 1 else k
  }

  /** The trace when there is no time for attempt n. */
  lemma OutOfTime(s: Setting, trace: seq<Event>, n: nat, last: Option<Err>, now: Time)
    requires Lived(s, trace, Deriving(n, last), now) && !HasRoom(s, now)
    ensures var e := Err(Coded(DeadlineExceeded), [Err(Other, [])]);
            var t := trace + [NoTime(now, e)];
            && Lived(s, t, Finished(if last.Some? then last else Some(e)), now)
            && Sends(t) == Sends(trace) && Replayed(s.guards, t) == Replayed(s.guards, trace)
            && Charged(t) == Charged(trace) && Round(t) == n
  {
    hide HasRoom, Replayed, Charged, Sends;
    AttemptsBefore(s.rules, trace);
    var ev := NoTime(now, Err(Coded(DeadlineExceeded), [Err(Other, [])]));
    Extend(s, trace, Deriving(n, last), now, ev);
    CountAppend(trace, ev);
    ReplayedAppend(s.guards, trace, ev);
    ChargedAppend(trace, ev);
  }

  /** Attempt n begins. */
  lemma Begun(s: Setting, trace: seq<Event>, n: nat, last: Option<Err>, now: Time)
    requires Lived(s, trace, Deriving(n, last), now) && HasRoom(s, now)
    ensures var t := trace + [Attempt(n, now)];
            && Lived(s, t, Calling(n), now)
            && Sends(t) == Sends(trace) && Charged(t) == Charged(trace) && |AttemptNumbers(t)| == n + 1
            && Replayed(s.guards, t) == Asked(Replayed(s.guards, trace), now)
  {
    hide HasRoom, Replayed, Charged, Sends, Asked;
    AttemptsBefore(s.rules, trace);
    Extend(s, trace, Deriving(n, last), now, Attempt(n, now));
    OneMore(s.guards, trace, Attempt(n, now));
  }

  /** The breaker answers an attempt that has just begun. */
  lemma Answered(s: Setting, trace: seq<Event>, n: nat, now: Time, sent: bool)
    requires Lived(s, trace, Calling(n), now) && LetThrough(s.guards, trace, sent)
    ensures var t := trace + [if sent then Sent else Rejected];
            && Lived(s, t, if sent then InFlight(n) else RetryTraces.After(s.rules, n, Some(ERR_BREAKER_OPEN)), now)
            && Sends(t) == Sends(trace) + (if sent then 1 else 0)
            && Charged(t) == Charged(trace) && AttemptNumbers(t) == AttemptNumbers(trace)
            && Replayed(s.guards, t) == Replayed(s.guards, trace)
  {
    hide LetThrough, Replayed, Charged, Sends, RetryTraces.After;
    var ev := if sent then Sent else Rejected;
    Extend(s, trace, Calling(n), now, ev);
    OneMore(s.guards, trace, ev);
  }

  /** The result of attempt n arrives. */
  lemma CameBack(s: Setting, trace: seq<Event>, n: nat, now: Time)
    requires Lived(s, trace, InFlight(n), now)
    ensures var err, end := s.env(n).reply.err, now + s.env(n).reply.took;
            var t := trace + [Returned(err, end, AttemptDeadline(s))];
            && Lived(s, t, RetryTraces.After(s.rules, n, err), end)
            && Sends(t) == Sends(trace) && Charged(t) == Charged(trace) && AttemptNumbers(t) == AttemptNumbers(trace)
            && Replayed(s.guards, t) == Told(Replayed(s.guards, trace), end, err)
  {
    hide Replayed, Charged, Sends, Told, RetryTraces.After;
    AttemptsBefore(s.rules, trace);
    var ev := Returned(s.env(n).reply.err, now + s.env(n).reply.took, AttemptDeadline(s));
    Extend(s, trace, InFlight(n), now, ev);
    OneMore(s.guards, trace, ev);
  }

  /** The trace after attempt n. */
  lemma Attempted(s: Setting, trace: seq<Event>, n: nat, last: Option<Err>, now: Time, sent: bool, err: Option<Err>, end: Time)
    requires Lived(s, trace, Deriving(n, last), now) && HasRoom(s, now)
    requires sent == Admits(Replayed(s.guards, trace), now)
    requires if sent then err == s.env(n).reply.err && end == now + s.env(n).reply.took
             else err == Some(ERR_BREAKER_OPEN) && end == now
    ensures var t := trace + [Attempt(n, now)] + if sent then [Sent] + [Returned(err, end, AttemptDeadline(s))] else [Rejected];
            && Lived(s, t, RetryTraces.After(s.rules, n, err), end)
            && Sends(t) == Sends(trace) + (if sent then 1 else 0)
            && Replayed(s.guards, t) == (var g := Asked(Replayed(s.guards, trace), now); if sent then Told(g, end, err) else g)
            && Charged(t) == Charged(trace) && Round(t) == n
  {
    hide HasRoom, Replayed, Charged, Sends, Admits, Asked, Told, RetryTraces.After, Lived, AttemptDeadline, AttemptNumbers;
    var t1 := trace + [Attempt(n, now)];
    Begun(s, trace, n, last, now);
    assert t1[..|t1| - 1] == trace;
    Answered(s, t1, n, now, sent);
    if sent {
      var t2 := t1 + [Sent];
      CameBack(s, t2, n, now);
      assert t2 + [Returned(err, end, AttemptDeadline(s))] == t1 + ([Sent] + [Returned(err, end, AttemptDeadline(s))]);
    }
  }

  lemma OneMore(g: Guards, trace: seq<Event>, ev: Event)
    ensures Sends(trace + [ev]) == Sends(trace) + (if ev.Sent? then 1 else 0)
    ensures AttemptNumbers(trace + [ev]) == AttemptNumbers(trace) + if ev.Attempt? then [ev.n] else []
    ensures Charged(trace + [ev]) == Charged(trace) + if ev.Granted? then [EventLog.Event(ev.at, 1.0)] else []
    ensures Replayed(g, trace + [ev]) == GuardTraces.After(Replayed(g, trace), ev)
  {
    CountAppend(trace, ev);
    ReplayedAppend(g, trace, ev);
    ChargedAppend(trace, ev);
  }

  // ----- there is only one life -----

  /** The events before the last are a life too. */
  lemma Earlier(s: Setting, trace: seq<Event>)
    requires Follow(s.rules, trace).Some? && Explained(s, trace) && Obeyed(s.guards, trace) && trace != []
    ensures var before, ev := trace[..|trace| - 1], trace[|trace| - 1];
            && Follow(s.rules, before).Some? && Advance(s.rules, Follow(s.rules, before).value, ev).Some?
            && Follow(s.rules, trace) == Advance(s.rules, Follow(s.rules, before).value, ev)
            && Explained(s, before) && ExplainedAt(s, before, ev)
            && Obeyed(s.guards, before) && (ev.Sent? || ev.Rejected? ==> LetThrough(s.guards, before, ev.Sent?))
  {
    hide ExplainedAt, Advance;
    var before := trace[..|trace| - 1];
    forall i | 0 <= i < |before| && (before[i].Sent? || before[i].Rejected?)
      ensures ObeyedAt(s.guards, before, i)
    {
      assert ObeyedAt(s.guards, trace, i);
      assert trace[..i - 1] == before[..i - 1];
    }
    if trace[|trace| - 1].Sent? || trace[|trace| - 1].Rejected? {
      assert ObeyedAt(s.guards, trace, |trace| - 1);
      assert trace[..|trace| - 2] == before[..|before| - 1];
    }
  }

  /** Nothing but the circumstances decides what comes next. */
  lemma NextIsDetermined(s: Setting, before: seq<Event>, p: Phase, x: Event, y: Event)
    requires Advance(s.rules, p, x).Some? && Advance(s.rules, p, y).Some?
    requires ExplainedAt(s, before, x) && ExplainedAt(s, before, y)
    requires x.Sent? || x.Rejected? ==> LetThrough(s.guards, before, x.Sent?)
    requires y.Sent? || y.Rejected? ==> LetThrough(s.guards, before, y.Sent?)
    ensures x == y
  {
    hide Granting, HasRoom, GivesUp, Rules.Sleepable, Admits, Replayed, Clock, AttemptNumbers, Context.FirstReady;
  }

  lemma {:induction false} LivesAgree(s: Setting, a: seq<Event>, b: seq<Event>, k: nat)
    requires Follow(s.rules, a).Some? && Explained(s, a) && Obeyed(s.guards, a)
    requires Follow(s.rules, b).Some? && Explained(s, b) && Obeyed(s.guards, b)
    requires |a| == k <= |b|
    ensures a == b[..k]
    decreases |a| + |b|
  {
    hide ExplainedAt, Advance, Obeyed, LetThrough, Follow, Explained;
    if k < |b| {
      Earlier(s, b);
      LivesAgree(s, a, b[..|b| - 1], k);
    } else if k > 0 {
      Earlier(s, a);
      Earlier(s, b);
      LivesAgree(s, a[..k - 1], b[..k - 1], k - 1);
      assert a[..k - 1] == b[..k - 1];
      NextIsDetermined(s, a[..k - 1], Follow(s.rules, a[..k - 1]).value, a[k - 1], b[k - 1]);
      assert a == a[..k - 1] + [a[k - 1]] && b == b[..k - 1] + [b[k - 1]];
      assert b[..k] == b;
    }
  }

  lemma {:induction false} FinishedStays(s: Setting, a: seq<Event>, b: seq<Event>)
    requires Follow(s.rules, a).Some? && Follow(s.rules, a).value.Finished?
    requires Follow(s.rules, b).Some? && |a| < |b| && a == b[..|a|]
    ensures false
  {
    var before := b[..|b| - 1];
    if |b| > |a| + 1 {
      assert a == before[..|a|];
      FinishedStays(s, a, before);
    }
  }

  /** In given circumstances a call has exactly one finished life: any two are equal event by event,
      in their times, errors, grants, sends and rejections. */
  lemma OneLife(s: Setting, a: seq<Event>, b: seq<Event>, e: Option<Err>, f: Option<Err>, t: Time, u: Time)
    requires Lived(s, a, Finished(e), t) && Lived(s, b, Finished(f), u)
    ensures a == b && e == f && t == u
  {
    if |a| <= |b| {
      LivesAgree(s, a, b, |a|);
      if |a| < |b| {
        FinishedStays(s, a, b);
      }
      assert b[..|b|] == b;
    } else {
      LivesAgree(s, b, a, |b|);
      FinishedStays(s, b, a);
    }
  }

  // ----- why a life ends -----

  /** The loop carries the error of the attempt before. */
  lemma {:induction false} CarriesLast(s: Setting, trace: seq<Event>)
    requires Follow(s.rules, trace).Some? && Explained(s, trace) && Obeyed(s.guards, trace)
    ensures var p := Follow(s.rules, trace).value;
            (p.Asking? || p.Pausing? || p.Deriving?) && p.n > 0 ==> p.last == s.env(p.n - 1).reply.err
  {
    if trace != [] {
      var before, ev := trace[..|trace| - 1], trace[|trace| - 1];
      Earlier(s, trace);
      CarriesLast(s, before);
      AttemptsBefore(s.rules, before);
      CarriesOn(s, before, Follow(s.rules, before).value, ev);
    }
  }

  lemma CarriesOn(s: Setting, before: seq<Event>, p: Phase, ev: Event)
    requires Advance(s.rules, p, ev).Some? && ExplainedAt(s, before, ev)
    requires p.InFlight? ==> |AttemptNumbers(before)| == p.n + 1
    requires (p.Asking? || p.Pausing? || p.Deriving?) && p.n > 0 ==> p.last == s.env(p.n - 1).reply.err
    ensures var q := Advance(s.rules, p, ev).value;
            (q.Asking? || q.Pausing? || q.Deriving?) && q.n > 0 ==> q.last == s.env(q.n - 1).reply.err
  {
    RejectionIsInert(Some(ERR_BREAKER_OPEN));
    hide Granting, HasRoom, SleepIs, GivesUp, Clock, AttemptNumbers, IsRetryable, Rules.Sleepable;
  }

  /** The reason for the last event, and the error it leaves: the attempt succeeded, failed for good
      or was the last one allowed; the breaker rejected it; the budget had no room for a retry; the
      context fired during the backoff; or too little time was left.  In the last three cases an
      earlier error is returned if there is one, except after a sleep. */
  ghost predicate EndedFor(s: Setting, trace: seq<Event>, err: Option<Err>)
    requires trace != []
  {
    var before, ev := trace[..|trace| - 1], trace[|trace| - 1];
    var n, t := |AttemptNumbers(before)|, Clock(s.start, before);
    match ev
    case Returned(result, _, _) =>
      n >= 1 && err == result == s.env(n - 1).reply.err
      && (!IsRetryable(err) || !s.rules.retryable || n > s.rules.cfg.maxAttempts)
    case Rejected => err == Some(ERR_BREAKER_OPEN) && LetThrough(s.guards, before, false)
    case Denied(_) =>
      n >= 1 && err == s.env(n - 1).reply.err
      && s.budget.Some? && !Affords(s.budget.value, s.requests, s.retries + Charged(before), t)
    case Interrupted(_, at, e) => err == Some(e) && CodeOf(e) == DeadlineExceeded && s.ctx.Fired(at)
    case NoTime(_, e) =>
      && s.ctx.deadline.Some? && s.ctx.deadline.value - t < s.buffer + s.minimum
      && err == (if n == 0 then Some(e) else s.env(n - 1).reply.err)
      && CodeOf(e) == DeadlineExceeded
    case _ => false
  }

  /** Every call ends for one of these reasons; so a transient failure of a safe procedure with
      attempts left is followed by another attempt unless the budget, the context, the deadline or
      the breaker is in the way. */
  lemma WhyItEnded(s: Setting, trace: seq<Event>, err: Option<Err>, finish: Time)
    requires Lived(s, trace, Finished(err), finish)
    ensures trace != [] && EndedFor(s, trace, err)
  {
    WhyFinished(s, trace, err);
  }

  lemma WhyFinished(s: Setting, trace: seq<Event>, err: Option<Err>)
    requires Follow(s.rules, trace) == Some(Finished(err)) && Explained(s, trace) && Obeyed(s.guards, trace)
    ensures trace != [] && EndedFor(s, trace, err)
  {
    assert trace != [];
    var before, ev := trace[..|trace| - 1], trace[|trace| - 1];
    assert trace == before + [ev];
    hide Follow, Explained, ExplainedAt, Obeyed, Advance, EndedFor, LetThrough;
    Earlier(s, trace);
    CarriesLast(s, before);
    AttemptsBefore(s.rules, before);
    FinishesFor(s, before, Follow(s.rules, before).value, ev, err);
  }

  lemma FinishesFor(s: Setting, before: seq<Event>, p: Phase, ev: Event, err: Option<Err>)
    requires Follow(s.rules, before) == Some(p) && Advance(s.rules, p, ev) == Some(Finished(err)) && ExplainedAt(s, before, ev)
    requires ev.Sent? || ev.Rejected? ==> LetThrough(s.guards, before, ev.Sent?)
    requires p.Asking? || p.Pausing? || p.Deriving? ==> |AttemptNumbers(before)| == p.n
    requires p.Calling? || p.InFlight? ==> |AttemptNumbers(before)| == p.n + 1
    requires (p.Asking? || p.Pausing? || p.Deriving?) && p.n > 0 ==> p.last == s.env(p.n - 1).reply.err
    ensures EndedFor(s, before + [ev], err)
  {
    assert (before + [ev])[..|before|] == before;
    LastIsKnown(s.rules, before);
    WithinRetries(s.rules, before);
    hide Explained, Obeyed, Affords, SleepIs, Clock, AttemptNumbers, LetThrough, Context.Fired, Follow, IsRetryable;
    hide Rules.Sleepable, Config.Backoff, TimerAt;
  }

  lemma WithinRetries(rules: Rules, trace: seq<Event>)
    requires Follow(rules, trace).Some?
    ensures var p := Follow(rules, trace).value; !p.Finished? ==> p.n <= rules.Retries()
  {
    TraceBalances(rules, trace);
  }

  /** Before a retry there is always an error to return, and before attempt 0 there is none. */
  lemma {:induction false} LastIsKnown(rules: Rules, trace: seq<Event>)
    requires Follow(rules, trace).Some?
    ensures var p := Follow(rules, trace).value;
            && (p.Asking? || p.Pausing? || (p.Deriving? && p.n > 0) ==> p.last.Some?)
            && (p.Deriving? && p.n == 0 ==> p.last == None)
  {
    if trace != [] {
      LastIsKnown(rules, trace[..|trace| - 1]);
      TraceBalances(rules, trace[..|trace| - 1]);
    }
  }

  // ----- how a life begins -----

  /** The first events: no time, or attempt 0, which is sent exactly if the breaker admits it. */
  lemma {:induction false} Opening(s: Setting, trace: seq<Event>)
    requires Follow(s.rules, trace).Some? && Explained(s, trace) && Obeyed(s.guards, trace) && trace != []
    ensures if HasRoom(s, s.start) then trace[0] == Attempt(0, s.start) else trace[0].NoTime?
    ensures HasRoom(s, s.start) && |trace| > 1 ==>
              if Admits(s.guards, s.start) then trace[1].Sent? else trace[1].Rejected?
    ensures HasRoom(s, s.start) && |trace| == 1 ==> Follow(s.rules, trace).value.Calling?
  {
    Earlier(s, trace);
    var before, ev := trace[..|trace| - 1], trace[|trace| - 1];
    if |trace| == 1 {
      assert before == [];
    } else {
      Opening(s, before);
      if |trace| == 2 {
        SecondEvent(s, before, ev);
      }
    }
  }

  lemma SecondEvent(s: Setting, before: seq<Event>, ev: Event)
    requires |before| == 1 && Follow(s.rules, before).Some? && Advance(s.rules, Follow(s.rules, before).value, ev).Some?
    requires before[0] == Attempt(0, s.start)
    requires ev.Sent? || ev.Rejected? ==> LetThrough(s.guards, before, ev.Sent?)
    ensures if Admits(s.guards, s.start) then ev.Sent? else ev.Rejected?
  {
    hide Admits;
    assert before[..0] == [];
    assert Replayed(s.guards, []) == s.guards;
  }

  lemma {:induction false} SentCounts(trace: seq<Event>, i: nat)
    requires i < |trace| && trace[i].Sent?
    ensures Sends(trace) >= 1
  {
    var before, ev := trace[..|trace| - 1], trace[|trace| - 1];
    assert trace == before + [ev];
    CountAppend(before, ev);
    if i < |before| {
      SentCounts(before, i);
    }
  }

  /** A finished call was sent exactly if there was time at its start and the breaker admitted its
      first attempt. */
  lemma SentAtAll(s: Setting, trace: seq<Event>, err: Option<Err>, finish: Time)
    requires Lived(s, trace, Finished(err), finish)
    ensures Sends(trace) >= 1 <==> HasRoom(s, s.start) && Admits(s.guards, s.start)
  {
    assert trace != [];
    Opening(s, trace);
    hide Follow, Explained, ExplainedAt, Obeyed, HasRoom, Admits, Sends;
    if !HasRoom(s, s.start) {
      NoTimeOnly(s, trace);
    } else if Admits(s.guards, s.start) {
      SentCounts(trace, 1);
    } else {
      RejectedOnly(s, trace);
    }
  }

  lemma NoTimeOnly(s: Setting, trace: seq<Event>)
    requires Follow(s.rules, trace).Some? && |trace| > 0 && trace[0].NoTime?
    ensures Sends(trace) == 0
  {
    var a := trace[0];
    assert trace[..1] == [a] && [] + [a] == [a];
    FollowAppend(s.rules, [], a);
    CountAppend([], a);
    hide Follow, Sends;
    OnlyEvents(s, trace, 1);
    NoSends();
  }

  lemma RejectedOnly(s: Setting, trace: seq<Event>)
    requires Follow(s.rules, trace).Some? && |trace| > 1 && trace[0] == Attempt(0, s.start) && trace[1].Rejected?
    ensures Sends(trace) == 0
  {
    var a, b := trace[0], trace[1];
    assert trace[..2] == [a] + [b] && [] + [a] == [a];
    RejectionIsInert(Some(ERR_BREAKER_OPEN));
    FollowAppend(s.rules, [], a);
    FollowAppend(s.rules, [a], b);
    CountAppend([], a);
    CountAppend([a], b);
    hide Follow, Sends, IsRetryable;
    OnlyEvents(s, trace, 2);
    NoSends();
  }

  lemma NoSends()
    ensures Sends([]) == 0
  {}

  /** Nothing follows a finished beginning. */
  lemma OnlyEvents(s: Setting, trace: seq<Event>, k: nat)
    requires k <= |trace| && Follow(s.rules, trace).Some?
    requires Follow(s.rules, trace[..k]).Some? && Follow(s.rules, trace[..k]).value.Finished?
    ensures trace == trace[..k]
  {
    if k < |trace| {
      FinishedStays(s, trace[..k], trace);
    }
  }

  // ----- time -----

  /** Every attempt was over by its own deadline. */
  ghost predicate Honoured(evs: seq<Event>) {
    forall i :: 0 <= i < |evs| && evs[i].Returned? && evs[i].due.Some? ==> evs[i].at <= evs[i].due.value
  }

  /** Every attempt started with at least `need` left before `deadline`. */
  ghost predicate Affordable(evs: seq<Event>, deadline: Time, need: int) {
    forall i :: 0 <= i < |evs| && evs[i].Attempt? ==> deadline - evs[i].at >= need
  }

  /** How late the goroutine may be in phase p. */
  function Slack(s: Setting, trace: seq<Event>, p: Phase): nat {
    match p
    case Asking(_, _) => 0
    case Pausing(_, _) => 0
    case Deriving(n, _) => s.env(n).lag
    case Calling(n) => s.env(n).lag
    case InFlight(n) => s.env(n).lag
    case Finished(_) => s.env(Round(trace)).lag
  }

  lemma {:induction false} LivesInTime(s: Setting, trace: seq<Event>, p: Phase, now: Time)
    requires Lived(s, trace, p, now) && s.ctx.deadline.Some? && s.start <= s.ctx.deadline.value && Honoured(trace)
    ensures now <= s.ctx.deadline.value + Slack(s, trace, p)
  {
    if trace != [] {
      var before, ev := trace[..|trace| - 1], trace[|trace| - 1];
      assert trace == before + [ev];
      Earlier(s, trace);
      var q, t := Follow(s.rules, before).value, Clock(s.start, before);
      assert forall i :: 0 <= i < |before| ==> before[i] == trace[i];
      LivesInTime(s, before, q, t);
      StepInTime(s, before, q, t, ev);
    }
  }

  lemma StepInTime(s: Setting, before: seq<Event>, q: Phase, t: Time, ev: Event)
    requires Lived(s, before, q, t) && s.ctx.deadline.Some? && t <= s.ctx.deadline.value + Slack(s, before, q)
    requires Advance(s.rules, q, ev).Some? && ExplainedAt(s, before, ev)
    requires ev.Returned? && ev.due.Some? ==> ev.at <= ev.due.value
    ensures Clock(s.start, before + [ev]) <= s.ctx.deadline.value + Slack(s, before + [ev], Advance(s.rules, q, ev).value)
  {
    AttemptsBefore(s.rules, before);
    ClockAppend(s.start, before, ev);
    RoundAppend(before, ev);
    if ev.Slept? || ev.Interrupted? {
      SleepInTime(s, q.n, t, ev.took, ev.at);
    }
    hide Follow, Explained, Obeyed, Clock, AttemptNumbers, Granting, SleepIs, GivesUp, Rules.Sleepable, Round, IsRetryable;
  }

  lemma SleepInTime(s: Setting, n: nat, now: Time, took: int, at: Time)
    requires n >= 1 && SleepIs(s, n, now, took, at) && s.ctx.deadline.Some? && now <= s.ctx.deadline.value
    ensures at <= s.ctx.deadline.value + s.env(n).lag
  {}

  lemma RoundAppend(trace: seq<Event>, ev: Event)
    ensures var k := |AttemptNumbers(trace)|;
            Round(trace + [ev]) ==
            if ev.Attempt? then k + 1
            else if (ev.Returned? || ev.Rejected?) && k > 0 then k - 1
            else k
  {
    CountAppend(trace, ev);
  }

  /** What a finished life keeps about time: every attempt starts with Buffer and Minimum left, and if
      the attempts honour their deadlines the call overstays its own by no more than the scheduling
      delay of its last round. */
  lemma InTime(s: Setting, trace: seq<Event>, err: Option<Err>, finish: Time)
    requires Lived(s, trace, Finished(err), finish)
    ensures s.ctx.deadline.Some? ==> Affordable(trace, s.ctx.deadline.value, s.buffer + s.minimum)
    ensures s.ctx.deadline.Some? && s.start <= s.ctx.deadline.value && Honoured(trace) ==>
              finish <= s.ctx.deadline.value + s.env(Round(trace)).lag
  {
    if s.ctx.deadline.Some? {
      LivesAfford(s, trace);
      if s.start <= s.ctx.deadline.value && Honoured(trace) {
        LivesInTime(s, trace, Finished(err), finish);
      }
    }
  }

  lemma {:induction false} LivesAfford(s: Setting, trace: seq<Event>)
    requires Explained(s, trace) && s.ctx.deadline.Some?
    ensures Affordable(trace, s.ctx.deadline.value, s.buffer + s.minimum)
  {
    if trace != [] {
      LivesAfford(s, trace[..|trace| - 1]);
    }
  }
}
