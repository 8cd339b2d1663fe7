/** What the life of a call does to the breakers: the events of its trace, replayed on their states. */
module GuardTraces {
  import opened Wrappers
  import opened GoTime
  import opened Classify
  import R = RetryTraces
  import BreakerCore

  /** A call without breakers, or one behind the breaker in state `own` among those of other keys. */
  datatype Guards =
    | Bare
    | Shielded(cfg: BreakerCore.Config, own: BreakerCore.Core, others: map<string, BreakerCore.Core>)

  predicate Admits(g: Guards, now: Time) {
    g.Shielded? ==> BreakerCore.Allow(g.cfg, g.own, now).1
  }

  function Asked(g: Guards, now: Time): Guards {
    if g.Bare? then g else g.(own := BreakerCore.Allow(g.cfg, g.own, now).0)
  }

  function Told(g: Guards, now: Time, err: Option<Err>): Guards {
    if g.Bare? || !BreakerCore.Shaped(g.cfg, g.own) then g
    else g.(own := BreakerCore.Record(g.cfg, g.own, now, CountsAsFailure(err)))
  }

  lemma Unbroken(now: Time, end: Time, err: Option<Err>)
    ensures Admits(Bare, now) && Told(Asked(Bare, now), end, err) == Bare
  {}

  /** One attempt, from the point of view of its own breaker. */
  lemma AttemptMoves(g: Guards, g': Guards, now: Time, sent: bool, end: Time, err: Option<Err>)
    requires g.Shielded? && g'.Shielded? && g' == g.(own := g'.own) && BreakerCore.Shaped(g.cfg, g.own)
    requires var (asked, ok) := BreakerCore.Allow(g.cfg, g.own, now);
             && BreakerCore.Shaped(g.cfg, asked)
             && sent == ok
             && g'.own == if ok then BreakerCore.Record(g.cfg, asked, end, CountsAsFailure(err)) else asked
    ensures sent == Admits(g, now)
    ensures g' == if sent then Told(Asked(g, now), end, err) else Asked(g, now)
  {}

  /** Every attempt asks the call's own breaker, every result is reported to it, nothing else
      matters to it, and nothing at all to the breakers of other keys. */
  function Replayed(g: Guards, trace: seq<R.Event>): Guards {
    if trace == [] then g else After(Replayed(g, trace[..|trace| - 1]), trace[|trace| - 1])
  }

  function After(g: Guards, ev: R.Event): Guards {
    if ev.Attempt? then Asked(g, ev.at)
    else if ev.Returned? then Told(g, ev.at, ev.result)
    else g
  }

  /** An attempt is sent or rejected as the breaker, in the state it has reached, decides. */
  ghost predicate Obeyed(g: Guards, trace: seq<R.Event>) {
    forall i :: 0 <= i < |trace| && (trace[i].Sent? || trace[i].Rejected?) ==> ObeyedAt(g, trace, i)
  }

  ghost predicate ObeyedAt(g: Guards, trace: seq<R.Event>, i: nat)
    requires i < |trace|
  {
    && 0 < i && trace[i - 1].Attempt?
    && (trace[i].Sent? <==> Admits(Replayed(g, trace[..i - 1]), trace[i - 1].at))
  }

  lemma AttemptRejected(g: Guards, n: nat, at: Time)
    requires !Admits(g, at)
    ensures var evs := [R.Attempt(n, at)] + [R.Rejected];
            Replayed(g, evs) == Asked(g, at) && Obeyed(g, evs)
  {
    var evs := [R.Attempt(n, at)] + [R.Rejected];
    assert evs[..1] == [R.Attempt(n, at)] && [R.Attempt(n, at)][..0] == [] && evs[..0] == [];
    assert Replayed(g, []) == g;
    assert Replayed(g, evs[..1]) == Asked(g, at);
  }

  lemma AttemptSent(g: Guards, n: nat, at: Time, err: Option<Err>, end: Time, due: Option<Time>)
    requires Admits(g, at)
    ensures var evs := [R.Attempt(n, at)] + [R.Sent, R.Returned(err, end, due)];
            Replayed(g, evs) == Told(Asked(g, at), end, err) && Obeyed(g, evs)
  {
    var evs := [R.Attempt(n, at)] + [R.Sent, R.Returned(err, end, due)];
    assert evs[..2] == [R.Attempt(n, at), R.Sent] && [R.Attempt(n, at), R.Sent][..1] == [R.Attempt(n, at)];
    assert [R.Attempt(n, at)][..0] == [] && evs[..0] == [];
    assert Replayed(g, []) == g;
    assert Replayed(g, [R.Attempt(n, at)]) == Asked(g, at);
    assert Replayed(g, evs[..2]) == Asked(g, at);
  }
}
