/** A plain log of timestamped, weighted events: the reference that the bucketed windows are
    measured against. */
module EventLog {
  import opened GoTime

  datatype Event = Event(at: Time, weight: real)

  ghost predicate Ordered(log: seq<Event>) {
    forall i, j :: 0 <= i < j < |log| ==> log[i].at <= log[j].at
  }

  /** Every event lies between 1970 and `now`. */
  ghost predicate Past(log: seq<Event>, now: Time) {
    forall e :: e in log ==> 0 <= e.at <= now
  }

  ghost predicate NonNegative(log: seq<Event>) {
    forall e :: e in log ==> e.weight >= 0.0
  }

  function Last(log: seq<Event>): Event
    requires log != []
  {
    log[|log| - 1]
  }

  function Init(log: seq<Event>): seq<Event>
    requires log != []
  {
    log[..|log| - 1]
  }

  /** Total weight of the events that satisfy `p`. */
  ghost function Weight(log: seq<Event>, p: Event -> bool): real {
    if log == [] then 0.0
    else Weight(Init(log), p) + (if p(Last(log)) then Last(log).weight else 0.0)
  }

  lemma WeightOfAppend(log: seq<Event>, e: Event, p: Event -> bool)
    ensures Weight(log + [e], p) == Weight(log, p) + (if p(e) then e.weight else 0.0)
  {
    assert Init(log + [e]) == log;
  }

  lemma {:induction false} WeightSame(log: seq<Event>, p: Event -> bool, q: Event -> bool)
    requires forall e :: e in log ==> p(e) == q(e)
    ensures Weight(log, p) == Weight(log, q)
  {
    if log != [] {
      WeightSame(Init(log), p, q);
    }
  }

  lemma {:induction false} WeightNone(log: seq<Event>, p: Event -> bool)
    requires forall e :: e in log ==> !p(e)
    ensures Weight(log, p) == 0.0
  {
    if log != [] {
      WeightNone(Init(log), p);
    }
  }

  /** Splitting a class of events in two splits its weight. */
  lemma {:induction false} WeightSplit(log: seq<Event>, p: Event -> bool, q: Event -> bool, r: Event -> bool)
    requires forall e :: e in log ==> (r(e) <==> p(e) || q(e)) && !(p(e) && q(e))
    ensures Weight(log, r) == Weight(log, p) + Weight(log, q)
  {
    if log != [] {
      WeightSplit(Init(log), p, q, r);
    }
  }

  lemma {:induction false} WeightMonotone(log: seq<Event>, p: Event -> bool, q: Event -> bool)
    requires NonNegative(log)
    requires forall e :: e in log && p(e) ==> q(e)
    ensures 0.0 <= Weight(log, p) <= Weight(log, q)
  {
    if log != [] {
      WeightMonotone(Init(log), p, q);
    }
  }
}
