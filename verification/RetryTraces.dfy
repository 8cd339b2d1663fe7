/** The life of one logical call as a sequence of events, and what every such life accounts for. */
module RetryTraces {
  import opened Wrappers
  import opened GoTime
  import opened Classify

  datatype Config = Config(maxAttempts: int, base: int, maxBackoff: int) {
    predicate Validate() {
      && maxAttempts >= 0
      && (maxAttempts > 0 ==> base > 0)
      && !(maxBackoff > 0 && maxBackoff < base)
    }

    /** The backoff before attempt n, counted from 1; it doubles and may be capped. */
    function Backoff(n: nat): int
      requires n >= 1
    {
      var doubled := base * Pow2(n - 1);
      if maxBackoff > 0 && doubled > maxBackoff then maxBackoff else doubled
    }
  }

  function Pow2(n: nat): (p: nat)
    ensures p >= 1
  {
    if n == 0 then 1 else 2 * Pow2(n - 1)
  }

  /** The backoffs double from Base on; a cap, if there is one, cuts off what is above it. */
  lemma BackoffDoubles(cfg: Config, n: nat)
    requires n >= 1
    ensures cfg.maxBackoff <= 0 ==> cfg.Backoff(1) == cfg.base && cfg.Backoff(n + 1) == 2 * cfg.Backoff(n)
    ensures cfg.maxBackoff > 0 ==>
              var uncapped := cfg.(maxBackoff := 0).Backoff(n);
              cfg.Backoff(n) == if uncapped < cfg.maxBackoff then uncapped else cfg.maxBackoff
  {
    TwiceBase(cfg.base, Pow2(n - 1));
  }

  lemma TwiceBase(base: int, p: int)
    ensures base * (2 * p) == 2 * (base * p)
  {}

  /** What the retry loop knows about the call: whether the procedure is declared safe, and
      whether a budget is configured. */
  datatype Rules = Rules(cfg: Config, retryable: bool, budgeted: bool) {
    /** The number of retries the loop may make. */
    function Retries(): nat {
      if retryable && cfg.maxAttempts > 0 then cfg.maxAttempts else 0
    }

    /** Sleeping before attempt n takes less than its backoff. */
    predicate Sleepable(n: nat, took: int)
      requires n >= 1
    {
      0 <= took && (took < cfg.Backoff(n) || took == 0)
    }
  }

  datatype Event =
    | Granted(at: Time)
    | Denied(at: Time)
    | Slept(took: int, at: Time)                  // awake again at `at`
    | Interrupted(took: int, at: Time, err: Err)
    | NoTime(at: Time, err: Err)
    | Attempt(n: nat, at: Time)
    | Rejected
    | Sent
    | Returned(result: Option<Err>, at: Time, due: Option<Time>)

  /** Where the loop stands; `last` is its lastErr. */
  datatype Phase =
    | Asking(n: nat, last: Option<Err>)
    | Pausing(n: nat, last: Option<Err>)
    | Deriving(n: nat, last: Option<Err>)
    | Calling(n: nat)
    | InFlight(n: nat)
    | Finished(err: Option<Err>)

  /** What follows attempt n when it ended with `err`. */
  function After(rules: Rules, n: nat, err: Option<Err>): Phase {
    if !IsRetryable(err) || n >= rules.Retries() then Finished(err)
    else if rules.budgeted then Asking(n + 1, err)
    else Pausing(n + 1, err)
  }

  function Advance(rules: Rules, p: Phase, ev: Event): Option<Phase> {
    match p
    case Asking(n, last) =>
      (match ev
       case Granted(_) => Some(Pausing(n, last))
       case Denied(_) => Some(Finished(last))
       case _ => None)
    case Pausing(n, last) =>
      (match ev
       case Slept(took, _) => if n >= 1 && rules.Sleepable(n, took) then Some(Deriving(n, last)) else None
       case Interrupted(took, _, err) => if n >= 1 && rules.Sleepable(n, took) then Some(Finished(Some(err))) else None
       case _ => None)
    case Deriving(n, last) =>
      (match ev
       case NoTime(_, err) => Some(Finished(if last.Some? then last else Some(err)))
       case Attempt(m, at) => if m == n then Some(Calling(n)) else None
       case _ => None)
    case Calling(n) =>
      (match ev
       case Rejected => Some(After(rules, n, Some(ERR_BREAKER_OPEN)))
       case Sent => Some(InFlight(n))
       case _ => None)
    case InFlight(n) =>
      (match ev
       case Returned(err, at, due) => Some(After(rules, n, err))
       case _ => None)
    case Finished(_) => None
  }

  /** The phase a whole trace leads to, if it is a possible life at all. */
  function Follow(rules: Rules, trace: seq<Event>): Option<Phase> {
    if trace == [] then Some(Deriving(0, None))
    else
      match Follow(rules, trace[..|trace| - 1])
      case None => None
      case Some(p) => Advance(rules, p, trace[|trace| - 1])
  }

  lemma FollowAppend(rules: Rules, trace: seq<Event>, ev: Event)
    requires Follow(rules, trace).Some?
    ensures Follow(rules, trace + [ev]) == Advance(rules, Follow(rules, trace).value, ev)
  {
    assert (trace + [ev])[..|trace|] == trace;
  }

  function Count(trace: seq<Event>, p: Event -> bool): nat {
    if trace == [] then 0 else Count(trace[..|trace| - 1], p) + if p(trace[|trace| - 1]) then 1 else 0
  }

  function Sends(trace: seq<Event>): nat {
    Count(trace, (ev: Event) => ev.Sent?)
  }

  function Grants(trace: seq<Event>): nat {
    Count(trace, (ev: Event) => ev.Granted?)
  }

  function Rejections(trace: seq<Event>): nat {
    Count(trace, (ev: Event) => ev.Rejected?)
  }

  /** The numbers given to the attempts, in order. */
  function AttemptNumbers(trace: seq<Event>): seq<nat> {
    if trace == [] then []
    else
      var ev := trace[|trace| - 1];
      AttemptNumbers(trace[..|trace| - 1]) + if ev.Attempt? then [ev.n] else []
  }

  function UpTo(n: nat): seq<nat> {
    seq(n, i => i)
  }

  function SleptTotal(trace: seq<Event>): int {
    if trace == [] then 0
    else
      var ev := trace[|trace| - 1];
      SleptTotal(trace[..|trace| - 1]) + match ev case Slept(t, _) => t case Interrupted(t, _, _) => t case _ => 0
  }

  function BackoffTotal(cfg: Config, n: nat): nat {
    if n == 0 then 0
    else BackoffTotal(cfg, n - 1) + if cfg.Backoff(n) > 0 then cfg.Backoff(n) else 0
  }

  // ----- the books balance -----

  /** attempts, sends, grants and sleep charged when the loop is in phase p. */
  ghost predicate Balanced(rules: Rules, trace: seq<Event>, p: Phase) {
    var attempts, sends, grants, slept := |AttemptNumbers(trace)|, Sends(trace), Grants(trace), SleptTotal(trace);
    match p
    case Asking(n, _) =>
      1 <= n <= rules.Retries() && rules.budgeted
      && attempts == n && sends == n && grants == n - 1 && slept <= BackoffTotal(rules.cfg, n - 1)
    case Pausing(n, _) =>
      1 <= n <= rules.Retries()
      && attempts == n && sends == n && grants == (if rules.budgeted then n else 0) && slept <= BackoffTotal(rules.cfg, n - 1)
    case Deriving(n, _) =>
      n <= rules.Retries()
      && attempts == n && sends == n && grants == (if rules.budgeted then n else 0) && slept <= BackoffTotal(rules.cfg, n)
    case Calling(n) =>
      n <= rules.Retries()
      && attempts == n + 1 && sends == n && grants == (if rules.budgeted then n else 0) && slept <= BackoffTotal(rules.cfg, n)
    case InFlight(n) =>
      n <= rules.Retries()
      && attempts == n + 1 && sends == n + 1 && grants == (if rules.budgeted then n else 0) && slept <= BackoffTotal(rules.cfg, n)
    case Finished(_) =>
      attempts <= rules.Retries() + 1 && (sends == attempts || sends + 1 == attempts)
      && (if !rules.budgeted then grants == 0 else if sends == 0 then grants == 0 else grants == sends || grants == sends - 1)
      && slept <= BackoffTotal(rules.cfg, rules.Retries())
  }

  /** Only the last event can be a rejection or a result that is not retried. */
  ghost predicate WentOn(trace: seq<Event>, p: Phase) {
    forall i :: 0 <= i < (if p.Finished? then |trace| - 1 else |trace|) ==>
      !trace[i].Rejected? && (trace[i].Returned? ==> IsRetryable(trace[i].result))
  }

  lemma {:induction false} BackoffTotalMonotone(cfg: Config, m: nat, n: nat)
    requires m <= n
    ensures BackoffTotal(cfg, m) <= BackoffTotal(cfg, n)
  {
    if m < n {
      BackoffTotalMonotone(cfg, m, n - 1);
    }
  }

  lemma CountAppend(trace: seq<Event>, ev: Event)
    ensures Sends(trace + [ev]) == Sends(trace) + (if ev.Sent? then 1 else 0)
    ensures Grants(trace + [ev]) == Grants(trace) + (if ev.Granted? then 1 else 0)
    ensures Rejections(trace + [ev]) == Rejections(trace) + (if ev.Rejected? then 1 else 0)
    ensures AttemptNumbers(trace + [ev]) == AttemptNumbers(trace) + if ev.Attempt? then [ev.n] else []
    ensures SleptTotal(trace + [ev])
         == SleptTotal(trace) + match ev case Slept(t, _) => t case Interrupted(t, _, _) => t case _ => 0
  {
    assert (trace + [ev])[..|trace|] == trace;
  }

  lemma SleepFits(rules: Rules, n: nat, took: int)
    requires n >= 1
    ensures rules.Sleepable(n, took) ==> BackoffTotal(rules.cfg, n - 1) + took <= BackoffTotal(rules.cfg, n)
  {}

  lemma AdvanceBalances(rules: Rules, trace: seq<Event>, p: Phase, ev: Event)
    requires Balanced(rules, trace, p) && Advance(rules, p, ev).Some?
    ensures Balanced(rules, trace + [ev], Advance(rules, p, ev).value)
  {
    hide Count, Sends, Grants, AttemptNumbers, SleptTotal, Config.Backoff, BackoffTotal, Rules.Sleepable, IsRetryable;
    CountAppend(trace, ev);
    match p {
      case Asking(n, _) => BackoffTotalMonotone(rules.cfg, n - 1, rules.Retries());
      case Pausing(n, _) =>
        BackoffTotalMonotone(rules.cfg, n, rules.Retries());
        SleepFits(rules, n, if ev.Slept? || ev.Interrupted? then ev.took else 0);
      case Deriving(n, _) => BackoffTotalMonotone(rules.cfg, n, rules.Retries());
      case Calling(n) =>
        BackoffTotalMonotone(rules.cfg, n, rules.Retries());
        RejectionIsInert(Some(ERR_BREAKER_OPEN));
      case InFlight(n) => BackoffTotalMonotone(rules.cfg, n, rules.Retries());
    }
  }

  /** The three books of one call. */
  ghost predicate InBooks(rules: Rules, trace: seq<Event>, p: Phase) {
    && Balanced(rules, trace, p)
    && WentOn(trace, p)
    && AttemptNumbers(trace) == UpTo(|AttemptNumbers(trace)|)
  }

  lemma AdvanceKeepsBooks(rules: Rules, trace: seq<Event>, p: Phase, ev: Event)
    requires InBooks(rules, trace, p) && Advance(rules, p, ev).Some?
    ensures InBooks(rules, trace + [ev], Advance(rules, p, ev).value)
  {
    AdvanceBalances(rules, trace, p, ev);
    AdvanceWentOn(rules, trace, p, ev);
    CountAppend(trace, ev);
    if ev.Attempt? {
      assert UpTo(|AttemptNumbers(trace)|) + [ev.n] == UpTo(|AttemptNumbers(trace)| + 1);
    }
  }

  lemma {:induction false} TraceBalances(rules: Rules, trace: seq<Event>)
    requires Follow(rules, trace).Some?
    ensures InBooks(rules, trace, Follow(rules, trace).value)
  {
    if trace != [] {
      var before, ev := trace[..|trace| - 1], trace[|trace| - 1];
      TraceBalances(rules, before);
      assert trace == before + [ev];
      AdvanceKeepsBooks(rules, before, Follow(rules, before).value, ev);
    }
  }

  lemma AdvanceWentOn(rules: Rules, trace: seq<Event>, p: Phase, ev: Event)
    requires WentOn(trace, p) && Advance(rules, p, ev).Some?
    ensures WentOn(trace + [ev], Advance(rules, p, ev).value)
  {
    RejectionIsInert(Some(ERR_BREAKER_OPEN));
  }

  /** Every finished call: attempts numbered 0, 1, ... and no more than MaxAttempts + 1; every one
      but the last ended in a retryable error; retries charged are sends - 1 or sends, none if
      nothing was sent; and at most one attempt was rejected by the breaker, the last. */
  lemma RetryAccounting(rules: Rules, trace: seq<Event>)
    requires Follow(rules, trace).Some? && Follow(rules, trace).value.Finished?
    ensures AttemptNumbers(trace) == UpTo(|AttemptNumbers(trace)|)
    ensures |AttemptNumbers(trace)| <= rules.Retries() + 1
    ensures Sends(trace) == |AttemptNumbers(trace)| - Rejections(trace) && Rejections(trace) <= 1
    ensures rules.budgeted ==> Grants(trace) == Sends(trace) || Grants(trace) == Sends(trace) - 1
    ensures Sends(trace) == 0 ==> Grants(trace) == 0
    ensures forall i :: 0 <= i < |trace| - 1 ==> !trace[i].Rejected?
    ensures forall i :: 0 <= i < |trace| - 1 && trace[i].Returned? ==>
              IsRetryable(trace[i].result) && CountsAsFailure(trace[i].result)
  {
    TraceBalances(rules, trace);
    SendsAreAttempts(rules, trace);
    if trace != [] {
      NoRejections(trace[..|trace| - 1]);
    }
    forall i | 0 <= i < |trace| - 1 && trace[i].Returned?
      ensures CountsAsFailure(trace[i].result)
    {
      RetryableIffTransientFailure(trace[i].result);
    }
  }

  lemma {:induction false} NoRejections(trace: seq<Event>)
    requires forall i :: 0 <= i < |trace| ==> !trace[i].Rejected?
    ensures Rejections(trace) == 0
  {
    if trace != [] {
      NoRejections(trace[..|trace| - 1]);
    }
  }

  /** The last event shows whether an attempt is about to be sent, or out. */
  lemma PhaseShows(rules: Rules, p: Phase, ev: Event)
    requires Advance(rules, p, ev).Some?
    ensures var q := Advance(rules, p, ev).value;
            && (q.Calling? <==> ev.Attempt?) && (q.InFlight? <==> ev.Sent?)
            && (p.Calling? <==> ev.Sent? || ev.Rejected?) && (p.InFlight? <==> ev.Returned?)
  {
    hide IsRetryable, Rules.Sleepable, Rules.Retries;
  }

  /** An attempt is sent, rejected, or about to be one of the two. */
  lemma {:induction false} SendsAreAttempts(rules: Rules, trace: seq<Event>)
    requires Follow(rules, trace).Some?
    ensures |AttemptNumbers(trace)| ==
            Sends(trace) + Rejections(trace) + if Follow(rules, trace).value.Calling? then 1 else 0
  {
    if trace != [] {
      hide Sends, Rejections, AttemptNumbers, Advance;
      var before, ev := trace[..|trace| - 1], trace[|trace| - 1];
      SendsAreAttempts(rules, before);
      assert trace == before + [ev];
      CountAppend(before, ev);
      PhaseShows(rules, Follow(rules, before).value, ev);
    }
  }

  /** A procedure that is not declared safe reaches the wire at most once, whatever happens. */
  lemma UnsafeSentAtMostOnce(rules: Rules, trace: seq<Event>)
    requires !rules.retryable && Follow(rules, trace).Some?
    ensures Sends(trace) <= 1 && Grants(trace) == 0
  {
    TraceBalances(rules, trace);
  }

  // ----- how long it can sleep -----

  /** All the sleeping of one call, finished or not, is below the sum of its backoffs: at most
      Base * (2^MaxAttempts - 1), and at most MaxAttempts * MaxBackoff when there is a cap. */
  lemma BackoffBound(rules: Rules, trace: seq<Event>)
    requires rules.cfg.Validate() && Follow(rules, trace).Some?
    ensures rules.cfg.maxAttempts > 0 ==>
              SleptTotal(trace) <= rules.cfg.base * (Pow2(rules.cfg.maxAttempts) - 1)
    ensures rules.cfg.maxBackoff > 0 ==> SleptTotal(trace) <= rules.cfg.maxAttempts * rules.cfg.maxBackoff
  {
    TraceBalances(rules, trace);
    var cfg, n := rules.cfg, rules.Retries();
    var p := Follow(rules, trace).value;
    BackoffTotalMonotone(cfg, n, cfg.maxAttempts);
    match p {
      case Asking(m, _) => BackoffTotalMonotone(cfg, m - 1, n);
      case Pausing(m, _) => BackoffTotalMonotone(cfg, m - 1, n);
      case Deriving(m, _) => BackoffTotalMonotone(cfg, m, n);
      case Calling(m) => BackoffTotalMonotone(cfg, m, n);
      case InFlight(m) => BackoffTotalMonotone(cfg, m, n);
      case Finished(_) =>
    }
    assert SleptTotal(trace) <= BackoffTotal(cfg, cfg.maxAttempts);
    BackoffSums(cfg, cfg.maxAttempts);
  }

  lemma {:induction false} BackoffSums(cfg: Config, n: nat)
    ensures cfg.base > 0 ==> BackoffTotal(cfg, n) <= cfg.base * (Pow2(n) - 1)
    ensures cfg.maxBackoff > 0 ==> BackoffTotal(cfg, n) <= n * cfg.maxBackoff
  {
    if n > 0 {
      BackoffSums(cfg, n - 1);
      Doubling(cfg.base, Pow2(n - 1));
      OneMoreCap(n, cfg.maxBackoff);
    }
  }

  lemma Doubling(base: int, p: int)
    ensures base * (p - 1) + base * p == base * (2 * p - 1)
  {}

  lemma OneMoreCap(n: int, cap: int)
    ensures (n - 1) * cap + cap == n * cap
  {}
}
