/** The load shedder: a latency test and an in-flight cap kept by increment-then-roll-back. */
module Shedders {

  datatype Config = Config(maxQueueLatency: int, maxInFlight: int) {
    predicate Validate() {
      maxQueueLatency >= 0 && maxInFlight >= 0
    }

    predicate TooLate(queuedFor: int) {
      maxQueueLatency > 0 && queuedFor >= maxQueueLatency
    }
  }

  /** One caller at a time: the counters as Admit and the release function leave them. */
  class Shedder {
    const cfg: Config
    var inFlight: int
    var shed: nat
    var admitted: nat

    constructor (cfg: Config)
      requires cfg.Validate()
      ensures this.cfg == cfg && inFlight == 0 && shed == 0 && admitted == 0
    {
      this.cfg := cfg;
      inFlight, shed, admitted := 0, 0, 0;
    }

    /** `New`: null when the configuration is rejected. */
    static method New(cfg: Config) returns (s: Shedder?)
      ensures s == null <==> cfg.maxQueueLatency < 0 || cfg.maxInFlight < 0
      ensures s != null ==> fresh(s) && s.cfg == cfg && s.inFlight == 0 && s.shed == 0 && s.admitted == 0
    {
      if !cfg.Validate() {
        return null;
      }
      s := new Shedder(cfg);
    }

    /** Refuses a request that has waited MaxQueueLatency or longer, or finds no slot free; zero
        turns either test off. */
    method Admit(queuedFor: int) returns (ok: bool)
      modifies this
      ensures ok <==>
                && (cfg.maxQueueLatency > 0 ==> queuedFor < cfg.maxQueueLatency)
                && (cfg.maxInFlight > 0 ==> old(inFlight) < cfg.maxInFlight)
      ensures inFlight == old(inFlight) + if ok && cfg.maxInFlight > 0 then 1 else 0
      ensures admitted == old(admitted) + if ok then 1 else 0
      ensures shed == old(shed) + if ok then 0 else 1
    {
      if cfg.maxQueueLatency > 0 && queuedFor >= cfg.maxQueueLatency {
        shed := shed + 1;
        return false;
      }
      if cfg.maxInFlight > 0 {
        inFlight := inFlight + 1;
        if inFlight > cfg.maxInFlight {
          inFlight := inFlight - 1;
          shed := shed + 1;
          return false;
        }
      }
      admitted := admitted + 1;
      return true;
    }

    method Release()
      modifies this`inFlight
      ensures inFlight == old(inFlight) - if cfg.maxInFlight > 0 then 1 else 0
    {
      if cfg.maxInFlight > 0 {
        inFlight := inFlight - 1;
      }
    }
  }

  // ----- all interleavings of the atomic operations -----

  /** Where a goroutine stands between two atomic operations. */
  datatype Thread =
    | Outside       // not in Admit and holding nothing
    | Admitting     // took a slot, has not counted itself yet
    | Admitted      // counted, has not returned from Admit
    | Holding       // returned with the release function, which it has not called
    | RollingBack   // found the cap exceeded, has not given the slot back
    | Shedding      // holds no slot, has not counted the rejection
    | Refused       // counted, has not returned from Admit

  /** `entered` and `completed` are the calls of Admit that have begun and returned. */
  datatype State = State(inFlight: int, shed: nat, admitted: nat, entered: nat, completed: nat, threads: seq<Thread>)

  datatype Step =
    | Spawn
    | Enter(i: nat, queuedFor: int)   // latency test, then inFlight.Add(1) unless too late
    | RollBack(i: nat)                // inFlight.Add(-1)
    | CountShed(i: nat)               // shed.Add(1)
    | CountAdmitted(i: nat)           // admitted.Add(1)
    | Return(i: nat)
    | Release(i: nat)                 // inFlight.Add(-1)

  const START := State(0, 0, 0, 0, 0, [])

  function At(s: State, i: nat): Thread {
    if i < |s.threads| then s.threads[i] else Outside
  }

  function Move(s: State, i: nat, t: Thread): State
    requires i < |s.threads|
  {
    s.(threads := s.threads[i := t])
  }

  /** The result of the increment in Enter is compared with the cap in the same operation. */
  function Next(cfg: Config, s: State, step: Step): State {
    match step
    case Spawn => s.(threads := s.threads + [Outside])
    case Enter(i, queuedFor) =>
      if i >= |s.threads| || !s.threads[i].Outside? then s
      else
        var t := s.(entered := s.entered + 1);
        if cfg.TooLate(queuedFor) then Move(t, i, Shedding)
        else if cfg.maxInFlight <= 0 then Move(t, i, Admitting)
        else Move(t.(inFlight := s.inFlight + 1), i, if s.inFlight + 1 > cfg.maxInFlight then RollingBack else Admitting)
    case RollBack(i) =>
      if At(s, i).RollingBack? then Move(s.(inFlight := s.inFlight - 1), i, Shedding) else s
    case CountShed(i) =>
      if At(s, i).Shedding? then Move(s.(shed := s.shed + 1), i, Refused) else s
    case CountAdmitted(i) =>
      if At(s, i).Admitting? then Move(s.(admitted := s.admitted + 1), i, Admitted) else s
    case Return(i) =>
      if At(s, i).Admitted? || At(s, i).Refused? then
        Move(s.(completed := s.completed + 1), i, if At(s, i).Admitted? then Holding else Outside)
      else s
    case Release(i) =>
      if At(s, i).Holding? then
        Move(if cfg.maxInFlight > 0 then s.(inFlight := s.inFlight - 1) else s, i, Outside)
      else s
  }

  function Run(cfg: Config, steps: seq<Step>): State {
    if steps == [] then START else Next(cfg, Run(cfg, steps[..|steps| - 1]), steps[|steps| - 1])
  }

  function Count(threads: seq<Thread>, kinds: set<Thread>): nat {
    if threads == [] then 0
    else Count(threads[..|threads| - 1], kinds) + if threads[|threads| - 1] in kinds then 1 else 0
  }

  /** Slots that belong to admitted requests. */
  function Holders(threads: seq<Thread>): nat {
    Count(threads, {Admitting, Admitted, Holding})
  }

  function Rollbacks(threads: seq<Thread>): nat {
    Count(threads, {RollingBack})
  }

  /** Callers that have been counted and have not returned. */
  function Returning(threads: seq<Thread>): nat {
    Count(threads, {Admitted, Refused})
  }

  /** Callers inside Admit that have not been counted. */
  function Undecided(threads: seq<Thread>): nat {
    Count(threads, {Admitting, RollingBack, Shedding})
  }

  lemma {:induction false} CountUpdate(threads: seq<Thread>, kinds: set<Thread>, i: nat, t: Thread)
    requires i < |threads|
    ensures Count(threads[i := t], kinds)
         == Count(threads, kinds) + (if t in kinds then 1 else 0) - (if threads[i] in kinds then 1 else 0)
  {
    var n := |threads| - 1;
    if i == n {
      assert threads[i := t][..n] == threads[..n];
    } else {
      CountUpdate(threads[..n], kinds, i, t);
      assert threads[i := t][..n] == threads[..n][i := t];
    }
  }

  ghost predicate Inv(cfg: Config, s: State) {
    && (cfg.maxInFlight > 0 ==>
          s.inFlight == Holders(s.threads) + Rollbacks(s.threads) && Holders(s.threads) <= cfg.maxInFlight)
    && s.admitted + s.shed == s.completed + Returning(s.threads)
    && s.entered == s.admitted + s.shed + Undecided(s.threads)
  }

  /** One caller moves; what it was and what it becomes settles the counts. */
  lemma MoveCounts(threads: seq<Thread>, i: nat, t: Thread)
    requires i < |threads|
    ensures var after, was := threads[i := t], threads[i];
            && Holders(after) == Holders(threads) + (if t in {Admitting, Admitted, Holding} then 1 else 0)
                                                  - (if was in {Admitting, Admitted, Holding} then 1 else 0)
            && Rollbacks(after) == Rollbacks(threads) + (if t.RollingBack? then 1 else 0) - (if was.RollingBack? then 1 else 0)
            && Returning(after) == Returning(threads) + (if t in {Admitted, Refused} then 1 else 0)
                                                      - (if was in {Admitted, Refused} then 1 else 0)
            && Undecided(after) == Undecided(threads) + (if t in {Admitting, RollingBack, Shedding} then 1 else 0)
                                                      - (if was in {Admitting, RollingBack, Shedding} then 1 else 0)
  {
    CountUpdate(threads, {Admitting, Admitted, Holding}, i, t);
    CountUpdate(threads, {RollingBack}, i, t);
    CountUpdate(threads, {Admitted, Refused}, i, t);
    CountUpdate(threads, {Admitting, RollingBack, Shedding}, i, t);
  }

  lemma SpawnKeepsInv(cfg: Config, s: State)
    requires Inv(cfg, s)
    ensures Inv(cfg, Next(cfg, s, Spawn))
  {
    assert (s.threads + [Outside])[..|s.threads|] == s.threads;
  }

  lemma NextKeepsInv(cfg: Config, s: State, step: Step)
    requires Inv(cfg, s)
    ensures Inv(cfg, Next(cfg, s, step))
  {
    var s' := Next(cfg, s, step);
    if step.Spawn? {
      SpawnKeepsInv(cfg, s);
    } else if s' != s {
      hide Holders, Rollbacks, Returning, Undecided;
      MoveCounts(s.threads, step.i, s'.threads[step.i]);
    }
  }

  lemma {:induction false} RunKeepsInv(cfg: Config, steps: seq<Step>)
    ensures Inv(cfg, Run(cfg, steps))
  {
    if steps != [] {
      RunKeepsInv(cfg, steps[..|steps| - 1]);
      NextKeepsInv(cfg, Run(cfg, steps[..|steps| - 1]), steps[|steps| - 1]);
    }
  }

  /** In every reachable state inFlight is the holders plus the pending rollbacks, and the holders
      stay within the cap. */
  lemma ConcurrencyCap(cfg: Config, steps: seq<Step>)
    requires cfg.maxInFlight > 0
    ensures var s := Run(cfg, steps);
            && s.inFlight == Holders(s.threads) + Rollbacks(s.threads)
            && Holders(s.threads) <= cfg.maxInFlight
  {
    RunKeepsInv(cfg, steps);
  }

  /** With or without a cap, every call of Admit is counted once, before it returns: as many are
      counted as have returned or are about to, and as many have begun as are counted or undecided. */
  lemma CountedOnce(cfg: Config, steps: seq<Step>)
    ensures var s := Run(cfg, steps);
            && s.admitted + s.shed == s.completed + Returning(s.threads)
            && s.entered == s.admitted + s.shed + Undecided(s.threads)
  {
    RunKeepsInv(cfg, steps);
  }

  /** Exactly when a caller gets in.  A free slot is refused only while some other caller's rollback
      is still pending. */
  lemma AdmittedIff(cfg: Config, steps: seq<Step>, i: nat, queuedFor: int)
    requires i < |Run(cfg, steps).threads| && Run(cfg, steps).threads[i].Outside?
    ensures var s, s' := Run(cfg, steps), Next(cfg, Run(cfg, steps), Enter(i, queuedFor));
            && (s'.threads[i].Admitting? <==>
                  && (cfg.maxQueueLatency > 0 ==> queuedFor < cfg.maxQueueLatency)
                  && (cfg.maxInFlight > 0 ==> Holders(s.threads) + Rollbacks(s.threads) < cfg.maxInFlight))
            && (s'.threads[i].RollingBack? || s'.threads[i].Shedding? || s'.threads[i].Admitting?)
  {
    hide Holders, Rollbacks;
    if cfg.maxInFlight > 0 {
      ConcurrencyCap(cfg, steps);
    }
  }

  /** What a caller does when nobody interferes. */
  function Alone(cfg: Config, s: State, i: nat, queuedFor: int): State {
    var decided := Next(cfg, Next(cfg, s, Enter(i, queuedFor)), RollBack(i));
    var counted := Next(cfg, Next(cfg, decided, CountShed(i)), CountAdmitted(i));
    Next(cfg, counted, Return(i))
  }

  /** Alone, a caller's own operations are one call of Admit: they reach its end with its answer, its
      counters and no trace in anyone else's state. */
  lemma AloneIsAdmit(cfg: Config, s: State, i: nat, queuedFor: int)
    requires i < |s.threads| && s.threads[i].Outside?
    ensures var ok := && (cfg.maxQueueLatency > 0 ==> queuedFor < cfg.maxQueueLatency)
                      && (cfg.maxInFlight > 0 ==> s.inFlight < cfg.maxInFlight);
            Alone(cfg, s, i, queuedFor) == State(
              s.inFlight + (if ok && cfg.maxInFlight > 0 then 1 else 0),
              s.shed + (if ok then 0 else 1), s.admitted + (if ok then 1 else 0),
              s.entered + 1, s.completed + 1, s.threads[i := if ok then Holding else Outside])
  {
    var s1 := Next(cfg, s, Enter(i, queuedFor));
    var s2 := Next(cfg, s1, RollBack(i));
    var s3 := Next(cfg, s2, CountShed(i));
    var s4 := Next(cfg, s3, CountAdmitted(i));
    assert s1.threads == s.threads[i := s1.threads[i]];
    assert s4.threads == s.threads[i := s4.threads[i]];
  }
}
