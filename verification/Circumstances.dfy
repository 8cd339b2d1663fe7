/** What surrounds one logical call and is not of its making. */
module Circumstances {
  import opened Wrappers
  import opened GoTime
  import opened Classify
  import opened Operations

  /** The caller's context: when its deadline is, and when it is cancelled. */
  datatype Context = Context(deadline: Option<Time>, cancelledAt: Option<Time>) {
    /** When `ctx.Done()` fires. */
    function DoneAt(): Option<Time> {
      match (deadline, cancelledAt)
      case (None, c) => c
      case (d, None) => d
      case (Some(d), Some(c)) => Some(if c < d then c else d)
    }

    /** By t the deadline has passed or the caller has cancelled. */
    ghost predicate Fired(t: Time) {
      || (deadline.Some? && deadline.value <= t)
      || (cancelledAt.Some? && cancelledAt.value <= t)
    }

    /** The first instant at or after `now` at which the timer or the context is ready. */
    function FirstReady(now: Time, timerAt: Time): (at: Time)
      ensures now <= timerAt ==> now <= at <= timerAt
    {
      var done := DoneAt();
      if done == None || timerAt <= done.value then timerAt
      else if done.value < now then now
      else done.value
    }

    function DoneErr(): Err {
      if cancelledAt.Some? && DoneAt() == cancelledAt then Err(CtxCanceled, []) else Err(CtxDeadlineExceeded, [])
    }

    /** A select that starts at `now` wakes at the first instant at which the timer is due or the
        context has fired. */
    lemma FirstReadyIsFirst(now: Time, timerAt: Time, t: Time)
      requires now <= timerAt && now <= t
      ensures FirstReady(now, timerAt) <= t <==> timerAt <= t || Fired(t)
    {}

    /** The error is the cancellation's exactly if the caller cancelled no later than the deadline. */
    lemma DoneErrSaysWhy()
      requires deadline.Some? || cancelledAt.Some?
      ensures DoneErr().kind == CtxCanceled <==>
              cancelledAt.Some? && (deadline.Some? ==> cancelledAt.value <= deadline.value)
      ensures DoneErr().kind != CtxCanceled ==> DoneErr().kind == CtxDeadlineExceeded
    {}
  }

  /** What surrounds attempt n: the jitter drawn before it, how late the goroutine is scheduled when
      its sleep ends, which channel it takes if timer and context are both ready by then, and what
      the transport would reply. */
  datatype Env = Env(draw: nat, lag: nat, contextWins: bool, reply: Reply)
}
