/** Which errors count against a dependency, and which are worth another attempt. */
module Classify {
  import opened Wrappers

  /** Connect's status codes; `Unrecognised` is any other number. */
  datatype Code =
    | Canceled | Unknown | InvalidArgument | DeadlineExceeded | NotFound | AlreadyExists
    | PermissionDenied | ResourceExhausted | FailedPrecondition | Aborted | OutOfRange
    | Unimplemented | Internal | Unavailable | DataLoss | Unauthenticated
    | Unrecognised(number: nat)

  /** What one link of an error chain is: a sentinel, a Connect error, or anything else. */
  datatype Kind = BreakerOpen | CtxCanceled | CtxDeadlineExceeded | Coded(code: Code) | Other

  /** A Go error with everything it wraps.  `fmt.Errorf` wraps one cause, `errors.Join` several. */
  datatype Err = Err(kind: Kind, causes: seq<Err>)

  const ERR_BREAKER_OPEN := Err(BreakerOpen, [])

  function NewError(code: Code, cause: Err): Err {
    Err(Coded(code), [cause])
  }

  /** `errors.Is`: some link of the tree is the target. */
  predicate Is(e: Err, target: Kind) {
    e.kind == target || exists i :: 0 <= i < |e.causes| && Is(e.causes[i], target)
  }

  /** The first Connect error in depth-first order, as `errors.As` finds it. */
  function FirstCode(e: Err): Option<Code>
    decreases e, 0
  {
    if e.kind.Coded? then Some(e.kind.code) else FirstCodeOf(e.causes)
  }

  function FirstCodeOf(es: seq<Err>): Option<Code>
    decreases es, 1
  {
    if es == [] then None
    else
      var first := FirstCode(es[0]);
      if first.Some? then first else FirstCodeOf(es[1..])
  }

  /** `connect.CodeOf`: errors without a code are Unknown. */
  function CodeOf(e: Err): Code {
    var c := FirstCode(e);
    if c.Some? then c.value else Unknown
  }

  predicate CountsAsFailure(err: Option<Err>) {
    match err
    case None => false
    case Some(e) =>
      if Is(e, BreakerOpen) then false
      else if CodeOf(e) == Unknown && (Is(e, CtxCanceled) || Is(e, CtxDeadlineExceeded)) then false
      else match CodeOf(e)
        case Unavailable | DeadlineExceeded | ResourceExhausted | Internal | DataLoss | Unknown => true
        case InvalidArgument | NotFound | AlreadyExists | PermissionDenied | Unauthenticated
           | FailedPrecondition | OutOfRange | Aborted | Unimplemented => false
        case Canceled => false
        case Unrecognised(_) => true
  }

  predicate IsRetryable(err: Option<Err>) {
    match err
    case None => false
    case Some(e) =>
      if Is(e, BreakerOpen) then false
      else if Is(e, CtxCanceled) then false
      else if CodeOf(e) == Unknown && Is(e, CtxDeadlineExceeded) then false
      else match CodeOf(e)
        case Unavailable | ResourceExhausted => true
        case DeadlineExceeded => true
        case _ => false
  }

  // ----- which errors, by what is in them -----

  /** All links of an error, in depth-first order. */
  function Links(e: Err): seq<Kind>
    decreases e, 0
  {
    [e.kind] + LinksOf(e.causes)
  }

  function LinksOf(es: seq<Err>): seq<Kind>
    decreases es, 1
  {
    if es == [] then [] else Links(es[0]) + LinksOf(es[1..])
  }

  /** Link i carries this code and none before it carries any. */
  ghost predicate FirstCoded(links: seq<Kind>, i: int, code: Code) {
    0 <= i < |links| && links[i] == Coded(code) && forall j :: 0 <= j < i ==> !links[j].Coded?
  }

  ghost predicate Codeless(links: seq<Kind>) {
    forall i :: 0 <= i < |links| ==> !links[i].Coded?
  }

  /** The code that decides, if any. */
  ghost predicate Decides(links: seq<Kind>, code: Code) {
    exists i :: FirstCoded(links, i, code)
  }

  lemma {:induction false} IsLinked(e: Err, k: Kind)
    ensures Is(e, k) <==> k in Links(e)
    decreases e, 0
  {
    IsLinkedOf(e.causes, k);
  }

  lemma {:induction false} IsLinkedOf(es: seq<Err>, k: Kind)
    ensures (exists i :: 0 <= i < |es| && Is(es[i], k)) <==> k in LinksOf(es)
    decreases es, 1
  {
    if es != [] {
      IsLinked(es[0], k);
      IsLinkedOf(es[1..], k);
      if i :| 0 <= i < |es| && Is(es[i], k) {
        assert i > 0 ==> es[1..][i - 1] == es[i];
      }
    }
  }

  /** What FirstCode finds is the first code in the listing. */
  ghost predicate Found(c: Option<Code>, links: seq<Kind>) {
    if c.Some? then Decides(links, c.value) else Codeless(links)
  }

  lemma FoundFirst(c: Option<Code>, d: Option<Code>, a: seq<Kind>, b: seq<Kind>)
    requires Found(c, a) && Found(d, b)
    ensures Found(if c.Some? then c else d, a + b)
  {
    if c.Some? {
      var i :| FirstCoded(a, i, c.value);
      assert FirstCoded(a + b, i, c.value);
    } else if d.Some? {
      var i :| FirstCoded(b, i, d.value);
      assert FirstCoded(a + b, |a| + i, d.value);
    }
  }

  lemma {:induction false} FirstCodeFound(e: Err)
    ensures Found(FirstCode(e), Links(e))
    decreases e, 0
  {
    FirstCodesFound(e.causes);
    var own := if e.kind.Coded? then Some(e.kind.code) else None;
    if own.Some? {
      assert FirstCoded([e.kind], 0, e.kind.code);
    }
    FoundFirst(own, FirstCodeOf(e.causes), [e.kind], LinksOf(e.causes));
  }

  lemma {:induction false} FirstCodesFound(es: seq<Err>)
    ensures Found(FirstCodeOf(es), LinksOf(es))
    decreases es, 1
  {
    if es != [] {
      FirstCodeFound(es[0]);
      FirstCodesFound(es[1..]);
      FoundFirst(FirstCode(es[0]), FirstCodeOf(es[1..]), Links(es[0]), LinksOf(es[1..]));
    }
  }

  lemma DecidesOnce(links: seq<Kind>, c: Code, d: Code)
    requires Decides(links, c)
    ensures Decides(links, d) <==> c == d
    ensures !Codeless(links)
  {
    var i :| FirstCoded(links, i, c);
    if j :| FirstCoded(links, j, d) {
      assert i == j;
    }
  }

  /** The error is of the caller's making: a code that blames the request, or its own giving up,
      with a code or as a bare context error. */
  ghost predicate BlamesCaller(links: seq<Kind>) {
    || Decides(links, InvalidArgument) || Decides(links, NotFound) || Decides(links, AlreadyExists)
    || Decides(links, PermissionDenied) || Decides(links, Unauthenticated) || Decides(links, FailedPrecondition)
    || Decides(links, OutOfRange) || Decides(links, Aborted) || Decides(links, Unimplemented)
    || Decides(links, Canceled)
    || ((Codeless(links) || Decides(links, Unknown)) && (CtxCanceled in links || CtxDeadlineExceeded in links))
  }

  /** An error that says something about the dependency: no breaker's own rejection is in it, and it
      does not blame the caller.  Codes that Connect does not define are of this kind. */
  ghost predicate ServerFault(err: Option<Err>) {
    err.Some? && BreakerOpen !in Links(err.value) && !BlamesCaller(Links(err.value))
  }

  /** How the code that CodeOf finds shows in the listing. */
  lemma CodeDecides(e: Err, code: Code)
    ensures Decides(Links(e), code) ==> CodeOf(e) == code
    ensures CodeOf(e) == code && code != Unknown ==> Decides(Links(e), code)
    ensures CodeOf(e) == Unknown <==> Codeless(Links(e)) || Decides(Links(e), Unknown)
  {
    FirstCodeFound(e);
    var c := FirstCode(e);
    if c.Some? {
      DecidesOnce(Links(e), c.value, code);
      DecidesOnce(Links(e), c.value, Unknown);
    } else {
      assert !Decides(Links(e), code) && !Decides(Links(e), Unknown);
    }
  }

  /** Exactly the server faults count. */
  lemma CountsIffServerFault(err: Option<Err>)
    ensures CountsAsFailure(err) <==> ServerFault(err)
  {
    if err.Some? {
      var e := err.value;
      IsLinked(e, BreakerOpen);
      IsLinked(e, CtxCanceled);
      IsLinked(e, CtxDeadlineExceeded);
      hide Links, Is, CodeOf, Decides, Codeless;
      CodeDecides(e, CodeOf(e));
      forall code
        ensures Decides(Links(e), code) ==> CodeOf(e) == code
      {
        CodeDecides(e, code);
      }
    }
  }

  /** Exactly these are retried: the first code is a transient one, and neither a breaker's rejection
      nor the caller's cancellation is in the error. */
  lemma RetriedIffTransient(err: Option<Err>)
    ensures IsRetryable(err) <==>
            && err.Some? && BreakerOpen !in Links(err.value) && CtxCanceled !in Links(err.value)
            && (|| Decides(Links(err.value), Unavailable)
                || Decides(Links(err.value), ResourceExhausted)
                || Decides(Links(err.value), DeadlineExceeded))
  {
    if err.Some? {
      var e := err.value;
      IsLinked(e, BreakerOpen);
      IsLinked(e, CtxCanceled);
      CodeDecides(e, Unavailable);
      CodeDecides(e, ResourceExhausted);
      CodeDecides(e, DeadlineExceeded);
      hide Links, Is, CodeOf, Decides, Codeless;
    }
  }

  // ----- how the verdicts relate -----

  /** The classifiers agree: whatever is retried was also counted against the callee.  They differ
      exactly on server faults that a repeat cannot mend, and on transient codes caused by the
      caller's own cancellation. */
  lemma RetryableIffTransientFailure(err: Option<Err>)
    ensures IsRetryable(err) <==>
            && CountsAsFailure(err)
            && CodeOf(err.value) in {Unavailable, ResourceExhausted, DeadlineExceeded}
            && !Is(err.value, CtxCanceled)
  {
    if CountsAsFailure(err) && CodeOf(err.value) in {Unavailable, ResourceExhausted, DeadlineExceeded} {
      assert CodeOf(err.value) != Unknown;
    }
  }

  /** Nothing is learned by wrapping: both verdicts survive any number of `fmt.Errorf("%w")`. */
  lemma {:induction false} WrappingChangesNothing(e: Err, depth: nat)
    ensures CountsAsFailure(Some(Wrapped(e, depth))) == CountsAsFailure(Some(e))
    ensures IsRetryable(Some(Wrapped(e, depth))) == IsRetryable(Some(e))
  {
    if depth > 0 {
      WrappingChangesNothing(e, depth - 1);
      var inner := Wrapped(e, depth - 1);
      var outer := Wrapped(e, depth);
      assert outer.causes[0] == inner && outer.causes[1..] == [];
      assert FirstCode(outer) == FirstCodeOf(outer.causes) == FirstCode(inner);
      assert forall k :: k != Other ==> Is(outer, k) == Is(inner, k);
    }
  }

  function Wrapped(e: Err, depth: nat): Err {
    if depth == 0 then e else Err(Other, [Wrapped(e, depth - 1)])
  }

  /** Helper: a breaker's own rejection is neither counted nor retried, whatever is wrapped around it. */
  lemma RejectionIsInert(err: Option<Err>)
    requires err.Some? && Is(err.value, BreakerOpen)
    ensures !CountsAsFailure(err) && !IsRetryable(err)
  {}
}
