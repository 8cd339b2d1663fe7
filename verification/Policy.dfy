/** Which procedures may be retried: a lookup in their descriptors, cached. */
module Policies {
  import opened Wrappers

  /** The descriptor option that the proto may carry. */
  datatype Idempotency = NoSideEffects | Idempotent | Unspecified

  /** What looking a procedure up can give: a failure, or a method with or without the option. */
  datatype Lookup = NotFound | Method(level: Option<Idempotency>)

  predicate IsIdempotent(level: Option<Idempotency>) {
    match level
    case None => false
    case Some(NoSideEffects) => true
    case Some(Idempotent) => true
    case Some(Unspecified) => false
  }

  predicate Safe(lookup: Lookup) {
    lookup.Method? && IsIdempotent(lookup.level)
  }

  /** Exactly the two declared levels are retried. */
  lemma OnlyDeclaredIsSafe(lookup: Lookup)
    ensures Safe(lookup) <==> lookup in {Method(Some(NoSideEffects)), Method(Some(Idempotent))}
  {
    match lookup {
      case NotFound =>
      case Method(None) =>
      case Method(Some(NoSideEffects)) =>
      case Method(Some(Idempotent)) =>
      case Method(Some(Unspecified)) =>
    }
  }

  /** The policy with its cache; `resolve` is the descriptor registry, which does not change. */
  class Policy {
    const resolve: string -> Lookup
    var cache: map<string, bool>

    ghost predicate Valid()
      reads this
    {
      forall p :: p in cache ==> cache[p] == Safe(resolve(p))
    }

    constructor (resolve: string -> Lookup)
      ensures Valid() && this.resolve == resolve && cache == map[]
    {
      this.resolve := resolve;
      this.cache := map[];
    }

    method Retryable(procedure: string) returns (allowed: bool)
      requires Valid()
      modifies this
      ensures Valid()
      ensures allowed == Safe(resolve(procedure))
      ensures allowed <==> resolve(procedure) in {Lookup.Method(Some(NoSideEffects)), Lookup.Method(Some(Idempotent))}
      ensures cache == old(cache)[procedure := allowed]
    {
      OnlyDeclaredIsSafe(resolve(procedure));
      if procedure in cache {
        allowed := cache[procedure];
        assert cache == cache[procedure := allowed];
        return;
      }
      var md := resolve(procedure);
      allowed := md.Method? && IsIdempotent(md.level);
      cache := cache[procedure := allowed];
    }
  }
}
