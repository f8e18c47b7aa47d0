/**
  A UI policy as the admin configuration writes it: left out, a constant, or a
  function of the request's arguments.  `RunMaybeFunction` evaluates it.
*/
module MaybeFunctions {
  import opened Wrappers

  /** `Absent` is an unset property (`undefined`), `Const` a literal value,
      `Fn` a function of the resolver's arguments. */
  datatype MaybeFunction<-A, +R> = Absent | Const(value: R) | Fn(f: A -> R)

  /**
    Evaluates a policy: a function is applied to `args` and its result is
    returned as it is, an unset policy gives `default`, and any other value
    is returned unchanged.
  */
  function RunMaybeFunction<A, R>(policy: MaybeFunction<A, R>, default: R, args: A): (r: R)
    ensures policy.Fn? ==> r == policy.f(args)
    ensures policy.Absent? ==> r == default
    ensures policy.Const? ==> r == policy.value
  {
    match policy
    case Fn(f) => f(args)
    case Absent => default
    case Const(v) => v
  }

  /** The default is consulted only when no policy is set. */
  lemma DefaultOnlyWhenAbsent<A, R>(policy: MaybeFunction<A, R>, d1: R, d2: R, args: A)
    requires !policy.Absent?
    ensures RunMaybeFunction(policy, d1, args) == RunMaybeFunction(policy, d2, args)
  {
  }

  /**
    JavaScript's `preferred ?? fallback` on two policies, where reading the
    fallback may throw: a set `preferred` wins without the fallback being
    read, and only an unset `preferred` yields the fallback, or its error.
  */
  function Coalesce<A, R, E>(preferred: MaybeFunction<A, R>, fallback: Result<MaybeFunction<A, R>, E>)
    : (p: Result<MaybeFunction<A, R>, E>)
    ensures !preferred.Absent? ==> p == Ok(preferred)
    ensures preferred.Absent? ==> p == fallback
  {
    if preferred.Absent? then fallback else Ok(preferred)
  }

  /** Evaluating `preferred ?? fallback`: a set preferred policy decides even
      when the fallback cannot be read; only an unset one lets the fallback
      policy, and then the default, be seen. */
  lemma CoalesceEvaluation<A, R, E>(preferred: MaybeFunction<A, R>, fallback: Result<MaybeFunction<A, R>, E>,
                                    default: R, args: A)
    ensures Coalesce(preferred, fallback).Ok? <==> !preferred.Absent? || fallback.Ok?
    ensures !preferred.Absent? ==>
      RunMaybeFunction(Coalesce(preferred, fallback).value, default, args) == RunMaybeFunction(preferred, default, args)
    ensures preferred.Absent? && fallback.Ok? ==>
      RunMaybeFunction(Coalesce(preferred, fallback).value, default, args)
        == RunMaybeFunction(fallback.value, default, args)
    ensures preferred.Absent? && fallback == Ok(Absent) ==>
      RunMaybeFunction(Coalesce(preferred, fallback).value, default, args) == default
  {
  }
}
