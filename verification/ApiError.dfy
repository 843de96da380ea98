/** The platform's one error representation (pkg/apierror/apierror.go) and Go's error chains around it. */
module ApiError {
  import opened Options

  datatype Category =
    | CatValidation | CatAuthentication | CatAuthorization | CatNotFound | CatConflict | CatBusinessRule
    | CatRateLimit | CatGateway | CatTimeout | CatInfrastructure | CatInternal

  /** The codes the consumer routes on; every other code is `OtherCode`. */
  datatype Code =
    | DependencyFailure | InternalError | InvalidStateTransition | PaymentAlreadyProcessed | ValidationFailed
    | OtherCode(number: nat)

  /**
   * An error value. `Sentinel` is a bare errors.New value compared by identity; `Plain` is any other
   * error, with everything it wraps, in order; `Platform` is an *apierror.Error with its cause.
   */
  datatype Err =
    | Sentinel(name: string)
    | Plain(wraps: Chain)
    | Platform(code: Code, category: Category, retryable: bool, cause: Option<Err>)

  datatype Chain = Nothing | Wrapping(first: Err, rest: Chain)

  /** errors.As to *apierror.Error: the first platform error of the tree, searched depth first. */
  function As(e: Err): (r: Option<Err>)
    ensures r.Some? ==> r.value.Platform?
  {
    match e
    case Sentinel(_) => None
    case Plain(wraps) => AsAny(wraps)
    case Platform(_, _, _, _) => Some(e)
  }

  function AsAny(es: Chain): (r: Option<Err>)
    ensures r.Some? ==> r.value.Platform?
  {
    if es.Nothing? then None else
    var found := As(es.first);
    if found.Some? then found else AsAny(es.rest)
  }

  /** errors.Is against a sentinel: it is the value itself, or something it wraps is. */
  predicate Is(e: Err, name: string) {
    match e
    case Sentinel(n) => n == name
    case Plain(wraps) => IsAny(wraps, name)
    case Platform(_, _, _, cause) => cause.Some? && Is(cause.value, name)
  }

  predicate IsAny(es: Chain, name: string) {
    es.Wrapping? && (Is(es.first, name) || IsAny(es.rest, name))
  }

  predicate IsRetryable(e: Err) {
    As(e).Some? && As(e).value.retryable
  }

  function CodeOf(e: Err): Code {
    if As(e).Some? then As(e).value.code else InternalError
  }

  function CategoryOf(e: Err): Category {
    if As(e).Some? then As(e).value.category else CatInternal
  }

  function CategoryFor(c: Code): Category {
    match c
    case DependencyFailure => CatInfrastructure
    case InvalidStateTransition => CatConflict
    case PaymentAlreadyProcessed => CatBusinessRule
    case ValidationFailed => CatValidation
    case _ => CatInternal
  }

  /** New derives category and retryability from the registry. */
  function New(c: Code): Err {
    Platform(c, CategoryFor(c), c == DependencyFailure, None)
  }

  /** Wrap keeps the classification of a platform error that is only being re-wrapped as internal. */
  function Wrap(cause: Err, c: Code): Err {
    var existing := As(cause);
    if existing.Some? && c == InternalError then existing.value.(cause := Some(cause))
    else New(c).(cause := Some(cause))
  }

  function Rewrap(e: Err, n: nat): Err {
    if n == 0 then e else Wrap(Rewrap(e, n - 1), InternalError)
  }

  /** Any number of re-wraps as INTERNAL_ERROR changes nothing a caller can branch on, platform error or not. */
  lemma {:induction false} RewrapPreserves(e: Err, n: nat)
    ensures CodeOf(Rewrap(e, n)) == CodeOf(e)
    ensures CategoryOf(Rewrap(e, n)) == CategoryOf(e)
    ensures IsRetryable(Rewrap(e, n)) == IsRetryable(e)
  {
    if n > 0 {
      RewrapPreserves(e, n - 1);
    }
  }
}
