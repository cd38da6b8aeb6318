/** The "poor man's optional" `SafeResult<S>`: a nullable value and a nullable
    Throwable side by side, with map (`sequence`), bind (`flatSequence`) and
    terminal dispatch (`endSequence`). Whether a result is a success depends on
    `data` alone, so the two odd states stay visible: `SafeResult(null, null)`
    is a failure without an error, and a present `data` wins over a present `err`. */
module SafeResults {
  import opened Runtime

  datatype SafeResult<+S> = SafeResult(data: Option<S>, err: Option<Throwable>)

  /** The only test every operation makes: `data != null`. */
  predicate IsSuccess<S>(r: SafeResult<S>) {
    r.data.Some?
  }

  /** Exactly one of `data` and `err` is present. */
  predicate Canonical<S>(r: SafeResult<S>) {
    r.data.Some? != r.err.Some?
  }

  /** No error sits unseen behind a value. */
  predicate Normal<S>(r: SafeResult<S>) {
    r.data.Some? ==> r.err.None?
  }

  /** `sequence`: a map whose transform may throw; the throw is caught and becomes the error. */
  function Sequence<S, V>(r: SafeResult<S>, transform: S -> Outcome<V>): (s: SafeResult<V>)
    ensures IsSuccess(s) <==> IsSuccess(r) && transform(r.data.value).Returned?
    ensures !IsSuccess(r) ==> s.err == r.err
    ensures IsSuccess(r) && transform(r.data.value).Threw? ==> s.err == Some(transform(r.data.value).thrown)
    ensures IsSuccess(s) ==> s.data.value == transform(r.data.value).value && s.err.None?
    ensures IsSuccess(r) || r.err.Some? ==> Canonical(s)
  {
    if r.data.None? then
      SafeResult(None, r.err)
    else
      match transform(r.data.value)
      case Returned(v) => SafeResult(Some(v), None)
      case Threw(thrown) => SafeResult(None, Some(thrown))
  }

  /** `flatSequence`: a bind. A success hands its value to the transform and
      returns what it returns, unwrapped; a failure is passed on. */
  function FlatSequence<S, V>(r: SafeResult<S>, transform: S -> SafeResult<V>): (s: SafeResult<V>)
    ensures IsSuccess(r) ==> s == transform(r.data.value)
    ensures !IsSuccess(r) ==> !IsSuccess(s) && s.err == r.err
  {
    if r.data.None? then SafeResult(None, r.err) else transform(r.data.value)
  }

  /** Which handler `endSequence` calls, with its argument. One value per call:
      exactly one handler runs. */
  datatype HandlerCall<+S> = SuccessCalled(data: S) | FailureCalled(err: Option<Throwable>)

  /** `endSequence`: terminal dispatch to the success or the failure handler. */
  function EndSequence<S>(r: SafeResult<S>): (h: HandlerCall<S>)
    ensures h.FailureCalled? <==> r.data.None?
    ensures h.SuccessCalled? <==> r.data.Some?
    ensures h.SuccessCalled? ==> h.data == r.data.value
    ensures h.FailureCalled? ==> h.err == r.err
  {
    if r.data.None? then FailureCalled(r.err) else SuccessCalled(r.data.value)
  }

  // ---------------------------------------------------------------------------
  // A clean two-variant result: the reference the poor man's version stands for.

  datatype Result<+S> = Ok(value: S) | Err(error: Option<Throwable>)

  /** What a `SafeResult` means: `data` decides, `err` only matters on failure. */
  function ToResult<S>(r: SafeResult<S>): Result<S> {
    if r.data.Some? then Ok(r.data.value) else Err(r.err)
  }

  function FromResult<S>(x: Result<S>): SafeResult<S> {
    match x
    case Ok(v) => SafeResult(Some(v), None)
    case Err(e) => SafeResult(None, e)
  }

  function MapResult<S, V>(x: Result<S>, f: S -> Outcome<V>): Result<V> {
    match x
    case Err(e) => Err(e)
    case Ok(v) =>
      match f(v)
      case Returned(w) => Ok(w)
      case Threw(t) => Err(Some(t))
  }

  function BindResult<S, V>(x: Result<S>, f: S -> Result<V>): Result<V> {
    match x
    case Err(e) => Err(e)
    case Ok(v) => f(v)
  }

  /** Every clean result is represented, and read back unchanged. */
  lemma ToFromResult<S>(x: Result<S>)
    ensures ToResult(FromResult(x)) == x
    ensures Normal(FromResult(x))
  {
  }

  /** Reading a result back through the clean type loses exactly the errors
      hidden behind a value. */
  lemma FromToResult<S>(r: SafeResult<S>)
    ensures FromResult(ToResult(r)) == r <==> Normal(r)
  {
  }

  /** A present `data` wins over a present `err`. */
  lemma DataWinsOverErr<S>(x: S, e: Throwable)
    ensures ToResult(SafeResult(Some(x), Some(e))) == Ok(x)
    ensures EndSequence(SafeResult(Some(x), Some(e))) == SuccessCalled(x)
  {
  }

  /** `SafeResult(null, null)` is a failure that carries no error. */
  lemma NullNullIsFailure<S>(r: SafeResult<S>)
    requires r.data.None? && r.err.None?
    ensures ToResult(r) == Err(None)
    ensures EndSequence(r) == FailureCalled(None)
  {
  }

  lemma SequenceIsMap<S, V>(r: SafeResult<S>, transform: S -> Outcome<V>)
    ensures ToResult(Sequence(r, transform)) == MapResult(ToResult(r), transform)
  {
  }

  lemma FlatSequenceIsBind<S, V>(r: SafeResult<S>, transform: S -> SafeResult<V>)
    ensures ToResult(FlatSequence(r, transform)) == BindResult(ToResult(r), x => ToResult(transform(x)))
  {
  }

  lemma EndSequenceFollowsResult<S>(r: SafeResult<S>)
    ensures EndSequence(r) == match ToResult(r)
                              case Ok(v) => SuccessCalled(v)
                              case Err(e) => FailureCalled(e)
  {
  }

  // ---------------------------------------------------------------------------
  // Laws of the operations themselves.

  /** On a failure the transform plays no part: `sequence` never calls it. */
  lemma SequenceIgnoresTransformOnFailure<S, V>(r: SafeResult<S>, f: S -> Outcome<V>, g: S -> Outcome<V>)
    requires !IsSuccess(r)
    ensures Sequence(r, f) == Sequence(r, g) == SafeResult(None, r.err)
  {
  }

  /** On a failure the transform plays no part: `flatSequence` never calls it. */
  lemma FlatSequenceIgnoresTransformOnFailure<S, V>(r: SafeResult<S>, f: S -> SafeResult<V>, g: S -> SafeResult<V>)
    requires !IsSuccess(r)
    ensures FlatSequence(r, f) == FlatSequence(r, g) == SafeResult(None, r.err)
  {
  }

  /** Mapping the identity normalises: it drops an error hidden behind a value. */
  lemma SequenceIdentity<S>(r: SafeResult<S>)
    ensures Sequence(r, (x: S) => Returned(x)) == FromResult(ToResult(r))
  {
  }

  /** Runs a second transform unless the first one threw. */
  function AndThen<V, W>(o: Outcome<V>, g: V -> Outcome<W>): Outcome<W> {
    match o
    case Returned(v) => g(v)
    case Threw(t) => Threw(t)
  }

  /** Two `sequence` steps are one step with the composed transform. */
  lemma SequenceComposition<S, V, W>(r: SafeResult<S>, f: S -> Outcome<V>, g: V -> Outcome<W>)
    ensures Sequence(Sequence(r, f), g) == Sequence(r, (x: S) => AndThen(f(x), g))
  {
  }

  /** The try/catch of a transform call (SafeResult.kt:10-14) as a result. */
  function Catching<V>(o: Outcome<V>): SafeResult<V> {
    match o
    case Returned(v) => SafeResult(Some(v), None)
    case Threw(t) => SafeResult(None, Some(t))
  }

  /** `sequence` is `flatSequence` of the caught transform. */
  lemma SequenceViaFlatSequence<S, V>(r: SafeResult<S>, f: S -> Outcome<V>)
    ensures Sequence(r, f) == FlatSequence(r, (x: S) => Catching(f(x)))
  {
  }

  /** Left identity, whatever error rides along with the value. */
  lemma FlatSequenceLeftIdentity<S, V>(x: S, e: Option<Throwable>, f: S -> SafeResult<V>)
    ensures FlatSequence(SafeResult(Some(x), e), f) == f(x)
  {
  }

  /** Right identity holds up to normalisation. */
  lemma FlatSequenceRightIdentity<S>(r: SafeResult<S>)
    ensures FlatSequence(r, (x: S) => SafeResult(Some(x), None)) == FromResult(ToResult(r))
  {
  }

  lemma FlatSequenceAssociative<S, V, W>(r: SafeResult<S>, f: S -> SafeResult<V>, g: V -> SafeResult<W>)
    ensures FlatSequence(FlatSequence(r, f), g) == FlatSequence(r, (x: S) => FlatSequence(f(x), g))
  {
  }
}
