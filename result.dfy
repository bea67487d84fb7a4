/**
 * The outcome type of common/result.kt: a call either succeeded with a value
 * or failed with the four parts of a W3C error body.
 */
module DriverResult {
  import opened Options
  import opened Json

  /** What `orThrow` does: return the value, or throw WebDriverException(message). */
  datatype Completion<T> = Returns(value: T) | Throws(message: string)

  datatype WebDriverResult<T> =
    | Success(value: T)
    | Error(error: string, message: string, stacktrace: string, data: Option<Json>)
  {
    /** `getOrNull`: the value of a Success, null for an Error. */
    function GetOrNull(): (r: Option<T>)
      ensures r.Some? <==> Success?
      ensures Success? ==> r.value == value
    {
      match this
      case Success(v) => Some(v)
      case Error(_, _, _, _) => None
    }

    /** `errorOrNull`: the Error itself, null for a Success. */
    function ErrorOrNull(): (r: Option<WebDriverResult<T>>)
      ensures r.Some? <==> Error?
      ensures r.Some? ==> r.value == this
    {
      if Error? then Some(this) else None
    }

    predicate IsSuccess() { Success? }

    predicate IsError() { Error? }

    /** `orThrow`: the value of a Success; an Error throws with message "<error> : <message>". */
    function OrThrow(): (r: Completion<T>)
      ensures r.Returns? <==> Success?
      ensures Success? ==> r.value == value
      ensures Error? ==> r.message == error + " : " + message
    {
      match this
      case Success(v) => Returns(v)
      case Error(e, m, _, _) => Throws(ExceptionMessage(e, m))
    }

    /** `map`: applies `fn` to a Success value; an Error is passed on with every field intact. */
    function Map<R>(fn: T -> R): (r: WebDriverResult<R>)
      ensures r.Success? <==> Success?
      ensures Success? ==> r.value == fn(value)
      ensures Error? ==> r == Error(error, message, stacktrace, data)
    {
      match this
      case Success(v) => Success(fn(v))
      case Error(e, m, s, d) => Error(e, m, s, d)
    }

    /** `fold`: `onSuccess(value)` for a Success, `onError(this)` for an Error. */
    function Fold<R>(onSuccess: T -> R, onError: WebDriverResult<T> -> R): R {
      match this
      case Success(v) => onSuccess(v)
      case Error(_, _, _, _) => onError(this)
    }
  }

  /** The message of the WebDriverException thrown by `orThrow` (result.kt line 4). */
  function ExceptionMessage(error: string, message: string): string {
    error + " : " + message
  }

  /** Exactly one of `isSuccess` and `isError` holds. */
  lemma ExactlyOneCase<T>(r: WebDriverResult<T>)
    ensures r.IsSuccess() != r.IsError()
  {
  }

  /** `getOrNull` and `errorOrNull` are complementary: exactly one of them is non-null. */
  lemma GetOrErrorComplementary<T>(r: WebDriverResult<T>)
    ensures r.GetOrNull().Some? != r.ErrorOrNull().Some?
  {
  }

  /** `getOrNull` is the fold that keeps the value and drops the error. */
  lemma GetOrNullIsFold<T>(r: WebDriverResult<T>)
    ensures r.GetOrNull() == r.Fold(v => Some(v), e => None)
  {
  }

  /** `orThrow` is the fold that returns the value or raises the error's message. */
  lemma OrThrowIsFold<T>(r: WebDriverResult<T>)
    ensures r.OrThrow() == r.Fold(v => Returns(v), (e: WebDriverResult<T>) =>
      if e.Error? then Throws(ExceptionMessage(e.error, e.message)) else Throws(""))
  {
  }

  /** `map` with the identity function is the identity. */
  lemma MapIdentity<T>(r: WebDriverResult<T>)
    ensures r.Map(x => x) == r
  {
  }

  /** `map(f)` followed by `map(g)` is `map(g ∘ f)`. */
  lemma MapComposition<T, U, V>(r: WebDriverResult<T>, f: T -> U, g: U -> V)
    ensures r.Map(f).Map(g) == r.Map(x => g(f(x)))
  {
  }

  /** The error of a mapped result is the original error, field by field. */
  lemma MapKeepsError<T, U>(r: WebDriverResult<T>, f: T -> U)
    requires r.Error?
    ensures r.Map(f).ErrorOrNull().Some?
    ensures var e := r.Map(f).ErrorOrNull().value;
      e.error == r.error && e.message == r.message && e.stacktrace == r.stacktrace && e.data == r.data
  {
  }
}
