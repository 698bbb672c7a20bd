/** `trySafe`: runs a callback and turns what it does (return a value, return
    null/undefined, throw, or hand back a promise that fulfils or rejects)
    into an `[error, data]` pair in which exactly one slot is non-null. */
module TrySafe {
  import opened Wrappers

  /** A JavaScript value as far as `trySafe` inspects it. */
  datatype JsValue<+T> = Null | Undefined | Defined(value: T)

  /** What was thrown: an `Error` instance, or any other value, which is kept
      as its `String(value)` rendering because that is all `trySafe` uses of it
      (a value whose rendering throws is not modelled). */
  datatype Thrown = ThrownError(error: Error) | ThrownOther(rendered: string)

  /** How a computation ended: it produced a value, or it threw. */
  datatype Completion<+T> = Returned(value: JsValue<T>) | Threw(thrown: Thrown)

  /** What calling `fn()` did: it completed on its own (returned a non-promise
      value or threw synchronously), or it returned a `Promise` that later
      settled (fulfilled with a value, or rejected). */
  datatype Invocation<+T> = Direct(completion: Completion<T>) | Promised(completion: Completion<T>)

  /** The `[error, data]` tuple; `None` stands for `null`. */
  datatype Pair<+T> = Pair(error: Option<Error>, data: Option<T>)

  /** What `trySafe` hands back: the pair itself, or a promise of it. The
      promise rejects only when rendering a thrown value throws, which is
      not modelled here. */
  datatype Delivery<+T> = Now(pair: Pair<T>) | Later(pair: Pair<T>)

  const NullResultMessage: string := "Operation returned null or undefined"
  const UnexpectedPrefix: string := "Unexpected error: "

  /** The `Result` type's invariant: exactly one of the two slots is non-null. */
  predicate OneSlot<T>(p: Pair<T>) {
    p.error.Some? != p.data.Some?
  }

  /** `handleError`: an `Error` instance is passed through unchanged; any other
      thrown value is wrapped in a new `Error` whose message names it. */
  function HandleError<T>(thrown: Thrown): (p: Pair<T>)
    ensures OneSlot(p) && p.data.None?
    ensures thrown.ThrownError? ==> p.error == Some(thrown.error)
    ensures thrown.ThrownOther? ==>
              p.error.Some? && p.error.value.message == UnexpectedPrefix + thrown.rendered
  {
    match thrown
    case ThrownError(e) => Pair(Some(e), None)
    case ThrownOther(s) => Pair(Some(Error(UnexpectedPrefix + s)), None)
  }

  /** `handleSuccess`: a defined value is data; `null` and `undefined` become an error. */
  function HandleSuccess<T>(v: JsValue<T>): (p: Pair<T>)
    ensures OneSlot(p)
    ensures p.data.Some? <==> v.Defined?
    ensures v.Defined? ==> p == Pair(None, Some(v.value))
    ensures !v.Defined? ==> p.error == Some(Error(NullResultMessage))
  {
    match v
    case Defined(x) => Pair(None, Some(x))
    case _ => Pair(Some(Error(NullResultMessage)), None)
  }

  /** Both handlers together: the pair a completion is mapped to. */
  function Settle<T>(c: Completion<T>): (p: Pair<T>)
    ensures OneSlot(p)
    ensures p.data.Some? <==> c.Returned? && c.value.Defined?
  {
    match c
    case Returned(v) => HandleSuccess(v)
    case Threw(t) => HandleError(t)
  }

  /** `trySafe(fn)`: a synchronous outcome is answered at once, a promise with
      a promise; in both cases the pair is the one its completion settles to. */
  function TrySafe<T>(call: Invocation<T>): (d: Delivery<T>)
    ensures d.Now? <==> call.Direct?
    ensures d.pair == Settle(call.completion)
    ensures OneSlot(d.pair)
  {
    match call
    case Direct(c) => Now(Settle(c))
    case Promised(c) => Later(Settle(c))
  }

  /** A callback that yields a defined value succeeds with exactly that value,
      and only such a callback succeeds. */
  lemma SuccessIffDefined<T>(call: Invocation<T>)
    ensures TrySafe(call).pair.error.None? <==>
              call.completion.Returned? && call.completion.value.Defined?
    ensures TrySafe(call).pair.error.None? ==>
              TrySafe(call).pair.data == Some(call.completion.value.value)
  {
  }

  /** A null or undefined result is never reported as a success. */
  lemma NullIsNeverSuccess<T>(call: Invocation<T>)
    requires call.completion == Returned(Null) || call.completion == Returned(Undefined)
    ensures TrySafe(call).pair == Pair(Some(Error(NullResultMessage)), None)
  {
  }

  /** A rejected promise is reported exactly like a synchronous throw of the
      same value, only later. */
  lemma RejectionMatchesThrow<T>(thrown: Thrown)
    ensures TrySafe<T>(Promised(Threw(thrown))) == Later(TrySafe<T>(Direct(Threw(thrown))).pair)
  {
  }
}
