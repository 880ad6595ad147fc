/**
  Go error values, as far as the server looks at them: the identity that
  `==` on an interface value compares, the text `Error()` returns, and the
  one error that `Unwrap()` returns for an error made with `fmt.Errorf("...%w", e)`.
 */
module Errors {

  /** The identity of an error value; two distinct error values have distinct identities. */
  type ErrorId = nat

  datatype Error =
    | Leaf(id: ErrorId, text: string)
    | Wrapped(id: ErrorId, text: string, inner: Error)

  const CanceledId: ErrorId := 1
  const DeadlineExceededId: ErrorId := 2
  const TxDoneId: ErrorId := 3
  const ServerClosedId: ErrorId := 4

  /** `context.Canceled` */
  const Canceled: Error := Leaf(CanceledId, "context canceled")
  /** `context.DeadlineExceeded` */
  const DeadlineExceeded: Error := Leaf(DeadlineExceededId, "context deadline exceeded")
  /** `sql.ErrTxDone` */
  const TxDone: Error := Leaf(TxDoneId, "sql: transaction has already been committed or rolled back")
  /** `http.ErrServerClosed` */
  const ServerClosed: Error := Leaf(ServerClosedId, "http: Server closed")

  /** `fmt.Errorf(prefix + "%w", inner)`: a new error value whose text ends with the inner text. */
  function Errorf(id: ErrorId, prefix: string, inner: Error): (e: Error)
    ensures e.Wrapped? && e.inner == inner && e.id == id
    ensures e.text == prefix + inner.text
  {
    Wrapped(id, prefix + inner.text, inner)
  }

  /** The identities met by repeatedly calling `Unwrap()`, starting with the error itself. */
  function Chain(e: Error): (c: seq<ErrorId>)
    ensures |c| >= 1 && c[0] == e.id
  {
    match e
    case Leaf(id, _) => [id]
    case Wrapped(id, _, inner) => [id] + Chain(inner)
  }

  /** `errors.Is(e, target)`: the error or one it wraps is the target value. */
  predicate Is(e: Error, target: Error)
  {
    e.id == target.id || (e.Wrapped? && Is(e.inner, target))
  }

  /** `errors.Is` matches exactly the identities on the unwrap chain. */
  lemma {:induction false} IsMeansOnChain(e: Error, target: Error)
    ensures Is(e, target) <==> target.id in Chain(e)
  {
    match e
    case Leaf(_, _) =>
    case Wrapped(id, _, inner) =>
      IsMeansOnChain(inner, target);
      assert Chain(e) == [id] + Chain(inner);
  }

  /** Wrapping with `%w` keeps every match of the wrapped error and adds only the new identity. */
  lemma {:induction false} IsThroughErrorf(id: ErrorId, prefix: string, inner: Error, target: Error)
    ensures Is(Errorf(id, prefix, inner), target) <==> (id == target.id || Is(inner, target))
  {
  }
}
