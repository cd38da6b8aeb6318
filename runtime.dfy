/** The few Kotlin runtime notions the result type relies on: nullable values,
    a Throwable, and a call that either returns or throws. */
module Runtime {

  /** A Kotlin nullable `T?`; `None` stands for `null`. */
  datatype Option<+T> = None | Some(value: T)

  /** A Throwable, abstracted to the message it carries. */
  datatype Throwable = Throwable(message: string)

  /** What one call of a function that may throw does: it returns a value or it
      throws a Throwable. A transform `(s: S) -> V` is modelled as `S -> Outcome<V>`. */
  datatype Outcome<+V> = Returned(value: V) | Threw(thrown: Throwable)
}
