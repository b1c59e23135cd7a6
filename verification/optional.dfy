/** A value that a lookup or a search over steps may or may not produce. */
module Optional {

  datatype Maybe<T> = Absent | Present(value: T)

  /** The present value, falling back to `fallback` when there is none. */
  function ValueOr<T>(m: Maybe<T>, fallback: T): (r: T)
    ensures m.Present? ==> r == m.value
    ensures m.Absent? ==> r == fallback
  {
    if m.Present? then m.value else fallback
  }
}
