/** Values of the Go runtime that the client is written against: nil-able
    results, `error` values, and the `(T, error)` calling convention. */
module GoValues {

  /** A Go pointer or interface that may be nil. */
  datatype Option<T> = None | Some(value: T)

  /** A Go `error`, observed through the text its `Error()` method returns. */
  datatype Error = Error(message: string)

  /** What a call to a Go function returning `(T, error)` does: it returns
      both results, or it panics (a runtime error such as an index out of range). */
  datatype Call<T> = Returned(value: T, err: Option<Error>) | Panicked(reason: string)

  /** `t` occurs in `s` as a contiguous substring, as `strings.Contains` tests it. */
  predicate Contains(s: string, t: string) {
    exists i :: 0 <= i <= |s| && t <= s[i..]
  }
}
