/** Shapes shared by every package of the model: Go's nil-able values and error results. */
module Common {

  /** A value that Go may leave nil: `None` is nil. */
  datatype Option<+T> = None | Some(value: T)

  /** A Go `error`; the model keeps its message. `Option<Error>` is the `err` result, `None` is nil. */
  type Error = string

  /** The identity of an opaque Go value the model never looks inside:
      a function value, a file watcher, a table of WebSocket procedures. */
  datatype Ref = Ref(name: string)

  /** The range of Go's `int64`, which is also `int` on a 64-bit platform. */
  const MaxInt64: int := 0x7fff_ffff_ffff_ffff
  const MinInt64: int := -0x8000_0000_0000_0000

  predicate InInt64(x: int) { MinInt64 <= x <= MaxInt64 }
}
