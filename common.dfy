/** Small shared definitions: an optional value and Kotlin's largest Int. */
module Common {

  /** A value that may be absent (a Kotlin nullable). */
  datatype Option<+T> = None | Some(value: T)

  /** Kotlin's Int.MAX_VALUE, the default for every "unbounded" count of the picker. */
  const IntMaxValue: int := 0x7fff_ffff
}
