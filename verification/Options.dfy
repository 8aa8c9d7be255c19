/** The optional value that stands for the program's nullable fields. */
module Options {
  datatype Option<+T> = None | Some(value: T)

  /** A draw of the pseudo-random source: at least 0 and below 1. */
  type Draw = r: real | 0.0 <= r < 1.0 witness 0.0
}
