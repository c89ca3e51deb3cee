/** The option type used where the source writes `T | null` or `T | undefined`. */
module Prelude {
  datatype Option<+T> = None | Some(value: T)
}
