/** Plain data shared by the whole model. */
module Types {
  newtype Byte = i: int | 0 <= i < 256

  type Content = seq<Byte>

  datatype Option<+T> = None | Some(value: T)

  /** A SHA-1, taken to be injective; `Unknown` is the empty string, "not computed". */
  datatype Hash = Unknown | Sum(of: Content)

  /** A Proton link id. */
  type Link = string

  /** Nanoseconds; 0 is the zero time. */
  type Time = nat

  predicate SameSecond(a: Time, b: Time) {
    a != 0 && b != 0 && a / 1_000_000_000 == b / 1_000_000_000
  }
}
