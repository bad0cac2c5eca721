/** What several parts share: optional values, instants, and Korean time. */
module Basics {
  datatype Option<+T> = None | Some(value: T)

  /** Milliseconds since the epoch, the grain of every natural key. */
  type Time = int

  /** The Swift expression `newer ?? older`. */
  function OrElse<T>(newer: Option<T>, older: Option<T>): Option<T> {
    if newer.Some? then newer else older
  }

  const HOUR_MS := 3_600_000
  const DAY_MS := 24 * HOUR_MS
  const KST_OFFSET_MS := 9 * HOUR_MS

  /** The KST calendar day of an instant, counted from the epoch. */
  function KstDate(at: Time): int {
    (at + KST_OFFSET_MS) / DAY_MS
  }

  function KstHour(at: Time): int {
    (at + KST_OFFSET_MS) / HOUR_MS % 24
  }

  function MaxReal(a: real, b: real): real {
    if a < b then b else a
  }
}
