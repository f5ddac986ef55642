/**
 * Values shared by every collection: optional values (a request field that
 * may be absent, a lookup that may miss) and points in time.
 */
module Wrappers {

  /** A point in time (a Date), only ever stored or compared. */
  type Instant = int

  datatype Option<+T> = None | Some(value: T)
}
