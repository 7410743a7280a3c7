/** Small value wrappers shared by every store of the model. */
module Wrappers {

  /** A value that may be absent: JavaScript's `undefined`/`null` against a value. */
  datatype Option<+T> = None | Some(value: T) {
    function GetOr(default: T): T {
      match this
      case Some(v) => v
      case None => default
    }
  }

  /** What a browser storage cell holds when a store reads it back: nothing under the
      key, text that does not parse as what the store expects, or a parsed value. */
  datatype Slot<+T> = Absent | Malformed | Present(value: T) {
    /** What a store reads with a fallback: the parsed value, or the fallback when the
        cell is empty or does not parse. */
    function GetOr(fallback: T): T {
      match this
      case Present(v) => v
      case _ => fallback
    }
  }

  /** One key of a `Partial<...>` patch object: the key is missing from the patch
      (`Keep`), or present with a value that the spread `{...x, ...patch}` copies over,
      even when that value is `undefined` (`Put(None)` for an optional field). */
  datatype Field<+T> = Keep | Put(value: T) {
    function Over(current: T): T {
      match this
      case Keep => current
      case Put(v) => v
    }
  }

  /** What a store does with a new value, in the order it does it: hand it to the
      subscribers of its stream, or write it to browser storage. */
  datatype Effect<+T> = Published(value: T) | Stored(value: T)
}
