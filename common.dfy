/** Shared vocabulary of the bootstrap and allocator model: the optional
    value used for nullable handles and pointers, SQLite's result codes,
    and the 64-bit integer range of `sqlite3_int64`. */
module Common {

  /** A value that may be absent: a nil pointer or handle is `None`. */
  datatype Option<+T> = None | Some(value: T)

  /** An opaque pointer-sized value (a buffer or a callback); 0 is nil. */
  type Ptr = nat

  const Null: Ptr := 0

  /** Result codes returned by the entry points. */
  const OK: int := 0
  const ERROR: int := 1
  const NOMEM: int := 7
  const MISUSE: int := 21

  /** The range of `sqlite3_int64`. */
  type Int64 = x: int | -0x8000_0000_0000_0000 <= x < 0x8000_0000_0000_0000

  function Max(a: int, b: int): int { if a < b then b else a }

  function Min(a: int, b: int): int { if a < b then a else b }
}
