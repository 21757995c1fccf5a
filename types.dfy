/** Machine integer ranges, the server state and instance identifiers shared by the whole model. */
module Types {

  /** Rust `u32`. */
  type u32 = x: int | 0 <= x <= 0xFFFF_FFFF
  const U32_MAX: u32 := 0xFFFF_FFFF

  /** Rust `u64`. */
  type u64 = x: int | 0 <= x <= 0xFFFF_FFFF_FFFF_FFFF

  /** Rust `i64`, the type of a creation timestamp. */
  type i64 = x: int | -0x8000_0000_0000_0000 <= x <= 0x7FFF_FFFF_FFFF_FFFF

  /** The lifecycle state of a server process (`t_server::State`). */
  datatype ServerState = Stopped | Starting | Running | Stopping

  /**
   * An instance identifier. Its string form (`as_ref`) is a fixed prefix followed by a
   * generated body; `no_prefix` yields the body alone.
   */
  datatype InstanceUuid = InstanceUuid(prefix: string, body: string)

  function AsRef(u: InstanceUuid): (s: string)
    ensures |s| == |u.prefix| + |u.body| && s[|u.prefix|..] == u.body
  {
    u.prefix + u.body
  }

  function NoPrefix(u: InstanceUuid): (body: string)
  {
    u.body
  }

  /** A generated identifier: its body is long enough to take its first eight characters. */
  predicate Generated(u: InstanceUuid)
  {
    |u.body| >= 8
  }

  /** Paths are strings; `join` puts a separator between the two parts. */
  function Join(dir: string, entry: string): (p: string)
    ensures |p| == |dir| + 1 + |entry| && p[..|dir|] == dir && p[|dir| + 1..] == entry
  {
    dir + "/" + entry
  }
}

/** The shared, lock-guarded lifecycle state of one server (`Arc<Mutex<State>>`). */
module Cells {
  import opened Types

  class StateCell {
    var value: ServerState

    constructor (initial: ServerState)
      ensures value == initial
    {
      value := initial;
    }
  }
}
