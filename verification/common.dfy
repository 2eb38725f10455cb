/** Types shared by the modules of the model. */
module Common {
  datatype Option<+T> = None | Some(value: T)

  /** Identifiers that are only ever compared for equality. */
  type Uuid = int

  /** Names a channel or a thread of control. */
  type Handle = int

  /** A point in time, in milliseconds. */
  type Instant = int

  /** The next key of a map walked in an arbitrary order. */
  method AnyOf<T(==)>(keys: set<T>) returns (key: T)
    requires keys != {}
    ensures key in keys
  {
    key :| key in keys;
  }

  lemma MemberOf<T>(s: set<T>) returns (x: T)
    requires s != {}
    ensures x in s
  {
    x :| x in s;
  }
}
