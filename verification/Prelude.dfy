/** Shared vocabulary: optional values and the exceptions the source raises. */
module Prelude {

  datatype Option<+T> = None | Some(value: T)

  /** The exception classes whose handling matters to the modelled code. */
  datatype Failure = ConfigurationError | ValidationError | AuthorizationBlocked | FileNotFound | OSFault

  /** A call that either returns a value or raises. */
  datatype Outcome<+T> = Ok(value: T) | Raised(error: Failure)

  function Lookup<K, V>(m: map<K, V>, k: K): Option<V> {
    if k in m then Some(m[k]) else None
  }
}
