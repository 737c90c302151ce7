/**
 * `Option` carries a value or its absence: the `nil` that `create` returns for
 * an unknown type and a command table lookup that finds no key. `Result`
 * carries a value or an error: the tax whose `withdraw_tax_percent` raises.
 */
module Wrappers {

  datatype Option<+T> = None | Some(value: T) {
    /** The wrapped value, or `default` when there is none. */
    function GetOr(default: T): T {
      match this
      case Some(v) => v
      case None => default
    }
  }

  datatype Result<+T, +E> = Ok(value: T) | Err(error: E)
}
