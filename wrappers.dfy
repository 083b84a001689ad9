/** Option and Result values shared by every module of the model. */
module Wrappers {

  /** A value that may be absent: the model's stand-in for `null` / `undefined`. */
  datatype Option<+T> = None | Some(value: T) {
    function GetOr(default: T): T {
      match this
      case Some(v) => v
      case None => default
    }
  }

  /**
   * The uniform `{ success, data?, error? }` shape the composables return:
   * `Ok` carries the data, `Err` carries the error message.
   */
  datatype Result<+T> = Ok(value: T) | Err(error: string)

  /** The text of a database error is not modelled; every such failure carries this message. */
  const DatabaseErrorMessage: string := "database error"

  /** Record identifiers; the database uses uuids, the model natural numbers. */
  type Id = nat
}
