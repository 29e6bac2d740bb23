/** Optional values and results that carry an error message, used wherever
    the source returns `null` or throws an `Error`. */
module Wrappers {

  datatype Option<+T> = None | Some(value: T)
  {
    function GetOr(default: T): T
    {
      if Some? then value else default
    }
  }

  /** `Err(mensagem)` stands for a thrown `Error` whose message is `mensagem`. */
  datatype Result<+T> = Ok(value: T) | Err(mensagem: string)
}
