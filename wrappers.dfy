/** Option and Result, the shapes every other module uses for absent values
    and for the error paths of the application. */
module Wrappers {

  datatype Option<T> = None | Some(value: T)
  {
    function GetOr(default: T): T
    {
      if Some? then value else default
    }
  }

  datatype Result<T, E> = Ok(value: T) | Err(error: E)

  /** A JSON number as the application sees it after `Number(...)`:
      either a finite value or NaN. */
  datatype Num = Finite(value: real) | NaN
  {
    /** JavaScript truthiness of a number: 0 and NaN are falsy. */
    predicate Truthy()
    {
      Finite? && value != 0.0
    }
  }

  /** JavaScript `a || b` on strings, where "" stands for every falsy value. */
  function Or(a: string, b: string): string
  {
    if a != "" then a else b
  }
}
