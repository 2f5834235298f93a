/** Optional values: `None` stands for JavaScript's `undefined`/`null` where the source distinguishes it. */
module Wrappers {
  datatype Option<T> = None | Some(value: T) {
    function GetOr(default: T): T
    {
      if Some? then value else default
    }
  }
}
