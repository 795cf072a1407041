/** Optional values, standing for the JavaScript fields that may be absent
    (`undefined`/`null`) and are resolved with the `??` operator. */
module Wrappers {

  datatype Option<+T> = None | Some(value: T) {

    /** `this ?? default`: the value when present, the default otherwise. */
    function GetOr(default: T): T {
      match this
      case Some(v) => v
      case None => default
    }
  }
}
