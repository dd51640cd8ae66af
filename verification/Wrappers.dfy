module Wrappers {
  datatype Option<+T> = None | Some(value: T) {
    function GetOr(fallback: T): T {
      match this case Some(v) => v case None => fallback
    }
  }
}
