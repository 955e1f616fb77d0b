/** Optional values. `None` stands for JavaScript's `null`, `undefined` and,
    for numbers, `NaN`. */
module Wrappers {

  datatype Option<+T> = None | Some(value: T) {

    /** The `??` operator: the wrapped value, or `default` when absent. */
    function OrElse(default: T): T {
      match this
      case Some(v) => v
      case None => default
    }
  }
}
