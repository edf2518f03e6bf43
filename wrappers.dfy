/** Optional values: the model's stand-in for `null` / `undefined`. */
module Wrappers {

  datatype Option<+T> = None | Some(value: T) {

    /** The value, or `default` when there is none. */
    function GetOr(default: T): T {
      match this
      case Some(v) => v
      case None => default
    }
  }
}

/**
 * The outcome of one insert into the hosted table store: either the row the
 * store created (with the identifier and timestamp it assigned) or a failure.
 */
module Store {

  datatype Insert = Inserted(id: string, createdAt: string) | InsertFailed
}
