/** Optional values and success/failure outcomes shared by the plan and auth models. */
module Results {

  /** A value that may be absent: TypeScript's `T | undefined` / `T | null`. */
  datatype Option<+T> = None | Some(value: T)

  /** Either the value an operation produced or the reason it was refused. */
  datatype Result<+R, +E> = Success(value: R) | Failure(error: E)
}
