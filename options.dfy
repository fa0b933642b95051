/** `T | null`: a value that may be missing (null, undefined or an absent property). */
module Options {
  datatype Option<T> = None | Some(value: T)
}
