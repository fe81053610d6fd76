/** Result types and function update shared by the models. */
module Wrappers {
  datatype Option<+T> = None | Some(value: T)

  /** Models `Status<T>`: a value, or an errno. */
  datatype Status<+T> = Ok(value: T) | Err(code: Errno)

  datatype Errno = ENOENT | EAGAIN | EALREADY

  /** The function that maps `k` to `v` and agrees with `f` elsewhere. */
  ghost function With<K(!new), V(!new)>(f: K -> V, k: K, v: V): K -> V {
    x => if x == k then v else f(x)
  }
}
