/** A value that may be absent: a Redis miss, an optional field, a call that threw. */
module Options {

  datatype Option<+T> = None | Some(value: T)
}
