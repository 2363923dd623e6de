/** An optional value, for the source's None / null / absent attribute. */
module Optional {
  datatype Option<T> = None | Some(value: T)
}
