/** A value that may be absent: what the key-value store returns for a key
    that was never written (JavaScript `null`), or a field never set. */
module Optional {
  datatype Option<+T> = None | Some(value: T)
}
