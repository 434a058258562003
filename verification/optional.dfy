/** A value that may be absent. The modelled Java code uses `null` for
    "absent"; `None` stands for a null reference and `Some(v)` for a
    reference to `v`. */
module Optional {

  datatype Option<+T> = None | Some(value: T)
}
