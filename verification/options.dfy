/** An optional value. A React ref whose `current` is null is modelled as `None`. */
module Options {

  datatype Option<+T> = None | Some(value: T)
}
