/** An optional value: `None` stands for a property that is `undefined`. */
module Optional {

  datatype Option<+T> = None | Some(value: T)
}
