/** An optional value: used for lookups that may miss and steps that may raise. */
module Optional {

  datatype Option<+T> = None | Some(value: T)

}
