/** A nullable pointer of the source that carries a value (not an object) becomes an Option. */
module Options {

  datatype Option<+T> = None | Some(value: T)

}
