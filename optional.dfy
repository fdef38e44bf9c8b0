/** A value that may be absent: C#'s nullable references and JavaScript's undefined. */
module Optional {

  datatype Option<+T> = None | Some(value: T)
}
