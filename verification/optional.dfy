/** A possibly-null reference to a value, as C# reference fields are. */
module Optional {
  datatype Option<T> = None | Some(value: T)
}
