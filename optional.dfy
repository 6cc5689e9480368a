/** Kotlin's nullable types: `T?` is `Option<T>`, `null` is `None`. */
module Optional {

  datatype Option<T> = None | Some(value: T)

}
