/** Datatypes shared by every model in this project. */
module Prelude {
  datatype Option<+T> = None | Some(value: T)

  /** What a store call hands back: a value, or the exception that ends the caller. */
  datatype Reply<+T> = Ok(value: T) | Raise
}
