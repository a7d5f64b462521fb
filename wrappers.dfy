/** The optional value shared by every module of the model; `None` stands for C#'s `null`. */
module Wrappers {
  datatype Option<T> = None | Some(value: T)
}
