/** An optional value, used where the source answers "not found" (std::string::npos). */
module Wrappers {

  datatype Option<+T> = None | Some(value: T)
}
