/** The optional values of the model: a TypeScript field typed `T | undefined`
    becomes an `Option<T>`, with `None` standing for `undefined`. */
module Wrappers {

  datatype Option<+T> = None | Some(value: T)
}
