/** The nullable-pointer idiom of the C code: `None` stands for a null `char *`. */
module Wrappers {

  datatype Option<+T> = None | Some(value: T)

}
