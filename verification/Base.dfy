/** Definitions shared by every module of the model. */
module Base {
  datatype Option<+T> = None | Some(value: T)

  type Byte = x: int | 0 <= x < 256

  const PATH_MAX := 4096
}
