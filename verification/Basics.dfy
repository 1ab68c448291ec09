/** What several parts of the model share. */
module Basics {

  datatype Option<+T> = None | Some(value: T) {
    function Or(default: T): T {
      if Some? then value else default
    }
  }

  newtype Byte = b: int | 0 <= b < 256
  type Bytes = seq<Byte>
}
