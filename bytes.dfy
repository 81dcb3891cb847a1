/** Raw bytes, shared by the filesystem model and the hasher. */
module Bytes {
  type byte = bv8
}
