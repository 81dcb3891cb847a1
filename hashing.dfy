/**
 * An incremental hasher in the style of hashlib.md5(). The hash function
 * itself is a parameter, so nothing here depends on what MD5 computes.
 */
module Hashing {
  import opened Bytes

  /** A rendered digest (hexdigest() returns a string). */
  type Digest = string

  type HashFn = seq<byte> -> Digest

  class Md5 {
    const hash: HashFn
    /** Every byte fed to the hasher so far, in order. */
    var buffer: seq<byte>

    constructor (hash: HashFn)
      ensures this.hash == hash && buffer == []
    {
      this.hash := hash;
      buffer := [];
    }

    /** md5.update(chunk): feeds more bytes. */
    method Update(chunk: seq<byte>)
      modifies this
      ensures buffer == old(buffer) + chunk
    {
      buffer := buffer + chunk;
    }

    /** md5.hexdigest(): the digest of everything fed so far. */
    function HexDigest(): Digest
      reads this
    {
      hash(buffer)
    }
  }
}
