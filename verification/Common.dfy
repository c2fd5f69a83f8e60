/** Vocabulary shared by the models: optional values, bytes, 32-bit unsigned arithmetic and chunks. */
module Common {

  datatype Option<+T> = None | Some(value: T)

  type byte = bv8

  const TWO_TO_THE_31: int := 0x8000_0000
  const TWO_TO_THE_32: int := 0x1_0000_0000
  const TWO_TO_THE_64: int := 0x1_0000_0000_0000_0000

  /** C's `int`: a value that leaves this range is undefined behaviour, so it must be proved never to. */
  type int32 = x: int | -TWO_TO_THE_31 <= x < TWO_TO_THE_31

  type uint32 = x: int | 0 <= x < TWO_TO_THE_32

  type uint64 = x: int | 0 <= x < TWO_TO_THE_64

  /** Unsigned 32-bit addition, which wraps. */
  function Add32(x: uint32, y: uint32): uint32 {
    (x + y) % TWO_TO_THE_32
  }

  /** Unsigned 64-bit addition, which wraps. */
  function Add64(x: uint64, y: uint64): uint64 {
    (x + y) % TWO_TO_THE_64
  }

  function Min(a: nat, b: nat): nat {
    if a < b then a else b
  }

  datatype HashType = SHA512 | SHA256 | HKDF | BLAKE3 | UnknownHash(tag: uint32)

  /** A chunk as the manifest describes it: where its compressed bytes lie in a bundle, and where
      its uncompressed bytes belong in a file. */
  datatype Chunk = Chunk(
    compressedSize: uint32,
    uncompressedSize: uint32,
    chunkId: uint64,
    bundleId: uint64,
    bundleOffset: uint32,
    fileOffset: uint64,
    hashType: HashType)
}
