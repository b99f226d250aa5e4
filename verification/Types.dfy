/** Vocabulary shared by all modules. */
module Types {
  type Byte = b: int | 0 <= b < 256

  /** A 256-bit hash, as the value the hash pointers of the source designate. */
  type Hash = seq<Byte>

  /** The all-zero hash: parent of the first block, and upstream hash of a coinbase input. */
  const NULL_HASH: Hash :=
    [0, 0, 0, 0, 0, 0, 0, 0, 0, 0, 0, 0, 0, 0, 0, 0, 0, 0, 0, 0, 0, 0, 0, 0, 0, 0, 0, 0, 0, 0, 0, 0]

  datatype Option<+T> = None | Some(value: T)
}
