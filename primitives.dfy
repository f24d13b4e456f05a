/** Values and collaborators the scanning core treats as opaque: keys, outputs, notes, hashes,
    and the batched trial-decryption primitive. */
module Primitives {

  datatype Option<+T> = None | Some(value: T)

  /** The caller-supplied tag of an incoming viewing key (an account identifier, say). */
  type KeyTag
  /** A (prepared) incoming viewing key. */
  type Ivk(!new)
  /** One per-output instance of the note-encryption domain. */
  type Domain(!new)
  /** A shielded output with a compact ciphertext. */
  type CompactOutput(!new)
  type Note
  type Recipient
  type BlockHash(==)
  type TxId(==)

  /** A successful trial decryption: the note, its recipient, and the index of the key that matched. */
  datatype Hit = Hit(note: Note, recipient: Recipient, ivkIdx: nat)

  /** The batched trial-decryption primitive: per output, a hit or nothing. */
  type Decryptor = (seq<Ivk>, seq<(Domain, CompactOutput)>) -> seq<Option<Hit>>

  /** Every hit names a key index below `n`. */
  predicate HitsBelow(results: seq<Option<Hit>>, n: nat) {
    forall i :: 0 <= i < |results| && results[i].Some? ==> results[i].value.ivkIdx < n
  }

  /** What the primitive guarantees: one result per output, in input order, and every matched key
      index refers into the key array it was given. */
  ghost predicate PreservesShape(decrypt: Decryptor) {
    forall ivks, outputs ::
      |decrypt(ivks, outputs)| == |outputs| && HitsBelow(decrypt(ivks, outputs), |ivks|)
  }
}
