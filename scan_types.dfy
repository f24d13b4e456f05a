/** The value types of the batch scanner: decrypted notes, output-index wrappers, result keys. */
module ScanTypes {
  import opened Primitives

  /** The identity of one result channel (created per registered transaction). */
  type ChannelId = nat

  /** A decrypted note: the tag of the key that matched, the recipient and the note. */
  datatype DecryptedNote = DecryptedNote(ivkTag: KeyTag, recipient: Recipient, note: Note)

  /** A value correlated with the index of an output within its transaction. */
  datatype OutputIndex<V> = OutputIndex(outputIndex: nat, value: V)

  /** What travels on a result channel. */
  type OutputItem = OutputIndex<DecryptedNote>

  /** The sending half for one output: its index and the channel it reports to. */
  type OutputReplier = OutputIndex<ChannelId>

  /** The key under which a transaction's pending results are filed. */
  datatype ResultKey = ResultKey(blockTag: BlockHash, txid: TxId)

  /** A result map entry's key: the transaction and the output index. */
  type ResultIndex = (TxId, nat)
}
