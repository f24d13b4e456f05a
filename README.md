# Batch trial decryption and single-transaction scanning, modelled in Dafny

This project models two parts of `zcash_client_backend`.

The first is the batch trial-decryption scheduler of `src/scan.rs`. A `BatchRunner` holds a key
set of `(tag, incoming viewing key)` pairs and an accumulating `Batch`. `add_outputs` appends one
transaction's compact outputs to that batch. Each output gets a replier that carries its index in
the transaction and the sending half of a fresh channel. The receiving half is filed in
`pending_results` under `(block_tag, txid)`, replacing and dropping any receiver already there.
When the batch holds at least `batch_size_threshold` outputs it is flushed: it is swapped for an
empty batch with the same keys, and submitted as a task. Running a batch trial-decrypts every
output against every key. Each hit is sent on its output's channel, tagged with the matched key's
tag. The dispatch stops at the first send whose receiver is gone. `collect_results` removes a
transaction's receiver and collects what was sent on it into a map keyed by
`(txid, output_index)`.

There are two task strategies:
- The untracked strategy `()` runs the batch itself.
- `WithUsage` wraps the batch in a `WithUsageTask`. It charges the task's heap footprint to a
  shared counter when the task is created, and takes it off again when the task has run.

The `DynamicUsage` estimates of receivers, batches, the counter and the runner are modelled as
functions of per-element sizes.

The second is `decrypt_transaction` of `src/decrypt.rs`. For each account with a Sapling key, and
for each output of the transaction's Sapling bundle in order, it tries three steps in turn: the
external incoming viewing key, then the internal one, then recovery with the outgoing viewing key.
The first step that succeeds fixes the output's `TransferType`. The result is tagged with the
output's index and the account.

Module layout:

| file | module |
|---|---|
| `primitives.dfy` | `Primitives`: the opaque keys, outputs and notes, and the batched decryption primitive `Decryptor` with its shape guarantee `PreservesShape` |
| `scan_types.dfy` | `ScanTypes`: `DecryptedNote`, `OutputIndex`, `ResultKey` |
| `channels.dfy` | `Channels`: unbounded channels, as one mailbox per live receiver |
| `usage.dfy` | `Usage`: the receiver block arithmetic and the `(lower, upper)` bounds pairs |
| `batch.dfy` | `Batches`: the `Batch` class, and the specification functions `Deliver` and `SentTo` of its dispatch |
| `tasks.dfy` | `Tasks`: the two strategies, `WithUsage` and `WithUsageTask` |
| `runner.dfy` | `Runner`: the `BatchRunner` class, its invariant `Valid()` and its usage |
| `decrypt.dfy` | `Decrypt`: `decrypt_transaction` and its fallback chain |
| `scenarios.dfy` | `Scenarios`: whole-runner call sequences |

Modelling choices:

- **Worker pool.** The pool is an inline executor: a submitted task runs to completion before
  `flush` returns.
- **Channels.** A `ChannelStore` keeps a map from channel id to undelivered items. A channel is in
  the map exactly while its receiver is alive, and a send to any other channel fails.
- **Decryption primitives.** `batch::try_compact_note_decryption` is a function-valued parameter
  that returns one `Option<Hit>` per output, with every key index in range. A `Crypto` record
  has four fields. Two are key derivations: `toIvk` for either scope and `ovk`. Two are the Sapling
  note-encryption calls: `tryNoteDecryption`, used with both the external and the internal key,
  and `tryOutputRecovery`. The ZIP 212 enforcement value is a
  parameter.
- **Accounts.** The `ufvks` map of `decrypt_transaction` is a sequence of `(account, key)` pairs,
  taken in the map's iteration order.
- **Blocking collection.** `collect_results` blocks until every sender of the channel is dropped.
  The model states that condition as a precondition, `ReadyToCollect`: no replier for that
  transaction is still waiting in the accumulator. Without it the source would block forever.

The outputs of one `add_outputs` call always land in the same batch. The threshold is checked
only after all of them have been appended (scan.rs:460-467). So one call's outputs are never split
across two batches; see `BatchRunner.AddOutputs`.

Registering the same `(block_tag, txid)` twice before its batch runs drops the first receiver. A
hit among the first copy's outputs then fails to send, which ends the whole batch's dispatch.
Nothing later in that batch is delivered, for this transaction or any other. `RegisterTwice` and
`DeliverStopsAtFailure` state this behaviour.

## Model

| member | source | states |
|---|---|---|
| Channels.ChannelStore.constructor | zcash_client_backend/src/scan.rs:428 | the runner starts with no channels and no pending receiver |
| Channels.ChannelStore.Unbounded | zcash_client_backend/src/scan.rs:460 | `channel::unbounded()` makes a fresh channel, distinct from every existing one, with an empty queue |
| Channels.ChannelStore.Send | zcash_client_backend/src/scan.rs:317-320 | a send succeeds iff the receiver is alive; on success it appends the item to that channel only, and on failure nothing changes |
| Channels.ChannelStore.DropReceiver | zcash_client_backend/src/scan.rs:461-463 | the receiver displaced by `insert` is dropped: its queue is gone and later sends to it fail |
| Channels.ChannelStore.Drain | zcash_client_backend/src/scan.rs:502-509 | `rx.into_iter()` yields exactly the items sent on the channel, in order, and consumes the receiver |
| Usage.NumBlocks | zcash_client_backend/src/scan.rs:78-79 | `(n + 31 - 1) / 31` is the least block count with room for `n` items |
| Usage.BlockSize | zcash_client_backend/src/scan.rs:81-89 | no contract of its own: a next-block pointer plus 31 slots of an item and its atomic state; `Usage.ReceiverUsageBounds` states what it bounds |
| Usage.ReceiverUsage | zcash_client_backend/src/scan.rs:71-92 | no contract of its own: whole blocks times the block size; its bounds are stated by `Usage.ReceiverUsageBounds` |
| Usage.ReceiverUsageBounds | zcash_client_backend/src/scan.rs:71-92 | a receiver's usage is 0 for an empty queue, at least one slot per item and at least one block otherwise, and less than one block more than the `n / 31` blocks its items fill (31 times the usage is below `n + 31` blocks) |
| Usage.Plus | zcash_client_backend/src/scan.rs:245-252 | no contract of its own: lower bounds add, and upper bounds add when both are known; `Usage.PlusBrackets` states the law the bounds computations rely on |
| Usage.PlusBrackets | zcash_client_backend/src/scan.rs:245-252 | bounds that bracket two usages, added, bracket their sum: the lower bound stays at most the sum, and a known upper bound at least the sum |
| Batches.Batch.constructor | zcash_client_backend/src/scan.rs:263-271 | `Batch::new` needs as many tags as keys, and keeps both with no outputs and no repliers |
| Batches.Batch.IsEmpty | zcash_client_backend/src/scan.rs:273-276 | a batch is empty iff it has neither outputs nor repliers |
| Batches.Batch.DynamicUsage | zcash_client_backend/src/scan.rs:232-237 | no contract of its own: the sum of the four vectors' usages; `Batches.Batch.DynamicUsageBounds` ties the bounds to it |
| Batches.Batch.DynamicUsageBounds | zcash_client_backend/src/scan.rs:225-253 | combining the four vectors' exact bounds yields the batch's usage as both lower and upper bound |
| Batches.Batch.AddOutputs | zcash_client_backend/src/scan.rs:326-344 | the outputs and repliers grow by exactly the `n` given outputs, earlier entries and the keys are unchanged, and the new repliers carry indices 0..n-1 on the one given channel |
| Batches.Batch.Run | zcash_client_backend/src/scan.rs:289-323 | running a batch leaves the mailboxes exactly as `Deliver` of the primitive's results describes, every key index in range |
| Batches.ItemFor | zcash_client_backend/src/scan.rs:308-315 | no contract of its own: the item sent for a hit; `Batches.DeliverAllLive` and `Batches.SentToSound` state what is sent with it |
| Batches.WithDomains | zcash_client_backend/src/scan.rs:336-337 | no contract of its own: `domain()` paired with each output, in order; `Batches.Batch.AddOutputs` states the appended pairs position by position |
| Batches.RepliersFor | zcash_client_backend/src/scan.rs:338-343 | no contract of its own: one replier per output index on one channel; `Scenarios.RepliersForIndexed` states its length, elements and distinctness |
| Batches.Deliver | zcash_client_backend/src/scan.rs:299-322 | a dispatch neither creates nor removes a channel |
| Batches.DeliverAllLive | zcash_client_backend/src/scan.rs:299-316 | when every hit's channel is live, each channel receives exactly its own hits, in output order, each tagged with `tags[ivk_idx]` and the replier's output index |
| Batches.DeliverStopsAtFailure | zcash_client_backend/src/scan.rs:317-320 | a hit whose receiver is gone ends the dispatch: nothing from that position on reaches any channel |
| Batches.DeliverDeliversPrefix | zcash_client_backend/src/scan.rs:299-322 | every channel ends with its old items followed by the hits of one common prefix of the batch, all of whose sends succeed |
| Batches.DeliverUpToFirstFailure | zcash_client_backend/src/scan.rs:317-320 | sends before the first failed one are unaffected by it |
| Batches.SentToAbsent | zcash_client_backend/src/scan.rs:303-316 | a channel with no replier in the batch receives nothing |
| Batches.SentToSound | zcash_client_backend/src/scan.rs:303-316 | every item sent to a channel comes from a hit at a position whose replier reports to it |
| Batches.SentToComplete | zcash_client_backend/src/scan.rs:303-316 | every hit whose replier reports to a channel is sent to it |
| Batches.SentToDistinct | zcash_client_backend/src/scan.rs:303-316 | distinct output indices per channel give distinct indices among its items |
| Batches.DeliverKeepsDistinct | zcash_client_backend/src/scan.rs:299-322 | a dispatch never puts two items with the same output index into one mailbox |
| Tasks.UntrackedAddTask | zcash_client_backend/src/scan.rs:118-125 | no contract of its own: the untracked task is the batch itself; `Tasks.RunTask` states what submitting it delivers |
| Tasks.WithUsage.DynamicUsage | zcash_client_backend/src/scan.rs:138-140 | no contract of its own: the counter's value; `Tasks.WithUsage.AddTask`, `Tasks.WithUsageTask.Run` and `Tasks.RunTask` state how it changes |
| Tasks.WithUsage.constructor | zcash_client_backend/src/scan.rs:153-157 | the running-usage counter starts at 0 |
| Tasks.WithUsage.DynamicUsageBounds | zcash_client_backend/src/scan.rs:142-147 | no contract of its own: the plain model of the counter's value taken as both bounds |
| Tasks.WithUsage.AddTask | zcash_client_backend/src/scan.rs:159-183 | the task wraps the batch, its footprint is the `Arc` pointer plus the task plus the batch's heap, and the counter grows by exactly that footprint |
| Tasks.WithUsageTask.constructor | zcash_client_backend/src/scan.rs:161-165 | a new task holds the batch and the shared counter, with footprint 0 until it is charged |
| Tasks.WithUsageTask.Run | zcash_client_backend/src/scan.rs:199-208 | the task runs its batch, then the counter drops by exactly the task's footprint |
| Tasks.TasksUsage | zcash_client_backend/src/scan.rs:389 | no contract of its own: the running tasks' usage, the counter's value when tracked and 0 when untracked; `Tasks.RunTask` states that a submission leaves it unchanged |
| Tasks.RunTask | zcash_client_backend/src/scan.rs:104-126 | under either strategy, submitting a batch delivers exactly what running that batch delivers, and a tracked counter ends where it started |
| Runner.Unzip | zcash_client_backend/src/scan.rs:423 | `unzip` splits the key pairs into parallel tag and key sequences of the same length, position by position |
| Runner.CollectMap | zcash_client_backend/src/scan.rs:502-509 | no contract of its own: the drained items collected into a map; `Runner.CollectMapKey` and `Runner.CollectMapHoldsEvery` state its keys and values |
| Runner.CollectMapKey | zcash_client_backend/src/scan.rs:502-509 | every key of the collected map is `(txid, output_index)` of a drained item |
| Runner.CollectMapHoldsEvery | zcash_client_backend/src/scan.rs:502-509 | with distinct output indices, the collected map has one entry per drained item, holding that item's note |
| Runner.ReceiversUsage | zcash_client_backend/src/scan.rs:390 | no contract of its own: the sum of the pending receivers' usages; `Runner.ReceiversUsageRemove` and `Runner.ReceiversUsageFrame` state how it decomposes |
| Runner.PendingUsage | zcash_client_backend/src/scan.rs:390 | no contract of its own: the table's entries plus its receivers' queues; `Runner.PendingUsageAfterCollect` states its change on removal |
| Runner.ReceiversUsageRemove | zcash_client_backend/src/scan.rs:387-391 | removing one pending receiver takes exactly its queue's usage off the total |
| Runner.ReceiversUsageFrame | zcash_client_backend/src/scan.rs:387-391 | the receivers' usage depends only on their queue lengths |
| Runner.Registered | zcash_client_backend/src/scan.rs:460-463 | no contract of its own: the channel store after a fresh channel is opened and filed under a key, dropping the receiver it replaces; `Runner.BatchRunner.Register`, `Runner.RegisterKeepsPending` and `Scenarios.RegisteredFresh` state its effect |
| Runner.RegisterKeepsPending | zcash_client_backend/src/scan.rs:460-463 | filing a fresh receiver under a key, overwriting any old one, keeps every pending receiver alive and no two sharing a channel |
| Runner.AppendKeepsRepliers | zcash_client_backend/src/scan.rs:460-461 | appending a transaction's repliers on a fresh empty channel keeps repliers on known channels, distinct per channel, and not yet served |
| Runner.CollectKeepsInvariants | zcash_client_backend/src/scan.rs:492 | removing a pending entry and consuming its receiver keeps the others alive and unshared |
| Runner.PendingUsageAfterCollect | zcash_client_backend/src/scan.rs:486-492 | removing one entry reduces the table's usage by one entry plus that receiver's queue usage |
| Runner.BatchRunner.DynamicUsage | zcash_client_backend/src/scan.rs:387-391 | no contract of its own: accumulator plus running tasks plus pending table; `Runner.BatchRunner.DynamicUsageBounds`, `Runner.BatchRunner.Flush` and `Runner.BatchRunner.CollectResults` state it |
| Runner.BatchRunner.DynamicUsageBounds | zcash_client_backend/src/scan.rs:393-408 | adding the running usage to both of the accumulator's and the table's exact bounds yields the runner's usage as both bounds |
| Runner.BatchRunner.constructor | zcash_client_backend/src/scan.rs:419-430 | a new runner holds the given keys as parallel tags and keys, an empty accumulator, no pending results, and a counter at 0 when tracked |
| Runner.BatchRunner.Flush | zcash_client_backend/src/scan.rs:473-479 | an empty accumulator is left as is and nothing is submitted; otherwise exactly the old batch is submitted and run, and a fresh empty batch with the same keys takes its place |
| Runner.BatchRunner.Register | zcash_client_backend/src/scan.rs:460-463 | a fresh channel takes the outputs' repliers and is filed under the key, replacing and dropping the old receiver |
| Runner.BatchRunner.AddOutputs | zcash_client_backend/src/scan.rs:453-468 | all of one call's outputs join one batch; the batch is submitted, with the outputs included, exactly when the new count reaches the threshold; afterwards the accumulator is empty or below the threshold |
| Runner.BatchRunner.CollectResults | zcash_client_backend/src/scan.rs:486-512 | the key leaves the table; an unregistered key yields an empty map and changes nothing; otherwise exactly the delivered items, keyed `(txid, output_index)`, and usage drops by that entry and its queue |
| Decrypt.TryExternal | zcash_client_backend/src/decrypt.rs:68-69 | no contract of its own: note decryption with the external incoming viewing key (decrypt.rs:80); `Decrypt.TryOutput` states its place in the fallback chain |
| Decrypt.TryInternal | zcash_client_backend/src/decrypt.rs:70-71 | no contract of its own: note decryption with the internal incoming viewing key (decrypt.rs:83-87); `Decrypt.TryOutput` states its place in the fallback chain |
| Decrypt.TryRecovery | zcash_client_backend/src/decrypt.rs:72 | no contract of its own: output recovery with the outgoing viewing key (decrypt.rs:91); `Decrypt.TryOutput` states its place in the fallback chain |
| Decrypt.TryOutput | zcash_client_backend/src/decrypt.rs:80-93 | the output is `Incoming` iff the external key decrypts it, `WalletInternal` iff only the internal key does, `Outgoing` iff neither does and recovery succeeds, absent iff all three fail; the plaintext comes from the deciding step |
| Decrypt.EntryAt | zcash_client_backend/src/decrypt.rs:95-101 | no contract of its own: the decrypted output at one bundle position, tagged with its index, the account, the memo and the transfer type; `Decrypt.AccountOutputsFrom`, `Decrypt.AllAccountsSound` and `Decrypt.AllAccountsComplete` state what is collected from it |
| Decrypt.AccountOutputsFrom | zcash_client_backend/src/decrypt.rs:74-101 | one account's results are at most one per output, in strictly increasing output index, each index a bundle position, each tagged with the account and the entry its output yields |
| Decrypt.AccountOutputsComplete | zcash_client_backend/src/decrypt.rs:74-101 | every output that yields an entry for the account is reported |
| Decrypt.AllAccounts | zcash_client_backend/src/decrypt.rs:59-105 | at most one result per Sapling account and output in total, every index in range |
| Decrypt.DecryptTransaction | zcash_client_backend/src/decrypt.rs:50-106 | no Sapling bundle yields no results; otherwise at most the number of Sapling accounts times the number of outputs, every index in range |
| Decrypt.AllAccountsSound | zcash_client_backend/src/decrypt.rs:60-101 | every result comes from an account with a Sapling key, is tagged with it, and is what its output yields under that key |
| Decrypt.AllAccountsComplete | zcash_client_backend/src/decrypt.rs:60-101 | every output that an account's Sapling key decrypts or recovers is reported |
| Decrypt.AllAccountsAppend | zcash_client_backend/src/decrypt.rs:60-67 | the results for two account lists in turn are the results of each in turn |
| Decrypt.NoSaplingNoResults | zcash_client_backend/src/decrypt.rs:63-65 | an account without a Sapling key contributes nothing |
| Decrypt.AllAccountsIncreasing | zcash_client_backend/src/decrypt.rs:74-78 | with distinct accounts, one account's results are in strictly increasing output index, so no output is reported twice per account |
| Decrypt.AllAccountsGrouped | zcash_client_backend/src/decrypt.rs:59-67 | with distinct accounts, the results are grouped by account |
| Scenarios.RepliersForIndexed | zcash_client_backend/src/scan.rs:337-343 | one transaction's repliers are indexed 0..n-1 on one channel, so their indices are distinct |
| Scenarios.SentOnOwnChannel | zcash_client_backend/src/scan.rs:299-316 | a transaction's own channel receives, with distinct indices, exactly an item for each of its hits |
| Scenarios.RegisteredFresh | zcash_client_backend/src/scan.rs:460-463 | a fresh receiver filed under any key starts live and empty |
| Scenarios.DeliverOwnChannel | zcash_client_backend/src/scan.rs:299-316 | a batch of one transaction on its live channel leaves exactly that transaction's hits there |
| Scenarios.CollectedExactlyTheHits | zcash_client_backend/src/scan.rs:502-509 | collecting those items yields an entry at `(txid, i)` iff output i was a hit, with the matched tag, recipient and note, and no other entry |
| Scenarios.ScanOneTransaction | zcash_client_backend/src/scan.rs:453-512 | on an idle runner, add, flush and collect return exactly the transaction's hits, keyed by its own output indices |
| Scenarios.SentToAppend | zcash_client_backend/src/scan.rs:299-316 | the items sent to a channel by two runs of repliers are those of each run in turn |
| Scenarios.DuplicateHitFirst | zcash_client_backend/src/scan.rs:317-320 | with the first copy's receiver dropped, a hit in it means the live second receiver gets nothing |
| Scenarios.SentToSecondCopy | zcash_client_backend/src/scan.rs:299-316 | only the second copy's repliers report to the second channel |
| Scenarios.LiveSecondCopy | zcash_client_backend/src/scan.rs:299-316 | with no hit in the first copy, every hit's channel is live |
| Scenarios.DuplicateNoHitFirst | zcash_client_backend/src/scan.rs:299-316 | with no hit in the first copy, the second channel gets exactly the second copy's hits |
| Scenarios.DuplicateDelivery | zcash_client_backend/src/scan.rs:317-320 | what a twice-registered transaction's live channel receives: nothing after a hit in the first copy, otherwise the second copy's hits |
| Scenarios.StageTwice | zcash_client_backend/src/scan.rs:453-479 | two registrations under one key and a flush: the key holds the second receiver, and the mailboxes are the dispatch of both copies against the first dropped and the second live |
| Scenarios.RegisterTwice | zcash_client_backend/src/scan.rs:453-512 | registering one transaction twice before its batch runs, then flushing and collecting: empty when the first copy has a hit, otherwise exactly the second copy's hits |

## Left out

- Concurrency: `rayon::spawn_fifo` runs the task inline. Blocking in `rx.into_iter()` is the
  precondition `ReadyToCollect`. The atomics' memory orderings are not modelled; counter updates
  are plain assignments.
- Cryptography: `try_compact_note_decryption`, `try_sapling_note_decryption`,
  `try_sapling_output_recovery` and `to_ivk` are uninterpreted. `PreparedIncomingViewingKey::new`
  is folded into the decryption oracle. The ZIP 212 enforcement lookup is a parameter.
- Sizes: `mem::size_of` values and the per-element heap costs of the `memuse` `Vec` and `HashMap`
  implementations are fields of `Sizes`. A vector's or table's usage is its length times its
  element cost, so spare capacity is not modelled.
- The zero usages of `OutputReplier` and `ResultKey` (scan.rs:54-65 and 351-361) are folded into
  the per-element costs of the repliers vector and the pending table.
- Overflow: the usage counter and all sizes are unbounded naturals, so `usize` wrap-around is not
  modelled.
- Tasks.WithUsageTask.Run: requires the counter to hold at least the task's footprint, where the
  source's `fetch_sub` would wrap. The pairing with `AddTask` in `RunTask` always meets this.
- Batches.Batch.DynamicUsageBounds: the four vectors' bounds are taken as exact, because the
  `memuse` `Vec` implementation is not part of this model; `Usage.PlusBrackets` states what the
  combination preserves for inexact bounds.
- Runner.BatchRunner.DynamicUsageBounds: the accumulator's and the pending table's bounds are
  taken as exact, because the `memuse` `HashMap` implementation is not part of this model.
- The runner's `DynamicUsage` and `DynamicUsageBounds` are ghost, because they sum over the
  pending table.
- The `assert_eq!` at scan.rs:264 is the constructor's precondition. The one at scan.rs:299 is
  part of the invariant `Batch.Valid()`, so it cannot fail.
- The memo's `MemoBytes::from_bytes(..).expect(..)` at decrypt.rs:99 is taken as the identity on
  an opaque `Memo`. The recipient returned by the decryption calls is dropped, as in the source.
- `HashMap` iteration order: the pending table is a `map`, and the accounts of
  `decrypt_transaction` are a sequence in the order the map yields them.
- The `fmt::Debug` impl (scan.rs:24-39) and the `tracing::debug!` call (scan.rs:318) are not
  modelled.
- Scenarios.ScanOneTransaction: does not state that the runner's invariant holds afterwards. Its
  contract states only the collected result.
