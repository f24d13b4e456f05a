/** The batch runner: accumulates the outputs of many transactions into batches, submits a batch
    once it holds enough outputs, and hands each transaction its decrypted notes on request. */
module Runner {
  import opened Primitives
  import opened ScanTypes
  import opened Channels
  import opened Batches
  import opened Usage
  import opened Tasks

  /** Splits `(tag, key)` pairs into parallel sequences of tags and keys. */
  function Unzip(keys: seq<(KeyTag, Ivk)>): (r: (seq<KeyTag>, seq<Ivk>))
    ensures |r.0| == |keys| && |r.1| == |keys|
    ensures forall i :: 0 <= i < |keys| ==> keys[i] == (r.0[i], r.1[i])
  {
    if keys == [] then ([], [])
    else
      var rest := Unzip(keys[1..]);
      ([keys[0].0] + rest.0, [keys[0].1] + rest.1)
  }

  /** The map built from the items drained for `txid`: each item filed under its transaction and
      output index; an item replaces an earlier one with the same index. */
  function CollectMap(txid: TxId, items: seq<OutputItem>): map<ResultIndex, DecryptedNote> {
    if items == [] then map[]
    else CollectMap(txid, items[..|items| - 1])[(txid, items[|items| - 1].outputIndex) := items[|items| - 1].value]
  }

  /** Every key of the collected map comes from a drained item: the transaction and that item's
      output index. */
  lemma {:induction false} CollectMapKey(txid: TxId, items: seq<OutputItem>, k: ResultIndex) returns (j: nat)
    requires k in CollectMap(txid, items)
    ensures j < |items| && k == (txid, items[j].outputIndex)
  {
    var n := |items| - 1;
    if k == (txid, items[n].outputIndex) {
      j := n;
    } else {
      j := CollectMapKey(txid, items[..n], k);
      assert items[..n][j] == items[j];
    }
  }

  /** When no output index repeats, the collected map holds every drained note under its own
      index, and nothing else. */
  lemma {:induction false} CollectMapHoldsEvery(txid: TxId, items: seq<OutputItem>)
    requires DistinctIndices(items)
    ensures |CollectMap(txid, items)| == |items|
    ensures forall i :: 0 <= i < |items| ==>
      (txid, items[i].outputIndex) in CollectMap(txid, items)
      && CollectMap(txid, items)[(txid, items[i].outputIndex)] == items[i].value
  {
    if items != [] {
      var n := |items| - 1;
      var init := items[..n];
      assert DistinctIndices(init) by {
        forall i, j | 0 <= i < j < |init| ensures init[i].outputIndex != init[j].outputIndex {
          assert init[i] == items[i] && init[j] == items[j];
        }
      }
      CollectMapHoldsEvery(txid, init);
      var m' := CollectMap(txid, init);
      var k := (txid, items[n].outputIndex);
      if k in m' {
        var j := CollectMapKey(txid, init, k);
        assert false;
      }
      var m := CollectMap(txid, items);
      assert m == m'[k := items[n].value];
      forall i | 0 <= i < |items| ensures (txid, items[i].outputIndex) in m && m[(txid, items[i].outputIndex)] == items[i].value {
        if i < n {
          assert init[i] == items[i];
        }
      }
    }
  }

  /** The mailboxes once a fresh channel `c` is filed under `key`: the receiver it displaces, if
      any, is dropped. */
  function Registered(queues: map<ChannelId, seq<OutputItem>>, pending: map<ResultKey, ChannelId>,
                      key: ResultKey, c: ChannelId): map<ChannelId, seq<OutputItem>>
  {
    if key in pending then queues[c := []] - {pending[key]} else queues[c := []]
  }

  /** A batch with the outputs of one more transaction appended, all reporting to channel `c`. */
  function Staged(b: BatchContents, domain: () -> Domain, outs: seq<CompactOutput>, c: ChannelId): BatchContents {
    BatchContents(b.tags, b.ivks, b.outputs + WithDomains(domain, outs), b.repliers + RepliersFor(|outs|, c))
  }

  /** The number of undelivered items on channel `c`. */
  function QueueLen(queues: map<ChannelId, seq<OutputItem>>, c: ChannelId): nat {
    if c in queues then |queues[c]| else 0
  }

  ghost function Pick(pending: map<ResultKey, ChannelId>): (k: ResultKey)
    requires pending != map[]
    ensures k in pending
  {
    var k :| k in pending; k
  }

  /** The heap held by the queues of all pending receivers. */
  ghost function ReceiversUsage(pending: map<ResultKey, ChannelId>, queues: map<ChannelId, seq<OutputItem>>,
                                s: Sizes): nat
    decreases |pending|
  {
    if pending == map[] then 0
    else
      var k := Pick(pending);
      assert |pending - {k}| < |pending| by {
        assert (pending - {k}).Keys == pending.Keys - {k};
      }
      ReceiverUsage(QueueLen(queues, pending[k]), s) + ReceiversUsage(pending - {k}, queues, s)
  }

  /** Dropping one pending receiver removes exactly its queue's usage from the total. */
  lemma {:induction false} ReceiversUsageRemove(pending: map<ResultKey, ChannelId>,
                                                queues: map<ChannelId, seq<OutputItem>>, s: Sizes, k: ResultKey)
    requires k in pending
    ensures ReceiversUsage(pending, queues, s)
         == ReceiverUsage(QueueLen(queues, pending[k]), s) + ReceiversUsage(pending - {k}, queues, s)
    decreases |pending|
  {
    var k0 := Pick(pending);
    if k0 != k {
      assert (pending - {k0}).Keys == pending.Keys - {k0};
      assert (pending - {k}).Keys == pending.Keys - {k};
      ReceiversUsageRemove(pending - {k0}, queues, s, k);
      ReceiversUsageRemove(pending - {k}, queues, s, k0);
      assert pending - {k0} - {k} == pending - {k} - {k0};
    }
  }

  /** The total depends only on the queue lengths of the pending receivers. */
  lemma {:induction false} ReceiversUsageFrame(pending: map<ResultKey, ChannelId>,
                                               q1: map<ChannelId, seq<OutputItem>>,
                                               q2: map<ChannelId, seq<OutputItem>>, s: Sizes)
    requires forall k :: k in pending ==> QueueLen(q1, pending[k]) == QueueLen(q2, pending[k])
    ensures ReceiversUsage(pending, q1, s) == ReceiversUsage(pending, q2, s)
    decreases |pending|
  {
    if pending != map[] {
      var k := Pick(pending);
      assert (pending - {k}).Keys == pending.Keys - {k};
      ReceiversUsageFrame(pending - {k}, q1, q2, s);
    }
  }

  /** The heap of the pending-results table: its entries and the queues of their receivers. */
  ghost function PendingUsage(pending: map<ResultKey, ChannelId>, queues: map<ChannelId, seq<OutputItem>>,
                              s: Sizes): nat
  {
    VecUsage(|pending|, s.pendingEntry) + ReceiversUsage(pending, queues, s)
  }

  lemma VecUsageSucc(m: nat, n: nat, e: nat)
    requires m == n + 1
    ensures VecUsage(m, e) == VecUsage(n, e) + e
  {}

  /** Every pending receiver is alive. */
  ghost predicate PendingLive(pending: map<ResultKey, ChannelId>, queues: map<ChannelId, seq<OutputItem>>) {
    forall k :: k in pending ==> pending[k] in queues
  }

  /** No two transactions share a receiver. */
  ghost predicate PendingInjective(pending: map<ResultKey, ChannelId>) {
    forall k1, k2 :: k1 in pending && k2 in pending && k1 != k2 ==> pending[k1] != pending[k2]
  }

  /** Every replier reports to a channel made before `next`. */
  ghost predicate RepliersBelow(repliers: seq<OutputReplier>, next: ChannelId) {
    forall i :: 0 <= i < |repliers| ==> repliers[i].value < next
  }

  /** No channel with a replier still waiting to run has been sent anything yet. */
  ghost predicate NothingSentEarly(repliers: seq<OutputReplier>, queues: map<ChannelId, seq<OutputItem>>) {
    forall i :: 0 <= i < |repliers| && repliers[i].value in queues ==> queues[repliers[i].value] == []
  }

  /** No mailbox holds two items for the same output index. */
  ghost predicate MailboxesDistinct(queues: map<ChannelId, seq<OutputItem>>) {
    forall c :: c in queues ==> DistinctIndices(queues[c])
  }

  /** Filing a fresh channel keeps the pending receivers alive and unshared. */
  lemma RegisterKeepsPending(pending: map<ResultKey, ChannelId>, queues: map<ChannelId, seq<OutputItem>>,
                             key: ResultKey, c: ChannelId)
    requires PendingLive(pending, queues) && PendingInjective(pending)
    requires forall k :: k in pending ==> pending[k] < c
    ensures PendingLive(pending[key := c], Registered(queues, pending, key, c))
    ensures PendingInjective(pending[key := c])
  {
    var p, q := pending[key := c], Registered(queues, pending, key, c);
    forall k | k in p ensures p[k] in q {
      if k != key {
        assert p[k] == pending[k];
        assert key in pending ==> pending[k] != pending[key];
      }
    }
    forall k1, k2 | k1 in p && k2 in p && k1 != k2 ensures p[k1] != p[k2] {
      if k1 != key && k2 != key {
        assert p[k1] == pending[k1] && p[k2] == pending[k2];
      }
    }
  }

  /** Appending one transaction's repliers on a fresh, empty channel `c` keeps the accumulator's
      repliers below the next fresh id, distinct per channel, and unserved. */
  lemma AppendKeepsRepliers(repliers: seq<OutputReplier>, n: nat, c: ChannelId,
                            q0: map<ChannelId, seq<OutputItem>>, q: map<ChannelId, seq<OutputItem>>)
    requires RepliersBelow(repliers, c) && DistinctPerChannel(repliers) && NothingSentEarly(repliers, q0)
    requires MailboxesDistinct(q0)
    requires c in q && q[c] == []
    requires forall d :: d in q && d != c ==> d in q0 && q[d] == q0[d]
    ensures RepliersBelow(repliers + RepliersFor(n, c), c + 1)
    ensures DistinctPerChannel(repliers + RepliersFor(n, c))
    ensures NothingSentEarly(repliers + RepliersFor(n, c), q)
    ensures MailboxesDistinct(q)
  {
    var all := repliers + RepliersFor(n, c);
    var m := |repliers|;
    assert forall i :: 0 <= i < m ==> all[i] == repliers[i];
    assert forall i :: m <= i < |all| ==> all[i] == OutputIndex(i - m, c);
  }

  /** Consuming the receiver filed under `key` keeps the remaining receivers alive and unshared,
      and the accumulator's repliers unserved and their mailboxes distinct. */
  lemma CollectKeepsInvariants(pending: map<ResultKey, ChannelId>, queues: map<ChannelId, seq<OutputItem>>,
                               repliers: seq<OutputReplier>, key: ResultKey)
    requires key in pending
    requires PendingLive(pending, queues) && PendingInjective(pending)
    requires NothingSentEarly(repliers, queues) && MailboxesDistinct(queues)
    ensures PendingLive(pending - {key}, queues - {pending[key]}) && PendingInjective(pending - {key})
    ensures NothingSentEarly(repliers, queues - {pending[key]}) && MailboxesDistinct(queues - {pending[key]})
    ensures DistinctIndices(queues[pending[key]])
  {
    var c := pending[key];
    forall k | k in pending - {key} ensures (pending - {key})[k] in queues - {c} {
      assert pending[k] != c;
    }
  }

  /** Collecting one transaction takes its table entry and its receiver's queue off the total. */
  lemma PendingUsageAfterCollect(pending: map<ResultKey, ChannelId>, queues: map<ChannelId, seq<OutputItem>>,
                                 key: ResultKey, s: Sizes)
    requires key in pending && pending[key] in queues
    requires forall k :: k in pending && k != key ==> pending[k] != pending[key]
    ensures PendingUsage(pending - {key}, queues - {pending[key]}, s) + s.pendingEntry
            + ReceiverUsage(|queues[pending[key]]|, s)
         == PendingUsage(pending, queues, s)
  {
    var c := pending[key];
    var rest := pending - {key};
    ReceiversUsageRemove(pending, queues, s, key);
    assert QueueLen(queues, c) == |queues[c]|;
    forall k | k in rest ensures QueueLen(queues, rest[k]) == QueueLen(queues - {c}, rest[k]) {
      assert rest[k] == pending[k] != c;
    }
    ReceiversUsageFrame(rest, queues, queues - {c}, s);
    assert ReceiversUsage(pending, queues, s)
        == ReceiverUsage(|queues[c]|, s) + ReceiversUsage(rest, queues - {c}, s);
    assert pending.Keys == rest.Keys + {key};
    assert |pending| == |rest| + 1;
    VecUsageSucc(|pending|, |rest|, s.pendingEntry);
    assert PendingUsage(rest, queues - {c}, s)
        == VecUsage(|rest|, s.pendingEntry) + ReceiversUsage(rest, queues - {c}, s);
  }

  class BatchRunner {
    /** The accumulated output count at which a batch is submitted. */
    const batchSizeThreshold: nat
    /** The batch being accumulated. */
    var acc: Batch
    /** The task strategy (and, when tracked, its running-usage counter). */
    const runningTasks: Strategy
    /** The receiver of every registered, not yet collected transaction. */
    var pendingResults: map<ResultKey, ChannelId>
    /** The result channels. */
    const store: ChannelStore
    /** The batched trial-decryption primitive. */
    const decrypt: Decryptor
    /** The byte sizes behind the runner's usage estimates. */
    const sizes: Sizes
    /** The key set every batch of this runner tries. */
    ghost const keyTags: seq<KeyTag>
    ghost const keyIvks: seq<Ivk>
    /** Every batch submitted so far, in submission order. */
    ghost var submitted: seq<BatchContents>

    ghost function Repr(): set<object>
      reads this
    {
      {this, acc, store} + StrategyRepr(runningTasks)
    }

    ghost predicate Valid()
      reads this, acc, store
    {
      && acc.Valid() && store.Valid() && PreservesShape(decrypt)
      && acc.tags == keyTags && acc.ivks == keyIvks
      && PendingLive(pendingResults, store.queues) && PendingInjective(pendingResults)
      && RepliersBelow(acc.repliers, store.next) && DistinctPerChannel(acc.repliers)
      && NothingSentEarly(acc.repliers, store.queues)
      && MailboxesDistinct(store.queues)
    }

    /** The transaction filed under `key` has no output left in the accumulator, so its results
        are complete: collecting them does not wait on a batch that was never submitted. */
    ghost predicate ReadyToCollect(key: ResultKey)
      reads this, acc
    {
      key in pendingResults ==>
        forall i :: 0 <= i < |acc.repliers| ==> acc.repliers[i].value != pendingResults[key]
    }

    /** The runner's heap: the accumulator, the running tasks and the pending results. */
    ghost function DynamicUsage(): nat
      reads Repr()
    {
      acc.DynamicUsage(sizes) + TasksUsage(runningTasks) + PendingUsage(pendingResults, store.queues, sizes)
    }

    /** The runner's usage bounds, assembled from those of its parts. */
    ghost function DynamicUsageBounds(): (b: UsageBounds)
      reads Repr()
      ensures b == Exact(DynamicUsage())
    {
      var running := TasksUsage(runningTasks);
      var a := acc.DynamicUsageBounds(sizes);
      var p := Exact(PendingUsage(pendingResults, store.queues, sizes));
      UsageBounds(a.lower + running + p.lower,
                  match (a.upper, p.upper)
                  case (Some(x), Some(y)) => Some(x + running + y)
                  case _ => None)
    }

    /** A runner for the given `(tag, key)` pairs, with an empty accumulator and nothing pending. */
    constructor (batchSizeThreshold: nat, keys: seq<(KeyTag, Ivk)>, tracked: bool, decrypt: Decryptor, sizes: Sizes)
      requires PreservesShape(decrypt)
      ensures Valid() && fresh(Repr() - {this})
      ensures this.batchSizeThreshold == batchSizeThreshold && this.decrypt == decrypt && this.sizes == sizes
      ensures |acc.tags| == |keys| && forall i :: 0 <= i < |keys| ==> keys[i] == (acc.tags[i], acc.ivks[i])
      ensures acc.IsEmpty() && pendingResults == map[] && store.queues == map[] && submitted == []
      ensures runningTasks.Tracked? == tracked
      ensures tracked ==> runningTasks.tracker.runningUsage == 0
    {
      var (tags, ivks) := Unzip(keys);
      this.batchSizeThreshold := batchSizeThreshold;
      this.decrypt := decrypt;
      this.sizes := sizes;
      acc := new Batch(tags, ivks);
      if tracked {
        var w := new WithUsage();
        runningTasks := Tracked(w);
      } else {
        runningTasks := Untracked;
      }
      pendingResults := map[];
      store := new ChannelStore();
      keyTags := tags;
      keyIvks := ivks;
      submitted := [];
    }

    /** Submits the accumulated batch, if it has any output, and starts a fresh one with the
        same keys. */
    method Flush()
      requires Valid()
      modifies Repr()
      ensures Valid() && fresh(Repr() - old(Repr()))
      ensures pendingResults == old(pendingResults) && store.next == old(store.next)
      ensures acc.tags == old(acc.tags) && acc.ivks == old(acc.ivks) && acc.IsEmpty()
      ensures old(acc.IsEmpty()) ==>
        acc == old(acc) && submitted == old(submitted) && store.queues == old(store.queues)
      ensures !old(acc.IsEmpty()) ==>
        && fresh(acc)
        && submitted == old(submitted) + [old(acc.Contents())]
        && HitsBelow(decrypt(old(acc.ivks), old(acc.outputs)), |old(acc.tags)|)
        && store.queues == Deliver(old(acc.tags), decrypt(old(acc.ivks), old(acc.outputs)), old(acc.repliers), old(store.queues))
      ensures runningTasks.Tracked? ==> runningTasks.tracker.runningUsage == old(runningTasks.tracker.runningUsage)
      ensures old(acc.IsEmpty()) ==> DynamicUsage() == old(DynamicUsage())
    {
      if !acc.IsEmpty() {
        var batch := new Batch(acc.tags, acc.ivks);
        batch, acc := acc, batch;
        submitted := submitted + [batch.Contents()];
        ghost var before := store.queues;
        RunTask(runningTasks, batch, sizes, store, decrypt);
        DeliverKeepsDistinct(batch.tags, decrypt(batch.ivks, batch.outputs), batch.repliers, before);
      }
    }

    /** The first part of `AddOutputs`: a fresh channel, the outputs appended to the accumulator
        reporting to it, and its receiver filed under the key (dropping the one it displaces). */
    method Register(key: ResultKey, domain: () -> Domain, outs: seq<CompactOutput>) returns (c: ChannelId)
      requires Valid()
      modifies this, acc, store
      ensures Valid() && acc == old(acc)
      ensures c == old(store.next) && c !in old(store.queues) && store.next == old(store.next) + 1
      ensures pendingResults == old(pendingResults)[key := c]
      ensures acc.Contents() == Staged(old(acc.Contents()), domain, outs, c)
      ensures store.queues == Registered(old(store.queues), old(pendingResults), key, c)
      ensures submitted == old(submitted)
    {
      ghost var q0, p0 := store.queues, pendingResults;
      c := store.Unbounded();
      acc.AddOutputs(domain, outs, c);
      if key in pendingResults {
        // the displaced receiver is dropped
        store.DropReceiver(pendingResults[key]);
      }
      pendingResults := pendingResults[key := c];
      assert store.queues == Registered(q0, p0, key, c);
      RegisterKeepsPending(p0, q0, key, c);
      AppendKeepsRepliers(old(acc.repliers), |outs|, c, q0, store.queues);
    }

    /** Files the outputs of transaction `txid` (seen in block `blockTag`) for trial decryption:
        they all join the accumulator, reporting to a fresh channel whose receiver replaces any
        earlier one under the same key; a batch with at least the threshold's count of outputs is
        submitted at once. */
    method AddOutputs(blockTag: BlockHash, txid: TxId, domain: () -> Domain, outs: seq<CompactOutput>)
      requires Valid()
      modifies Repr()
      ensures Valid() && fresh(Repr() - old(Repr()))
      ensures old(store.next) !in old(store.queues) && store.next == old(store.next) + 1
      ensures pendingResults == old(pendingResults)[ResultKey(blockTag, txid) := old(store.next)]
      ensures acc.tags == old(acc.tags) && acc.ivks == old(acc.ivks)
      ensures acc.IsEmpty() || |acc.outputs| < batchSizeThreshold
      ensures
        var staged := Staged(old(acc.Contents()), domain, outs, old(store.next));
        var registered := Registered(old(store.queues), old(pendingResults), ResultKey(blockTag, txid), old(store.next));
        if |staged.outputs| >= batchSizeThreshold && staged.outputs != [] then
          && acc.IsEmpty()
          && submitted == old(submitted) + [staged]
          && HitsBelow(decrypt(staged.ivks, staged.outputs), |staged.tags|)
          && store.queues == Deliver(staged.tags, decrypt(staged.ivks, staged.outputs), staged.repliers, registered)
        else
          && acc.Contents() == staged
          && submitted == old(submitted)
          && store.queues == registered
      ensures runningTasks.Tracked? ==> runningTasks.tracker.runningUsage == old(runningTasks.tracker.runningUsage)
    {
      var c := Register(ResultKey(blockTag, txid), domain, outs);
      if |acc.outputs| >= batchSizeThreshold {
        Flush();
      }
    }

    /** Takes the results of transaction `txid` (filed under `blockTag`): an empty map when it was
        never filed, otherwise every note delivered to its receiver, keyed by transaction and
        output index. The receiver is consumed; no other entry changes. */
    method CollectResults(blockTag: BlockHash, txid: TxId) returns (r: map<ResultIndex, DecryptedNote>)
      requires Valid()
      requires ReadyToCollect(ResultKey(blockTag, txid))
      modifies this, store
      ensures Valid()
      ensures acc == old(acc) && submitted == old(submitted) && store.next == old(store.next)
      ensures pendingResults == old(pendingResults) - {ResultKey(blockTag, txid)}
      ensures ResultKey(blockTag, txid) !in old(pendingResults) ==>
        r == map[] && store.queues == old(store.queues) && DynamicUsage() == old(DynamicUsage())
      ensures ResultKey(blockTag, txid) in old(pendingResults) ==>
        var c := old(pendingResults[ResultKey(blockTag, txid)]);
        var items := old(store.queues[c]);
        && store.queues == old(store.queues) - {c}
        && r == CollectMap(txid, items)
        && |r| == |items|
        && (forall i :: 0 <= i < |items| ==> (txid, items[i].outputIndex) in r && r[(txid, items[i].outputIndex)] == items[i].value)
        && DynamicUsage() + sizes.pendingEntry + ReceiverUsage(|items|, sizes) == old(DynamicUsage())
    {
      var key := ResultKey(blockTag, txid);
      ghost var fixedUsage := acc.DynamicUsage(sizes) + TasksUsage(runningTasks);
      if key in pendingResults {
        var c := pendingResults[key];
        PendingUsageAfterCollect(pendingResults, store.queues, key, sizes);
        CollectKeepsInvariants(pendingResults, store.queues, acc.repliers, key);
        pendingResults := pendingResults - {key};
        var items := store.Drain(c);
        r := CollectMap(txid, items);
        CollectMapHoldsEvery(txid, items);
        assert acc.DynamicUsage(sizes) + TasksUsage(runningTasks) == fixedUsage;
      } else {
        r := map[];
      }
    }
  }
}
