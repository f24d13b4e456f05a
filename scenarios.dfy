/** Whole-runner behaviour over sequences of calls: what a scanner that registers transactions,
    flushes and collects gets back. */
module Scenarios {
  import opened Primitives
  import opened ScanTypes
  import opened Channels
  import opened Batches
  import opened Runner

  /** One transaction's repliers report to one channel under distinct indices 0, 1, ..., n - 1. */
  lemma RepliersForIndexed(n: nat, c: ChannelId)
    ensures |RepliersFor(n, c)| == n
    ensures forall i :: 0 <= i < n ==> RepliersFor(n, c)[i] == OutputIndex(i, c)
    ensures DistinctPerChannel(RepliersFor(n, c))
  {
  }

  /** The items a transaction answered on its own channel carry the indices of exactly its hits. */
  lemma {:induction false} SentOnOwnChannel(tags: seq<KeyTag>, results: seq<Option<Hit>>, n: nat, c: ChannelId)
    requires |results| == n && HitsBelow(results, |tags|)
    ensures DistinctIndices(SentTo(tags, results, RepliersFor(n, c), c))
    ensures forall j :: 0 <= j < |SentTo(tags, results, RepliersFor(n, c), c)| ==>
      var item := SentTo(tags, results, RepliersFor(n, c), c)[j];
      item.outputIndex < n && results[item.outputIndex].Some?
      && item == ItemFor(tags, results[item.outputIndex].value, OutputIndex(item.outputIndex, c))
    ensures forall i :: 0 <= i < n && results[i].Some? ==>
      ItemFor(tags, results[i].value, OutputIndex(i, c)) in SentTo(tags, results, RepliersFor(n, c), c)
  {
    var repliers := RepliersFor(n, c);
    RepliersForIndexed(n, c);
    SentToDistinct(tags, results, repliers, c);
    var items := SentTo(tags, results, repliers, c);
    forall j | 0 <= j < |items|
      ensures items[j].outputIndex < n && results[items[j].outputIndex].Some?
      ensures items[j] == ItemFor(tags, results[items[j].outputIndex].value, OutputIndex(items[j].outputIndex, c))
    {
      var p := SentToSound(tags, results, repliers, c, j);
    }
    forall i | 0 <= i < n && results[i].Some?
      ensures ItemFor(tags, results[i].value, OutputIndex(i, c)) in items
    {
      SentToComplete(tags, results, repliers, c, i);
    }
  }

  /** `r` holds exactly the hits of a transaction `txid` with `n` outputs: an entry at index i iff
      output i was matched, carrying the matched key's tag, the recipient and the note; and no
      entry for any other transaction or index. */
  ghost predicate ExactlyTheHits(tags: seq<KeyTag>, results: seq<Option<Hit>>, n: nat, txid: TxId,
                                 r: map<ResultIndex, DecryptedNote>)
  {
    && |results| == n
    && (forall k :: k in r ==> k.0 == txid && k.1 < n)
    && (forall i :: 0 <= i < n ==> ((txid, i) in r <==> results[i].Some?))
    && (forall i :: 0 <= i < n && (txid, i) in r ==>
          results[i].value.ivkIdx < |tags|
          && r[(txid, i)] == DecryptedNote(tags[results[i].value.ivkIdx], results[i].value.recipient, results[i].value.note))
  }

  /** A fresh channel filed under any key starts out live and empty. */
  lemma RegisteredFresh(queues: map<ChannelId, seq<OutputItem>>, pending: map<ResultKey, ChannelId>,
                        key: ResultKey, c: ChannelId)
    requires PendingLive(pending, queues) && forall d :: d in queues ==> d < c
    ensures c in Registered(queues, pending, key, c) && Registered(queues, pending, key, c)[c] == []
  {
    if key in pending {
      assert pending[key] in queues;
    }
  }

  /** A batch holding only one transaction's outputs, answered on its live channel `c`, leaves on
      `c` exactly that transaction's hits. */
  lemma DeliverOwnChannel(tags: seq<KeyTag>, results: seq<Option<Hit>>, n: nat, c: ChannelId,
                          queues: map<ChannelId, seq<OutputItem>>)
    requires |results| == n && HitsBelow(results, |tags|)
    requires c in queues && queues[c] == []
    ensures Deliver(tags, results, RepliersFor(n, c), queues)[c] == SentTo(tags, results, RepliersFor(n, c), c)
  {
    RepliersForIndexed(n, c);
    DeliverAllLive(tags, results, RepliersFor(n, c), queues);
  }

  /** The results collected for a transaction whose outputs were the whole batch and were answered
      on channel `c` with every send succeeding are exactly its hits. */
  lemma CollectedExactlyTheHits(tags: seq<KeyTag>, results: seq<Option<Hit>>, n: nat, c: ChannelId,
                                txid: TxId, r: map<ResultIndex, DecryptedNote>)
    requires |results| == n && HitsBelow(results, |tags|)
    requires r == CollectMap(txid, SentTo(tags, results, RepliersFor(n, c), c))
    ensures ExactlyTheHits(tags, results, n, txid, r)
  {
    var items := SentTo(tags, results, RepliersFor(n, c), c);
    SentOnOwnChannel(tags, results, n, c);
    CollectMapHoldsEvery(txid, items);
    forall k | k in r ensures k.0 == txid && k.1 < n && results[k.1].Some? {
      var j := CollectMapKey(txid, items, k);
    }
    forall i | 0 <= i < n && results[i].Some?
      ensures (txid, i) in r && r[(txid, i)] == ItemFor(tags, results[i].value, OutputIndex(i, c)).value
    {
      var item := ItemFor(tags, results[i].value, OutputIndex(i, c));
      assert item in items;
      var j :| 0 <= j < |items| && items[j] == item;
    }
  }

  /** Registering one transaction on an idle runner, flushing and collecting yields exactly its
      hits: an entry at index i iff the primitive matched output i, carrying the matched key's
      tag, the recipient and the note; and no entry for any other index. */
  method ScanOneTransaction(runner: BatchRunner, blockTag: BlockHash, txid: TxId,
                            domain: () -> Domain, outs: seq<CompactOutput>)
    returns (r: map<ResultIndex, DecryptedNote>)
    requires runner.Valid() && runner.acc.IsEmpty()
    modifies runner.Repr()
    ensures ExactlyTheHits(runner.keyTags, runner.decrypt(runner.keyIvks, WithDomains(domain, outs)), |outs|, txid, r)
  {
    var key := ResultKey(blockTag, txid);
    ghost var tags, ivks := runner.keyTags, runner.keyIvks;
    ghost var c := runner.store.next;
    ghost var registered := Registered(runner.store.queues, runner.pendingResults, key, c);
    RegisteredFresh(runner.store.queues, runner.pendingResults, key, c);
    ghost var outputs := WithDomains(domain, outs);
    ghost var repliers := RepliersFor(|outs|, c);
    ghost var results := runner.decrypt(ivks, outputs);
    assert |results| == |outs| && HitsBelow(results, |tags|);
    assert runner.acc.Contents() == BatchContents(tags, ivks, [], []);
    assert [] + outputs == outputs && [] + repliers == repliers;

    runner.AddOutputs(blockTag, txid, domain, outs);
    runner.Flush();
    assert runner.store.queues == Deliver(tags, results, repliers, registered);

    DeliverOwnChannel(tags, results, |outs|, c, registered);
    ghost var items := runner.store.queues[c];
    assert key in runner.pendingResults && runner.pendingResults[key] == c;
    r := runner.CollectResults(blockTag, txid);
    assert r == CollectMap(txid, items);
    CollectedExactlyTheHits(tags, results, |outs|, c, txid, r);
  }

  /** Both halves of a split sequence of results keep their key indices in range. */
  lemma HitsBelowSlices(results: seq<Option<Hit>>, m: nat, bound: nat)
    requires m <= |results| && HitsBelow(results, bound)
    ensures HitsBelow(results[..m], bound) && HitsBelow(results[m..], bound)
  {
    forall i | 0 <= i < m ensures results[..m][i] == results[i] {}
    forall i | 0 <= i < |results| - m ensures results[m..][i] == results[m + i] {}
  }

  /** The items sent to `c` by two runs of repliers are those of each run in turn. */
  lemma {:induction false} SentToAppend(tags: seq<KeyTag>, results: seq<Option<Hit>>,
                                        p1: seq<OutputReplier>, p2: seq<OutputReplier>, c: ChannelId)
    requires |results| == |p1| + |p2| && HitsBelow(results, |tags|)
    ensures HitsBelow(results[..|p1|], |tags|) && HitsBelow(results[|p1|..], |tags|)
    ensures SentTo(tags, results, p1 + p2, c)
         == SentTo(tags, results[..|p1|], p1, c) + SentTo(tags, results[|p1|..], p2, c)
    decreases |p1|
  {
    HitsBelowSlices(results, |p1|, |tags|);
    if p1 == [] {
      assert p1 + p2 == p2 && results[|p1|..] == results;
    } else {
      var rs, q1 := results[1..], p1[1..];
      var front := results[..|p1|];
      HitsBelowTail(results, |tags|);
      HitsBelowTail(front, |tags|);
      assert (p1 + p2)[0] == p1[0] && (p1 + p2)[1..] == q1 + p2;
      assert front[0] == results[0] && front[1..] == rs[..|q1|];
      assert rs[|q1|..] == results[|p1|..];
      SentToAppend(tags, rs, q1, p2, c);
      var head := if results[0].Some? && p1[0].value == c then [ItemFor(tags, results[0].value, p1[0])] else [];
      assert SentTo(tags, results, p1 + p2, c) == head + SentTo(tags, rs, q1 + p2, c);
      assert SentTo(tags, front, p1, c) == head + SentTo(tags, rs[..|q1|], q1, c);
    }
  }

  /** Two transactions' repliers in turn: the first `n` report to `c1`, the next `n` to `c2`. */
  lemma RepliersForTwice(n: nat, c1: ChannelId, c2: ChannelId)
    ensures |RepliersFor(n, c1) + RepliersFor(n, c2)| == n + n
    ensures forall i :: 0 <= i < n ==> (RepliersFor(n, c1) + RepliersFor(n, c2))[i].value == c1
    ensures forall i :: n <= i < n + n ==> (RepliersFor(n, c1) + RepliersFor(n, c2))[i].value == c2
  {
    RepliersForIndexed(n, c1);
    RepliersForIndexed(n, c2);
  }

  /** A batch holding the same transaction's outputs twice, the first copy answered on the
      dropped channel `c1` and the second on the live, empty channel `c2`: a hit in the first copy
      ends the dispatch before anything reaches `c2`. */
  lemma DuplicateHitFirst(tags: seq<KeyTag>, results: seq<Option<Hit>>, n: nat, c1: ChannelId, c2: ChannelId,
                          queues: map<ChannelId, seq<OutputItem>>, i: nat)
    requires |results| == n + n && HitsBelow(results, |tags|)
    requires c1 !in queues && c2 in queues && c1 != c2
    requires i < n && results[i].Some?
    ensures Deliver(tags, results, RepliersFor(n, c1) + RepliersFor(n, c2), queues)[c2] == queues[c2]
  {
    var ps := RepliersFor(n, c1) + RepliersFor(n, c2);
    RepliersForTwice(n, c1, c2);
    var k := DeliverDeliversPrefix(tags, results, ps, queues);
    assert ps[i].value !in queues;
    assert k <= i;
    SentToAbsent(tags, results[..k], ps[..k], c2);
  }

  /** Only the second copy's repliers report to `c2`. */
  lemma SentToSecondCopy(tags: seq<KeyTag>, results: seq<Option<Hit>>, n: nat, c1: ChannelId, c2: ChannelId)
    requires |results| == n + n && HitsBelow(results, |tags|) && c1 != c2
    ensures HitsBelow(results[n..], |tags|)
    ensures SentTo(tags, results, RepliersFor(n, c1) + RepliersFor(n, c2), c2)
         == SentTo(tags, results[n..], RepliersFor(n, c2), c2)
  {
    var p1, p2 := RepliersFor(n, c1), RepliersFor(n, c2);
    RepliersForIndexed(n, c1);
    SentToAppend(tags, results, p1, p2, c2);
    SentToAbsent(tags, results[..n], p1, c2);
    assert [] + SentTo(tags, results[n..], p2, c2) == SentTo(tags, results[n..], p2, c2);
  }

  /** With no hit in the first copy, every hit reports to the live channel `c2`. */
  lemma LiveSecondCopy(results: seq<Option<Hit>>, n: nat, c1: ChannelId, c2: ChannelId,
                       queues: map<ChannelId, seq<OutputItem>>)
    requires |results| == n + n && c2 in queues
    requires forall i :: 0 <= i < n ==> results[i].None?
    ensures LiveUpTo(results, RepliersFor(n, c1) + RepliersFor(n, c2), queues, |results|)
  {
    var ps := RepliersFor(n, c1) + RepliersFor(n, c2);
    RepliersForTwice(n, c1, c2);
    forall j | 0 <= j < |results| && j < |ps| && results[j].Some? ensures ps[j].value in queues {
      assert n <= j;
    }
  }

  /** The same batch with no hit in the first copy: every send succeeds and `c2` gets the second
      copy's hits. */
  lemma DuplicateNoHitFirst(tags: seq<KeyTag>, results: seq<Option<Hit>>, n: nat, c1: ChannelId, c2: ChannelId,
                            queues: map<ChannelId, seq<OutputItem>>)
    requires |results| == n + n && HitsBelow(results, |tags|)
    requires c1 != c2 && c2 in queues
    requires forall i :: 0 <= i < n ==> results[i].None?
    ensures HitsBelow(results[n..], |tags|)
    ensures Deliver(tags, results, RepliersFor(n, c1) + RepliersFor(n, c2), queues)[c2]
         == queues[c2] + SentTo(tags, results[n..], RepliersFor(n, c2), c2)
  {
    LiveSecondCopy(results, n, c1, c2, queues);
    DeliverAllLive(tags, results, RepliersFor(n, c1) + RepliersFor(n, c2), queues);
    SentToSecondCopy(tags, results, n, c1, c2);
  }

  /** Both cases together: what the live channel of a twice-registered transaction receives. */
  lemma DuplicateDelivery(tags: seq<KeyTag>, results: seq<Option<Hit>>, n: nat, c1: ChannelId, c2: ChannelId,
                          queues: map<ChannelId, seq<OutputItem>>)
    requires |results| == n + n && HitsBelow(results, |tags|)
    requires c1 !in queues && c2 in queues && queues[c2] == []
    ensures HitsBelow(results[n..], |tags|)
    ensures (exists i :: 0 <= i < n && results[i].Some?) ==>
      Deliver(tags, results, RepliersFor(n, c1) + RepliersFor(n, c2), queues)[c2] == []
    ensures (forall i :: 0 <= i < n ==> results[i].None?) ==>
      Deliver(tags, results, RepliersFor(n, c1) + RepliersFor(n, c2), queues)[c2]
      == SentTo(tags, results[n..], RepliersFor(n, c2), c2)
  {
    assert HitsBelow(results[n..], |tags|) by {
      forall i | 0 <= i < n ensures results[n..][i] == results[n + i] {}
    }
    if i :| 0 <= i < n && results[i].Some? {
      DuplicateHitFirst(tags, results, n, c1, c2, queues, i);
    } else {
      DuplicateNoHitFirst(tags, results, n, c1, c2, queues);
      assert [] + SentTo(tags, results[n..], RepliersFor(n, c2), c2) == SentTo(tags, results[n..], RepliersFor(n, c2), c2);
    }
  }

  /** The first half of `RegisterTwice`: both registrations and the flush. The first copy's
      repliers report to `c1`, whose receiver the second registration dropped; the second copy's
      to `c2`, the receiver now filed under the key. */
  method StageTwice(runner: BatchRunner, blockTag: BlockHash, txid: TxId,
                    domain: () -> Domain, outs: seq<CompactOutput>)
    returns (ghost c1: ChannelId, ghost c2: ChannelId, ghost registered: map<ChannelId, seq<OutputItem>>)
    requires runner.Valid() && runner.acc.IsEmpty() && |outs| < runner.batchSizeThreshold
    modifies runner.Repr()
    ensures runner.Valid() && runner.acc.IsEmpty()
    ensures ResultKey(blockTag, txid) in runner.pendingResults && runner.pendingResults[ResultKey(blockTag, txid)] == c2
    ensures c1 != c2 && c1 !in registered && c2 in registered && registered[c2] == []
    ensures |runner.decrypt(runner.keyIvks, WithDomains(domain, outs) + WithDomains(domain, outs))| == |outs| + |outs|
    ensures HitsBelow(runner.decrypt(runner.keyIvks, WithDomains(domain, outs) + WithDomains(domain, outs)), |runner.keyTags|)
    ensures runner.store.queues == Deliver(runner.keyTags,
      runner.decrypt(runner.keyIvks, WithDomains(domain, outs) + WithDomains(domain, outs)),
      RepliersFor(|outs|, c1) + RepliersFor(|outs|, c2), registered)
  {
    var key := ResultKey(blockTag, txid);
    ghost var tags, ivks := runner.keyTags, runner.keyIvks;
    ghost var n := |outs|;
    c1 := runner.store.next;
    c2 := c1 + 1;
    ghost var outputs := WithDomains(domain, outs);
    ghost var p1, p2 := RepliersFor(n, c1), RepliersFor(n, c2);
    ghost var results := runner.decrypt(ivks, outputs + outputs);
    assert |results| == n + n && HitsBelow(results, |tags|);
    assert runner.acc.Contents() == BatchContents(tags, ivks, [], []);
    assert [] + outputs == outputs && [] + p1 == p1;

    runner.AddOutputs(blockTag, txid, domain, outs);
    assert runner.acc.Contents() == BatchContents(tags, ivks, outputs, p1);
    assert key in runner.pendingResults && runner.pendingResults[key] == c1;
    registered := Registered(runner.store.queues, runner.pendingResults, key, c2);
    assert c1 !in registered && c2 in registered && registered[c2] == [];

    assert runner.store.next == c2;
    assert Staged(runner.acc.Contents(), domain, outs, c2) == BatchContents(tags, ivks, outputs + outputs, p1 + p2);
    runner.AddOutputs(blockTag, txid, domain, outs);
    runner.Flush();
  }

  /** Registering the same transaction under the same key twice before its batch runs (the
      threshold not reached by one copy), then flushing and collecting: the second registration
      drops the first receiver, so a hit in the first copy stops the batch and nothing is
      collected; otherwise exactly the second copy's hits are. */
  method RegisterTwice(runner: BatchRunner, blockTag: BlockHash, txid: TxId,
                       domain: () -> Domain, outs: seq<CompactOutput>)
    returns (r: map<ResultIndex, DecryptedNote>)
    requires runner.Valid() && runner.acc.IsEmpty() && |outs| < runner.batchSizeThreshold
    modifies runner.Repr()
    ensures |runner.decrypt(runner.keyIvks, WithDomains(domain, outs) + WithDomains(domain, outs))| == |outs| + |outs|
    ensures (exists i :: 0 <= i < |outs| &&
               runner.decrypt(runner.keyIvks, WithDomains(domain, outs) + WithDomains(domain, outs))[i].Some?)
            ==> r == map[]
    ensures (forall i :: 0 <= i < |outs| ==>
               runner.decrypt(runner.keyIvks, WithDomains(domain, outs) + WithDomains(domain, outs))[i].None?)
            ==> ExactlyTheHits(runner.keyTags,
                               runner.decrypt(runner.keyIvks, WithDomains(domain, outs) + WithDomains(domain, outs))[|outs|..],
                               |outs|, txid, r)
  {
    ghost var tags := runner.keyTags;
    ghost var n := |outs|;
    ghost var results := runner.decrypt(runner.keyIvks, WithDomains(domain, outs) + WithDomains(domain, outs));
    ghost var c1, c2, registered := StageTwice(runner, blockTag, txid, domain, outs);
    ghost var items := runner.store.queues[c2];
    r := runner.CollectResults(blockTag, txid);
    assert r == CollectMap(txid, items);
    DuplicateDelivery(tags, results, n, c1, c2, registered);
    if forall i :: 0 <= i < n ==> results[i].None? {
      CollectedExactlyTheHits(tags, results[n..], n, c2, txid, r);
    }
  }
}
