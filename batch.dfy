/** A batch of outputs to trial-decrypt against a fixed key set, and the dispatch of its results. */
module Batches {
  import opened Primitives
  import opened ScanTypes
  import opened Channels
  import opened Usage

  /** The result sent for the output behind replier `r` when the primitive reported hit `h`:
      the key tag is looked up by the matched key's index. */
  function ItemFor(tags: seq<KeyTag>, h: Hit, r: OutputReplier): OutputItem
    requires h.ivkIdx < |tags|
  {
    OutputIndex(r.outputIndex, DecryptedNote(tags[h.ivkIdx], h.recipient, h.note))
  }

  /** The mailboxes after dispatching `results` to `repliers` (paired position by position) in
      order: a hit is appended to its replier's channel, a miss sends nothing, and the first send
      to a channel whose receiver is gone ends the dispatch. */
  function Deliver(tags: seq<KeyTag>, results: seq<Option<Hit>>, repliers: seq<OutputReplier>,
                   queues: map<ChannelId, seq<OutputItem>>): (r: map<ChannelId, seq<OutputItem>>)
    requires HitsBelow(results, |tags|)
    ensures r.Keys == queues.Keys
    decreases |results|
  {
    if results == [] || repliers == [] then queues
    else
      assert HitsBelow(results[1..], |tags|) by {
        forall i | 0 <= i < |results[1..]| && results[1..][i].Some?
          ensures results[1..][i].value.ivkIdx < |tags|
        {
          assert results[1..][i] == results[i + 1];
        }
      }
      match results[0]
      case None => Deliver(tags, results[1..], repliers[1..], queues)
      case Some(h) =>
        var c := repliers[0].value;
        if c in queues then
          Deliver(tags, results[1..], repliers[1..], queues[c := queues[c] + [ItemFor(tags, h, repliers[0])]])
        else
          queues
  }

  /** The items a dispatch in which no send fails puts on channel `c`, in output order. */
  function SentTo(tags: seq<KeyTag>, results: seq<Option<Hit>>, repliers: seq<OutputReplier>,
                  c: ChannelId): seq<OutputItem>
    requires HitsBelow(results, |tags|)
    decreases |results|
  {
    if results == [] || repliers == [] then []
    else
      assert HitsBelow(results[1..], |tags|) by {
        forall i | 0 <= i < |results[1..]| && results[1..][i].Some?
          ensures results[1..][i].value.ivkIdx < |tags|
        {
          assert results[1..][i] == results[i + 1];
        }
      }
      (if results[0].Some? && repliers[0].value == c then [ItemFor(tags, results[0].value, repliers[0])] else [])
      + SentTo(tags, results[1..], repliers[1..], c)
  }

  /** Every hit among the first `k` paired positions reports to a channel with a live receiver. */
  ghost predicate LiveUpTo(results: seq<Option<Hit>>, repliers: seq<OutputReplier>,
                           queues: map<ChannelId, seq<OutputItem>>, k: nat)
  {
    forall i :: 0 <= i < k && i < |results| && i < |repliers| && results[i].Some? ==> repliers[i].value in queues
  }

  /** The output indices of the repliers that report to one channel are pairwise distinct. */
  ghost predicate DistinctPerChannel(repliers: seq<OutputReplier>) {
    forall i, j :: 0 <= i < j < |repliers| && repliers[i].value == repliers[j].value ==>
      repliers[i].outputIndex != repliers[j].outputIndex
  }

  /** The items of one mailbox carry pairwise distinct output indices. */
  ghost predicate DistinctIndices(items: seq<OutputItem>) {
    forall i, j :: 0 <= i < j < |items| ==> items[i].outputIndex != items[j].outputIndex
  }

  lemma HitsBelowTail(results: seq<Option<Hit>>, n: nat)
    requires results != [] && HitsBelow(results, n)
    ensures HitsBelow(results[1..], n)
  {
    forall i | 0 <= i < |results[1..]| && results[1..][i].Some? ensures results[1..][i].value.ivkIdx < n {
      assert results[1..][i] == results[i + 1];
    }
  }

  /** When every send succeeds, each channel receives exactly its hits, in output order. */
  lemma {:induction false} DeliverAllLive(tags: seq<KeyTag>, results: seq<Option<Hit>>,
                                          repliers: seq<OutputReplier>, queues: map<ChannelId, seq<OutputItem>>)
    requires HitsBelow(results, |tags|)
    requires LiveUpTo(results, repliers, queues, |results|)
    ensures forall c :: c in queues ==>
      Deliver(tags, results, repliers, queues)[c] == queues[c] + SentTo(tags, results, repliers, c)
  {
    if results == [] || repliers == [] {
    } else {
      HitsBelowTail(results, |tags|);
      var rs, ps := results[1..], repliers[1..];
      match results[0]
      case None =>
        assert LiveUpTo(rs, ps, queues, |rs|) by {
          forall i | 0 <= i < |rs| && i < |ps| && rs[i].Some? ensures ps[i].value in queues {
            assert rs[i] == results[i + 1] && ps[i] == repliers[i + 1];
          }
        }
        DeliverAllLive(tags, rs, ps, queues);
      case Some(h) =>
        var c0 := repliers[0].value;
        assert c0 in queues;
        var q := queues[c0 := queues[c0] + [ItemFor(tags, h, repliers[0])]];
        assert LiveUpTo(rs, ps, q, |rs|) by {
          forall i | 0 <= i < |rs| && i < |ps| && rs[i].Some? ensures ps[i].value in q {
            assert rs[i] == results[i + 1] && ps[i] == repliers[i + 1];
          }
        }
        DeliverAllLive(tags, rs, ps, q);
    }
  }

  /** The dispatch ends at the first failed send: if the hit at position k goes to a dropped
      receiver, nothing from position k on is delivered, on any channel. */
  lemma {:induction false} DeliverStopsAtFailure(tags: seq<KeyTag>, results: seq<Option<Hit>>,
                                                 repliers: seq<OutputReplier>,
                                                 queues: map<ChannelId, seq<OutputItem>>, k: nat)
    requires HitsBelow(results, |tags|)
    requires k < |results| && k < |repliers|
    requires results[k].Some? && repliers[k].value !in queues
    ensures HitsBelow(results[..k], |tags|)
    ensures Deliver(tags, results, repliers, queues) == Deliver(tags, results[..k], repliers[..k], queues)
  {
    assert HitsBelow(results[..k], |tags|) by {
      forall i | 0 <= i < k && results[..k][i].Some? ensures results[..k][i].value.ivkIdx < |tags| {
        assert results[..k][i] == results[i];
      }
    }
    if k == 0 {
    } else {
      HitsBelowTail(results, |tags|);
      var rs, ps := results[1..], repliers[1..];
      assert results[..k][1..] == rs[..k - 1];
      assert repliers[..k][1..] == ps[..k - 1];
      assert rs[k - 1] == results[k] && ps[k - 1] == repliers[k];
      match results[0]
      case None =>
        DeliverStopsAtFailure(tags, rs, ps, queues, k - 1);
      case Some(h) =>
        var c0 := repliers[0].value;
        if c0 in queues {
          var q := queues[c0 := queues[c0] + [ItemFor(tags, h, repliers[0])]];
          DeliverStopsAtFailure(tags, rs, ps, q, k - 1);
        }
    }
  }

  /** Whatever happens, each channel ends up with its old items followed by the hits of some
      prefix of the batch: the positions before the first failed send, or all of them. */
  lemma {:induction false} DeliverDeliversPrefix(tags: seq<KeyTag>, results: seq<Option<Hit>>,
                                                 repliers: seq<OutputReplier>,
                                                 queues: map<ChannelId, seq<OutputItem>>)
    returns (k: nat)
    requires HitsBelow(results, |tags|)
    ensures k <= |results| && k <= |repliers|
    ensures HitsBelow(results[..k], |tags|)
    ensures LiveUpTo(results, repliers, queues, k)
    ensures forall c :: c in queues ==>
      Deliver(tags, results, repliers, queues)[c] == queues[c] + SentTo(tags, results[..k], repliers[..k], c)
  {
    if results == [] || repliers == [] {
      k := 0;
    } else {
      HitsBelowTail(results, |tags|);
      var rs, ps := results[1..], repliers[1..];
      match results[0]
      case None =>
        var k' := DeliverDeliversPrefix(tags, rs, ps, queues);
        k := k' + 1;
        assert results[..k][1..] == rs[..k'];
        assert repliers[..k][1..] == ps[..k'];
        assert LiveUpTo(results, repliers, queues, k) by {
          forall i | 0 <= i < k && i < |results| && i < |repliers| && results[i].Some?
            ensures repliers[i].value in queues
          {
            assert i > 0 && rs[i - 1] == results[i] && ps[i - 1] == repliers[i];
          }
        }
      case Some(h) =>
        var c0 := repliers[0].value;
        if c0 in queues {
          var q := queues[c0 := queues[c0] + [ItemFor(tags, h, repliers[0])]];
          var k' := DeliverDeliversPrefix(tags, rs, ps, q);
          k := k' + 1;
          assert results[..k][1..] == rs[..k'];
          assert repliers[..k][1..] == ps[..k'];
          assert LiveUpTo(results, repliers, queues, k) by {
            forall i | 0 <= i < k && i < |results| && i < |repliers| && results[i].Some?
              ensures repliers[i].value in queues
            {
              if i > 0 {
                assert rs[i - 1] == results[i] && ps[i - 1] == repliers[i];
              }
            }
          }
        } else {
          k := 0;
        }
    }
  }

  /** The dispatch up to the first failed send is unaffected by it: every channel holds exactly
      the hits of the positions before it. */
  lemma DeliverUpToFirstFailure(tags: seq<KeyTag>, results: seq<Option<Hit>>,
                                repliers: seq<OutputReplier>, queues: map<ChannelId, seq<OutputItem>>, k: nat)
    requires HitsBelow(results, |tags|)
    requires k < |results| && k < |repliers|
    requires results[k].Some? && repliers[k].value !in queues
    requires LiveUpTo(results, repliers, queues, k)
    ensures HitsBelow(results[..k], |tags|)
    ensures forall c :: c in queues ==>
      Deliver(tags, results, repliers, queues)[c] == queues[c] + SentTo(tags, results[..k], repliers[..k], c)
  {
    DeliverStopsAtFailure(tags, results, repliers, queues, k);
    assert LiveUpTo(results[..k], repliers[..k], queues, k);
    DeliverAllLive(tags, results[..k], repliers[..k], queues);
  }

  /** A channel with no replier in the batch receives nothing. */
  lemma {:induction false} SentToAbsent(tags: seq<KeyTag>, results: seq<Option<Hit>>,
                                        repliers: seq<OutputReplier>, c: ChannelId)
    requires HitsBelow(results, |tags|)
    requires forall i :: 0 <= i < |repliers| ==> repliers[i].value != c
    ensures SentTo(tags, results, repliers, c) == []
  {
    if results != [] && repliers != [] {
      HitsBelowTail(results, |tags|);
      SentToAbsent(tags, results[1..], repliers[1..], c);
    }
  }

  /** Each item sent to `c` comes from a hit at a position whose replier reports to `c`
      (soundness), carrying that replier's output index and the matched key's tag. */
  lemma {:induction false} SentToSound(tags: seq<KeyTag>, results: seq<Option<Hit>>,
                                       repliers: seq<OutputReplier>, c: ChannelId, j: nat)
    returns (i: nat)
    requires HitsBelow(results, |tags|)
    requires j < |SentTo(tags, results, repliers, c)|
    ensures i < |results| && i < |repliers| && results[i].Some? && repliers[i].value == c
    ensures SentTo(tags, results, repliers, c)[j] == ItemFor(tags, results[i].value, repliers[i])
  {
    HitsBelowTail(results, |tags|);
    var head := if results[0].Some? && repliers[0].value == c then [ItemFor(tags, results[0].value, repliers[0])] else [];
    if j < |head| {
      i := 0;
    } else {
      var i' := SentToSound(tags, results[1..], repliers[1..], c, j - |head|);
      i := i' + 1;
    }
  }

  /** Each hit whose replier reports to `c` is among the items sent to `c` (completeness). */
  lemma {:induction false} SentToComplete(tags: seq<KeyTag>, results: seq<Option<Hit>>,
                                          repliers: seq<OutputReplier>, c: ChannelId, i: nat)
    requires HitsBelow(results, |tags|)
    requires i < |results| && i < |repliers| && results[i].Some? && repliers[i].value == c
    ensures ItemFor(tags, results[i].value, repliers[i]) in SentTo(tags, results, repliers, c)
  {
    HitsBelowTail(results, |tags|);
    if i > 0 {
      SentToComplete(tags, results[1..], repliers[1..], c, i - 1);
    }
  }

  /** If a channel's repliers carry distinct output indices, so do the items sent to it. */
  lemma {:induction false} SentToDistinct(tags: seq<KeyTag>, results: seq<Option<Hit>>,
                                          repliers: seq<OutputReplier>, c: ChannelId)
    requires HitsBelow(results, |tags|)
    requires DistinctPerChannel(repliers)
    ensures DistinctIndices(SentTo(tags, results, repliers, c))
  {
    if results != [] && repliers != [] {
      HitsBelowTail(results, |tags|);
      var rs, ps := results[1..], repliers[1..];
      assert DistinctPerChannel(ps) by {
        forall i, j | 0 <= i < j < |ps| && ps[i].value == ps[j].value ensures ps[i].outputIndex != ps[j].outputIndex {
          assert ps[i] == repliers[i + 1] && ps[j] == repliers[j + 1];
        }
      }
      SentToDistinct(tags, rs, ps, c);
      var tail := SentTo(tags, rs, ps, c);
      if results[0].Some? && repliers[0].value == c {
        forall j | 0 <= j < |tail| ensures tail[j].outputIndex != repliers[0].outputIndex {
          var i := SentToSound(tags, rs, ps, c, j);
          assert ps[i] == repliers[i + 1];
        }
      }
    }
  }

  /** A dispatch keeps every mailbox free of repeated output indices, provided each channel's
      repliers are distinct and the channels reported to hold nothing yet. */
  lemma DeliverKeepsDistinct(tags: seq<KeyTag>, results: seq<Option<Hit>>,
                             repliers: seq<OutputReplier>, queues: map<ChannelId, seq<OutputItem>>)
    requires HitsBelow(results, |tags|)
    requires DistinctPerChannel(repliers)
    requires forall c :: c in queues ==> DistinctIndices(queues[c])
    requires forall i :: 0 <= i < |repliers| && repliers[i].value in queues ==> queues[repliers[i].value] == []
    ensures forall c :: c in Deliver(tags, results, repliers, queues) ==>
      DistinctIndices(Deliver(tags, results, repliers, queues)[c])
  {
    var k := DeliverDeliversPrefix(tags, results, repliers, queues);
    var rs, ps := results[..k], repliers[..k];
    assert DistinctPerChannel(ps) by {
      forall i, j | 0 <= i < j < |ps| && ps[i].value == ps[j].value ensures ps[i].outputIndex != ps[j].outputIndex {
        assert ps[i] == repliers[i] && ps[j] == repliers[j];
      }
    }
    forall c | c in queues ensures DistinctIndices(Deliver(tags, results, repliers, queues)[c]) {
      if i :| 0 <= i < |ps| && ps[i].value == c {
        assert ps[i] == repliers[i];
        SentToDistinct(tags, rs, ps, c);
      } else {
        SentToAbsent(tags, rs, ps, c);
      }
    }
  }

  /** A snapshot of a batch, as submitted for execution. */
  datatype BatchContents = BatchContents(tags: seq<KeyTag>, ivks: seq<Ivk>,
                                         outputs: seq<(Domain, CompactOutput)>,
                                         repliers: seq<OutputReplier>)

  /** The `(domain, output)` pairs for `outs`, with a domain instance made for each output. */
  function WithDomains(domain: () -> Domain, outs: seq<CompactOutput>): seq<(Domain, CompactOutput)> {
    seq(|outs|, i requires 0 <= i < |outs| => (domain(), outs[i]))
  }

  /** One replier per output of a transaction, tagged 0, 1, ..., n - 1, all on channel `c`. */
  function RepliersFor(n: nat, c: ChannelId): seq<OutputReplier> {
    seq(n, i requires 0 <= i < n => OutputIndex(i, c))
  }

  class Batch {
    var tags: seq<KeyTag>
    var ivks: seq<Ivk>
    var outputs: seq<(Domain, CompactOutput)>
    var repliers: seq<OutputReplier>

    /** Keys and their tags, and outputs and their repliers, are parallel. */
    ghost predicate Valid()
      reads this
    {
      |tags| == |ivks| && |outputs| == |repliers|
    }

    ghost function Contents(): BatchContents
      reads this
    {
      BatchContents(tags, ivks, outputs, repliers)
    }

    constructor (tags: seq<KeyTag>, ivks: seq<Ivk>)
      requires |tags| == |ivks|
      ensures Valid() && IsEmpty()
      ensures this.tags == tags && this.ivks == ivks && outputs == [] && repliers == []
    {
      this.tags := tags;
      this.ivks := ivks;
      outputs := [];
      repliers := [];
    }

    /** A batch is empty, with nothing to decrypt and nobody to reply to, iff it has no outputs. */
    predicate IsEmpty()
      reads this
      ensures Valid() ==> (IsEmpty() <==> outputs == [] && repliers == [])
    {
      |outputs| == 0
    }

    /** The heap held by the batch's four vectors. */
    function DynamicUsage(s: Sizes): nat
      reads this
    {
      VecUsage(|tags|, s.tag) + VecUsage(|ivks|, s.ivk) + VecUsage(|outputs|, s.output) + VecUsage(|repliers|, s.replier)
    }

    /** The bounds of the batch's usage, combined from the bounds of its four vectors. */
    function DynamicUsageBounds(s: Sizes): (b: UsageBounds)
      reads this
      ensures b == Exact(DynamicUsage(s))
    {
      Plus(Plus(Plus(Exact(VecUsage(|tags|, s.tag)), Exact(VecUsage(|ivks|, s.ivk))),
                Exact(VecUsage(|outputs|, s.output))),
           Exact(VecUsage(|repliers|, s.replier)))
    }

    /** Appends the outputs of one transaction, each with its own domain instance and a replier on
        channel `replier` tagged with the output's index in the transaction. */
    method AddOutputs(domain: () -> Domain, outs: seq<CompactOutput>, replier: ChannelId)
      requires Valid()
      modifies this
      ensures Valid()
      ensures tags == old(tags) && ivks == old(ivks)
      ensures outputs == old(outputs) + WithDomains(domain, outs)
      ensures repliers == old(repliers) + RepliersFor(|outs|, replier)
      ensures |outputs| == |old(outputs)| + |outs| && |repliers| == |old(repliers)| + |outs|
      ensures outputs[..|old(outputs)|] == old(outputs) && repliers[..|old(repliers)|] == old(repliers)
      ensures forall i :: 0 <= i < |outs| ==>
        outputs[|old(outputs)| + i] == (domain(), outs[i]) && repliers[|old(repliers)| + i] == OutputIndex(i, replier)
    {
      outputs := outputs + WithDomains(domain, outs);
      repliers := repliers + RepliersFor(|outs|, replier);
    }

    /** Runs the batch's trial decryptions and reports each hit on its output's channel, stopping
        at the first send whose receiver is gone. */
    method Run(store: ChannelStore, decrypt: Decryptor)
      requires Valid() && store.Valid() && PreservesShape(decrypt)
      modifies store
      ensures store.Valid() && store.next == old(store.next)
      ensures HitsBelow(decrypt(ivks, outputs), |tags|)
      ensures store.queues == Deliver(tags, decrypt(ivks, outputs), repliers, old(store.queues))
    {
      var results := decrypt(ivks, outputs);
      var i := 0;
      while i < |results| && i < |repliers|
        invariant 0 <= i <= |results| && i <= |repliers|
        invariant store.Valid() && store.next == old(store.next)
        invariant HitsBelow(results[i..], |tags|)
        invariant Deliver(tags, results, repliers, old(store.queues))
               == Deliver(tags, results[i..], repliers[i..], store.queues)
      {
        HitsBelowTail(results[i..], |tags|);
        assert results[i..][1..] == results[i + 1..] && repliers[i..][1..] == repliers[i + 1..];
        match results[i] {
          case Some(h) =>
            var item := ItemFor(tags, h, repliers[i]);
            var ok := store.Send(repliers[i].value, item);
            if !ok {
              break;
            }
          case None =>
        }
        i := i + 1;
      }
    }
  }
}
