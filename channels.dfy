/** Unbounded multi-producer channels, modelled as one mailbox per channel. A channel is in
    `queues` exactly while its receiver is alive; a send to any other channel fails. */
module Channels {
  import opened ScanTypes

  class ChannelStore {
    /** The undelivered items of every channel whose receiver is still alive. */
    var queues: map<ChannelId, seq<OutputItem>>
    /** The next fresh channel id. */
    var next: ChannelId

    ghost predicate Valid()
      reads this
    {
      forall c :: c in queues ==> c < next
    }

    constructor ()
      ensures Valid() && queues == map[] && next == 0
    {
      queues := map[];
      next := 0;
    }

    /** Creates a fresh channel pair; the result names both halves. */
    method Unbounded() returns (c: ChannelId)
      requires Valid()
      modifies this
      ensures Valid()
      ensures c == old(next) && c !in old(queues)
      ensures next == old(next) + 1
      ensures queues == old(queues)[c := []]
    {
      c := next;
      queues := queues[c := []];
      next := next + 1;
    }

    /** Sends `item` on channel `c`; fails, changing nothing, when the receiver was dropped. */
    method Send(c: ChannelId, item: OutputItem) returns (ok: bool)
      requires Valid()
      modifies this
      ensures Valid() && next == old(next)
      ensures ok <==> c in old(queues)
      ensures queues == if ok then old(queues)[c := old(queues)[c] + [item]] else old(queues)
    {
      ok := c in queues;
      if ok {
        queues := queues[c := queues[c] + [item]];
      }
    }

    /** Drops the receiver of channel `c`: its queued items are discarded and later sends fail. */
    method DropReceiver(c: ChannelId)
      requires Valid()
      modifies this
      ensures Valid() && next == old(next)
      ensures queues == old(queues) - {c}
    {
      queues := queues - {c};
    }

    /** Consumes the receiver of channel `c`, yielding everything that was sent on it. */
    method Drain(c: ChannelId) returns (items: seq<OutputItem>)
      requires Valid() && c in queues
      modifies this
      ensures Valid() && next == old(next)
      ensures items == old(queues[c])
      ensures queues == old(queues) - {c}
    {
      items := queues[c];
      queues := queues - {c};
    }
  }
}
