/** Heap-usage estimates: the block-allocated result channel, vector and table sizes, and the
    (lower, upper) bounds pairs the estimates are reported with. */
module Usage {
  import opened Primitives

  /** The byte sizes the estimates are built from: `mem::size_of` of the pointer, the atomic slot
      state, a channel item, an `Arc`, and a usage-tracked task; and the heap cost per element of
      each vector or table, which the platform's allocator decides. */
  datatype Sizes = Sizes(ptr: nat, atomicUsize: nat, outputItem: nat, arc: nat, withUsageTask: nat,
                         tag: nat, ivk: nat, output: nat, replier: nat, pendingEntry: nat)

  /** An unbounded channel allocates its queue in blocks of this many slots. */
  const ITEMS_PER_BLOCK: nat := 31

  /** The number of blocks holding `numItems` queued items: the least number that has room. */
  function NumBlocks(numItems: nat): (b: nat)
    ensures numItems <= b * ITEMS_PER_BLOCK < numItems + ITEMS_PER_BLOCK
  {
    (numItems + ITEMS_PER_BLOCK - 1) / ITEMS_PER_BLOCK
  }

  /** A block: the pointer to the next block, then per slot an item and its atomic state. */
  function BlockSize(s: Sizes): nat {
    s.ptr + ITEMS_PER_BLOCK * (s.outputItem + s.atomicUsize)
  }

  /** The heap held by a result receiver with `numItems` undelivered items: whole blocks. */
  function ReceiverUsage(numItems: nat, s: Sizes): nat {
    NumBlocks(numItems) * BlockSize(s)
  }

  /** A receiver's heap is nothing when its queue is empty, and otherwise at least one slot per
      item and at least one block, wasting less than one block. */
  lemma ReceiverUsageBounds(numItems: nat, s: Sizes)
    ensures numItems == 0 ==> ReceiverUsage(numItems, s) == 0
    ensures numItems * (s.outputItem + s.atomicUsize) <= ReceiverUsage(numItems, s)
    ensures numItems > 0 ==> BlockSize(s) <= ReceiverUsage(numItems, s)
    ensures ITEMS_PER_BLOCK * ReceiverUsage(numItems, s) < (numItems + ITEMS_PER_BLOCK) * BlockSize(s)
            || BlockSize(s) == 0
  {
    SlotsCoverItems(numItems, NumBlocks(numItems), s);
  }

  lemma SlotsCoverItems(numItems: nat, b: nat, s: Sizes)
    requires numItems <= b * ITEMS_PER_BLOCK < numItems + ITEMS_PER_BLOCK
    ensures numItems * (s.outputItem + s.atomicUsize) <= b * BlockSize(s)
    ensures numItems > 0 ==> BlockSize(s) <= b * BlockSize(s)
    ensures ITEMS_PER_BLOCK * (b * BlockSize(s)) < (numItems + ITEMS_PER_BLOCK) * BlockSize(s) || BlockSize(s) == 0
  {
    var slot := s.outputItem + s.atomicUsize;
    calc {
      numItems * slot;
    <= { MulMono(numItems, b * ITEMS_PER_BLOCK, slot); }
      b * ITEMS_PER_BLOCK * slot;
    <= b * (s.ptr + ITEMS_PER_BLOCK * slot);
    }
    if numItems > 0 {
      MulMono(1, b, BlockSize(s));
    }
    if BlockSize(s) > 0 {
      MulStrict(b * ITEMS_PER_BLOCK, numItems + ITEMS_PER_BLOCK, BlockSize(s));
    }
  }

  lemma MulMono(x: nat, y: nat, z: nat)
    requires x <= y
    ensures x * z <= y * z
  {}

  lemma MulStrict(x: nat, y: nat, z: nat)
    requires x < y && z > 0
    ensures x * z < y * z
  {}

  /** The heap of a vector of `len` elements, each costing `elemSize`. */
  function VecUsage(len: nat, elemSize: nat): nat {
    len * elemSize
  }

  /** A usage estimate's lower bound and optional upper bound. */
  datatype UsageBounds = UsageBounds(lower: nat, upper: Option<nat>)

  /** The bounds of an estimate that is taken as exact. */
  function Exact(u: nat): UsageBounds {
    UsageBounds(u, Some(u))
  }

  /** The bounds of a sum: lower bounds add, and upper bounds add when both are known. */
  function Plus(a: UsageBounds, b: UsageBounds): UsageBounds {
    UsageBounds(a.lower + b.lower,
                match (a.upper, b.upper)
                case (Some(x), Some(y)) => Some(x + y)
                case _ => None)
  }

  /** `b` brackets the usage `u`: its lower bound is at most `u`, and its upper bound, when known,
      at least `u`. */
  predicate Brackets(b: UsageBounds, u: nat) {
    b.lower <= u && (b.upper.Some? ==> u <= b.upper.value)
  }

  /** Adding bounds is sound: bounds of two usages, added, bracket the sum of the usages. */
  lemma PlusBrackets(a: UsageBounds, b: UsageBounds, x: nat, y: nat)
    requires Brackets(a, x) && Brackets(b, y)
    ensures Brackets(Plus(a, b), x + y)
  {
  }
}
