/** The two task strategies a batch runner can be configured with: an untracked one whose task is
    the batch itself, and one that charges every running task's heap to a shared counter. The
    worker pool is an inline executor: a submitted task runs to completion before submission
    returns. */
module Tasks {
  import opened Primitives
  import opened Channels
  import opened Batches
  import opened Usage

  /** The untracked strategy's task for `item` is `item` itself: nothing wraps it. */
  function UntrackedAddTask(item: Batch): Batch {
    item
  }

  /** The shared counter of heap bytes charged to running tasks. */
  class WithUsage {
    var runningUsage: nat

    constructor ()
      ensures runningUsage == 0
    {
      runningUsage := 0;
    }

    /** The heap currently charged to running tasks. */
    function DynamicUsage(): nat
      reads this
    {
      runningUsage
    }

    /** The usage taken as its own upper and lower bound. */
    function DynamicUsageBounds(): UsageBounds
      reads this
    {
      var usage := DynamicUsage();
      UsageBounds(usage, Some(usage))
    }

    /** Wraps `item` in a task whose footprint is its environment pointer, the task itself and the
        batch's heap, and charges that footprint to the counter. */
    method AddTask(item: Batch, s: Sizes) returns (task: WithUsageTask)
      modifies this
      ensures fresh(task) && task.item == item && task.counter == this
      ensures task.ownUsage == s.arc + s.withUsageTask + item.DynamicUsage(s)
      ensures runningUsage == old(runningUsage) + task.ownUsage
    {
      task := new WithUsageTask(item, this);
      task.ownUsage := s.arc + s.withUsageTask + item.DynamicUsage(s);
      runningUsage := runningUsage + task.ownUsage;
    }
  }

  /** A task that returns its own footprint to the counter once its batch has run. */
  class WithUsageTask {
    const item: Batch
    /** The footprint charged when the task was created; it does not change afterwards. */
    var ownUsage: nat
    const counter: WithUsage

    constructor (item: Batch, counter: WithUsage)
      ensures this.item == item && this.counter == counter && ownUsage == 0
    {
      this.item := item;
      this.counter := counter;
      ownUsage := 0;
    }

    /** Runs the batch, then takes the task's footprint off the counter. */
    method Run(store: ChannelStore, decrypt: Decryptor)
      requires item.Valid() && store.Valid() && PreservesShape(decrypt)
      requires ownUsage <= counter.runningUsage
      modifies store, counter
      ensures store.Valid() && store.next == old(store.next)
      ensures HitsBelow(decrypt(item.ivks, item.outputs), |item.tags|)
      ensures store.queues == Deliver(item.tags, decrypt(item.ivks, item.outputs), item.repliers, old(store.queues))
      ensures counter.runningUsage == old(counter.runningUsage) - ownUsage
    {
      item.Run(store, decrypt);
      counter.runningUsage := counter.runningUsage - ownUsage;
    }
  }

  /** Which strategy a runner uses; a tracked runner owns its counter. */
  datatype Strategy = Untracked | Tracked(tracker: WithUsage)

  /** The objects a strategy updates. */
  function StrategyRepr(t: Strategy): set<object> {
    if t.Tracked? then {t.tracker} else {}
  }

  /** The heap a strategy reports for its running tasks: none when untracked. */
  function TasksUsage(t: Strategy): nat
    reads StrategyRepr(t)
  {
    if t.Tracked? then t.tracker.DynamicUsage() else 0
  }

  /** Submits `item` to the (inline) worker pool: the strategy makes the task, the task runs.
      A tracked task's footprint is charged and then returned, so the counter ends where it
      started. */
  method RunTask(t: Strategy, item: Batch, s: Sizes, store: ChannelStore, decrypt: Decryptor)
    requires item.Valid() && store.Valid() && PreservesShape(decrypt)
    modifies store, StrategyRepr(t)
    ensures store.Valid() && store.next == old(store.next)
    ensures HitsBelow(decrypt(item.ivks, item.outputs), |item.tags|)
    ensures store.queues == Deliver(item.tags, decrypt(item.ivks, item.outputs), item.repliers, old(store.queues))
    ensures t.Tracked? ==> t.tracker.runningUsage == old(t.tracker.runningUsage)
  {
    match t {
      case Untracked =>
        var task := UntrackedAddTask(item);
        task.Run(store, decrypt);
      case Tracked(w) =>
        var task := w.AddTask(item, s);
        task.Run(store, decrypt);
    }
  }
}
