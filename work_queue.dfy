/** The rate-limited work queue as the reconcilers use it: a FIFO of items
    and a log of every call made on it. Deduplication, per-key exclusion and
    the back-off timer of the real queue are not modelled; `AddRateLimited`
    is recorded but puts nothing back. */
module WorkQueue {
  import opened Base

  /** An item on the queue: a `namespace/name` key, or anything else. */
  datatype Item = Key(key: string) | Other(description: string)

  /** One call on the queue. A `GetCall` records what `Get` handed out,
      `None` when it reported shutdown. */
  datatype QueueCall =
    | AddCall(key: string)
    | GetCall(got: Option<Item>)
    | DoneCall(item: Item)
    | ForgetCall(item: Item)
    | AddRateLimitedCall(key: string)

  class Queue {
    var pending: seq<Item>
    var shuttingDown: bool
    var log: seq<QueueCall>

    constructor ()
      ensures pending == [] && !shuttingDown && log == []
    {
      pending := [];
      shuttingDown := false;
      log := [];
    }

    /** A queue that is shutting down ignores new keys. */
    method Add(key: string)
      modifies this
      ensures pending == if old(shuttingDown) then old(pending) else old(pending) + [Key(key)]
      ensures shuttingDown == old(shuttingDown) && log == old(log) + [AddCall(key)]
    {
      if !shuttingDown {
        pending := pending + [Key(key)];
      }
      log := log + [AddCall(key)];
    }

    /** Hands out the oldest item; reports shutdown only once the queue is
        both shutting down and empty. On an empty live queue the real `Get`
        blocks, which is not modelled. */
    method Get() returns (item: Option<Item>)
      requires pending != [] || shuttingDown
      modifies this
      ensures old(pending) != [] ==> item == Some(old(pending)[0]) && pending == old(pending)[1..]
      ensures old(pending) == [] ==> item == None && pending == []
      ensures shuttingDown == old(shuttingDown) && log == old(log) + [GetCall(item)]
    {
      if pending != [] {
        item := Some(pending[0]);
        pending := pending[1..];
      } else {
        item := None;
      }
      log := log + [GetCall(item)];
    }

    method Done(item: Item)
      modifies this
      ensures pending == old(pending) && shuttingDown == old(shuttingDown)
      ensures log == old(log) + [DoneCall(item)]
    {
      log := log + [DoneCall(item)];
    }

    method Forget(item: Item)
      modifies this
      ensures pending == old(pending) && shuttingDown == old(shuttingDown)
      ensures log == old(log) + [ForgetCall(item)]
    {
      log := log + [ForgetCall(item)];
    }

    method AddRateLimited(key: string)
      modifies this
      ensures pending == old(pending) && shuttingDown == old(shuttingDown)
      ensures log == old(log) + [AddRateLimitedCall(key)]
    {
      log := log + [AddRateLimitedCall(key)];
    }

    method ShutDown()
      modifies this
      ensures pending == old(pending) && shuttingDown && log == old(log)
    {
      shuttingDown := true;
    }
  }

  /** The queue calls of one `processNextWorkItem` that got an item: the
      `Get`, then `Forget` of the item or `AddRateLimited` of its key, then
      the deferred `Done` of the same item. */
  predicate IsRound(s: seq<QueueCall>) {
    |s| == 3 && s[0].GetCall? && s[0].got.Some?
    && s[2] == DoneCall(s[0].got.value)
    && (s[1] == ForgetCall(s[0].got.value)
        || (s[0].got.value.Key? && s[1] == AddRateLimitedCall(s[0].got.value.key)))
  }

  /** The round for `item`; `requeue` says whether its sync failed. */
  function Round(item: Item, requeue: bool): (s: seq<QueueCall>)
    requires requeue ==> item.Key?
    ensures IsRound(s) && s[0] == GetCall(Some(item)) && s[2] == DoneCall(item)
    ensures s[1].AddRateLimitedCall? <==> requeue
    ensures s[1].ForgetCall? <==> !requeue
  {
    [GetCall(Some(item)), if requeue then AddRateLimitedCall(item.key) else ForgetCall(item), DoneCall(item)]
  }

  /** A log made of whole rounds, one after another. */
  predicate Rounds(log: seq<QueueCall>)
    decreases |log|
  {
    log == [] || (|log| >= 3 && IsRound(log[..3]) && Rounds(log[3..]))
  }

  lemma {:induction false} RoundsAppend(log: seq<QueueCall>, round: seq<QueueCall>)
    requires Rounds(log) && IsRound(round)
    ensures Rounds(log + round)
    decreases |log|
  {
    if log == [] {
      assert (log + round)[..3] == round;
      assert (log + round)[3..] == [];
    } else {
      RoundsAppend(log[3..], round);
      assert (log + round)[..3] == log[..3];
      assert (log + round)[3..] == log[3..] + round;
    }
  }

  /** Number of items handed out by `Get`. */
  function Delivered(log: seq<QueueCall>): nat {
    if log == [] then 0
    else (if log[0].GetCall? && log[0].got.Some? then 1 else 0) + Delivered(log[1..])
  }

  /** Number of `Done` calls. */
  function Finished(log: seq<QueueCall>): nat {
    if log == [] then 0
    else (if log[0].DoneCall? then 1 else 0) + Finished(log[1..])
  }

  /** Number of `Forget` and `AddRateLimited` calls. */
  function Settled(log: seq<QueueCall>): nat {
    if log == [] then 0
    else (if log[0].ForgetCall? || log[0].AddRateLimitedCall? then 1 else 0) + Settled(log[1..])
  }

  /** In a log of whole rounds every item handed out is marked `Done` once,
      and is either forgotten or requeued once. */
  lemma {:induction false} RoundsBalanced(log: seq<QueueCall>)
    requires Rounds(log)
    ensures Delivered(log) == Finished(log) == Settled(log)
    decreases |log|
  {
    if log != [] {
      RoundsBalanced(log[3..]);
      var head, second, third := log[..3], log[1..], log[2..];
      assert head[0] == log[0] && head[1] == log[1] && head[2] == log[2];
      assert second[0] == log[1] && second[1..] == third;
      assert third[0] == log[2] && third[1..] == log[3..];
      assert Delivered(second) == Delivered(third) == Delivered(log[3..]);
      assert Finished(second) == Finished(third) && Finished(third) == 1 + Finished(log[3..]);
      assert Settled(second) == 1 + Settled(third) && Settled(third) == Settled(log[3..]);
    }
  }
}
