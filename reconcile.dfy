/** What a reconciler's sync acts on, as one value: the facade's store and
    call log, the clientset `Update`s made and the events recorded. */
module Reconcile {
  import opened Base
  import opened Cloud
  import opened Resources
  import opened WorkQueue

  datatype World<T> = World(store: Store, calls: seq<Call>, updates: seq<T>, events: seq<Event<T>>)

  /** Why a sync fails: a facade error, a lister error, a failed `Update`,
      or the BadRequest of the database reconciler. */
  datatype SyncError =
    | CloudError(error: Cloud.Error)
    | ListerError(message: string)
    | UpdateError(message: string)
    | BadRequest(message: string)

  /** The result of a sync and the world after it. */
  datatype Outcome<T> = Outcome(err: Option<SyncError>, world: World<T>)

  /** One facade call made in world `w`. */
  function Invoke<T>(w: World<T>, faults: map<nat, Cloud.Error>, c: Call): (r: (Reply, World<T>))
    ensures r.1.calls == w.calls + [c]
    ensures r.1.updates == w.updates && r.1.events == w.events
    ensures (r.0, r.1.store) == Perform(w.store, faults, |w.calls|, c)
  {
    var (reply, store) := Perform(w.store, faults, |w.calls|, c);
    (reply, w.(store := store, calls := w.calls + [c]))
  }

  /** The clientset `Update` of `obj`: recorded, and failing with
      `updateFaults[i]` when it is the `i`-th update and the oracle has one. */
  function Update<T>(w: World<T>, updateFaults: map<nat, string>, obj: T): (r: (Option<string>, World<T>))
    ensures r.1 == w.(updates := w.updates + [obj])
    ensures r.0.Some? <==> |w.updates| in updateFaults
  {
    var err := if |w.updates| in updateFaults then Some(updateFaults[|w.updates|]) else None;
    (err, w.(updates := w.updates + [obj]))
  }

  function SyncedEvent<T>(obj: T, message: string): Event<T> {
    Event(obj, Normal, SuccessSynced, message)
  }

  /** The end of a sync: the status write of the cached object, then the
      Synced event if the write succeeded. */
  function Finish<T>(obj: T, message: string, updateFaults: map<nat, string>, w: World<T>): (r: Outcome<T>)
    ensures r.world.store == w.store && r.world.calls == w.calls
    ensures r.world.updates == w.updates + [obj]
    ensures r.err.None? <==> |w.updates| !in updateFaults
    ensures r.err.Some? ==> r.err == Some(UpdateError(updateFaults[|w.updates|]))
    ensures r.world.events == if r.err.None? then w.events + [SyncedEvent(obj, message)] else w.events
  {
    var (err, w1) := Update(w, updateFaults, obj);
    if err.Some? then Outcome(Some(UpdateError(err.value)), w1)
    else Outcome(None, w1.(events := w1.events + [SyncedEvent(obj, message)]))
  }

  /** `w'` comes after `w`: the call log has only grown and a consistent
      store stayed consistent. */
  predicate Grows<T>(w: World<T>, w': World<T>) {
    w.calls <= w'.calls && (Consistent(w.store) ==> Consistent(w'.store))
  }

  lemma GrowsTransitive<T>(w: World<T>, w': World<T>, w'': World<T>)
    requires Grows(w, w') && Grows(w', w'')
    ensures Grows(w, w'')
  {
    assert w''.calls[..|w.calls|] == w''.calls[..|w'.calls|][..|w.calls|];
  }

  /** What a worker does with the queued items `items`, one after another,
      when `sync` is its sync: the queue calls of each item's round (requeued
      exactly when the sync of its key fails; an item that is not a key is
      forgotten unsynced) and the world after the last one. */
  function Drain<T>(items: seq<Item>, sync: (string, World<T>) -> Outcome<T>, w: World<T>)
    : (r: (seq<QueueCall>, World<T>))
    decreases |items|
  {
    if items == [] then ([], w)
    else
      match items[0]
      case Other(d) =>
        var (log, w') := Drain(items[1..], sync, w);
        (Round(Other(d), false) + log, w')
      case Key(k) =>
        var o := sync(k, w);
        var (log, w') := Drain(items[1..], sync, o.world);
        (Round(Key(k), o.err.Some?) + log, w')
  }

  /** Draining gives whole rounds, one per item, handing the items out in
      queue order. */
  lemma {:induction false} DrainRounds<T>(items: seq<Item>, sync: (string, World<T>) -> Outcome<T>, w: World<T>)
    ensures var log := Drain(items, sync, w).0;
            Rounds(log) && |log| == 3 * |items|
            && forall i :: 0 <= i < |items| ==> log[3 * i] == GetCall(Some(items[i]))
    decreases |items|
  {
    if items != [] {
      var w1 := if items[0].Key? then sync(items[0].key, w).world else w;
      var round := if items[0].Key? then Round(items[0], sync(items[0].key, w).err.Some?) else Round(items[0], false);
      DrainFirst(items, sync, w, round, w1);
      DrainRounds(items[1..], sync, w1);
      var tail := Drain(items[1..], sync, w1).0;
      RoundsCons(round, tail);
      HeadsCons(items, items[1..], round, tail);
    }
  }

  /** A round in front of whole rounds gives whole rounds. */
  lemma RoundsCons(round: seq<QueueCall>, tail: seq<QueueCall>)
    requires IsRound(round) && Rounds(tail)
    ensures Rounds(round + tail)
  {
    assert (round + tail)[..3] == round && (round + tail)[3..] == tail;
  }

  /** The item each round takes, one round further to the front. */
  lemma HeadsCons(items: seq<Item>, rest: seq<Item>, round: seq<QueueCall>, tail: seq<QueueCall>)
    requires items != [] && rest == items[1..]
    requires |round| == 3 && round[0] == GetCall(Some(items[0]))
    requires |tail| == 3 * |rest| && forall i :: 0 <= i < |rest| ==> tail[3 * i] == GetCall(Some(rest[i]))
    ensures |round + tail| == 3 * |items|
    ensures forall i :: 0 <= i < |items| ==> (round + tail)[3 * i] == GetCall(Some(items[i]))
  {
    forall i | 0 <= i < |items|
      ensures (round + tail)[3 * i] == GetCall(Some(items[i]))
    {
      if i > 0 {
        assert (round + tail)[3 * i] == tail[3 * (i - 1)];
        assert items[i] == rest[i - 1];
      }
    }
  }

  /** Moving one round of a drain from what is left to what is done keeps
      the whole drain the same. */
  lemma DrainAdvance<T>(whole: (seq<QueueCall>, World<T>), done: seq<QueueCall>, left: (seq<QueueCall>, World<T>),
                        round: seq<QueueCall>, rest: (seq<QueueCall>, World<T>))
    requires whole.0 == done + left.0 && whole.1 == left.1
    requires left == (round + rest.0, rest.1)
    ensures whole.0 == (done + round) + rest.0 && whole.1 == rest.1
  {
    assert (done + round) + rest.0 == done + (round + rest.0);
  }

  /** One round off the front: `round` and `w'` are what handling the first
      item gives. */
  lemma DrainFirst<T>(items: seq<Item>, sync: (string, World<T>) -> Outcome<T>, w: World<T>,
                      round: seq<QueueCall>, w': World<T>)
    requires items != []
    requires items[0].Other? ==> round == Round(items[0], false) && w' == w
    requires items[0].Key? ==> round == Round(items[0], sync(items[0].key, w).err.Some?)
                               && w' == sync(items[0].key, w).world
    ensures Drain(items, sync, w) == (round + Drain(items[1..], sync, w').0, Drain(items[1..], sync, w').1)
  {
  }
}
