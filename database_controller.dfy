/** The SpannerDatabase reconciler. `Sync` is what one `syncHandler(key)`
    does to the world; the `Controller` class runs it off the work queue. */
module DatabaseController {
  import opened Base
  import opened Cloud
  import opened Resources
  import opened Reconcile
  import opened WorkQueue

  type DatabaseWorld = World<SpannerDatabase>

  const InstanceMissingMessage: string := "The instance that this database is belongs to does not exists"

  /** What `syncHandler(key)` does in world `w`. A database no longer in the
      cache is left alone. */
  function Sync(key: string, split: string -> Option<(string, string)>,
                lister: (string, string) -> Lookup<SpannerDatabase>,
                faults: map<nat, Cloud.Error>, updateFaults: map<nat, string>,
                w: DatabaseWorld): Outcome<SpannerDatabase>
  {
    match split(key)
    case None => Outcome(None, w)
    case Some((namespace, name)) =>
      match lister(namespace, name)
      case ListError(message) => Outcome(Some(ListerError(message)), w)
      case Missing => Outcome(None, w)
      case Found(db) => Ensure(db, name, faults, updateFaults, w)
  }

  /** `Sync` as the step a worker applies to each queued key. */
  function SyncStep(split: string -> Option<(string, string)>,
                    lister: (string, string) -> Lookup<SpannerDatabase>,
                    faults: map<nat, Cloud.Error>, updateFaults: map<nat, string>)
    : (string, DatabaseWorld) -> Outcome<SpannerDatabase>
  {
    (key, w) => Sync(key, split, lister, faults, updateFaults, w)
  }

  /** Check the owning instance, create the database if it is absent, then
      write the status and record the event. */
  function Ensure(db: SpannerDatabase, name: string, faults: map<nat, Cloud.Error>,
                  updateFaults: map<nat, string>, w: DatabaseWorld): Outcome<SpannerDatabase>
  {
    var instanceId := db.spec.instanceId;
    var (owner, w1) := Invoke(w, faults, GetInstance(instanceId));
    if owner.err == Some(NotFound) then Outcome(Some(BadRequest(InstanceMissingMessage)), w1)
    else if owner.err.Some? then Outcome(Some(CloudError(owner.err.value)), w1)
    else
      var (got, w2) := Invoke(w1, faults, GetDatabase(instanceId, name));
      if got.err == Some(NotFound) then
        var (created, w3) := Invoke(w2, faults, CreateDatabase(instanceId, db.meta.name));
        if created.err.Some? then Outcome(Some(CloudError(created.err.value)), w3)
        else Finish(db, DatabaseSyncedMessage, updateFaults, w3)
      else if got.err.Some? then Outcome(Some(CloudError(got.err.value)), w2)
      else Finish(db, DatabaseSyncedMessage, updateFaults, w2)
  }

  /** An unparsable key, or a database gone from the cache, ends the sync
      with nil and no call at all: there is no compensating drop. A lister
      error is returned, again with no call. */
  lemma SyncWithoutObject(key: string, split: string -> Option<(string, string)>,
                          lister: (string, string) -> Lookup<SpannerDatabase>,
                          faults: map<nat, Cloud.Error>, updateFaults: map<nat, string>,
                          w: DatabaseWorld)
    requires split(key).None? || !lister(split(key).value.0, split(key).value.1).Found?
    ensures var r := Sync(key, split, lister, faults, updateFaults, w);
            r.world == w
            && (r.err.None? <==> split(key).None? || lister(split(key).value.0, split(key).value.1).Missing?)
  {
  }

  /** Whatever the faults, a sync only appends to the facade's call log and
      never leaves a database without its instance. */
  lemma SyncPreservesConsistency(key: string, split: string -> Option<(string, string)>,
                                 lister: (string, string) -> Lookup<SpannerDatabase>,
                                 faults: map<nat, Cloud.Error>, updateFaults: map<nat, string>,
                                 w: DatabaseWorld)
    ensures var r := Sync(key, split, lister, faults, updateFaults, w);
            Grows(w, r.world)
  {
  }

  /** When the owning instance is missing, a BadRequest is returned after
      the one `GetInstance`; neither `GetDatabase` nor `CreateDatabase` is
      called. Any other `GetInstance` error is returned as it is. */
  lemma SyncOwnerCheck(key: string, split: string -> Option<(string, string)>,
                       lister: (string, string) -> Lookup<SpannerDatabase>,
                       faults: map<nat, Cloud.Error>, updateFaults: map<nat, string>,
                       w: DatabaseWorld, namespace: string, name: string, db: SpannerDatabase)
    requires split(key) == Some((namespace, name)) && lister(namespace, name) == Found(db)
    requires |w.calls| in faults || db.spec.instanceId !in w.store.instances
    ensures var r := Sync(key, split, lister, faults, updateFaults, w);
            var e := if |w.calls| in faults then faults[|w.calls|] else NotFound;
            r.world == w.(calls := w.calls + [GetInstance(db.spec.instanceId)])
            && r.err == Some(if e == NotFound then BadRequest(InstanceMissingMessage) else CloudError(e))
  {
  }

  /** Without facade faults and with the owning instance present: the
      database is read, created exactly when it is absent, and the status is
      written; the event follows unless the write fails. */
  lemma SyncCreatesMissing(key: string, split: string -> Option<(string, string)>,
                           lister: (string, string) -> Lookup<SpannerDatabase>,
                           faults: map<nat, Cloud.Error>, updateFaults: map<nat, string>,
                           w: DatabaseWorld, namespace: string, name: string, db: SpannerDatabase)
    requires split(key) == Some((namespace, name)) && lister(namespace, name) == Found(db)
    requires db.meta.name == name && db.spec.instanceId in w.store.instances
    requires NoFaultsFrom(faults, |w.calls|)
    ensures var i := db.spec.instanceId;
            var r := Sync(key, split, lister, faults, updateFaults, w);
            r.world.calls == w.calls + [GetInstance(i), GetDatabase(i, name)]
              + (if (i, name) in w.store.databases then [] else [CreateDatabase(i, name)])
            && r.world.store == w.store.(databases := w.store.databases + {(i, name)})
            && r.world.updates == w.updates + [db]
            && (r.err.None? <==> |w.updates| !in updateFaults)
            && r.world.events == if r.err.None? then w.events + [SyncedEvent(db, DatabaseSyncedMessage)] else w.events
  {
    var i := db.spec.instanceId;
    if (i, name) in w.store.databases {
      assert w.store.databases + {(i, name)} == w.store.databases;
    }
  }

  /** A failed `GetDatabase` (other than NotFound) or a failed
      `CreateDatabase` is returned, with no status write and no event. */
  lemma SyncDatabaseCallFails(key: string, split: string -> Option<(string, string)>,
                              lister: (string, string) -> Lookup<SpannerDatabase>,
                              faults: map<nat, Cloud.Error>, updateFaults: map<nat, string>,
                              w: DatabaseWorld, namespace: string, name: string, db: SpannerDatabase)
    requires split(key) == Some((namespace, name)) && lister(namespace, name) == Found(db)
    requires db.spec.instanceId in w.store.instances && |w.calls| !in faults
    ensures var n := |w.calls|;
            var r := Sync(key, split, lister, faults, updateFaults, w);
            (n + 1 in faults && faults[n + 1] != NotFound ==>
               r == Outcome(Some(CloudError(faults[n + 1])),
                            w.(calls := w.calls + [GetInstance(db.spec.instanceId), GetDatabase(db.spec.instanceId, name)])))
            && (n + 1 in faults && faults[n + 1] == NotFound && n + 2 in faults ==>
               r.err == Some(CloudError(faults[n + 2])) && r.world.updates == w.updates && r.world.events == w.events
               && r.world.calls == w.calls + [GetInstance(db.spec.instanceId), GetDatabase(db.spec.instanceId, name),
                                              CreateDatabase(db.spec.instanceId, db.meta.name)])
  {
  }

  /** Syncing the same key twice without faults: the second sync only reads
      the instance and the database and changes nothing in the facade. */
  lemma {:induction false} SyncIdempotent(key: string, split: string -> Option<(string, string)>,
                                          lister: (string, string) -> Lookup<SpannerDatabase>,
                                          faults: map<nat, Cloud.Error>, updateFaults: map<nat, string>,
                                          w: DatabaseWorld, namespace: string, name: string, db: SpannerDatabase)
    requires split(key) == Some((namespace, name)) && lister(namespace, name) == Found(db)
    requires db.meta.name == name && db.spec.instanceId in w.store.instances
    requires NoFaultsFrom(faults, |w.calls|) && NoFaultsFrom(updateFaults, |w.updates|)
    ensures var first := Sync(key, split, lister, faults, updateFaults, w);
            var second := Sync(key, split, lister, faults, updateFaults, first.world);
            first.err == None && second.err == None
            && (db.spec.instanceId, name) in first.world.store.databases
            && second.world.calls == first.world.calls + [GetInstance(db.spec.instanceId), GetDatabase(db.spec.instanceId, name)]
            && second.world.store == first.world.store
  {
    SyncCreatesMissing(key, split, lister, faults, updateFaults, w, namespace, name, db);
    var first := Sync(key, split, lister, faults, updateFaults, w);
    SyncCreatesMissing(key, split, lister, faults, updateFaults, first.world, namespace, name, db);
  }

  /** Handling the first queued item, as `ProcessNextWorkItem` states it,
      is the first round of draining the queue. */
  lemma ProcessedIsFirstRound(split: string -> Option<(string, string)>,
                              lister: (string, string) -> Lookup<SpannerDatabase>,
                              faults: map<nat, Cloud.Error>, updateFaults: map<nat, string>,
                              pending: seq<Item>, w: DatabaseWorld, round: seq<QueueCall>, w': DatabaseWorld)
    requires pending != []
    requires pending[0].Other? ==> round == Round(pending[0], false) && w' == w
    requires pending[0].Key? ==>
               var o := Sync(pending[0].key, split, lister, faults, updateFaults, w);
               w' == o.world && round == Round(pending[0], o.err.Some?)
    ensures var step := SyncStep(split, lister, faults, updateFaults);
            Drain(pending, step, w) == (round + Drain(pending[1..], step, w').0, Drain(pending[1..], step, w').1)
  {
    var step := SyncStep(split, lister, faults, updateFaults);
    if pending[0].Key? {
      assert step(pending[0].key, w) == Sync(pending[0].key, split, lister, faults, updateFaults, w);
    }
    DrainFirst(pending, step, w, round, w');
  }

  class Controller {
    const queue: Queue
    const facade: Facade
    /** `cache.SplitMetaNamespaceKey`. */
    const split: string -> Option<(string, string)>
    /** `cache.MetaNamespaceKeyFunc`. */
    const keyOf: SpannerDatabase -> Option<string>
    /** The informer's lister. */
    const lister: (string, string) -> Lookup<SpannerDatabase>
    /** Which clientset `Update`s fail, by index. */
    const updateFaults: map<nat, string>
    var updates: seq<SpannerDatabase>
    var events: seq<Event<SpannerDatabase>>

    constructor (queue: Queue, facade: Facade, split: string -> Option<(string, string)>,
                 keyOf: SpannerDatabase -> Option<string>, lister: (string, string) -> Lookup<SpannerDatabase>,
                 updateFaults: map<nat, string>)
      ensures this.queue == queue && this.facade == facade && this.split == split
      ensures this.keyOf == keyOf && this.lister == lister && this.updateFaults == updateFaults
      ensures updates == [] && events == []
    {
      this.queue := queue;
      this.facade := facade;
      this.split := split;
      this.keyOf := keyOf;
      this.lister := lister;
      this.updateFaults := updateFaults;
      updates := [];
      events := [];
    }

    ghost function State(): DatabaseWorld
      reads this, facade
    {
      World(facade.store, facade.calls, updates, events)
    }

    /** `updateSpannerDatabaseStatus`: an `Update` of a copy of the cached object. */
    method UpdateStatus(db: SpannerDatabase) returns (err: Option<string>)
      modifies this
      ensures (err, State()) == Update(old(State()), updateFaults, db)
    {
      var copy := db;
      if |updates| in updateFaults {
        err := Some(updateFaults[|updates|]);
      } else {
        err := None;
      }
      updates := updates + [copy];
    }

    method SyncHandler(key: string) returns (err: Option<SyncError>)
      modifies this, facade
      ensures Outcome(err, State()) == Sync(key, split, lister, facade.faults, updateFaults, old(State()))
    {
      var parsed := split(key);
      if parsed.None? {
        return None;
      }
      var (namespace, name) := parsed.value;
      var cached := lister(namespace, name);
      if cached.ListError? {
        return Some(ListerError(cached.message));
      }
      if cached.Missing? {
        return None;
      }
      var db := cached.obj;
      var owner := facade.Invoke(GetInstance(db.spec.instanceId));
      if owner.err.Some? && facade.IsNotFoundError(owner.err.value) {
        return Some(BadRequest(InstanceMissingMessage));
      } else if owner.err.Some? {
        return Some(CloudError(owner.err.value));
      }
      var got := facade.Invoke(GetDatabase(db.spec.instanceId, name));
      if got.err.Some? && facade.IsNotFoundError(got.err.value) {
        var created := facade.Invoke(CreateDatabase(db.spec.instanceId, db.meta.name));
        if created.err.Some? {
          return Some(CloudError(created.err.value));
        }
      } else if got.err.Some? {
        return Some(CloudError(got.err.value));
      }
      var updateErr := UpdateStatus(db);
      if updateErr.Some? {
        return Some(UpdateError(updateErr.value));
      }
      events := events + [SyncedEvent(db, DatabaseSyncedMessage)];
      err := None;
    }

    /** `processNextWorkItem`. */
    method ProcessNextWorkItem() returns (more: bool)
      requires queue.pending != [] || queue.shuttingDown
      modifies queue, facade, this
      ensures more <==> old(queue.pending) != []
      ensures |queue.log| > |old(queue.log)| && queue.log[..|old(queue.log)|] == old(queue.log)
      ensures more ==> IsRound(queue.log[|old(queue.log)|..])
      ensures queue.shuttingDown == old(queue.shuttingDown)
      ensures !more ==> queue.pending == [] && queue.log == old(queue.log) + [GetCall(None)] && State() == old(State())
      ensures more ==>
                queue.pending == old(queue.pending)[1..]
                && match old(queue.pending)[0]
                   case Other(d) =>
                     queue.log == old(queue.log) + Round(Other(d), false) && State() == old(State())
                   case Key(k) =>
                     var o := Sync(k, split, lister, facade.faults, updateFaults, old(State()));
                     State() == o.world && queue.log == old(queue.log) + Round(Key(k), o.err.Some?)
    {
      var item := queue.Get();
      if item.None? {
        return false;
      }
      match item.value {
        case Other(d) =>
          queue.Forget(item.value);
        case Key(k) =>
          var err := SyncHandler(k);
          if err.Some? {
            queue.AddRateLimited(k);
          } else {
            queue.Forget(item.value);
          }
      }
      queue.Done(item.value);
      more := true;
    }

    /** Part way through draining a shut-down queue that held `whole.0`'s
        items: `done` is in the log after `start`, the rest is still to come. */
    ghost predicate Draining(step: (string, World<SpannerDatabase>) -> Outcome<SpannerDatabase>, start: seq<QueueCall>,
                             whole: (seq<QueueCall>, World<SpannerDatabase>), done: seq<QueueCall>)
      reads this, queue, facade
    {
      && queue.shuttingDown && step == SyncStep(split, lister, facade.faults, updateFaults)
      && queue.log == start + done
      && whole.0 == done + Drain(queue.pending, step, State()).0
      && whole.1 == Drain(queue.pending, step, State()).1
    }

    /** The queue is drained and the shutdown has been reported. */
    ghost predicate Drained(start: seq<QueueCall>, whole: (seq<QueueCall>, World<SpannerDatabase>))
      reads this, queue, facade
    {
      queue.pending == [] && queue.log == start + whole.0 + [GetCall(None)] && State() == whole.1
    }

    /** One pass of `runWorker`'s loop, stated as a step of `Drain`. */
    method ProcessNextRound(ghost step: (string, World<SpannerDatabase>) -> Outcome<SpannerDatabase>, ghost start: seq<QueueCall>,
                            ghost whole: (seq<QueueCall>, World<SpannerDatabase>), ghost done: seq<QueueCall>)
      returns (more: bool, ghost done': seq<QueueCall>)
      requires Draining(step, start, whole, done)
      modifies queue, facade, this
      ensures more ==> Draining(step, start, whole, done') && |queue.pending| < |old(queue.pending)|
      ensures !more ==> Drained(start, whole)
    {
      ghost var pending := queue.pending;
      ghost var w := State();
      ghost var before := queue.log;
      more := ProcessNextWorkItem();
      if more {
        ghost var round := queue.log[|before|..];
        ProcessedIsFirstRound(split, lister, facade.faults, updateFaults, pending, w, round, State());
        DrainAdvance(whole, done, Drain(pending, step, w), round, Drain(queue.pending, step, State()));
        assert queue.log == start + (done + round) by {
          assert queue.log == before + round;
        }
        done' := done + round;
      } else {
        assert Drain(pending, step, w) == ([], w);
        assert whole.0 + [GetCall(None)] == done + [GetCall(None)];
        done' := done;
      }
    }

    /** `runWorker` on a queue that is shutting down: it drains the queue,
        syncing the queued keys in order, one whole round per item, and stops
        at the shutdown report. */
    method RunWorker()
      requires queue.shuttingDown
      modifies queue, facade, this
      ensures queue.pending == []
      ensures var d := Drain(old(queue.pending), SyncStep(split, lister, facade.faults, updateFaults), old(State()));
              queue.log == old(queue.log) + d.0 + [GetCall(None)] && State() == d.1
      ensures Rounds(queue.log[|old(queue.log)|..|queue.log| - 1])
    {
      ghost var step := SyncStep(split, lister, facade.faults, updateFaults);
      ghost var whole := Drain(queue.pending, step, State());
      ghost var done: seq<QueueCall> := [];
      var more := true;
      assert Draining(step, old(queue.log), whole, done) by {
        assert old(queue.log) + done == old(queue.log);
        assert done + whole.0 == whole.0;
      }
      while more
        invariant more ==> Draining(step, old(queue.log), whole, done)
        invariant !more ==> Drained(old(queue.log), whole)
        decreases |queue.pending|, more
      {
        more, done := ProcessNextRound(step, old(queue.log), whole, done);
      }
      DrainRounds(old(queue.pending), step, old(State()));
      assert queue.log[|old(queue.log)|..|queue.log| - 1] == whole.0;
    }

    /** `enqueueSpannerDatabase`: the object's key goes on the queue; an
        object without a key is dropped. */
    method Enqueue(db: SpannerDatabase)
      modifies queue
      ensures keyOf(db).None? ==> queue.log == old(queue.log) && queue.pending == old(queue.pending)
      ensures keyOf(db).Some? ==>
                queue.log == old(queue.log) + [AddCall(keyOf(db).value)]
                && queue.pending == if old(queue.shuttingDown) then old(queue.pending)
                                    else old(queue.pending) + [Key(keyOf(db).value)]
      ensures queue.shuttingDown == old(queue.shuttingDown)
    {
      var key := keyOf(db);
      if key.None? {
        return;
      }
      queue.Add(key.value);
    }

    /** The handlers registered with the informer: additions and updates
        enqueue the (new) object; there is no handler for deletions. */
    method Notify(n: Notification<SpannerDatabase>)
      modifies queue
      ensures n.Deleted? ==> queue.log == old(queue.log) && queue.pending == old(queue.pending)
      ensures !n.Deleted? ==>
                var db := if n.Added? then n.obj else n.newObj;
                queue.log == old(queue.log) + (if keyOf(db).Some? then [AddCall(keyOf(db).value)] else [])
                && queue.pending == if keyOf(db).None? || old(queue.shuttingDown) then old(queue.pending)
                                    else old(queue.pending) + [Key(keyOf(db).value)]
      ensures queue.shuttingDown == old(queue.shuttingDown)
    {
      match n
      case Added(db) => Enqueue(db);
      case Updated(_, newDb) => Enqueue(newDb);
      case Deleted(_) =>
    }
  }
}
