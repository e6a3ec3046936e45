/** The SpannerInstance reconciler. `Sync` is what one `syncHandler(key)`
    does to the world: which facade calls it makes, in which order, which
    `Update` and event it issues, and what it returns. The `Controller` class
    runs it off the work queue. */
module InstanceController {
  import opened Base
  import opened Cloud
  import opened Resources
  import opened Reconcile
  import opened WorkQueue

  type InstanceWorld = World<SpannerInstance>

  /** Every observed label is desired, with the same value. */
  predicate SubLabels(observed: Labels, desired: Labels) {
    forall k :: k in observed ==> k in desired && desired[k] == observed[k]
  }

  /** The label step's verdict: some observed label is missing from the
      desired labels or has another value there. */
  predicate Dirty(desired: Labels, observed: Labels) {
    !SubLabels(observed, desired)
  }

  /** The label comparison loop. It visits the observed keys; the write it
      makes for a key missing from the desired labels stores, into the
      observed map, the value that map already holds. */
  method CompareLabels(desired: Labels, observed: Labels) returns (dirty: bool, observedAfter: Labels)
    ensures dirty <==> exists k :: k in observed && (k !in desired || desired[k] != observed[k])
    ensures dirty <==> Dirty(desired, observed)
    ensures observedAfter == observed
  {
    dirty := false;
    observedAfter := observed;
    var remaining := observed.Keys;
    while remaining != {}
      invariant remaining <= observed.Keys
      invariant observedAfter == observed
      invariant dirty <==> exists k :: k in observed && k !in remaining && (k !in desired || desired[k] != observed[k])
      decreases remaining
    {
      var k :| k in remaining;
      var v := observedAfter[k];
      if k in desired {
        if v != desired[k] {
          dirty := true;
        }
      } else {
        observedAfter := observedAfter[k := v];
        dirty := true;
      }
      remaining := remaining - {k};
    }
  }

  /** Desired labels on keys nobody observes never make the step dirty. */
  lemma {:induction false} DesiredOnlyKeysNeverDirty(desired: Labels, extra: Labels, observed: Labels)
    requires forall k :: k in extra ==> k !in observed
    ensures Dirty(desired + extra, observed) <==> Dirty(desired, observed)
  {
    if Dirty(desired, observed) {
      var k :| k in observed && (k !in desired || desired[k] != observed[k]);
      assert k !in extra;
      assert k !in desired + extra || (desired + extra)[k] != observed[k];
    }
  }

  /** What `syncHandler(key)` does in world `w`, for key-splitting function
      `split`, cache `lister`, facade faults `faults` and clientset faults
      `updateFaults`. */
  function Sync(key: string, split: string -> Option<(string, string)>,
                lister: (string, string) -> Lookup<SpannerInstance>,
                faults: map<nat, Cloud.Error>, updateFaults: map<nat, string>,
                w: InstanceWorld): Outcome<SpannerInstance>
  {
    match split(key)
    case None => Outcome(None, w)
    case Some((namespace, name)) =>
      match lister(namespace, name)
      case ListError(message) => Outcome(Some(ListerError(message)), w)
      case Missing => Gone(name, faults, w)
      case Found(obj) =>
        var (observed, w1) := Observe(obj, name, faults, w);
        if observed.Failure? then Outcome(Some(observed.error), w1)
        else Converge(obj, name, observed.value, faults, updateFaults, w1)
  }

  /** `Sync` as the step a worker applies to each queued key. */
  function SyncStep(split: string -> Option<(string, string)>,
                    lister: (string, string) -> Lookup<SpannerInstance>,
                    faults: map<nat, Cloud.Error>, updateFaults: map<nat, string>)
    : (string, InstanceWorld) -> Outcome<SpannerInstance>
  {
    (key, w) => Sync(key, split, lister, faults, updateFaults, w)
  }

  /** The cached object is gone: delete the instance if the facade still has it. */
  function Gone(name: string, faults: map<nat, Cloud.Error>, w: InstanceWorld): Outcome<SpannerInstance> {
    var (got, w1) := Invoke(w, faults, GetInstance(name));
    if got.err == Some(NotFound) then Outcome(None, w1)
    else if got.err.Some? then Outcome(Some(CloudError(got.err.value)), w1)
    else
      var (deleted, w2) := Invoke(w1, faults, DeleteInstance(name));
      Outcome(if deleted.err.Some? then Some(CloudError(deleted.err.value)) else None, w2)
  }

  /** `GetInstance`, and on NotFound create the instance, label it if the
      object has labels, and read it again. */
  function Observe(obj: SpannerInstance, name: string, faults: map<nat, Cloud.Error>, w: InstanceWorld)
    : (Result<Cloud.Instance, SyncError>, InstanceWorld)
  {
    var (got, w1) := Invoke(w, faults, GetInstance(name));
    if got.err == Some(NotFound) then
      var (created, w2) := Invoke(w1, faults, CreateInstance(obj.spec.displayName, obj.meta.name,
                                                             obj.spec.instanceConfig, obj.spec.nodeCount));
      if created.err.Some? then (Failure(CloudError(created.err.value)), w2)
      else
        var (labelled, w3) := if |obj.meta.labels| > 0 then Invoke(w2, faults, UpdateLabels(name, obj.meta.labels))
                              else (Ok, w2);
        if labelled.err.Some? then (Failure(CloudError(labelled.err.value)), w3)
        else
          var (again, w4) := Invoke(w3, faults, GetInstance(name));
          if again.err.Some? then (Failure(CloudError(again.err.value)), w4)
          else (Success(again.instance), w4)
    else if got.err.Some? then (Failure(CloudError(got.err.value)), w1)
    else (Success(got.instance), w1)
  }

  /** Scale when the node counts differ; a failed scale ends the sync with nil. */
  function Converge(obj: SpannerInstance, name: string, observed: Cloud.Instance,
                    faults: map<nat, Cloud.Error>, updateFaults: map<nat, string>,
                    w: InstanceWorld): Outcome<SpannerInstance>
  {
    if obj.spec.nodeCount != observed.nodeCount then
      var (scaled, w1) := Invoke(w, faults, Scale(obj.meta.name, obj.spec.nodeCount));
      if scaled.err.Some? then Outcome(None, w1)
      else Relabel(obj, name, observed, faults, updateFaults, w1)
    else Relabel(obj, name, observed, faults, updateFaults, w)
  }

  /** Send the desired labels when the label step is dirty. */
  function Relabel(obj: SpannerInstance, name: string, observed: Cloud.Instance,
                   faults: map<nat, Cloud.Error>, updateFaults: map<nat, string>,
                   w: InstanceWorld): Outcome<SpannerInstance>
  {
    if Dirty(obj.meta.labels, observed.labels) then
      var (relabelled, w1) := Invoke(w, faults, UpdateLabels(name, obj.meta.labels));
      if relabelled.err.Some? then Outcome(Some(CloudError(relabelled.err.value)), w1)
      else Finish(obj, InstanceSyncedMessage, updateFaults, w1)
    else Finish(obj, InstanceSyncedMessage, updateFaults, w)
  }

  /** With the cached object gone, the sync reads the instance and deletes
      it when the facade still has it; the delete's error is returned. No
      `Update` and no event is made. */
  lemma SyncGone(key: string, split: string -> Option<(string, string)>,
                 lister: (string, string) -> Lookup<SpannerInstance>,
                 faults: map<nat, Cloud.Error>, updateFaults: map<nat, string>,
                 w: InstanceWorld, namespace: string, name: string)
    requires split(key) == Some((namespace, name)) && lister(namespace, name) == Missing
    requires |w.calls| !in faults
    ensures var r := Sync(key, split, lister, faults, updateFaults, w);
            r.world.updates == w.updates && r.world.events == w.events
            && (name !in w.store.instances ==>
                  r == Outcome(None, w.(calls := w.calls + [GetInstance(name)])))
            && (name in w.store.instances ==>
                  r.world.calls == w.calls + [GetInstance(name), DeleteInstance(name)]
                  && r.err == (if |w.calls| + 1 in faults then Some(CloudError(faults[|w.calls| + 1])) else None)
                  && (r.err.None? <==> name !in r.world.store.instances))
  {
  }

  /** When the first `GetInstance` fails, nothing changes: a NotFound ends
      the sync with nil, any other error is returned. */
  lemma SyncGoneGetFails(key: string, split: string -> Option<(string, string)>,
                         lister: (string, string) -> Lookup<SpannerInstance>,
                         faults: map<nat, Cloud.Error>, updateFaults: map<nat, string>,
                         w: InstanceWorld, namespace: string, name: string)
    requires split(key) == Some((namespace, name)) && lister(namespace, name) == Missing
    requires |w.calls| in faults
    ensures var r := Sync(key, split, lister, faults, updateFaults, w);
            r.world == w.(calls := w.calls + [GetInstance(name)])
            && r.err == if faults[|w.calls|] == NotFound then None else Some(CloudError(faults[|w.calls|]))
  {
  }

  /** An instance the facade does not have is created from the object's
      spec, labelled when the object has labels, and read again; then the
      status is written and, if that succeeds, the event recorded. */
  lemma SyncCreatesMissing(key: string, split: string -> Option<(string, string)>,
                           lister: (string, string) -> Lookup<SpannerInstance>,
                           faults: map<nat, Cloud.Error>, updateFaults: map<nat, string>,
                           w: InstanceWorld, namespace: string, name: string, obj: SpannerInstance)
    requires split(key) == Some((namespace, name)) && lister(namespace, name) == Found(obj)
    requires obj.meta.name == name && name !in w.store.instances
    requires NoFaultsFrom(faults, |w.calls|)
    ensures var r := Sync(key, split, lister, faults, updateFaults, w);
            r.world.calls == w.calls
              + [GetInstance(name), CreateInstance(obj.spec.displayName, name, obj.spec.instanceConfig, obj.spec.nodeCount)]
              + (if |obj.meta.labels| > 0 then [UpdateLabels(name, obj.meta.labels)] else [])
              + [GetInstance(name)]
            && r.world.store == w.store.(instances := w.store.instances[name :=
                 Cloud.Instance(obj.spec.displayName, obj.spec.instanceConfig, obj.spec.nodeCount, obj.meta.labels)])
            && r.world.updates == w.updates + [obj]
            && (r.err.None? <==> |w.updates| !in updateFaults)
            && r.world.events == if r.err.None? then w.events + [SyncedEvent(obj, InstanceSyncedMessage)] else w.events
  {
    if |obj.meta.labels| == 0 {
      assert obj.meta.labels == map[];
    }
  }

  /** A failed create is returned, and nothing after it happens. */
  lemma SyncCreateFails(key: string, split: string -> Option<(string, string)>,
                        lister: (string, string) -> Lookup<SpannerInstance>,
                        faults: map<nat, Cloud.Error>, updateFaults: map<nat, string>,
                        w: InstanceWorld, namespace: string, name: string, obj: SpannerInstance)
    requires split(key) == Some((namespace, name)) && lister(namespace, name) == Found(obj)
    requires name !in w.store.instances && |w.calls| !in faults && |w.calls| + 1 in faults
    ensures var r := Sync(key, split, lister, faults, updateFaults, w);
            r == Outcome(Some(CloudError(faults[|w.calls| + 1])),
                         w.(calls := w.calls + [GetInstance(name), CreateInstance(obj.spec.displayName, obj.meta.name,
                                                                                  obj.spec.instanceConfig, obj.spec.nodeCount)]))
  {
  }

  /** Without faults the label step sends the desired labels exactly when
      it is dirty, then writes the status. */
  lemma RelabelWithoutFaults(obj: SpannerInstance, name: string, observed: Cloud.Instance,
                             faults: map<nat, Cloud.Error>, updateFaults: map<nat, string>, w: InstanceWorld)
    requires name in w.store.instances && NoFaultsFrom(faults, |w.calls|)
    ensures var dirty := Dirty(obj.meta.labels, observed.labels);
            var r := Relabel(obj, name, observed, faults, updateFaults, w);
            r.world.calls == w.calls + (if dirty then [UpdateLabels(name, obj.meta.labels)] else [])
            && r.world.store == (if dirty then w.store.(instances := w.store.instances[name :=
                                   w.store.instances[name].(labels := obj.meta.labels)]) else w.store)
            && r.world.updates == w.updates + [obj]
            && (r.err.None? <==> |w.updates| !in updateFaults)
            && r.world.events == if r.err.None? then w.events + [SyncedEvent(obj, InstanceSyncedMessage)] else w.events
  {
  }

  /** For an instance the facade has: `Scale` exactly when the node counts
      differ, `UpdateLabels` with the desired labels exactly when the label
      step is dirty, then the status write and the event. */
  lemma SyncExisting(key: string, split: string -> Option<(string, string)>,
                     lister: (string, string) -> Lookup<SpannerInstance>,
                     faults: map<nat, Cloud.Error>, updateFaults: map<nat, string>,
                     w: InstanceWorld, namespace: string, name: string, obj: SpannerInstance)
    requires split(key) == Some((namespace, name)) && lister(namespace, name) == Found(obj)
    requires obj.meta.name == name && name in w.store.instances
    requires NoFaultsFrom(faults, |w.calls|)
    ensures var current := w.store.instances[name];
            var dirty := Dirty(obj.meta.labels, current.labels);
            var r := Sync(key, split, lister, faults, updateFaults, w);
            r.world.calls == w.calls + [GetInstance(name)]
              + (if obj.spec.nodeCount != current.nodeCount then [Scale(name, obj.spec.nodeCount)] else [])
              + (if dirty then [UpdateLabels(name, obj.meta.labels)] else [])
            && r.world.store == w.store.(instances := w.store.instances[name :=
                 current.(nodeCount := obj.spec.nodeCount, labels := if dirty then obj.meta.labels else current.labels)])
            && r.world.updates == w.updates + [obj]
            && (r.err.None? <==> |w.updates| !in updateFaults)
            && r.world.events == if r.err.None? then w.events + [SyncedEvent(obj, InstanceSyncedMessage)] else w.events
  {
    var current := w.store.instances[name];
    var (observed, w1) := Observe(obj, name, faults, w);
    assert observed == Success(current) && w1 == w.(calls := w.calls + [GetInstance(name)]);
    var scaled := current.(nodeCount := obj.spec.nodeCount);
    var w2 := if obj.spec.nodeCount != current.nodeCount
              then w1.(store := w1.store.(instances := w1.store.instances[name := scaled]),
                       calls := w1.calls + [Scale(name, obj.spec.nodeCount)])
              else w1;
    assert w2.store.instances == w.store.instances[name := scaled];
    assert Converge(obj, name, current, faults, updateFaults, w1)
        == Relabel(obj, name, current, faults, updateFaults, w2);
    RelabelWithoutFaults(obj, name, current, faults, updateFaults, w2);
  }

  /** A failed scale ends the sync with nil: no label step, no status write,
      no event. */
  lemma SyncScaleFailureSwallowed(key: string, split: string -> Option<(string, string)>,
                                  lister: (string, string) -> Lookup<SpannerInstance>,
                                  faults: map<nat, Cloud.Error>, updateFaults: map<nat, string>,
                                  w: InstanceWorld, namespace: string, name: string, obj: SpannerInstance)
    requires split(key) == Some((namespace, name)) && lister(namespace, name) == Found(obj)
    requires name in w.store.instances && w.store.instances[name].nodeCount != obj.spec.nodeCount
    requires |w.calls| !in faults && |w.calls| + 1 in faults
    ensures Sync(key, split, lister, faults, updateFaults, w)
            == Outcome(None, w.(calls := w.calls + [GetInstance(name), Scale(obj.meta.name, obj.spec.nodeCount)]))
  {
  }

  /** Without a cached object the sync makes no `Update` and records no
      event; a lister error is returned before any call. */
  lemma SyncWithoutObjectWritesNothing(key: string, split: string -> Option<(string, string)>,
                                       lister: (string, string) -> Lookup<SpannerInstance>,
                                       faults: map<nat, Cloud.Error>, updateFaults: map<nat, string>,
                                       w: InstanceWorld)
    requires split(key).None? || !lister(split(key).value.0, split(key).value.1).Found?
    ensures var r := Sync(key, split, lister, faults, updateFaults, w);
            r.world.updates == w.updates && r.world.events == w.events
            && r.world.calls[..|w.calls|] == w.calls
            && (forall c :: c in r.world.calls[|w.calls|..] ==> c.GetInstance? || c.DeleteInstance?)
            && (split(key).None? ==> r == Outcome(None, w))
            && (split(key).Some? && lister(split(key).value.0, split(key).value.1).ListError? ==>
                  r == Outcome(Some(ListerError(lister(split(key).value.0, split(key).value.1).message)), w))
  {
    var r := Sync(key, split, lister, faults, updateFaults, w);
    if split(key).Some? && lister(split(key).value.0, split(key).value.1).Missing? {
      var name := split(key).value.1;
      var (got, w1) := Invoke(w, faults, GetInstance(name));
      assert w1.calls[|w.calls|..] == [GetInstance(name)];
      if got.err.None? {
        var (_, w2) := Invoke(w1, faults, DeleteInstance(name));
        assert w2.calls[|w.calls|..] == [GetInstance(name), DeleteInstance(name)];
      }
    }
  }

  /** The status side of an outcome: either nothing was written, or exactly
      one `Update` of `obj` was made, an error can then only be that
      `Update`'s, and the Synced event is recorded exactly when there is none. */
  predicate StatusWritten(obj: SpannerInstance, updateFaults: map<nat, string>, w: InstanceWorld, r: Outcome<SpannerInstance>) {
    (r.world.updates == w.updates && r.world.events == w.events)
    || (r.world.updates == w.updates + [obj]
        && r.world.events == (if r.err.None? then w.events + [SyncedEvent(obj, InstanceSyncedMessage)] else w.events)
        && (r.err.Some? ==> |w.updates| in updateFaults && r.err == Some(UpdateError(updateFaults[|w.updates|]))))
  }

  lemma ConvergeStatusWritten(obj: SpannerInstance, name: string, observed: Cloud.Instance,
                              faults: map<nat, Cloud.Error>, updateFaults: map<nat, string>, w: InstanceWorld)
    ensures StatusWritten(obj, updateFaults, w, Converge(obj, name, observed, faults, updateFaults, w))
  {
  }

  /** With a cached object, the only `Update` is of that object, unchanged
      (its status is never filled in); an `Update` error is returned and
      suppresses the Synced event. */
  lemma {:induction false} SyncStatusWrite(key: string, split: string -> Option<(string, string)>,
                                           lister: (string, string) -> Lookup<SpannerInstance>,
                                           faults: map<nat, Cloud.Error>, updateFaults: map<nat, string>,
                                           w: InstanceWorld, namespace: string, name: string, obj: SpannerInstance)
    requires split(key) == Some((namespace, name)) && lister(namespace, name) == Found(obj)
    ensures StatusWritten(obj, updateFaults, w, Sync(key, split, lister, faults, updateFaults, w))
  {
    var (observed, w1) := Observe(obj, name, faults, w);
    assert w1.updates == w.updates && w1.events == w.events;
    if observed.Success? {
      ConvergeStatusWritten(obj, name, observed.value, faults, updateFaults, w1);
    }
  }

  lemma ObserveGrows(obj: SpannerInstance, name: string, faults: map<nat, Cloud.Error>, w: InstanceWorld)
    ensures Grows(w, Observe(obj, name, faults, w).1)
  {
    var (got, w1) := Invoke(w, faults, GetInstance(name));
    assert Grows(w, w1);
    if got.err == Some(NotFound) {
      var (created, w2) := Invoke(w1, faults, CreateInstance(obj.spec.displayName, obj.meta.name,
                                                             obj.spec.instanceConfig, obj.spec.nodeCount));
      GrowsTransitive(w, w1, w2);
      if created.err.None? {
        var (labelled, w3) := if |obj.meta.labels| > 0 then Invoke(w2, faults, UpdateLabels(name, obj.meta.labels))
                              else (Ok, w2);
        GrowsTransitive(w, w2, w3);
        if labelled.err.None? {
          var (again, w4) := Invoke(w3, faults, GetInstance(name));
          GrowsTransitive(w, w3, w4);
        }
      }
    }
  }

  lemma ConvergeGrows(obj: SpannerInstance, name: string, observed: Cloud.Instance,
                      faults: map<nat, Cloud.Error>, updateFaults: map<nat, string>, w: InstanceWorld)
    ensures Grows(w, Converge(obj, name, observed, faults, updateFaults, w).world)
  {
    var w1 := if obj.spec.nodeCount != observed.nodeCount
              then Invoke(w, faults, Scale(obj.meta.name, obj.spec.nodeCount)).1 else w;
    assert Grows(w, w1);
    if Dirty(obj.meta.labels, observed.labels) {
      var w2 := Invoke(w1, faults, UpdateLabels(name, obj.meta.labels)).1;
      GrowsTransitive(w, w1, w2);
    }
  }

  /** Whatever the faults, a sync only appends to the facade's call log and
      never leaves a database without its instance. */
  lemma SyncPreservesConsistency(key: string, split: string -> Option<(string, string)>,
                                 lister: (string, string) -> Lookup<SpannerInstance>,
                                 faults: map<nat, Cloud.Error>, updateFaults: map<nat, string>,
                                 w: InstanceWorld)
    ensures Grows(w, Sync(key, split, lister, faults, updateFaults, w).world)
  {
    if split(key).Some? {
      var (namespace, name) := split(key).value;
      match lister(namespace, name)
      case ListError(_) =>
      case Missing =>
        var (got, w1) := Invoke(w, faults, GetInstance(name));
        if got.err.None? {
          GrowsTransitive(w, w1, Invoke(w1, faults, DeleteInstance(name)).1);
        }
      case Found(obj) =>
        var (observed, w1) := Observe(obj, name, faults, w);
        ObserveGrows(obj, name, faults, w);
        if observed.Success? {
          ConvergeGrows(obj, name, observed.value, faults, updateFaults, w1);
          GrowsTransitive(w, w1, Converge(obj, name, observed.value, faults, updateFaults, w1).world);
        }
    }
  }

  /** Without faults a sync of a cached object succeeds and leaves the
      instance with the desired node count and no label the object does not
      carry. */
  lemma {:induction false} SyncConverges(key: string, split: string -> Option<(string, string)>,
                                         lister: (string, string) -> Lookup<SpannerInstance>,
                                         faults: map<nat, Cloud.Error>, updateFaults: map<nat, string>,
                                         w: InstanceWorld, namespace: string, name: string, obj: SpannerInstance)
    requires split(key) == Some((namespace, name)) && lister(namespace, name) == Found(obj)
    requires obj.meta.name == name
    requires NoFaultsFrom(faults, |w.calls|) && NoFaultsFrom(updateFaults, |w.updates|)
    ensures var r := Sync(key, split, lister, faults, updateFaults, w);
            r.err == None && name in r.world.store.instances && |r.world.calls| > |w.calls|
            && r.world.store.instances[name].nodeCount == obj.spec.nodeCount
            && SubLabels(r.world.store.instances[name].labels, obj.meta.labels)
            && r.world.updates == w.updates + [obj]
            && r.world.events == w.events + [SyncedEvent(obj, InstanceSyncedMessage)]
  {
    if name in w.store.instances {
      SyncExisting(key, split, lister, faults, updateFaults, w, namespace, name, obj);
    } else {
      SyncCreatesMissing(key, split, lister, faults, updateFaults, w, namespace, name, obj);
    }
  }

  /** Syncing the same key twice without faults: the second sync only reads
      the instance and changes nothing in the facade. */
  lemma {:induction false} SyncIdempotent(key: string, split: string -> Option<(string, string)>,
                                          lister: (string, string) -> Lookup<SpannerInstance>,
                                          faults: map<nat, Cloud.Error>, updateFaults: map<nat, string>,
                                          w: InstanceWorld, namespace: string, name: string, obj: SpannerInstance)
    requires split(key) == Some((namespace, name)) && lister(namespace, name) == Found(obj)
    requires obj.meta.name == name
    requires NoFaultsFrom(faults, |w.calls|) && NoFaultsFrom(updateFaults, |w.updates|)
    ensures var first := Sync(key, split, lister, faults, updateFaults, w);
            var second := Sync(key, split, lister, faults, updateFaults, first.world);
            second.err == None
            && second.world.calls == first.world.calls + [GetInstance(name)]
            && second.world.store == first.world.store
  {
    SyncConverges(key, split, lister, faults, updateFaults, w, namespace, name, obj);
    var first := Sync(key, split, lister, faults, updateFaults, w);
    assert NoFaultsFrom(faults, |first.world.calls|) && NoFaultsFrom(updateFaults, |first.world.updates|);
    var current := first.world.store.instances[name];
    assert !Dirty(obj.meta.labels, current.labels);
    assert current.(nodeCount := obj.spec.nodeCount, labels := current.labels) == current;
    SyncExisting(key, split, lister, faults, updateFaults, first.world, namespace, name, obj);
  }

  /** Handling the first queued item, as `ProcessNextWorkItem` states it,
      is the first round of draining the queue. */
  lemma ProcessedIsFirstRound(split: string -> Option<(string, string)>,
                              lister: (string, string) -> Lookup<SpannerInstance>,
                              faults: map<nat, Cloud.Error>, updateFaults: map<nat, string>,
                              pending: seq<Item>, w: InstanceWorld, round: seq<QueueCall>, w': InstanceWorld)
    requires pending != []
    requires pending[0].Other? ==> round == Round(pending[0], false) && w' == w
    requires pending[0].Key? ==>
               var o := Sync(pending[0].key, split, lister, faults, updateFaults, w);
               w' == o.world && round == Round(pending[0], o.err.Some?)
    ensures var step := SyncStep(split, lister, faults, updateFaults);
            Drain(pending, step, w) == (round + Drain(pending[1..], step, w').0, Drain(pending[1..], step, w').1)
  {
    var step := SyncStep(split, lister, faults, updateFaults);
    if pending[0].Key? {
      assert step(pending[0].key, w) == Sync(pending[0].key, split, lister, faults, updateFaults, w);
    }
    DrainFirst(pending, step, w, round, w');
  }

  class Controller {
    const queue: Queue
    const facade: Facade
    /** `cache.SplitMetaNamespaceKey`. */
    const split: string -> Option<(string, string)>
    /** `cache.MetaNamespaceKeyFunc`. */
    const keyOf: SpannerInstance -> Option<string>
    /** The informer's lister. */
    const lister: (string, string) -> Lookup<SpannerInstance>
    /** Which clientset `Update`s fail, by index. */
    const updateFaults: map<nat, string>
    var updates: seq<SpannerInstance>
    var events: seq<Event<SpannerInstance>>

    constructor (queue: Queue, facade: Facade, split: string -> Option<(string, string)>,
                 keyOf: SpannerInstance -> Option<string>, lister: (string, string) -> Lookup<SpannerInstance>,
                 updateFaults: map<nat, string>)
      ensures this.queue == queue && this.facade == facade && this.split == split
      ensures this.keyOf == keyOf && this.lister == lister && this.updateFaults == updateFaults
      ensures updates == [] && events == []
    {
      this.queue := queue;
      this.facade := facade;
      this.split := split;
      this.keyOf := keyOf;
      this.lister := lister;
      this.updateFaults := updateFaults;
      updates := [];
      events := [];
    }

    ghost function State(): InstanceWorld
      reads this, facade
    {
      World(facade.store, facade.calls, updates, events)
    }

    /** `updateSpannerInstanceStatus`: an `Update` of a copy of the cached object. */
    method UpdateStatus(obj: SpannerInstance) returns (err: Option<string>)
      modifies this
      ensures (err, State()) == Update(old(State()), updateFaults, obj)
    {
      var copy := obj;
      if |updates| in updateFaults {
        err := Some(updateFaults[|updates|]);
      } else {
        err := None;
      }
      updates := updates + [copy];
    }

    /** `syncHandler`, run in the order of its three parts. */
    method SyncHandler(key: string) returns (err: Option<SyncError>)
      modifies this, facade
      ensures Outcome(err, State()) == Sync(key, split, lister, facade.faults, updateFaults, old(State()))
    {
      var parsed := split(key);
      if parsed.None? {
        return None;
      }
      var (namespace, name) := parsed.value;
      var cached := lister(namespace, name);
      if cached.ListError? {
        return Some(ListerError(cached.message));
      }
      if cached.Missing? {
        err := HandleGone(name);
        return;
      }
      var obj := cached.obj;
      var observed := ObserveOrCreate(obj, name);
      if observed.Failure? {
        return Some(observed.error);
      }
      err := ScaleIfDifferent(obj, name, observed.value);
    }

    /** The branch for an object no longer in the cache. */
    method HandleGone(name: string) returns (err: Option<SyncError>)
      modifies facade
      ensures Outcome(err, State()) == Gone(name, facade.faults, old(State()))
    {
      var got := facade.Invoke(GetInstance(name));
      if got.err.Some? && facade.IsNotFoundError(got.err.value) {
        return None;
      } else if got.err.Some? {
        return Some(CloudError(got.err.value));
      }
      var deleted := facade.Invoke(DeleteInstance(name));
      if deleted.err.Some? {
        return Some(CloudError(deleted.err.value));
      }
      return None;
    }

    /** Reads the instance, creating it first when the facade has none. */
    method ObserveOrCreate(obj: SpannerInstance, name: string) returns (observed: Result<Cloud.Instance, SyncError>)
      modifies facade
      ensures (observed, State()) == Observe(obj, name, facade.faults, old(State()))
    {
      var got := facade.Invoke(GetInstance(name));
      if got.err.Some? && facade.IsNotFoundError(got.err.value) {
        var created := facade.Invoke(CreateInstance(obj.spec.displayName, obj.meta.name,
                                                    obj.spec.instanceConfig, obj.spec.nodeCount));
        if created.err.Some? {
          return Failure(CloudError(created.err.value));
        }
        if |obj.meta.labels| > 0 {
          var labelled := facade.Invoke(UpdateLabels(name, obj.meta.labels));
          if labelled.err.Some? {
            return Failure(CloudError(labelled.err.value));
          }
        }
        var again := facade.Invoke(GetInstance(name));
        if again.err.Some? {
          return Failure(CloudError(again.err.value));
        }
        return Success(again.instance);
      } else if got.err.Some? {
        return Failure(CloudError(got.err.value));
      }
      return Success(got.instance);
    }

    /** Scales to the desired node count; a failed scale ends the sync with nil. */
    method ScaleIfDifferent(obj: SpannerInstance, name: string, inst: Cloud.Instance) returns (err: Option<SyncError>)
      modifies this, facade
      ensures Outcome(err, State()) == Converge(obj, name, inst, facade.faults, updateFaults, old(State()))
    {
      if obj.spec.nodeCount != inst.nodeCount {
        var scaled := facade.Invoke(Scale(obj.meta.name, obj.spec.nodeCount));
        if scaled.err.Some? {
          return None;
        }
      }
      err := RelabelAndFinish(obj, name, inst);
    }

    /** The label step, the status write and the event. */
    method RelabelAndFinish(obj: SpannerInstance, name: string, inst: Cloud.Instance) returns (err: Option<SyncError>)
      modifies this, facade
      ensures Outcome(err, State()) == Relabel(obj, name, inst, facade.faults, updateFaults, old(State()))
    {
      var labels := obj.meta.labels;
      var dirty, observedLabels := CompareLabels(labels, inst.labels);
      var observed := inst.(labels := observedLabels);
      if dirty {
        var relabelled := facade.Invoke(UpdateLabels(name, labels));
        if relabelled.err.Some? {
          return Some(CloudError(relabelled.err.value));
        }
      }
      var updateErr := UpdateStatus(obj);
      if updateErr.Some? {
        return Some(UpdateError(updateErr.value));
      }
      events := events + [SyncedEvent(obj, InstanceSyncedMessage)];
      err := None;
    }

    /** `processNextWorkItem`. */
    method ProcessNextWorkItem() returns (more: bool)
      requires queue.pending != [] || queue.shuttingDown
      modifies queue, facade, this
      ensures more <==> old(queue.pending) != []
      ensures |queue.log| > |old(queue.log)| && queue.log[..|old(queue.log)|] == old(queue.log)
      ensures more ==> IsRound(queue.log[|old(queue.log)|..])
      ensures queue.shuttingDown == old(queue.shuttingDown)
      ensures !more ==> queue.pending == [] && queue.log == old(queue.log) + [GetCall(None)] && State() == old(State())
      ensures more ==>
                queue.pending == old(queue.pending)[1..]
                && match old(queue.pending)[0]
                   case Other(d) =>
                     queue.log == old(queue.log) + Round(Other(d), false) && State() == old(State())
                   case Key(k) =>
                     var o := Sync(k, split, lister, facade.faults, updateFaults, old(State()));
                     State() == o.world && queue.log == old(queue.log) + Round(Key(k), o.err.Some?)
    {
      var item := queue.Get();
      if item.None? {
        return false;
      }
      match item.value {
        case Other(d) =>
          queue.Forget(item.value);
        case Key(k) =>
          var err := SyncHandler(k);
          if err.Some? {
            queue.AddRateLimited(k);
          } else {
            queue.Forget(item.value);
          }
      }
      queue.Done(item.value);
      more := true;
    }

    /** Part way through draining a shut-down queue that held `whole.0`'s
        items: `done` is in the log after `start`, the rest is still to come. */
    ghost predicate Draining(step: (string, World<SpannerInstance>) -> Outcome<SpannerInstance>, start: seq<QueueCall>,
                             whole: (seq<QueueCall>, World<SpannerInstance>), done: seq<QueueCall>)
      reads this, queue, facade
    {
      && queue.shuttingDown && step == SyncStep(split, lister, facade.faults, updateFaults)
      && queue.log == start + done
      && whole.0 == done + Drain(queue.pending, step, State()).0
      && whole.1 == Drain(queue.pending, step, State()).1
    }

    /** The queue is drained and the shutdown has been reported. */
    ghost predicate Drained(start: seq<QueueCall>, whole: (seq<QueueCall>, World<SpannerInstance>))
      reads this, queue, facade
    {
      queue.pending == [] && queue.log == start + whole.0 + [GetCall(None)] && State() == whole.1
    }

    /** One pass of `runWorker`'s loop, stated as a step of `Drain`. */
    method ProcessNextRound(ghost step: (string, World<SpannerInstance>) -> Outcome<SpannerInstance>, ghost start: seq<QueueCall>,
                            ghost whole: (seq<QueueCall>, World<SpannerInstance>), ghost done: seq<QueueCall>)
      returns (more: bool, ghost done': seq<QueueCall>)
      requires Draining(step, start, whole, done)
      modifies queue, facade, this
      ensures more ==> Draining(step, start, whole, done') && |queue.pending| < |old(queue.pending)|
      ensures !more ==> Drained(start, whole)
    {
      ghost var pending := queue.pending;
      ghost var w := State();
      ghost var before := queue.log;
      more := ProcessNextWorkItem();
      if more {
        ghost var round := queue.log[|before|..];
        ProcessedIsFirstRound(split, lister, facade.faults, updateFaults, pending, w, round, State());
        DrainAdvance(whole, done, Drain(pending, step, w), round, Drain(queue.pending, step, State()));
        assert queue.log == start + (done + round) by {
          assert queue.log == before + round;
        }
        done' := done + round;
      } else {
        assert Drain(pending, step, w) == ([], w);
        assert whole.0 + [GetCall(None)] == done + [GetCall(None)];
        done' := done;
      }
    }

    /** `runWorker` on a queue that is shutting down: it drains the queue,
        syncing the queued keys in order, one whole round per item, and stops
        at the shutdown report. */
    method RunWorker()
      requires queue.shuttingDown
      modifies queue, facade, this
      ensures queue.pending == []
      ensures var d := Drain(old(queue.pending), SyncStep(split, lister, facade.faults, updateFaults), old(State()));
              queue.log == old(queue.log) + d.0 + [GetCall(None)] && State() == d.1
      ensures Rounds(queue.log[|old(queue.log)|..|queue.log| - 1])
    {
      ghost var step := SyncStep(split, lister, facade.faults, updateFaults);
      ghost var whole := Drain(queue.pending, step, State());
      ghost var done: seq<QueueCall> := [];
      var more := true;
      assert Draining(step, old(queue.log), whole, done) by {
        assert old(queue.log) + done == old(queue.log);
        assert done + whole.0 == whole.0;
      }
      while more
        invariant more ==> Draining(step, old(queue.log), whole, done)
        invariant !more ==> Drained(old(queue.log), whole)
        decreases |queue.pending|, more
      {
        more, done := ProcessNextRound(step, old(queue.log), whole, done);
      }
      DrainRounds(old(queue.pending), step, old(State()));
      assert queue.log[|old(queue.log)|..|queue.log| - 1] == whole.0;
    }

    /** `enqueueSpannerInstance`: the object's key goes on the queue; an
        object without a key is dropped. */
    method Enqueue(obj: SpannerInstance)
      modifies queue
      ensures keyOf(obj).None? ==> queue.log == old(queue.log) && queue.pending == old(queue.pending)
      ensures keyOf(obj).Some? ==>
                queue.log == old(queue.log) + [AddCall(keyOf(obj).value)]
                && queue.pending == if old(queue.shuttingDown) then old(queue.pending)
                                    else old(queue.pending) + [Key(keyOf(obj).value)]
      ensures queue.shuttingDown == old(queue.shuttingDown)
    {
      var key := keyOf(obj);
      if key.None? {
        return;
      }
      queue.Add(key.value);
    }

    /** The handlers registered with the informer: additions and updates
        enqueue the (new) object; there is no handler for deletions. */
    method Notify(n: Notification<SpannerInstance>)
      modifies queue
      ensures n.Deleted? ==> queue.log == old(queue.log) && queue.pending == old(queue.pending)
      ensures !n.Deleted? ==>
                var obj := if n.Added? then n.obj else n.newObj;
                queue.log == old(queue.log) + (if keyOf(obj).Some? then [AddCall(keyOf(obj).value)] else [])
                && queue.pending == if keyOf(obj).None? || old(queue.shuttingDown) then old(queue.pending)
                                    else old(queue.pending) + [Key(keyOf(obj).value)]
      ensures queue.shuttingDown == old(queue.shuttingDown)
    {
      match n
      case Added(obj) => Enqueue(obj);
      case Updated(_, newObj) => Enqueue(newObj);
      case Deleted(_) =>
    }
  }
}
