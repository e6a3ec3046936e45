/** The `Operator` facade as the two reconcilers see it, modelled as an
    in-memory fake: a store of instances and databases, the log of every call
    made, and a fault oracle that makes the call with a given index fail
    without effect. */
module Cloud {
  import opened Base

  /** A NotFound error (the one `IsNotFoundError` accepts) or any other. */
  datatype Error = NotFound | Failed(message: string)

  /** The fields of an instance the reconcilers read. */
  datatype Instance = Instance(displayName: string, config: string, nodeCount: int32, labels: Labels)

  const NoInstance: Instance := Instance("", "", 0, map[])

  /** The facade's methods, with their arguments. */
  datatype Call =
    | GetInstance(instanceId: string)
    | CreateInstance(displayName: string, instanceId: string, instanceConfig: string, nodeCount: int32)
    | Scale(instanceId: string, nodeCount: int32)
    | DeleteInstance(instanceId: string)
    | UpdateLabels(instanceId: string, labels: Labels)
    | CreateDatabase(instanceId: string, name: string)
    | GetDatabase(instanceId: string, name: string)
    | DropDatabase(instanceId: string, name: string)

  predicate Mutating(c: Call) {
    !(c.GetInstance? || c.GetDatabase?)
  }

  /** Instances by id, and databases as (instance id, name) pairs. */
  datatype Store = Store(instances: map<string, Instance>, databases: set<(string, string)>)

  /** Every database belongs to an existing instance. */
  predicate Consistent(s: Store) {
    forall d :: d in s.databases ==> d.0 in s.instances
  }

  /** The error of a call, and the instance a successful `GetInstance` returns. */
  datatype Reply = Reply(err: Option<Error>, instance: Instance)

  const Ok: Reply := Reply(None, NoInstance)

  function Fail(e: Error): Reply {
    Reply(Some(e), NoInstance)
  }

  /** How the service answers a call when nothing goes wrong. */
  function Apply(s: Store, c: Call): (Reply, Store) {
    match c
    case GetInstance(id) =>
      if id in s.instances then (Reply(None, s.instances[id]), s) else (Fail(NotFound), s)
    case CreateInstance(displayName, id, config, nodeCount) =>
      if id in s.instances then (Fail(Failed("already exists")), s)
      else (Ok, s.(instances := s.instances[id := Instance(displayName, config, nodeCount, map[])]))
    case Scale(id, nodeCount) =>
      if id in s.instances then (Ok, s.(instances := s.instances[id := s.instances[id].(nodeCount := nodeCount)]))
      else (Fail(NotFound), s)
    case DeleteInstance(id) =>
      if id in s.instances then (Ok, Store(s.instances - {id}, set d | d in s.databases && d.0 != id))
      else (Fail(NotFound), s)
    case UpdateLabels(id, labels) =>
      if id in s.instances then (Ok, s.(instances := s.instances[id := s.instances[id].(labels := labels)]))
      else (Fail(NotFound), s)
    case CreateDatabase(id, name) =>
      if id !in s.instances then (Fail(NotFound), s)
      else if (id, name) in s.databases then (Fail(Failed("already exists")), s)
      else (Ok, s.(databases := s.databases + {(id, name)}))
    case GetDatabase(id, name) =>
      if (id, name) in s.databases then (Ok, s) else (Fail(NotFound), s)
    case DropDatabase(id, name) =>
      if (id, name) in s.databases then (Ok, s.(databases := s.databases - {(id, name)}))
      else (Fail(NotFound), s)
  }

  /** A call that fails leaves the store as it was; one that does not mutate
      never changes it; and no call breaks consistency. */
  lemma ApplyKeepsStore(s: Store, c: Call)
    ensures Apply(s, c).0.err.Some? ==> Apply(s, c).1 == s
    ensures !Mutating(c) ==> Apply(s, c).1 == s
    ensures Consistent(s) ==> Consistent(Apply(s, c).1)
  {
  }

  /** The service's error is one `IsNotFoundError` accepts exactly when
      the instance or database the call addresses is missing; creating an
      instance never fails that way. */
  lemma NotFoundIffMissing(f: Facade, s: Store, c: Call)
    ensures var err := Apply(s, c).0.err;
            (err.Some? && f.IsNotFoundError(err.value)) <==>
              match c
              case CreateInstance(_, _, _, _) => false
              case GetDatabase(id, name) => (id, name) !in s.databases
              case DropDatabase(id, name) => (id, name) !in s.databases
              case _ => c.instanceId !in s.instances
  {
  }

  /** The answer to the call with index `index`: the fault, if the oracle
      has one for it, otherwise the service's answer. */
  function Perform(s: Store, faults: map<nat, Error>, index: nat, c: Call): (r: (Reply, Store))
    ensures index in faults ==> r == (Fail(faults[index]), s)
    ensures index !in faults ==> r == Apply(s, c)
    ensures Consistent(s) ==> Consistent(r.1)
  {
    ApplyKeepsStore(s, c);
    if index in faults then (Fail(faults[index]), s) else Apply(s, c)
  }

  /** No fault is scheduled at or after call `n`. */
  predicate NoFaultsFrom<E>(faults: map<nat, E>, n: nat) {
    forall i :: i in faults ==> i < n
  }

  class Facade {
    var store: Store
    var calls: seq<Call>
    const faults: map<nat, Error>

    constructor (store: Store, faults: map<nat, Error>)
      ensures this.store == store && calls == [] && this.faults == faults
    {
      this.store := store;
      calls := [];
      this.faults := faults;
    }

    method Invoke(c: Call) returns (r: Reply)
      modifies this
      ensures (r, store) == Perform(old(store), faults, |old(calls)|, c)
      ensures calls == old(calls) + [c]
    {
      var (reply, next) := Perform(store, faults, |calls|, c);
      r := reply;
      store := next;
      calls := calls + [c];
    }

    predicate IsNotFoundError(err: Error) {
      err == NotFound
    }
  }
}
