/** The custom resources the two reconcilers watch, the answers of their
    listers, and the events they record. A `DeepCopy` is a value copy. */
module Resources {
  import opened Base

  datatype ObjectMeta = ObjectMeta(namespace: string, name: string, labels: Labels)

  datatype SpannerInstanceSpec = SpannerInstanceSpec(displayName: string, instanceConfig: string, nodeCount: int32)
  datatype SpannerInstanceStatus = SpannerInstanceStatus(availableNodes: int32, instanceLabels: Labels)
  datatype SpannerInstance = SpannerInstance(meta: ObjectMeta, spec: SpannerInstanceSpec, status: SpannerInstanceStatus)

  /** A database names the instance it belongs to; its status has no fields. */
  datatype SpannerDatabaseSpec = SpannerDatabaseSpec(instanceId: string)
  datatype SpannerDatabase = SpannerDatabase(meta: ObjectMeta, spec: SpannerDatabaseSpec)

  /** What a lister's `Get(name)` answers: the cached object, a NotFound
      error, or any other error. */
  datatype Lookup<T> = Found(obj: T) | Missing | ListError(message: string)

  /** The notifications an informer delivers to its handlers. */
  datatype Notification<T> = Added(obj: T) | Updated(oldObj: T, newObj: T) | Deleted(obj: T)

  datatype EventType = Normal | Warning

  /** An event recorded against an object. */
  datatype Event<T> = Event(object: T, eventType: EventType, reason: string, message: string)

  const SuccessSynced: string := "Synced"
  const InstanceSyncedMessage: string := "SpannerInstance synced successfully"
  const DatabaseSyncedMessage: string := "SpannerDatabase synced successfully"
}
