/**
 * The bulk-intake request of the entities package.
 */
module EntitiesIntake {
  import opened Common
  import opened S3Path
  import opened IntakeMessage
  import opened BulkIntake

  /** The package state the request reads and writes. */
  class Intake {
    /** The package-level `err`, which the publish step assigns. */
    var err: Option<PublishError>
    const store: ObjectStore
    const queue: Queue

    constructor(store: ObjectStore, queue: Queue)
      ensures this.store == store && this.queue == queue && err == None
    {
      this.store := store;
      this.queue := queue;
      err := None;
    }

    /** Publishes the unescaped payload; a publisher error is returned. */
    method PushToSQS(bucket: string, key: string) returns (e: Option<PublishError>)
      modifies this, queue
      ensures e == (if queue.accepts then None else Some(PublishError))
      ensures queue.messages == old(queue.messages) + (if queue.accepts then [Payload(bucket, key)] else [])
      ensures err == e
    {
      var payload := Payload(bucket, key);
      err := queue.Publish(payload);
      e := err;
    }

    /**
     * Rejects a malformed path, asks the object store about a well-formed
     * one, and publishes only when the object exists.
     */
    method ValidateAndPushToSQS(filePath: string) returns (e: Option<IntakeError>)
      modifies this, queue, store
      ensures e == IntakeResult(filePath, store.objects)
      ensures store.headRequests == old(store.headRequests) + HeadCalls(filePath)
      ensures queue.messages == old(queue.messages) + Published(filePath, store.objects, queue.accepts)
      ensures err == LastPublishError(filePath, store.objects, queue.accepts, old(err))
    {
      if !HasPrefix(filePath, Scheme) {
        return Some(BadPath(MissingScheme));
      }
      var path := TrimPrefix(filePath, Scheme);
      var parts := SplitN2(path, '/');
      if |parts| != 2 {
        return Some(BadPath(NotBucketKey));
      }
      var bucket, key := parts[0], parts[1];
      var found := store.HeadObject(Location(bucket, key));
      if !found {
        return Some(ObjectMissing);
      }
      var pushed := PushToSQS(bucket, key);
      // a failed push is only logged
      return None;
    }
  }
}
