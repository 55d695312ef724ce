/**
 * What the bulk-intake request does, independent of which of its three
 * copies runs: resolve the path, ask the object store whether the object
 * exists, and publish the queue payload. The object store and the queue are
 * in-memory stand-ins that log every call made to them.
 */
module BulkIntake {
  import opened Common
  import opened S3Path
  import opened IntakeMessage

  /** The object store: which objects exist, and the existence checks asked. */
  class ObjectStore {
    const objects: set<Location>
    var headRequests: seq<Location>

    constructor(objects: set<Location>)
      ensures this.objects == objects && headRequests == []
    {
      this.objects := objects;
      headRequests := [];
    }

    /** `HeadObject`: succeeds exactly when the object exists. */
    method HeadObject(loc: Location) returns (found: bool)
      modifies this
      ensures found <==> loc in objects
      ensures headRequests == old(headRequests) + [loc]
    {
      headRequests := headRequests + [loc];
      found := loc in objects;
    }
  }

  /** The error the queue publisher reports; its content is not inspected. */
  datatype PublishError = PublishError

  /** The queue: whether it accepts messages, and the messages it holds. */
  class Queue {
    const accepts: bool
    var messages: seq<string>

    constructor(accepts: bool)
      ensures this.accepts == accepts && messages == []
    {
      this.accepts := accepts;
      messages := [];
    }

    method Publish(msg: string) returns (e: Option<PublishError>)
      modifies this
      ensures e == (if accepts then None else Some(PublishError))
      ensures messages == old(messages) + (if accepts then [msg] else [])
    {
      if accepts {
        messages := messages + [msg];
        e := None;
      } else {
        e := Some(PublishError);
      }
    }
  }

  datatype IntakeError =
    | BadPath(reason: PathError)
    | ObjectMissing   // "file does not exist at specified S3 path"

  /** The existence checks one request makes: none for a malformed path. */
  function HeadCalls(filePath: string): (r: seq<Location>) {
    match Resolve(filePath)
    case Malformed(_) => []
    case Resolved(loc) => [loc]
  }

  /** The error returned to the caller; a failed publish is not among them. */
  function IntakeResult(filePath: string, objects: set<Location>): (r: Option<IntakeError>) {
    match Resolve(filePath)
    case Malformed(e) => Some(BadPath(e))
    case Resolved(loc) => if loc in objects then None else Some(ObjectMissing)
  }

  /** The messages one request adds to the queue. */
  function Published(filePath: string, objects: set<Location>, accepts: bool): (r: seq<string>) {
    match Resolve(filePath)
    case Malformed(_) => []
    case Resolved(loc) =>
      if loc in objects && accepts then [Payload(loc.bucket, loc.key)] else []
  }

  /**
   * The publisher error a request leaves in the package-level `err`: it is
   * assigned only when a publish was attempted.
   */
  function LastPublishError(filePath: string, objects: set<Location>, accepts: bool,
                            before: Option<PublishError>): (r: Option<PublishError>) {
    match Resolve(filePath)
    case Malformed(_) => before
    case Resolved(loc) =>
      if loc !in objects then before
      else if accepts then None else Some(PublishError)
  }

  /**
   * A path that does not start with `s3://` is rejected with its own error
   * before the object store is asked anything, and nothing is published.
   */
  lemma RejectedBeforeObjectStore(filePath: string, objects: set<Location>, accepts: bool)
    requires !HasPrefix(filePath, Scheme)
    ensures HeadCalls(filePath) == []
    ensures IntakeResult(filePath, objects) == Some(BadPath(MissingScheme))
    ensures Published(filePath, objects, accepts) == []
  {
  }

  /** A remainder without `/` is rejected, also before the object store. */
  lemma RejectedWithoutKey(filePath: string, objects: set<Location>, accepts: bool)
    requires HasPrefix(filePath, Scheme) && '/' !in filePath[|Scheme|..]
    ensures HeadCalls(filePath) == []
    ensures IntakeResult(filePath, objects) == Some(BadPath(NotBucketKey))
    ensures Published(filePath, objects, accepts) == []
  {
  }

  /**
   * A well-formed path is checked once, for exactly its bucket and key; a
   * missing object is an error and nothing is published.
   */
  lemma MissingObjectPublishesNothing(bucket: string, key: string, objects: set<Location>, accepts: bool)
    requires '/' !in bucket && Location(bucket, key) !in objects
    ensures HeadCalls(Scheme + bucket + "/" + key) == [Location(bucket, key)]
    ensures IntakeResult(Scheme + bucket + "/" + key, objects) == Some(ObjectMissing)
    ensures Published(Scheme + bucket + "/" + key, objects, accepts) == []
  {
    ResolveRoundTrip(bucket, key);
  }

  /**
   * Once the object exists the request succeeds, whether or not the queue
   * accepted the payload: a publish failure is only recorded in `err`.
   */
  lemma PushFailureSwallowed(bucket: string, key: string, objects: set<Location>, before: Option<PublishError>)
    requires '/' !in bucket && Location(bucket, key) in objects
    ensures IntakeResult(Scheme + bucket + "/" + key, objects) == None
    ensures Published(Scheme + bucket + "/" + key, objects, false) == []
    ensures LastPublishError(Scheme + bucket + "/" + key, objects, false, before) == Some(PublishError)
  {
    ResolveRoundTrip(bucket, key);
  }

  /**
   * A message is published exactly when the path is well formed, the object
   * exists and the queue accepts; it is then the payload for that bucket and
   * key, and the queue consumer reads both back when they need no escaping.
   */
  lemma PublishedIff(filePath: string, objects: set<Location>, accepts: bool)
    ensures |Published(filePath, objects, accepts)| <= 1
    ensures |Published(filePath, objects, accepts)| == 1 <==>
              Resolve(filePath).Resolved? && Resolve(filePath).loc in objects && accepts
    ensures |Published(filePath, objects, accepts)| == 1 ==>
              var loc := Resolve(filePath).loc;
              Published(filePath, objects, accepts)[0] == Payload(loc.bucket, loc.key) &&
              (Plain(loc.bucket) && Plain(loc.key) ==>
                 DecodeIntake(Published(filePath, objects, accepts)[0]) == Some(loc))
  {
    if Resolve(filePath).Resolved? {
      var loc := Resolve(filePath).loc;
      if Plain(loc.bucket) && Plain(loc.key) {
        DecodeIntakePayload(loc.bucket, loc.key);
      }
    }
  }

  /** A request returns success only for a well-formed path to an existing object. */
  lemma SucceedsIff(filePath: string, objects: set<Location>)
    ensures IntakeResult(filePath, objects).None? <==>
              Resolve(filePath).Resolved? && Resolve(filePath).loc in objects
  {
  }
}
