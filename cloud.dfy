/** The observable state of the services the stages call: the event bus,
    the object store, the WebSocket gateway's deliveries, and a log of the
    read-only requests (image downloads, model invocations). A service's
    answer is not modelled: the caller supplies it as a `Reply`. */
module Cloud {
  import opened Common
  import opened Events

  /** One event-bus entry (`PutEventsRequestEntry`). */
  datatype Entry = Entry(detail: EventDetail, detailType: string, source: string, eventBusName: string)

  /** Where an object lives: a bucket and a key in it. */
  datatype ObjectRef = ObjectRef(bucket: string, key: string)

  datatype StoredObject = StoredObject(body: seq<Byte>, contentType: string)

  /** A message delivered through the gateway at `endpoint` to a connection. */
  datatype Push = Push(endpoint: string, connectionId: string, data: string)

  /** A request that changes nothing but whose order matters. */
  datatype Request = HttpGet(url: string) | ModelInvocation(region: string, request: InvokeRequest)

  class Cloud {
    var entries: seq<Entry>
    var objects: map<ObjectRef, StoredObject>
    var pushes: seq<Push>
    var requests: seq<Request>

    constructor ()
      ensures entries == [] && objects == map[] && pushes == [] && requests == []
    {
      entries, objects, pushes, requests := [], map[], [], [];
    }

    /** `PutEvents`. A `Done(n)` answer reports `n` rejected entries; the
        entries are on the bus only when the call succeeded and none was
        rejected. */
    method PutEvents(batch: seq<Entry>, reply: Reply<nat>) returns (r: Reply<nat>)
      modifies this
      ensures r == reply
      ensures entries == old(entries) + (if reply == Done(0) then batch else [])
      ensures objects == old(objects) && pushes == old(pushes) && requests == old(requests)
    {
      if reply == Done(0) {
        entries := entries + batch;
      }
      r := reply;
    }

    /** `http.Get(url)`. */
    method Get(url: string, reply: HttpReply) returns (r: HttpReply)
      modifies this
      ensures r == reply
      ensures requests == old(requests) + [HttpGet(url)]
      ensures entries == old(entries) && objects == old(objects) && pushes == old(pushes)
    {
      requests := requests + [HttpGet(url)];
      r := reply;
    }

    /** `InvokeModel` in a region: the answer is the response body. */
    method InvokeModel(region: string, request: InvokeRequest, reply: Reply<seq<Byte>>) returns (r: Reply<seq<Byte>>)
      modifies this
      ensures r == reply
      ensures requests == old(requests) + [ModelInvocation(region, request)]
      ensures entries == old(entries) && objects == old(objects) && pushes == old(pushes)
    {
      requests := requests + [ModelInvocation(region, request)];
      r := reply;
    }

    /** `PutObject`: a successful write replaces whatever the key held. */
    method PutObject(ref: ObjectRef, obj: StoredObject, reply: Reply<()>) returns (r: Reply<()>)
      modifies this
      ensures r == reply
      ensures objects == if reply.Done? then old(objects)[ref := obj] else old(objects)
      ensures entries == old(entries) && pushes == old(pushes) && requests == old(requests)
    {
      if reply.Done? {
        objects := objects[ref := obj];
      }
      r := reply;
    }

    /** `PostToConnection`: a failed push (a closed connection) delivers nothing. */
    method PostToConnection(push: Push, reply: Reply<()>) returns (r: Reply<()>)
      modifies this
      ensures r == reply
      ensures pushes == old(pushes) + (if reply.Done? then [push] else [])
      ensures entries == old(entries) && objects == old(objects) && requests == old(requests)
    {
      if reply.Done? {
        pushes := pushes + [push];
      }
      r := reply;
    }
  }

  /** The object store changed at most under keys equal to `key`. */
  ghost predicate OnlyKeyWritten(before: map<ObjectRef, StoredObject>, after: map<ObjectRef, StoredObject>, key: string)
  {
    forall ref: ObjectRef :: ref.key != key ==> (ref in before <==> ref in after) && (ref in before ==> before[ref] == after[ref])
  }
}
