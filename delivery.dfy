/** What the two stages that end the pipeline share: their configuration,
    the public address of a stored image, the message that tells the client
    where to find it, and the store-then-push sequence that delivers it. */
module Delivery {
  import opened Common
  import opened Cloud

  /** The three settings both final stages read from the environment. */
  datatype Config = Config(bucket: string, endpoint: string, region: string)

  const BucketVariable: string := "BUCKET_NAME"
  const EndpointVariable: string := "WEBSOCKET_API_ENDPOINT"
  const RegionVariable: string := "REGION"

  /** Reading the configuration: the variables are checked in the order
      bucket, endpoint, region, and the first unset or empty one is the error. */
  function LoadConfig(env: Env): (r: Result<Config>)
    ensures r.Ok? <==> Getenv(env, BucketVariable) != "" && Getenv(env, EndpointVariable) != "" && Getenv(env, RegionVariable) != ""
    ensures r.Ok? ==> r.value == Config(Getenv(env, BucketVariable), Getenv(env, EndpointVariable), Getenv(env, RegionVariable))
    ensures Getenv(env, BucketVariable) == "" ==> r == Err(MissingConfig(BucketVariable))
    ensures Getenv(env, BucketVariable) != "" && Getenv(env, EndpointVariable) == "" ==> r == Err(MissingConfig(EndpointVariable))
    ensures Getenv(env, BucketVariable) != "" && Getenv(env, EndpointVariable) != "" && Getenv(env, RegionVariable) == "" ==>
      r == Err(MissingConfig(RegionVariable))
  {
    var bucket := Getenv(env, BucketVariable);
    if bucket == "" then Err(MissingConfig(BucketVariable))
    else
      var endpoint := Getenv(env, EndpointVariable);
      if endpoint == "" then Err(MissingConfig(EndpointVariable))
      else
        var region := Getenv(env, RegionVariable);
        if region == "" then Err(MissingConfig(RegionVariable))
        else Ok(Config(bucket, endpoint, region))
  }

  /** The virtual-hosted address's fixed part, before the key. */
  function UrlBase(bucket: string, region: string): string
  {
    "https://" + bucket + ".s3." + region + ".amazonaws.com/"
  }

  /** The virtual-hosted address of an object. */
  function ObjectUrl(bucket: string, region: string, key: string): string
  {
    UrlBase(bucket, region) + key
  }

  /** The key back from an address under a given bucket and region. */
  function KeyOfUrl(bucket: string, region: string, url: string): Option<string>
  {
    var base := UrlBase(bucket, region);
    if |base| <= |url| && url[..|base|] == base then Some(url[|base|..]) else None
  }

  /** The address determines the key: reading it back gives the key, so two
      keys in the same bucket never share an address. */
  lemma KeyOfObjectUrl(bucket: string, region: string, key: string)
    ensures KeyOfUrl(bucket, region, ObjectUrl(bucket, region, key)) == Some(key)
  {
    var base := UrlBase(bucket, region);
    var url := ObjectUrl(bucket, region, key);
    assert url == base + key;
    assert url[..|base|] == base;
    assert url[|base|..] == key;
  }

  lemma ObjectUrlInjective(bucket: string, region: string, k1: string, k2: string)
    requires ObjectUrl(bucket, region, k1) == ObjectUrl(bucket, region, k2)
    ensures k1 == k2
  {
    KeyOfObjectUrl(bucket, region, k1);
    KeyOfObjectUrl(bucket, region, k2);
  }

  const PayloadHead: string := "{\"url\": \""
  const PayloadTail: string := "\"}"

  /** The message pushed to the client. The address is inserted as it is,
      without JSON escaping. */
  function UrlPayload(url: string): string
  {
    PayloadHead + url + PayloadTail
  }

  /** The address back from a message. */
  function UrlOfPayload(data: string): Option<string>
  {
    if |PayloadHead| + |PayloadTail| <= |data|
       && data[..|PayloadHead|] == PayloadHead
       && data[|data| - |PayloadTail|..] == PayloadTail
    then Some(data[|PayloadHead|..|data| - |PayloadTail|])
    else None
  }

  /** The message carries the address: reading it back gives the address. */
  lemma UrlOfUrlPayload(url: string)
    ensures UrlOfPayload(UrlPayload(url)) == Some(url)
  {
    var data := UrlPayload(url);
    assert data[..|PayloadHead|] == PayloadHead;
    assert data[|data| - |PayloadTail|..] == PayloadTail;
    assert data[|PayloadHead|..|data| - |PayloadTail|] == url;
  }

  /** The push the stages send for an object stored under `key`. */
  function PushFor(cfg: Config, connectionId: string, key: string): Push
  {
    Push(cfg.endpoint, connectionId, UrlPayload(ObjectUrl(cfg.bucket, cfg.region, key)))
  }

  /** A push carries the key of the object it announces. */
  lemma PushNamesKey(cfg: Config, connectionId: string, key: string)
    ensures UrlOfPayload(PushFor(cfg, connectionId, key).data) == Some(ObjectUrl(cfg.bucket, cfg.region, key))
    ensures KeyOfUrl(cfg.bucket, cfg.region, ObjectUrl(cfg.bucket, cfg.region, key)) == Some(key)
  {
    UrlOfUrlPayload(ObjectUrl(cfg.bucket, cfg.region, key));
    KeyOfObjectUrl(cfg.bucket, cfg.region, key);
  }

  /** The object store after the write of `body` under `key`: the write
      lands only when the store accepts it, and touches no other key. */
  function AfterStore(objects: map<ObjectRef, StoredObject>, cfg: Config, key: string, body: seq<Byte>,
                      sniff: seq<Byte> -> string, putReply: Reply<()>): (r: map<ObjectRef, StoredObject>)
    ensures putReply.Done? ==> ObjectRef(cfg.bucket, key) in r && r[ObjectRef(cfg.bucket, key)].body == body
    ensures putReply.Failed? ==> r == objects
    ensures OnlyKeyWritten(objects, r, key)
  {
    if putReply.Done? then objects[ObjectRef(cfg.bucket, key) := StoredObject(body, sniff(body))] else objects
  }

  /** The deliveries after the push: one more, to `connectionId`, exactly
      when both the write and the push succeeded. */
  function AfterPush(pushes: seq<Push>, cfg: Config, connectionId: string, key: string,
                     putReply: Reply<()>, pushReply: Reply<()>): (r: seq<Push>)
    ensures |r| == |pushes| + (if putReply.Done? && pushReply.Done? then 1 else 0)
    ensures r[..|pushes|] == pushes
    ensures forall i :: |pushes| <= i < |r| ==> r[i].connectionId == connectionId && UrlOfPayload(r[i].data) == Some(ObjectUrl(cfg.bucket, cfg.region, key))
  {
    PushNamesKey(cfg, connectionId, key);
    pushes + (if putReply.Done? && pushReply.Done? then [PushFor(cfg, connectionId, key)] else [])
  }

  /** The error the delivery returns: the write's, else the push's. */
  function DeliveryError(putReply: Reply<()>, pushReply: Reply<()>): (err: Option<Error>)
    ensures err.None? <==> putReply.Done? && pushReply.Done?
  {
    if putReply.Failed? then Some(CallFailed(PutObject, putReply.cause))
    else if pushReply.Failed? then Some(CallFailed(PostToConnection, pushReply.cause))
    else None
  }

  /** Store the image under `key`, then tell the connection its address.
      `sniff` stands for the content-type detection on the bytes; `putReply`
      and `pushReply` are the services' answers. A failed write stops the
      stage before the push. */
  method StoreAndDeliver(cloud: Cloud, cfg: Config, connectionId: string, key: string, body: seq<Byte>,
                         sniff: seq<Byte> -> string, putReply: Reply<()>, pushReply: Reply<()>)
    returns (err: Option<Error>)
    modifies cloud
    ensures cloud.objects == AfterStore(old(cloud.objects), cfg, key, body, sniff, putReply)
    ensures cloud.pushes == AfterPush(old(cloud.pushes), cfg, connectionId, key, putReply, pushReply)
    ensures err == DeliveryError(putReply, pushReply)
    ensures cloud.entries == old(cloud.entries) && cloud.requests == old(cloud.requests)
  {
    var stored := cloud.PutObject(ObjectRef(cfg.bucket, key), StoredObject(body, sniff(body)), putReply);
    if stored.Failed? {
      return Some(CallFailed(PutObject, stored.cause));
    }
    var pushed := cloud.PostToConnection(PushFor(cfg, connectionId, key), pushReply);
    if pushed.Failed? {
      return Some(CallFailed(PostToConnection, pushed.cause));
    }
    return None;
  }
}
