/** The upload stage of the remote branch: it downloads the generated image
    from its temporary address, stores it under the client's object key and
    tells the client's connection where it is. */
module UploadImage {
  import opened Common
  import opened Events
  import opened Cloud
  import opened Delivery

  /** The download yields an image: status 200 and a readable body. */
  predicate Downloaded(reply: HttpReply) {
    reply.Response? && reply.status == StatusOK && reply.body.Done?
  }

  /** Why a download that yields no image fails; the status is checked
      before the body is read. */
  function DownloadError(reply: HttpReply): (e: Error)
    requires !Downloaded(reply)
    ensures reply.Response? && reply.status != StatusOK ==> e == BadStatus(Download, reply.status)
  {
    match reply
    case TransportError(cause) => CallFailed(Download, cause)
    case Response(status, body) =>
      if status != StatusOK then BadStatus(Download, status) else CallFailed(ReadBody, body.cause)
  }

  /** The stage's handler. `download` is the answer to the GET of
      `event.url`, `sniff` the content-type detection, `putReply` and
      `pushReply` the services' answers. */
  method Handle(cloud: Cloud, env: Env, event: UrlEvent, download: HttpReply,
                sniff: seq<Byte> -> string, putReply: Reply<()>, pushReply: Reply<()>)
    returns (err: Option<Error>)
    modifies cloud
    ensures LoadConfig(env).Err? ==>
      err == Some(LoadConfig(env).error) && cloud.requests == old(cloud.requests)
      && cloud.objects == old(cloud.objects) && cloud.pushes == old(cloud.pushes)
    ensures LoadConfig(env).Ok? ==> cloud.requests == old(cloud.requests) + [HttpGet(event.url)]
    ensures LoadConfig(env).Ok? && !Downloaded(download) ==>
      err == Some(DownloadError(download)) && cloud.objects == old(cloud.objects) && cloud.pushes == old(cloud.pushes)
    ensures LoadConfig(env).Ok? && Downloaded(download) ==>
      var cfg := LoadConfig(env).value;
      && cloud.objects == AfterStore(old(cloud.objects), cfg, event.s3Key, download.body.value, sniff, putReply)
      && cloud.pushes == AfterPush(old(cloud.pushes), cfg, event.connectionId, event.s3Key, putReply, pushReply)
      && err == DeliveryError(putReply, pushReply)
    ensures cloud.entries == old(cloud.entries)
  {
    var config := LoadConfig(env);
    if config.Err? {
      return Some(config.error);
    }
    var reply := cloud.Get(event.url, download);
    if reply.TransportError? {
      return Some(CallFailed(Download, reply.cause));
    }
    if reply.status != StatusOK {
      return Some(BadStatus(Download, reply.status));
    }
    if reply.body.Failed? {
      return Some(CallFailed(ReadBody, reply.body.cause));
    }
    err := StoreAndDeliver(cloud, config.value, event.connectionId, event.s3Key, reply.body.value, sniff, putReply, pushReply);
  }
}
