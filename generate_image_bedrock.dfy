/** The inline generation stage of the model-hosting branch: it asks an
    image model for one image, decodes the base64 image it answers with,
    stores it under the client's object key and tells the client's
    connection where it is. */
module GenerateImageBedrock {
  import opened Common
  import opened Events
  import opened Cloud
  import opened Delivery
  import Base64

  /** `decodeImage`: standard base64 with padding; a malformed input is an
      error and yields no bytes. */
  function DecodeImage(s: string): (r: Result<seq<Byte>>)
    ensures r.Err? <==> Base64.Decode(s).None?
    ensures r.Err? ==> r.error == BadBase64
    ensures r.Ok? && Base64.Canonical(s) ==> Base64.Encode(r.value) == s
    ensures r.Ok? && Base64.Encode(r.value) == s ==> Base64.Canonical(s)
  {
    match Base64.Decode(s)
    case None => Err(BadBase64)
    case Some(bytes) =>
      Base64.EncodeDecode(s, bytes);
      Ok(bytes)
  }

  /** Every image the model can send decodes back to its bytes. */
  lemma DecodeImageEncode(bytes: seq<Byte>)
    ensures DecodeImage(Base64.Encode(bytes)) == Ok(bytes)
  {
    Base64.DecodeEncode(bytes);
  }

  /** The region the model runtime is configured with. */
  const ModelRegion: string := "us-east-1"

  /** The model request for a prompt: one 1024 by 1024 image, guidance scale
      8; the seed and the negative text keep their zero values, which the
      encoder leaves out. */
  function RequestFor(prompt: string): (r: InvokeRequest)
    ensures r.body.params.text == prompt
  {
    InvokeRequest("*/*", "amazon.titan-image-generator-v1", "application/json",
      TitanRequest("TEXT_IMAGE", ImageGenerationConfig(1, 1024, 1024, 8.0, 0), TextToImageParams(prompt, "")))
  }

  /** The image in the model's answer: the response is decoded, its first
      image (there is no length check: an empty list is the index panic)
      is decoded from base64. */
  function ImageOf(invokeReply: Reply<seq<Byte>>, unmarshal: seq<Byte> -> Reply<TitanResponse>): (r: Result<seq<Byte>>)
    ensures invokeReply.Failed? ==> r == Err(CallFailed(InvokeModel, invokeReply.cause))
    ensures r.Ok? ==>
      && invokeReply.Done? && unmarshal(invokeReply.value).Done?
      && var images := unmarshal(invokeReply.value).value.images;
         images != [] && Base64.Decode(images[0]) == Some(r.value)
    ensures invokeReply.Done? && unmarshal(invokeReply.value).Done? && unmarshal(invokeReply.value).value.images == [] ==>
      r == Err(IndexOutOfRange)
  {
    match invokeReply
    case Failed(cause) => Err(CallFailed(InvokeModel, cause))
    case Done(body) =>
      match unmarshal(body)
      case Failed(cause) => Err(CallFailed(Unmarshal, cause))
      case Done(output) =>
        if output.images == [] then Err(IndexOutOfRange)
        else DecodeImage(output.images[0])
  }

  /** The stage's handler. `configReply` is the outcome of loading the
      runtime's configuration, `invokeReply` the model's answer, `unmarshal`
      the decoding of that answer, `sniff` the content-type detection,
      `putReply` and `pushReply` the services' answers. */
  method Handle(cloud: Cloud, env: Env, event: GenerationEvent, configReply: Reply<()>,
                invokeReply: Reply<seq<Byte>>, unmarshal: seq<Byte> -> Reply<TitanResponse>,
                sniff: seq<Byte> -> string, putReply: Reply<()>, pushReply: Reply<()>)
    returns (err: Option<Error>)
    modifies cloud
    ensures LoadConfig(env).Err? ==>
      err == Some(LoadConfig(env).error) && cloud.requests == old(cloud.requests)
      && cloud.objects == old(cloud.objects) && cloud.pushes == old(cloud.pushes)
    ensures LoadConfig(env).Ok? && configReply.Failed? ==>
      err == Some(CallFailed(LoadAwsConfig, configReply.cause)) && cloud.requests == old(cloud.requests)
      && cloud.objects == old(cloud.objects) && cloud.pushes == old(cloud.pushes)
    ensures LoadConfig(env).Ok? && configReply.Done? ==>
      cloud.requests == old(cloud.requests) + [ModelInvocation(ModelRegion, RequestFor(event.prompt))]
    ensures LoadConfig(env).Ok? && configReply.Done? && ImageOf(invokeReply, unmarshal).Err? ==>
      err == Some(ImageOf(invokeReply, unmarshal).error) && cloud.objects == old(cloud.objects) && cloud.pushes == old(cloud.pushes)
    ensures LoadConfig(env).Ok? && configReply.Done? && ImageOf(invokeReply, unmarshal).Ok? ==>
      var cfg := LoadConfig(env).value;
      var image := ImageOf(invokeReply, unmarshal).value;
      && cloud.objects == AfterStore(old(cloud.objects), cfg, event.s3Key, image, sniff, putReply)
      && cloud.pushes == AfterPush(old(cloud.pushes), cfg, event.connectionId, event.s3Key, putReply, pushReply)
      && err == DeliveryError(putReply, pushReply)
    ensures cloud.entries == old(cloud.entries)
  {
    var config := LoadConfig(env);
    if config.Err? {
      return Some(config.error);
    }
    if configReply.Failed? {
      return Some(CallFailed(LoadAwsConfig, configReply.cause));
    }
    var response := cloud.InvokeModel(ModelRegion, RequestFor(event.prompt), invokeReply);
    if response.Failed? {
      return Some(CallFailed(InvokeModel, response.cause));
    }
    var output := unmarshal(response.value);
    if output.Failed? {
      return Some(CallFailed(Unmarshal, output.cause));
    }
    if output.value.images == [] {
      return Some(IndexOutOfRange);
    }
    var decoded := DecodeImage(output.value.images[0]);
    if decoded.Err? {
      return Some(decoded.error);
    }
    err := StoreAndDeliver(cloud, config.value, event.connectionId, event.s3Key, decoded.value, sniff, putReply, pushReply);
  }
}
