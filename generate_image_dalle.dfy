/** The remote generation stage: it sends the prompt to the image
    generation API and hands on the URL of the first image. It changes no
    state, so the stage is a function of its inputs and of the service's
    answer. */
module GenerateImageDalle {
  import opened Common
  import opened Events

  /** The JSON body of the generation request. */
  datatype DalleRequest = DalleRequest(model: string, prompt: string, size: string, n: int)

  /** The whole HTTP request: verb, address, the two headers, the body. */
  datatype DalleCall = DalleCall(verb: string, url: string, contentType: string, authorization: string, body: DalleRequest)

  const ApiKeyVariable: string := "OPENAI_API_KEY"
  const GenerationsUrl: string := "https://api.openai.com/v1/images/generations"

  /** The request the stage sends with API key `key` for `prompt`. */
  function CallFor(key: string, prompt: string): DalleCall
  {
    DalleCall("POST", GenerationsUrl, "application/json", "Bearer " + key, DalleRequest("dall-e-3", prompt, "1024x1024", 1))
  }

  /** What the stage did: the request it sent, if any, and its two results. */
  datatype Outcome = Outcome(sent: Option<DalleCall>, out: UrlEvent, err: Option<Error>)

  /** The service's answer leads to an image: status 200, a readable body
      that parses, and at least one entry in `data`. */
  predicate Answered(reply: HttpReply, parse: seq<Byte> -> Reply<seq<string>>)
  {
    && reply.Response? && reply.status == StatusOK && reply.body.Done?
    && parse(reply.body.value).Done? && parse(reply.body.value).value != []
  }

  /** The stage's handler. `post` stands for the HTTP round trip, `parse`
      for decoding the response body into the `url` of each `data` entry. */
  function Handle(env: Env, event: GenerationEvent, post: DalleCall -> HttpReply, parse: seq<Byte> -> Reply<seq<string>>): (r: Outcome)
    ensures Getenv(env, ApiKeyVariable) == "" ==> r == Outcome(None, EmptyUrlEvent, Some(MissingConfig(ApiKeyVariable)))
    ensures Getenv(env, ApiKeyVariable) != "" ==>
      && r.sent.Some?
      && r.sent.value.verb == "POST" && r.sent.value.url == GenerationsUrl
      && r.sent.value.contentType == "application/json"
      && r.sent.value.authorization == "Bearer " + Getenv(env, ApiKeyVariable)
      && r.sent.value.body == DalleRequest("dall-e-3", event.prompt, "1024x1024", 1)
    ensures r.err.Some? ==> r.out == EmptyUrlEvent
    ensures r.sent.Some? ==> var reply := post(r.sent.value);
      && (reply.TransportError? ==> r.err == Some(CallFailed(SendRequest, reply.cause)))
      && (reply.Response? && reply.body.Failed? ==> r.err == Some(CallFailed(ReadBody, reply.body.cause)))
      && (reply.Response? && reply.body.Done? && reply.status != StatusOK ==> r.err == Some(BadStatus(SendRequest, reply.status)))
      && (reply.Response? && reply.body.Done? && reply.status == StatusOK && parse(reply.body.value).Failed? ==>
            r.err == Some(CallFailed(Unmarshal, parse(reply.body.value).cause)))
      && (reply.Response? && reply.body.Done? && reply.status == StatusOK && parse(reply.body.value) == Done([]) ==> r.err == Some(NoData))
    ensures r.err.None? <==> r.sent.Some? && Answered(post(r.sent.value), parse)
    ensures r.err.None? ==>
      r.out == UrlEvent(event.connectionId, parse(post(r.sent.value).body.value).value[0], event.s3Key)
  {
    var key := Getenv(env, ApiKeyVariable);
    if key == "" then Outcome(None, EmptyUrlEvent, Some(MissingConfig(ApiKeyVariable)))
    else
      var call := CallFor(key, event.prompt);
      var fail := (e: Error) => Outcome(Some(call), EmptyUrlEvent, Some(e));
      match post(call)
      case TransportError(cause) => fail(CallFailed(SendRequest, cause))
      case Response(status, body) =>
        match body
        case Failed(cause) => fail(CallFailed(ReadBody, cause))
        case Done(bytes) =>
          if status != StatusOK then fail(BadStatus(SendRequest, status))
          else
            match parse(bytes)
            case Failed(cause) => fail(CallFailed(Unmarshal, cause))
            case Done(urls) =>
              if urls == [] then fail(NoData)
              else Outcome(Some(call), UrlEvent(event.connectionId, urls[0], event.s3Key), None)
  }
}
