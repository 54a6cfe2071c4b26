/** The ingestion proxy: it receives a message from a WebSocket connection
    and puts one event on the event bus to start the pipeline, answering
    the gateway with an HTTP status. */
module EventBridgeProxy {
  import opened Common
  import opened Events
  import opened Cloud

  /** The gateway's request: the sending connection and the message body. */
  datatype WebsocketRequest = WebsocketRequest(connectionId: string, body: string)

  const BusVariable: string := "EVENT_BUS_NAME"

  /** The event-bus entry for a parsed message: the connection id comes from
      the gateway, never from the body. */
  function EntryFor(busName: string, connectionId: string, payload: Payload): (e: Entry)
    ensures e.detail.connectionId == connectionId && e.detail.s3Key == payload.s3Key
    ensures e.detail.text == payload.text && e.detail.bedrock == payload.bedrock
    ensures e.detailType == "PreparePrompt" && e.source == "api-gateway" && e.eventBusName == busName
  {
    Entry(EventDetail(connectionId, payload.text, payload.s3Key, payload.bedrock), "PreparePrompt", "api-gateway", busName)
  }

  /** The proxy's handler. `parse` stands for decoding the body as JSON;
      `putReply` is the bus's answer to the one-entry batch. */
  method Handle(cloud: Cloud, env: Env, request: WebsocketRequest, parse: string -> Reply<Payload>, putReply: Reply<nat>)
    returns (status: int, err: Option<Error>)
    modifies cloud
    ensures Getenv(env, BusVariable) == "" ==>
      status == 400 && err == Some(MissingConfig(BusVariable)) && cloud.entries == old(cloud.entries)
    ensures Getenv(env, BusVariable) != "" && parse(request.body).Failed? ==>
      status == 400 && err == None && cloud.entries == old(cloud.entries)
    ensures Getenv(env, BusVariable) != "" && parse(request.body).Done? ==>
      && err == None
      && status == (if putReply.Failed? then 500 else 200)
      && cloud.entries == old(cloud.entries) +
           (if putReply == Done(0) then [EntryFor(Getenv(env, BusVariable), request.connectionId, parse(request.body).value)] else [])
    ensures cloud.objects == old(cloud.objects) && cloud.pushes == old(cloud.pushes) && cloud.requests == old(cloud.requests)
  {
    var busName := Getenv(env, BusVariable);
    if busName == "" {
      return 400, Some(MissingConfig(BusVariable));
    }
    var payload := parse(request.body);
    if payload.Failed? {
      return 400, None;
    }
    var entry := EntryFor(busName, request.connectionId, payload.value);
    var result := cloud.PutEvents([entry], putReply);
    if result.Failed? {
      return 500, None;
    }
    return 200, None;
  }
}
