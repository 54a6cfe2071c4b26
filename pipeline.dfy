/** The stages composed: a client message enters through the proxy, the
    event bus hands the entry's detail to the prompt stage, and the prompt
    goes either to the inline model stage or to the remote generation stage
    followed by the upload stage. The router that picks the branch lives
    outside the stages, so the branch is a parameter. */
module Pipeline {
  import opened Common
  import opened Events
  import opened Cloud
  import opened Delivery
  import EventBridgeProxy
  import PreparePrompt
  import GenerateImageDalle
  import UploadImage
  import GenerateImageBedrock

  /** Each function's environment. */
  datatype Deployment = Deployment(proxy: Env, dalle: Env, upload: Env, bedrock: Env)

  /** Everything the stages learn from outside: decoders, service answers,
      the map iteration order and the content-type detection. */
  datatype World = World(
    parsePayload: string -> Reply<Payload>,
    putEventsReply: Reply<nat>,
    detectSentiment: PreparePrompt.AnalysisRequest -> Reply<PreparePrompt.SentimentScore>,
    detectKeyPhrases: PreparePrompt.AnalysisRequest -> Reply<seq<string>>,
    order: seq<string>,
    post: GenerateImageDalle.DalleCall -> HttpReply,
    parseGeneration: seq<Byte> -> Reply<seq<string>>,
    download: HttpReply,
    configReply: Reply<()>,
    invokeReply: Reply<seq<Byte>>,
    unmarshal: seq<Byte> -> Reply<TitanResponse>,
    sniff: seq<Byte> -> string,
    putReply: Reply<()>,
    pushReply: Reply<()>)

  /** The environment of the stage that stores and delivers on a branch. */
  function FinalEnv(deployment: Deployment, useBedrock: bool): Env
  {
    if useBedrock then deployment.bedrock else deployment.upload
  }

  /** What the services hold: the four fields of a `Cloud`. */
  datatype Snapshot = Snapshot(entries: seq<Entry>, objects: map<ObjectRef, StoredObject>, pushes: seq<Push>, requests: seq<Request>)

  function SnapshotOf(cloud: Cloud): Snapshot
    reads cloud
  {
    Snapshot(cloud.entries, cloud.objects, cloud.pushes, cloud.requests)
  }

  /** The final stage's write of `image` under the event's key and its push
      to the event's connection. */
  function Stored(s: Snapshot, cfg: Config, event: GenerationEvent, image: seq<Byte>, world: World): Snapshot
  {
    s.(objects := AfterStore(s.objects, cfg, event.s3Key, image, world.sniff, world.putReply),
       pushes := AfterPush(s.pushes, cfg, event.connectionId, event.s3Key, world.putReply, world.pushReply))
  }

  /** The remote generation stage's outcome for `event`. */
  function Generated(deployment: Deployment, event: GenerationEvent, world: World): GenerateImageDalle.Outcome
  {
    GenerateImageDalle.Handle(deployment.dalle, event, world.post, world.parseGeneration)
  }

  /** The services after the branch that follows the prompt stage. */
  function AfterGenerate(s: Snapshot, deployment: Deployment, event: GenerationEvent, world: World, useBedrock: bool): Snapshot
  {
    if useBedrock then
      var config := LoadConfig(deployment.bedrock);
      if config.Err? || world.configReply.Failed? then s
      else
        var invoked := s.(requests := s.requests + [ModelInvocation(GenerateImageBedrock.ModelRegion, GenerateImageBedrock.RequestFor(event.prompt))]);
        var image := GenerateImageBedrock.ImageOf(world.invokeReply, world.unmarshal);
        if image.Err? then invoked else Stored(invoked, config.value, event, image.value, world)
    else
      var generated := Generated(deployment, event, world);
      var config := LoadConfig(deployment.upload);
      if generated.err.Some? || config.Err? then s
      else
        var fetched := s.(requests := s.requests + [HttpGet(generated.out.url)]);
        if UploadImage.Downloaded(world.download) then Stored(fetched, config.value, event, world.download.body.value, world)
        else fetched
  }

  /** The event the remote generation stage hands to the upload stage; the
      inline branch has none. */
  function HandoffOf(deployment: Deployment, event: GenerationEvent, world: World, useBedrock: bool): (r: Option<UrlEvent>)
    ensures useBedrock ==> r == None
    ensures r.Some? ==> r.value.connectionId == event.connectionId && r.value.s3Key == event.s3Key
  {
    if useBedrock then None
    else
      var generated := Generated(deployment, event, world);
      if generated.err.None? then Some(generated.out) else None
  }

  /** The image the final stage writes, when every step before the write
      succeeds: the configuration, then the model's decoded image on the
      inline branch, or the generation and the download on the remote one. */
  function FinalImage(deployment: Deployment, event: GenerationEvent, world: World, useBedrock: bool): (r: Option<seq<Byte>>)
    ensures r.Some? ==> LoadConfig(FinalEnv(deployment, useBedrock)).Ok?
  {
    if useBedrock then
      var image := GenerateImageBedrock.ImageOf(world.invokeReply, world.unmarshal);
      if LoadConfig(deployment.bedrock).Ok? && world.configReply.Done? && image.Ok? then Some(image.value) else None
    else
      if Generated(deployment, event, world).err.None? && LoadConfig(deployment.upload).Ok? && UploadImage.Downloaded(world.download)
      then Some(world.download.body.value) else None
  }

  /** After the prompt, the branch touches only the event's key and pushes
      at most once, to the event's connection, the address of that key. */
  lemma GenerateKeepsKey(s: Snapshot, deployment: Deployment, event: GenerationEvent, world: World, useBedrock: bool)
    ensures AfterGenerate(s, deployment, event, world, useBedrock).entries == s.entries
    ensures OnlyKeyWritten(s.objects, AfterGenerate(s, deployment, event, world, useBedrock).objects, event.s3Key)
    ensures var r := AfterGenerate(s, deployment, event, world, useBedrock);
      s.pushes <= r.pushes && |r.pushes| <= |s.pushes| + 1
    ensures |AfterGenerate(s, deployment, event, world, useBedrock).pushes| > |s.pushes| ==>
      LoadConfig(FinalEnv(deployment, useBedrock)).Ok?
    ensures var r := AfterGenerate(s, deployment, event, world, useBedrock);
      forall i :: |s.pushes| <= i < |r.pushes| ==>
        var cfg := LoadConfig(FinalEnv(deployment, useBedrock)).value;
        && r.pushes[i].connectionId == event.connectionId
        && UrlOfPayload(r.pushes[i].data) == Some(ObjectUrl(cfg.bucket, cfg.region, event.s3Key))
    ensures !useBedrock && |AfterGenerate(s, deployment, event, world, useBedrock).pushes| > |s.pushes| ==>
      HandoffOf(deployment, event, world, useBedrock).Some?
  {
    var r := AfterGenerate(s, deployment, event, world, useBedrock);
    if |r.pushes| > |s.pushes| {
      var image := FinalImage(deployment, event, world, useBedrock);
      assert image.Some?;
      var cfg := LoadConfig(FinalEnv(deployment, useBedrock)).value;
      assert r.pushes == AfterPush(s.pushes, cfg, event.connectionId, event.s3Key, world.putReply, world.pushReply);
    }
  }

  /** The branch delivers exactly when every step succeeds, and then stores
      the image under the event's key and pushes its address once. */
  lemma GenerateDelivers(s: Snapshot, deployment: Deployment, event: GenerationEvent, world: World, useBedrock: bool)
    ensures |AfterGenerate(s, deployment, event, world, useBedrock).pushes| > |s.pushes| <==>
      FinalImage(deployment, event, world, useBedrock).Some? && world.putReply.Done? && world.pushReply.Done?
    ensures FinalImage(deployment, event, world, useBedrock).Some? && world.putReply.Done? ==>
      var cfg := LoadConfig(FinalEnv(deployment, useBedrock)).value;
      var r := AfterGenerate(s, deployment, event, world, useBedrock);
      && ObjectRef(cfg.bucket, event.s3Key) in r.objects
      && r.objects[ObjectRef(cfg.bucket, event.s3Key)].body == FinalImage(deployment, event, world, useBedrock).value
      && r.pushes == s.pushes + (if world.pushReply.Done? then [PushFor(cfg, event.connectionId, event.s3Key)] else [])
  {
    var r := AfterGenerate(s, deployment, event, world, useBedrock);
    var image := FinalImage(deployment, event, world, useBedrock);
    if image.Some? {
      var cfg := LoadConfig(FinalEnv(deployment, useBedrock)).value;
      assert r.objects == AfterStore(s.objects, cfg, event.s3Key, image.value, world.sniff, world.putReply);
      assert r.pushes == AfterPush(s.pushes, cfg, event.connectionId, event.s3Key, world.putReply, world.pushReply);
    } else {
      assert r.pushes == s.pushes;
    }
  }

  /** A generation service that answers every request with an error status
      makes the remote branch hand off nothing, download nothing, write
      nothing and push nothing. */
  lemma FailedGenerationHandsOffNothing(s: Snapshot, deployment: Deployment, event: GenerationEvent, world: World)
    requires forall call :: world.post(call).Response? && world.post(call).status != StatusOK
    ensures HandoffOf(deployment, event, world, false) == None
    ensures AfterGenerate(s, deployment, event, world, false) == s
  {
    assert Generated(deployment, event, world).err.Some?;
  }

  /** What happens to a prompt after the prompt stage, on either branch:
      the final stage stores under the event's object key only and pushes
      at most once, to the event's connection, the address of that key. */
  method Generate(cloud: Cloud, deployment: Deployment, event: GenerationEvent, world: World, useBedrock: bool)
    returns (handoff: Option<UrlEvent>)
    modifies cloud
    ensures SnapshotOf(cloud) == AfterGenerate(old(SnapshotOf(cloud)), deployment, event, world, useBedrock)
    ensures handoff == HandoffOf(deployment, event, world, useBedrock)
    ensures cloud.entries == old(cloud.entries)
    ensures OnlyKeyWritten(old(cloud.objects), cloud.objects, event.s3Key)
    ensures old(cloud.pushes) <= cloud.pushes && |cloud.pushes| <= |old(cloud.pushes)| + 1
    ensures |cloud.pushes| > |old(cloud.pushes)| ==> LoadConfig(FinalEnv(deployment, useBedrock)).Ok?
    ensures forall i :: |old(cloud.pushes)| <= i < |cloud.pushes| ==>
      var cfg := LoadConfig(FinalEnv(deployment, useBedrock)).value;
      && cloud.pushes[i].connectionId == event.connectionId
      && UrlOfPayload(cloud.pushes[i].data) == Some(ObjectUrl(cfg.bucket, cfg.region, event.s3Key))
    ensures useBedrock ==> handoff == None
    ensures handoff.Some? ==> handoff.value.connectionId == event.connectionId && handoff.value.s3Key == event.s3Key
    ensures !useBedrock && |cloud.pushes| > |old(cloud.pushes)| ==> handoff.Some?
  {
    var before := SnapshotOf(cloud);
    handoff := None;
    if useBedrock {
      var _ := GenerateImageBedrock.Handle(cloud, deployment.bedrock, event, world.configReply, world.invokeReply,
                                           world.unmarshal, world.sniff, world.putReply, world.pushReply);
    } else {
      var generated := GenerateImageDalle.Handle(deployment.dalle, event, world.post, world.parseGeneration);
      if generated.err.Some? {
        GenerateKeepsKey(before, deployment, event, world, useBedrock);
        return;
      }
      handoff := Some(generated.out);
      var _ := UploadImage.Handle(cloud, deployment.upload, generated.out, world.download,
                                  world.sniff, world.putReply, world.pushReply);
    }
    assert SnapshotOf(cloud) == AfterGenerate(before, deployment, event, world, useBedrock);
    GenerateKeepsKey(before, deployment, event, world, useBedrock);
  }

  /** The prompt event the prompt stage emits for `detail`, when both
      analyses succeed. */
  function PromptFor(detail: EventDetail, world: World): (r: Option<PromptEvent>)
    ensures r.Some? ==> r.value.connectionId == detail.connectionId && r.value.s3Key == detail.s3Key
  {
    var request := PreparePrompt.AnalysisRequest("eu-west-1", detail.text, "en");
    match world.detectSentiment(request)
    case Failed(_) => None
    case Done(scores) =>
      match world.detectKeyPhrases(request)
      case Failed(_) => None
      case Done(phrases) =>
        var token := PreparePrompt.TokenOf(PreparePrompt.TopLabel(scores, world.order));
        Some(PromptEvent(detail.connectionId, PreparePrompt.PromptOf([token] + phrases), detail.s3Key, detail.bedrock))
  }

  /** The entry the proxy puts on the bus for `request`, when the bus name is
      set, the body parses and the bus accepts the entry. */
  function EntryOf(deployment: Deployment, request: EventBridgeProxy.WebsocketRequest, world: World): (r: Option<Entry>)
    ensures r.Some? ==>
      && world.parsePayload(request.body).Done?
      && r.value.detail.connectionId == request.connectionId
      && r.value.detail.s3Key == world.parsePayload(request.body).value.s3Key
  {
    var busName := Getenv(deployment.proxy, EventBridgeProxy.BusVariable);
    var payload := world.parsePayload(request.body);
    if busName != "" && payload.Done? && world.putEventsReply == Done(0)
    then Some(EventBridgeProxy.EntryFor(busName, request.connectionId, payload.value))
    else None
  }

  /** The services after one message has gone through every stage. */
  function AfterRun(s: Snapshot, deployment: Deployment, request: EventBridgeProxy.WebsocketRequest, world: World, useBedrock: bool): Snapshot
  {
    match EntryOf(deployment, request, world)
    case None => s
    case Some(entry) =>
      var queued := s.(entries := s.entries + [entry]);
      match PromptFor(entry.detail, world)
      case None => queued
      case Some(prompt) => AfterGenerate(queued, deployment, ToGeneration(prompt), world, useBedrock)
  }

  /** The event handed to the upload stage during one message's run. */
  function RunHandoff(deployment: Deployment, request: EventBridgeProxy.WebsocketRequest, world: World, useBedrock: bool): Option<UrlEvent>
  {
    match EntryOf(deployment, request, world)
    case None => None
    case Some(entry) =>
      match PromptFor(entry.detail, world)
      case None => None
      case Some(prompt) => HandoffOf(deployment, ToGeneration(prompt), world, useBedrock)
  }

  /** The correlation key survives the whole run: every entry put on the
      bus, every object written and every push delivered carries the
      connection id the message arrived on and the object key it named. */
  lemma RunKeepsKey(s: Snapshot, deployment: Deployment, request: EventBridgeProxy.WebsocketRequest, world: World, useBedrock: bool)
    ensures world.parsePayload(request.body).Failed? ==> AfterRun(s, deployment, request, world, useBedrock) == s
    ensures var r := AfterRun(s, deployment, request, world, useBedrock);
      forall i :: |s.entries| <= i < |r.entries| ==>
        && world.parsePayload(request.body).Done?
        && r.entries[i].detail.connectionId == request.connectionId
        && r.entries[i].detail.s3Key == world.parsePayload(request.body).value.s3Key
    ensures world.parsePayload(request.body).Done? ==>
      OnlyKeyWritten(s.objects, AfterRun(s, deployment, request, world, useBedrock).objects, world.parsePayload(request.body).value.s3Key)
    ensures |AfterRun(s, deployment, request, world, useBedrock).pushes| > |s.pushes| ==>
      world.parsePayload(request.body).Done? && LoadConfig(FinalEnv(deployment, useBedrock)).Ok?
    ensures var r := AfterRun(s, deployment, request, world, useBedrock);
      forall i :: |s.pushes| <= i < |r.pushes| ==>
        var cfg := LoadConfig(FinalEnv(deployment, useBedrock)).value;
        && r.pushes[i].connectionId == request.connectionId
        && UrlOfPayload(r.pushes[i].data) == Some(ObjectUrl(cfg.bucket, cfg.region, world.parsePayload(request.body).value.s3Key))
    ensures var r := AfterRun(s, deployment, request, world, useBedrock);
      && s.entries <= r.entries && |r.entries| <= |s.entries| + 1
      && s.pushes <= r.pushes && |r.pushes| <= |s.pushes| + 1
    ensures var h := RunHandoff(deployment, request, world, useBedrock);
      && (useBedrock ==> h == None)
      && (h.Some? ==>
            && world.parsePayload(request.body).Done?
            && h.value.connectionId == request.connectionId
            && h.value.s3Key == world.parsePayload(request.body).value.s3Key)
    ensures !useBedrock && |AfterRun(s, deployment, request, world, useBedrock).pushes| > |s.pushes| ==>
      RunHandoff(deployment, request, world, useBedrock).Some?
  {
    var entry := EntryOf(deployment, request, world);
    if entry.Some? {
      var queued := s.(entries := s.entries + [entry.value]);
      var prompt := PromptFor(entry.value.detail, world);
      if prompt.Some? {
        GenerateKeepsKey(queued, deployment, ToGeneration(prompt.value), world, useBedrock);
      }
    }
  }

  /** The prompt-stage event of a run, when the proxy and the prompt stage
      both succeed. */
  function RunPrompt(deployment: Deployment, request: EventBridgeProxy.WebsocketRequest, world: World): Option<PromptEvent>
  {
    match EntryOf(deployment, request, world)
    case None => None
    case Some(entry) => PromptFor(entry.detail, world)
  }

  /** A run delivers exactly when every stage succeeds: then one entry is
      on the bus and one push, to the message's connection, announces the
      address of the message's key. */
  lemma RunDelivers(s: Snapshot, deployment: Deployment, request: EventBridgeProxy.WebsocketRequest, world: World, useBedrock: bool)
    ensures |AfterRun(s, deployment, request, world, useBedrock).pushes| > |s.pushes| <==>
      && RunPrompt(deployment, request, world).Some?
      && FinalImage(deployment, ToGeneration(RunPrompt(deployment, request, world).value), world, useBedrock).Some?
      && world.putReply.Done? && world.pushReply.Done?
    ensures
      && RunPrompt(deployment, request, world).Some?
      && FinalImage(deployment, ToGeneration(RunPrompt(deployment, request, world).value), world, useBedrock).Some?
      && world.putReply.Done? && world.pushReply.Done? ==>
      var r := AfterRun(s, deployment, request, world, useBedrock);
      var cfg := LoadConfig(FinalEnv(deployment, useBedrock)).value;
      && |r.entries| == |s.entries| + 1
      && r.pushes == s.pushes + [PushFor(cfg, request.connectionId, world.parsePayload(request.body).value.s3Key)]
  {
    var entry := EntryOf(deployment, request, world);
    if entry.Some? {
      var queued := s.(entries := s.entries + [entry.value]);
      var prompt := PromptFor(entry.value.detail, world);
      if prompt.Some? {
        GenerateDelivers(queued, deployment, ToGeneration(prompt.value), world, useBedrock);
      }
    }
  }

  /** Past the proxy and the prompt stage, a run is the branch that
      follows the prompt, started from the state with the entry queued. */
  lemma RunThroughPrompt(s: Snapshot, deployment: Deployment, request: EventBridgeProxy.WebsocketRequest, world: World,
                         useBedrock: bool, entry: Entry, prompt: PromptEvent)
    requires EntryOf(deployment, request, world) == Some(entry)
    requires PromptFor(entry.detail, world) == Some(prompt)
    ensures AfterRun(s, deployment, request, world, useBedrock) ==
      AfterGenerate(s.(entries := s.entries + [entry]), deployment, ToGeneration(prompt), world, useBedrock)
    ensures RunHandoff(deployment, request, world, useBedrock) == HandoffOf(deployment, ToGeneration(prompt), world, useBedrock)
  {
  }

  /** One message through the whole pipeline. `handoff` is the event the
      remote generation stage hands to the upload stage, if it does.

      The correlation key survives: every entry put on the bus, every
      object written and every push delivered carries the connection id the
      message arrived on and the object key the message named, on both
      branches. */
  method Run(cloud: Cloud, deployment: Deployment, request: EventBridgeProxy.WebsocketRequest,
             world: World, useBedrock: bool)
    returns (handoff: Option<UrlEvent>)
    requires PreparePrompt.IsIterationOrder(world.order)
    modifies cloud
    ensures SnapshotOf(cloud) == AfterRun(old(SnapshotOf(cloud)), deployment, request, world, useBedrock)
    ensures handoff == RunHandoff(deployment, request, world, useBedrock)
    ensures world.parsePayload(request.body).Failed? ==>
      cloud.entries == old(cloud.entries) && cloud.objects == old(cloud.objects) && cloud.pushes == old(cloud.pushes)
    ensures forall i :: |old(cloud.entries)| <= i < |cloud.entries| ==>
      && world.parsePayload(request.body).Done?
      && cloud.entries[i].detail.connectionId == request.connectionId
      && cloud.entries[i].detail.s3Key == world.parsePayload(request.body).value.s3Key
    ensures world.parsePayload(request.body).Done? ==>
      OnlyKeyWritten(old(cloud.objects), cloud.objects, world.parsePayload(request.body).value.s3Key)
    ensures |cloud.pushes| > |old(cloud.pushes)| ==>
      world.parsePayload(request.body).Done? && LoadConfig(FinalEnv(deployment, useBedrock)).Ok?
    ensures forall i :: |old(cloud.pushes)| <= i < |cloud.pushes| ==>
      var cfg := LoadConfig(FinalEnv(deployment, useBedrock)).value;
      && cloud.pushes[i].connectionId == request.connectionId
      && UrlOfPayload(cloud.pushes[i].data) == Some(ObjectUrl(cfg.bucket, cfg.region, world.parsePayload(request.body).value.s3Key))
    ensures old(cloud.entries) <= cloud.entries && |cloud.entries| <= |old(cloud.entries)| + 1
    ensures old(cloud.pushes) <= cloud.pushes && |cloud.pushes| <= |old(cloud.pushes)| + 1
    ensures useBedrock ==> handoff == None
    ensures handoff.Some? ==>
      && world.parsePayload(request.body).Done?
      && handoff.value.connectionId == request.connectionId
      && handoff.value.s3Key == world.parsePayload(request.body).value.s3Key
    ensures !useBedrock && |cloud.pushes| > |old(cloud.pushes)| ==> handoff.Some?
  {
    var before := SnapshotOf(cloud);
    var _, _ := EventBridgeProxy.Handle(cloud, deployment.proxy, request, world.parsePayload, world.putEventsReply);
    if cloud.entries == before.entries {
      assert EntryOf(deployment, request, world).None?;
      handoff := None;
    } else {
      var entry := EntryOf(deployment, request, world).value;
      var detail := cloud.entries[|cloud.entries| - 1].detail;
      assert detail == entry.detail;
      var prompt, promptErr := PreparePrompt.Handle(detail, world.detectSentiment, world.detectKeyPhrases, world.order);
      if promptErr.Some? {
        assert PromptFor(detail, world).None?;
        handoff := None;
      } else {
        assert PromptFor(detail, world) == Some(prompt);
        RunThroughPrompt(before, deployment, request, world, useBedrock, entry, prompt);
        handoff := Generate(cloud, deployment, ToGeneration(prompt), world, useBedrock);
      }
    }
    RunKeepsKey(before, deployment, request, world, useBedrock);
  }
}
