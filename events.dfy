/** The records that cross a boundary: the events one stage hands to the
    next, and the requests the stages send to foreign services. JSON
    encoding is not modelled: a record stands for its JSON document. */
module Events {

  /** The body a client sends over the WebSocket connection. */
  datatype Payload = Payload(text: string, s3Key: string, bedrock: bool)

  /** The detail of the event put on the event bus; `connectionId` is the
      correlation key's first half, `s3Key` its second. */
  datatype EventDetail = EventDetail(connectionId: string, text: string, s3Key: string, bedrock: bool)

  /** What the prompt stage produces. */
  datatype PromptEvent = PromptEvent(connectionId: string, prompt: string, s3Key: string, bedrock: bool)

  /** What either generation stage consumes: a `PromptEvent` read through a
      record without the `bedrock` field. */
  datatype GenerationEvent = GenerationEvent(connectionId: string, prompt: string, s3Key: string)

  /** What the remote generation stage produces and the upload stage consumes. */
  datatype UrlEvent = UrlEvent(connectionId: string, url: string, s3Key: string)

  /** Go's zero values, returned beside an error. */
  const EmptyPromptEvent := PromptEvent("", "", "", false)
  const EmptyUrlEvent := UrlEvent("", "", "")

  /** Decoding a `PromptEvent` into the generation stages' input record. */
  function ToGeneration(p: PromptEvent): GenerationEvent
  {
    GenerationEvent(p.connectionId, p.prompt, p.s3Key)
  }

  /** The image generation settings of the inline model's request. */
  datatype ImageGenerationConfig =
    ImageGenerationConfig(numberOfImages: int, height: int, width: int, cfgScale: real, seed: int)

  datatype TextToImageParams = TextToImageParams(text: string, negativeText: string)

  /** The inline model's request body. */
  datatype TitanRequest =
    TitanRequest(taskType: string, config: ImageGenerationConfig, params: TextToImageParams)

  /** A model invocation: the body plus the headers and model id that go with it. */
  datatype InvokeRequest =
    InvokeRequest(accept: string, modelId: string, contentType: string, body: TitanRequest)

  /** The inline model's response body: base64 images and an error text. */
  datatype TitanResponse = TitanResponse(images: seq<string>, error: string)
}
