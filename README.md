# websocket-prompt-image, modelled in Dafny

A browser client sends text and an object key over a WebSocket connection.
Five AWS Lambda handlers, written in Go, then work in sequence:

- The **ingestion proxy** puts one event on an event bus. The event carries the connection id and the message's text, object key and `bedrock` flag.
- The **prompt stage** scores the text's sentiment. It turns the strongest sentiment into a mood word and builds an image prompt from that word and the text's key phrases.
- Then one of two branches runs:
  - The **inline generation** stage asks an image model for a base64 image, decodes it and stores it under the object key.
  - The **remote generation** stage gets an image URL from an HTTP API. The **upload** stage then downloads the image and stores it under the object key.
- Both branches end the same way: the final stage pushes `{"url": "<public address>"}` to the client's connection.

This project models each handler's decision logic and proves what it does:

- which inputs lead to which error, output event, storage write or push;
- the prompt text;
- the base64 decoder;
- the composition of the stages.

Every foreign call is a parameter of the model, given either as a value (the service's answer) or as a function (a decoder, a service that receives a request). The calls covered are the sentiment and key-phrase services, the event bus, the HTTP round trips, the model runtime, the object store, the gateway and JSON decoding.

Modules, one per file:

- `common.dfy` (`Common`) holds the shared types:
  - `Option`, `Reply` (a foreign call's answer), `Error` and `Result`;
  - bytes;
  - the environment, with `Getenv` returning "" for an unset variable.
- `events.dfy` (`Events`) holds the records passed between stages and the inline model's request and response.
- `cloud.dfy` (`Cloud`) holds a class `Cloud`. Its fields are:
  - the entries on the event bus;
  - the object store (a map);
  - the pushes delivered through the gateway;
  - a log of downloads and model invocations.

  Each method applies one service call to these fields, given the service's answer.
- `base64.dfy` (`Base64`) models `base64.StdEncoding` as used by `decodeImage`. It has the RFC 4648 section 4 encoder and Go's decoder:
  - the decoder skips CR and LF anywhere;
  - it reads quanta of four characters;
  - padding may appear only in the last quantum;
  - non-zero unused bits are accepted.
- `prepare_prompt.dfy`, `eventbridge_proxy.dfy`, `generate_image_dalle.dfy`, `upload_image.dfy` and `generate_image_bedrock.dfy` hold one handler each.
- `delivery.dfy` (`Delivery`) holds what the two final stages share. Both have the same code for:
  - the configuration checks;
  - the URL template;
  - the push payload;
  - the store-then-push sequence.
- `pipeline.dfy` (`Pipeline`) composes the stages. Specification functions give the services' state after a message (`AfterRun`, `AfterGenerate`), and the methods `Run` and `Generate` are proved to produce exactly that state. Lemmas prove two things about it. First, the correlation key is preserved: the connection id and the object key. Second, a run pushes exactly when every stage succeeds. The branch is a parameter, because the router that picks it lives outside the handlers.

Go's map iteration order in `getTopSentiment` is a parameter `order`. It may be any arrangement of the four labels, and every property of the scan is proved for all of them.

Behaviour that is easy to misread, modelled as the code has it:

- **Empty image list.** The inline stage reads `Images[0]` with no length check. An empty list is a runtime panic, not a decoding error; it is modelled as the outcome `IndexOutOfRange`.
- **Order of the remote stage's checks.** The remote generation stage reads the body before it checks the status. A read failure therefore wins over a non-200 status. The upload stage checks the status first.
- **Rejected event entries.** The proxy answers 200 whenever `PutEvents` returns no error, even when the bus rejected the entry (`FailedEntryCount`). The model then records no entry.
- **Lenient decoding.** The base64 decoder accepts inputs that are not the canonical encoding of their bytes: line breaks, and non-zero unused bits such as "QR==". So "the input is the encoding of the bytes" holds only for canonical inputs, and `EncodeDecode` states exactly that.

## Model

| member | source | states |
|---|---|---|
| PreparePrompt.GetTopSentiment | websocket-post-to-image/prepare-prompt/main.go:32-62 | the loop computes the mood word of the label the strict-greater scan settles on, for the given iteration order; the word is "happy", "sad", "neutral" or "" |
| PreparePrompt.ScanOutcome | websocket-post-to-image/prepare-prompt/main.go:40-48 | a scan either keeps its label because nothing beat the running maximum, or ends on a label that beat it and that no later label beats |
| PreparePrompt.TopLabelOutcome | websocket-post-to-image/prepare-prompt/main.go:40-48 | from a maximum of 0 and an empty label over any iteration order, the result is "" with every score at most 0, or a label whose positive score is not below any other |
| PreparePrompt.TokenRange | websocket-post-to-image/prepare-prompt/main.go:40-61 | the mood word is always one of "happy", "sad", "neutral", "" |
| PreparePrompt.EmptyTokenIffNoPositiveScore | websocket-post-to-image/prepare-prompt/main.go:41-48 | the word is empty exactly when all four scores are at most 0 |
| PreparePrompt.UniqueMaximumWins | websocket-post-to-image/prepare-prompt/main.go:43-48 | a positive score strictly above the other three is chosen in every iteration order |
| PreparePrompt.NonEmptyTokenIsMaximum | websocket-post-to-image/prepare-prompt/main.go:43-48 | a non-empty word comes from a label with a positive score not below any other score |
| PreparePrompt.TieDependsOnOrder | websocket-post-to-image/prepare-prompt/main.go:43-48 | with Positive and Negative tied, the word is "happy" or "sad" depending on which is scanned first |
| PreparePrompt.TokenOf | websocket-post-to-image/prepare-prompt/main.go:50-59 | each of the four labels maps to "happy", "sad" or "neutral"; any other string passes through unchanged |
| PreparePrompt.SharedTokenIsNeutral | websocket-post-to-image/prepare-prompt/main.go:50-59 | two different labels share a word only when they are Neutral and Mixed |
| PreparePrompt.BuildWords | websocket-post-to-image/prepare-prompt/main.go:94-99 | the word list is the mood word, even when empty, followed by the key phrases in their order |
| PreparePrompt.JoinLength | websocket-post-to-image/prepare-prompt/main.go:101 | joining adds exactly one separator between each two words |
| PreparePrompt.JoinAppend | websocket-post-to-image/prepare-prompt/main.go:101 | joining one more word appends the separator and that word |
| PreparePrompt.PromptOf | websocket-post-to-image/prepare-prompt/main.go:103 | every prompt starts with the fixed preamble |
| PreparePrompt.PromptShape | websocket-post-to-image/prepare-prompt/main.go:94-103 | the prompt is the preamble, the mood word, then each key phrase after a single space |
| PreparePrompt.PromptExample | websocket-post-to-image/prepare-prompt/main.go:101-103 | the words "happy", "sunny days" give "Generate a image based on the following key words: happy sunny days" |
| PreparePrompt.Handle | websocket-post-to-image/prepare-prompt/main.go:65-108 | a sentiment or key-phrase failure yields the empty event and that error; otherwise the event carries the prompt and the input's connection id, object key and flag |
| EventBridgeProxy.EntryFor | websocket-post-to-image/eventbridge-proxy/main.go:54-76 | the entry's connection id is the gateway's; text, key and flag come from the body; type "PreparePrompt", source "api-gateway", the configured bus |
| EventBridgeProxy.Handle | websocket-post-to-image/eventbridge-proxy/main.go:38-88 | missing bus name: 400 with an error and no entry; unparsable body: 400 without error and no entry; bus failure: 500; otherwise 200; exactly that one entry is added when accepted |
| GenerateImageDalle.Handle | websocket-post-to-image/generate-image-dalle/main.go:41-105 | no key: error and no request; the request's fields and bearer header; each failure maps to its error with the empty event; success exactly on status 200 with a readable, parsable, non-empty answer, forwarding the first URL, connection id and key |
| Delivery.LoadConfig | websocket-post-to-image/upload-image/main.go:32-48 | succeeds exactly when all three variables are set; otherwise the first missing one in the order bucket, endpoint, region is the error |
| Delivery.KeyOfObjectUrl | websocket-post-to-image/upload-image/main.go:85 | the object key can be read back from the public address |
| Delivery.ObjectUrlInjective | websocket-post-to-image/upload-image/main.go:85 | two keys in one bucket and region never share an address |
| Delivery.UrlOfUrlPayload | websocket-post-to-image/upload-image/main.go:90-93 | the address can be read back from the pushed message |
| Delivery.PushNamesKey | websocket-post-to-image/upload-image/main.go:85-93 | a push's message names the address of the key it announces |
| Delivery.AfterStore | websocket-post-to-image/upload-image/main.go:71-81 | an accepted write holds the given bytes under the key; a failed one changes nothing; no other key changes |
| Delivery.AfterPush | websocket-post-to-image/upload-image/main.go:85-99 | one push is added, only when write and push both succeed, to the event's connection and carrying the object's address |
| Delivery.DeliveryError | websocket-post-to-image/upload-image/main.go:78-99 | the delivery succeeds exactly when both the write and the push do |
| Delivery.StoreAndDeliver | websocket-post-to-image/upload-image/main.go:71-103 | write under the key, then push; a failed write stops before the push; the new store, pushes and error are those of the three functions above |
| UploadImage.DownloadError | websocket-post-to-image/upload-image/main.go:50-66 | a non-200 download is a status error, checked before the body is read |
| UploadImage.Handle | websocket-post-to-image/upload-image/main.go:31-104 | configuration errors come before any download; a failed download writes and pushes nothing; otherwise the downloaded bytes are stored and announced |
| Base64.DecodeEncode | websocket-post-to-image/generate-image-bedrock/main.go:59-65 | every byte string's encoding decodes back to it |
| Base64.EncodeDecode | websocket-post-to-image/generate-image-bedrock/main.go:59-65 | bytes the decoder accepts re-encode to the input exactly when the input is canonical |
| Base64.EncodeCanonical | websocket-post-to-image/generate-image-bedrock/main.go:59-65 | every encoding is canonical: no line breaks and zero unused bits |
| Base64.EncodeLength | websocket-post-to-image/generate-image-bedrock/main.go:59-65 | an encoding has four characters for every three bytes or part of three |
| Base64.NonZeroPadBitsAccepted | websocket-post-to-image/generate-image-bedrock/main.go:60 | "QR==" decodes to the byte 65, whose encoding is "QQ==" |
| GenerateImageBedrock.DecodeImage | websocket-post-to-image/generate-image-bedrock/main.go:59-65 | an error exactly when the input is not valid base64; otherwise bytes whose encoding is the input when the input is canonical |
| GenerateImageBedrock.DecodeImageEncode | websocket-post-to-image/generate-image-bedrock/main.go:59-65 | the encoding of any image decodes to that image |
| GenerateImageBedrock.RequestFor | websocket-post-to-image/generate-image-bedrock/main.go:93-123 | the model request's text is the prompt |
| GenerateImageBedrock.ImageOf | websocket-post-to-image/generate-image-bedrock/main.go:117-138 | an image results only from a successful call and decode of the first image; an empty image list is the index panic |
| GenerateImageBedrock.Handle | websocket-post-to-image/generate-image-bedrock/main.go:67-178 | configuration is checked before the model is invoked; any failure up to decoding writes and pushes nothing; otherwise the decoded bytes are stored and announced |
| Cloud.Cloud.PutEvents | websocket-post-to-image/eventbridge-proxy/main.go:78-82 | the batch is added only when the call succeeds with no rejected entry |
| Cloud.Cloud.Get | websocket-post-to-image/upload-image/main.go:50-54 | a download is logged with its address and changes nothing else |
| Cloud.Cloud.InvokeModel | websocket-post-to-image/generate-image-bedrock/main.go:117-127 | a model invocation is logged with its region and request |
| Cloud.Cloud.PutObject | websocket-post-to-image/upload-image/main.go:72-81 | a successful write replaces what the key held; a failed one changes nothing |
| Cloud.Cloud.PostToConnection | websocket-post-to-image/upload-image/main.go:95-99 | a successful push is appended; a failed one delivers nothing |
| Pipeline.HandoffOf | websocket-post-to-image/generate-image-dalle/main.go:96-104 | the inline branch hands off nothing; a handoff carries the prompt event's connection id and object key |
| Pipeline.FinalImage | websocket-post-to-image/generate-image-bedrock/main.go:67-138 | an image reaches the final write only when the final stage's configuration is complete |
| Pipeline.GenerateKeepsKey | websocket-post-to-image/upload-image/main.go:71-95 | after the prompt, either branch leaves the bus alone, writes only under the event's key and pushes at most once, to the event's connection, that key's address; on the remote branch a push always follows a handoff |
| Pipeline.GenerateDelivers | websocket-post-to-image/generate-image-bedrock/main.go:144-173 | the branch pushes exactly when every step up to the write and the write and the push succeed; an accepted write holds the image under the key, and the push announces that key |
| Pipeline.FailedGenerationHandsOffNothing | websocket-post-to-image/generate-image-dalle/main.go:84-87 | a generation service that answers with an error status makes the remote branch hand off nothing and change no service state |
| Pipeline.Generate | websocket-post-to-image/generate-image-dalle/main.go:41-105 | the branch's new bus, store, pushes and request log and its handoff are those of the branch's specification, so the key-preservation and delivery lemmas hold of the method |
| Pipeline.PromptFor | websocket-post-to-image/prepare-prompt/main.go:65-108 | the prompt event, when both analyses succeed, keeps the entry's connection id and object key |
| Pipeline.EntryOf | websocket-post-to-image/eventbridge-proxy/main.go:38-82 | an entry reaches the bus only for a parsed body, with the gateway's connection id and the body's object key |
| Pipeline.RunKeepsKey | websocket-post-to-image/eventbridge-proxy/main.go:45-59 | across all stages, every entry, write, push and handoff carries the connection id the message arrived on and the key it named; an unparsable body changes nothing; at most one entry and one push |
| Pipeline.RunDelivers | websocket-post-to-image/upload-image/main.go:85-99 | a run pushes exactly when the proxy, the prompt stage and every step of the branch succeed, and then adds one entry and exactly one push announcing the message's key to its connection |
| Pipeline.Run | websocket-post-to-image/eventbridge-proxy/main.go:38-88 | the services' new state and the handoff are those of one message through every stage, so the key-preservation and delivery lemmas hold of the method |

## Left out

- Logging, `lambda.Start`, session construction and the proxy's `init`: none of them affects a result.
- The text of error messages and `CorruptInputError` offsets: errors are modelled by kind and the foreign cause they pass on.
- The `json.Marshal` failure branches (eventbridge-proxy/main.go:61-65, generate-image-dalle/main.go:55-59, generate-image-bedrock/main.go:107-110) and the `http.NewRequest` failure branch (generate-image-dalle/main.go:62-66): they cannot fail for these plain records and this constant address.
- JSON encoding and decoding: events are records, and decoding an incoming body is a function parameter.
  - Omitted zero fields (`omitempty` on seed and negative text) are recorded as those zero values.
  - The pushed message inserts the address without escaping, as the code does.
- `http.DetectContentType`: the `sniff` parameter, an uninterpreted function of the bytes.
- A nil score pointer in the sentiment result (prepare-prompt/main.go:34-37), a nil `phrase.Text` among the key phrases (prepare-prompt/main.go:98) and `session.Must` failing would each panic; none of them is modelled, and key phrases are plain strings.
- The request the prompt stage sends names the region "eu-west-1". Which endpoint that selects is not modelled.
- The services themselves are not modelled: what they answer is a parameter, and only the state the handlers change is kept. This covers Comprehend, EventBridge, the HTTP servers, Bedrock, S3 and the gateway.
- The routing rule that sends a prompt event to one branch or the other is outside the handlers, so `Run` takes the branch as a parameter. The connect and disconnect handlers and the browser front end are left out.
- Concurrency, retries and redelivery of events by the infrastructure are left out. `Run` is one message on one path; two runs on the same key are two calls, the later write wins, and the model says nothing about their interleaving.
- Numeric precision: scores are only compared, so they are `real`; the guidance scale 8.0 is a recorded constant.
