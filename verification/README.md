# Swift Bedrock client — a Dafny model

This project models the core of a Swift client library for Amazon Bedrock. The library:

- turns a prompt and optional generation knobs into the JSON body that a model family expects (Anthropic, Llama, Titan);
- wraps that body into an `InvokeModelInput`;
- reads the text completion or generated images back out of the response;
- converts conversation messages, tools and video blocks to and from the AWS SDK's types;
- builds and sends Converse requests, and keeps the conversation history;
- lists foundation models;
- describes its credential configurations with their secrets redacted.

Every operation that can throw returns a `Result` with the library's error kinds (`Base.BedrockError`). The service's request flows are modelled as functions over an `Env` record. `Env` holds every collaborator declared outside the modelled files:

- the parameter validators;
- the image request builders;
- the JSON encoder;
- the response decoders;
- the two transport calls;
- the per-block SDK conversions;
- the Double-to-Float narrowing.

Each one-shot flow returns a `Trace`: the flow's result, and the input it handed to the transport if it got that far. The trace lets the model state that nothing is sent when a modality check or a validation fails.

The models are spread over several files:

- `BedrockService.swift` and the request, response and conversion files, under `backend/Sources`;
- the library types and the authentication enum, under `Sources`.

The two locations are different generations of the same library. Each Dafny module names the file it models.

Some behaviour here comes from code declared outside the modelled files. That behaviour is fixed as the modelled call sites rely on it:

- Asking a `BedrockModel` for a modality it lacks is an `invalidModality` error.
- Among the modelled families, only Titan offers a Converse modality.
- `hasConverseModality(f)` means that the Converse modality exists and lists `f`.
- `Parameter.notSupported()` has no bounds, no default, and `isSupported == false`.
- A Claude entry that leaves `maxTokens` out has an unconstrained parameter with no default.
- `ContentType.json.headerValue` is `"application/json"`.
- `BedrockModel(rawValue:)` returns the first registered model with that id (`Registry.Lookup`).

Where the service and the request factory disagree, the model follows the service. `BedrockService.completeText` passes all five knobs to `createTextRequest`, and `Models.TextBody` / `BedrockRequests.TextRequest` model that general form. The two-knob `BedrockRequest.createTextRequest` in `backend/Sources/SwiftBedrockService` is modelled as a special case of it (`CreateTextRequest`). The service also passes `tools` to `ConverseRequest`, but the `ConverseRequest` initializer in the modelled file takes no tools. So tools are checked by `converse(with:prompt:…)` but never reach the SDK input.

## Model

| member | source | states |
|---|---|---|
| Base.MapAll | backend/Sources/BedrockService/Converse/ConverseRequest.swift:64-66 | `try xs.map { try f($0) }`: succeeds iff every element does, keeps order and length, and otherwise fails with the error of some element |
| Base.MapAllInverse | backend/Sources/BedrockService/Converse/ConversionExtensions/MessageConversionExtension.swift:22-42 | if `g` undoes `f` on every element, mapping with `f` and then with `g` gives back the list |
| JsonValue.FromData | Sources/Converse/ContentBlocks/JSON.swift:75-81 | any parse or decode failure is a `decodingError`; success exactly when the text parses and its tree decodes, and the value is the decoded tree |
| JsonValue.Decode | Sources/Converse/ContentBlocks/JSON.swift:83-102 | the only failure is "Unsupported type"; null, strings and booleans always decode; a number decodes exactly when it is in the Double range; null comes back only from null; arrays keep their length and objects their keys |
| JsonValue.Encode | Sources/Converse/ContentBlocks/JSON.swift:106-131 | the only failure is "Unsupported type"; `nil` never encodes; arrays keep their length, objects their keys, and strings themselves |
| JsonValue.FromString | Sources/Converse/ContentBlocks/JSON.swift:62-73 | a non-empty string is decoded as itself; the empty string is read as `{}`, the empty object |
| JsonValue.Subscript | Sources/Converse/ContentBlocks/JSON.swift:34-41 | a value exists exactly for an object holding the key, and it is that field |
| JsonValue.GetValue | Sources/Converse/ContentBlocks/JSON.swift:52-54 | the value comes back exactly when it has the requested kind |
| JsonValue.GetValueForKey | Sources/Converse/ContentBlocks/JSON.swift:22-31 | the field comes back exactly when the object has the key and the field has the requested kind; a non-object gives nothing |
| JsonValue.IntegerLiteralDecodesAsInt | Sources/Converse/ContentBlocks/JSON.swift:87-88 | an integral number in the 64-bit range decodes as an `Int`, never as a `Double` |
| JsonValue.DecodeKeepsShape | Sources/Converse/ContentBlocks/JSON.swift:95-98 | a decoded array keeps its length and element order, and a decoded object keeps its keys |
| JsonValue.NestedFailureFails | Sources/Converse/ContentBlocks/JSON.swift:95-100 | one element that cannot be decoded makes the whole array fail with "Unsupported type" |
| JsonValue.EncodeSucceedsIffNullFree | Sources/Converse/ContentBlocks/JSON.swift:106-131 | encoding succeeds if and only if the value holds no null anywhere |
| JsonValue.DecodedIsCanonicalOrHasNull | Sources/Converse/ContentBlocks/JSON.swift:83-102 | every decoded value without a null is canonical (integral numbers are `Int`s) |
| JsonValue.RoundTrip | Sources/Converse/ContentBlocks/JSON.swift:83-131 | a canonical value encodes and decodes back to itself |
| JsonValue.DecodeEncodeDecode | Sources/Converse/ContentBlocks/JSON.swift:83-131 | decoding, then encoding, then decoding again gives the first decode's result, for any null-free decoded tree |
| JsonValue.NullDoesNotRoundTrip | Sources/Converse/ContentBlocks/JSON.swift:85-86 | `[null]` decodes but cannot be encoded again |
| JsonValue.IntegralDoubleComesBackAsInt | Sources/Converse/ContentBlocks/JSON.swift:89-90 | the Double 2.0 is written as `2` and read back as the Int 2 |
| Tools.NewTool | Sources/Converse/Tool.swift:25-37 | an empty name is refused first, then a name without any `[a-zA-Z0-9_-]` character; otherwise the tool keeps its three fields |
| Tools.ToolFromSdk | Sources/Converse/Tool.swift:39-61 | a missing name, a missing schema and a non-JSON schema fail in that order as `decodingError`s; otherwise the main initializer decides |
| Tools.Description | Sources/Converse/Tool.swift:72-74 | the rendering is `Tool(name: N, description: ` followed by the description, or `nil` when there is none, and a closing parenthesis |
| Tools.ToolToSdk | Sources/Converse/Tool.swift:63-69 | name and schema are carried over, and the description slot holds the rendered `description` |
| Tools.NameCheckIsContains | Sources/Converse/Tool.swift:29 | the name check is a search: `my tool!` passes, `!?` is refused |
| Tools.SdkRoundTripReplacesDescription | Sources/Converse/Tool.swift:63-69 | a valid tool sent to the SDK and read back has the rendered description instead of its own |
| Tools.DescriptionRendering | Sources/Converse/Tool.swift:73 | a tool without a description renders as `Tool(name: N, description: nil)`, and one with description D as `Tool(name: N, description: D)` |
| Tools.DescriptionCannotTellNilApart | Sources/Converse/Tool.swift:73 | a tool without a description and one described as `nil` render alike |
| Tools.ToolToSdkIntended | Sources/Converse/Tool.swift:63-69 | name and schema are carried over, and the SDK description is the tool's own |
| Tools.IntendedSdkRoundTrip | Sources/Converse/Tool.swift:39-69 | with the intended conversion, a valid tool comes back unchanged |
| Tools.IntendedSdkRoundTripFromSdk | Sources/Converse/Tool.swift:39-69 | with the intended conversion, every SDK specification that converts comes back as itself |
| Video.NewVideoBlock | Sources/Converse/ContentBlocks/VideoBlock.swift:22-30 | a block is built exactly from a non-empty base64 source; anything else is `invalidName` |
| Video.NewVideoBlockFromS3 | Sources/Converse/ContentBlocks/VideoBlock.swift:36-38 | the S3-location initializer always fails the guard with `invalidName` |
| Video.FormatFromSdk | backend/Sources/BedrockService/Converse/ConversionExtensions/VideoConversionExtension.swift:26-46 | only the SDK's unknown format fails, as `notImplemented` |
| Video.FormatToSdk | backend/Sources/BedrockService/Converse/ConversionExtensions/VideoConversionExtension.swift:48-60 | a library format never becomes the SDK's unknown case |
| Video.FormatBijection | Sources/Converse/ContentBlocks/VideoBlock.swift:107-138 | the nine formats correspond one to one in both directions |
| Video.SourceFromSdk | backend/Sources/BedrockService/Converse/ConversionExtensions/VideoConversionExtension.swift:64-75 | bytes are base64-encoded, an S3 location is copied, and an unknown source is `notImplemented` |
| Video.SourceToSdk | backend/Sources/BedrockService/Converse/ConversionExtensions/VideoConversionExtension.swift:77-89 | base64 text that cannot be decoded is a `decodingError`; otherwise the decoded bytes or the S3 location are sent |
| Video.SdkSourceRoundTrip | Sources/Converse/ContentBlocks/VideoBlock.swift:68-94 | any known SDK source is read and sent back unchanged |
| Video.SourceRoundTrip | Sources/Converse/ContentBlocks/VideoBlock.swift:68-94 | a library source with valid base64 is sent and read back unchanged |
| Video.BlockFromSdk | Sources/Converse/ContentBlocks/VideoBlock.swift:40-55 | a missing format, then a missing source, is a `decodingError`; with both present the result is the format conversion, then the source conversion, then the guarded initializer, the first failure winning |
| Video.BlockToSdk | Sources/Converse/ContentBlocks/VideoBlock.swift:57-62 | succeeds exactly when the source converts, and carries the converted format and source |
| Video.SdkBlocksThatFailTheGuard | Sources/Converse/ContentBlocks/VideoBlock.swift:40-55 | an SDK block with an S3 source or empty bytes is refused by the guard |
| Video.BlockRoundTrip | Sources/Converse/ContentBlocks/VideoBlock.swift:22-62 | a block over non-empty encoded bytes survives the trip to the SDK and back |
| Image.NewImageBlock | backend/Sources/BedrockTypes/ConverseContent/ImageBlock.swift:22-25 | the block keeps its format and source |
| Image.EmptySourceAccepted | backend/Sources/BedrockTypes/ConverseContent/ImageBlock.swift:22-25 | no validation: an empty source gives a block with that format and the empty source |
| MessageConversion.RoleFromSdk | backend/Sources/BedrockService/Converse/ConversionExtensions/MessageConversionExtension.swift:30 | only the SDK's unknown role fails, as `notImplemented` |
| MessageConversion.RoleToSdk | backend/Sources/BedrockService/Converse/ConversionExtensions/MessageConversionExtension.swift:40 | every role comes back from the SDK as itself |
| MessageConversion.MessageFromSdk | backend/Sources/BedrockService/Converse/ConversionExtensions/MessageConversionExtension.swift:22-31 | a missing role, then missing content, is a `decodingError`; a failing block fails the message; once the blocks convert, the result is the role conversion (an unknown role is `notImplemented`) applied to a message of those blocks in order |
| Content.PromptMessage | backend/Sources/BedrockService/BedrockService.swift:665 | a prompt turn is one user message with one text block |
| Content.ImagePromptMessage | backend/Sources/BedrockService/BedrockService.swift:660-662 | an image prompt turn is a user message with the text, then the image of that format and source |
| Content.ToolResultMessage | backend/Sources/BedrockService/BedrockService.swift:647 | a tool-result turn is one user message with one tool-result block |
| Content.LastBlockIsToolUse | backend/Sources/BedrockService/BedrockService.swift:644 | the guard holds only for a history whose last message has content |
| Content.LastMessageDecides | backend/Sources/BedrockService/BedrockService.swift:644 | whatever the earlier history, the guard looks only at the last block of the last message |
| Content.UserTurnsEndWithoutToolUse | backend/Sources/BedrockService/BedrockService.swift:644-665 | after a prompt turn or a tool-result turn the guard fails, so a tool result must follow the model's tool use |
| MessageConversion.MessageToSdk | backend/Sources/BedrockService/Converse/ConversionExtensions/MessageConversionExtension.swift:33-42 | succeeds exactly when every block converts; carries the converted blocks in order and the role |
| MessageConversion.MessageRoundTrip | backend/Sources/BedrockService/Converse/ConversionExtensions/MessageConversionExtension.swift:22-42 | given a block round trip, a message sent to the SDK and read back is unchanged |
| HistoryText.DigitChar | Sources/Converse/ContentBlocks/History.swift:20 | the character is the decimal digit whose value is the given number |
| HistoryText.NatToString | Sources/Converse/ContentBlocks/History.swift:20 | the turn count is printed as a non-empty string of digits |
| HistoryText.NatToStringSpellsValue | Sources/Converse/ContentBlocks/History.swift:20 | the printed digits spell exactly the turn count, with no leading zero |
| HistoryText.Description | Sources/Converse/ContentBlocks/History.swift:19-25 | the description starts with the header `N turns:` and a newline |
| HistoryText.Describe | Sources/Converse/ContentBlocks/History.swift:19-25 | the loop builds the header, then one line per message in order |
| HistoryText.LinesAppend | Sources/Converse/ContentBlocks/History.swift:21-23 | the lines of two histories joined are the lines of each, joined |
| HistoryText.LinesFromFront | Sources/Converse/ContentBlocks/History.swift:21-23 | the first line belongs to the first message |
| HistoryText.DescriptionShape | Sources/Converse/ContentBlocks/History.swift:19-25 | the description always ends with a newline, and its lines hold at least one character per message |
| HistoryText.EmptyHistory | Sources/Converse/ContentBlocks/History.swift:19-25 | an empty history describes as `0 turns:` and a newline |
| Parameters.Resolve | Sources/Models/Amazon/Titan/Titan.swift:47-59 | `explicit ?? default`: an explicit value wins, otherwise the default; a value results exactly when one of the two is present |
| Titan.NewTitanText | Sources/Models/Amazon/Titan/Titan.swift:25-29 | keeps the parameters and features; the stored Converse parameters carry the same temperature, maxTokens, topP, stop sequences and prompt size, and equal what `getConverseParameters` derives |
| Titan.ConverseParametersAgree | Sources/Models/Amazon/Titan/Titan.swift:25-37 | `getConverseParameters` agrees with the stored value for any features; the default features are text generation and document, with no vision or tool use |
| Titan.GetConverseParameters | Sources/Models/Amazon/Titan/Titan.swift:35-37 | the Converse parameters carry the text parameters' temperature, maxTokens, topP, stop sequences and prompt size |
| Titan.TextRequestBody | Sources/Models/Amazon/Titan/Titan.swift:39-69 | checks maxTokens, temperature and topP for a value, refuses any topK, then checks stopSequences, and the first failure wins; success exactly when all pass, with the resolved values |
| Titan.ExplicitKnobsIgnoreDefaults | Sources/Models/Amazon/Titan/Titan.swift:39-69 | with every knob given, the model's defaults do not matter |
| Titan.RebuildIsFixedPoint | Sources/Models/Amazon/Titan/Titan.swift:39-69 | feeding a built body's knobs back in rebuilds the same body, for any Titan parameters |
| Titan.AnyTopKRefused | Sources/Models/Amazon/Titan/Titan.swift:56-58 | even topK = 0 is `notSupported` |
| Llama.TextRequestBody | backend/Sources/SwiftBedrockTypes/Models/Llama/Llama.swift:31-51 | topK is refused, then stop sequences; otherwise the three other knobs resolve and may stay absent |
| Llama.EmptyStopListRefused | backend/Sources/SwiftBedrockTypes/Models/Llama/Llama.swift:31-51 | even an empty stop list is `notSupported` |
| Llama.NoRangeCheck | backend/Sources/SwiftBedrockTypes/Models/Llama/Llama.swift:31-51 | a maxTokens above the model's maximum is sent as given |
| Llama.RebuildIsFixedPoint | backend/Sources/SwiftBedrockTypes/Models/Llama/Llama.swift:31-51 | feeding a complete body's knobs back in rebuilds the same body, for any parameters |
| Anthropic.GetParameters | backend/Sources/SwiftBedrockTypes/Anthropic/Anthropic.swift:23-29 | the adapter is determined by the parameters it returns |
| Anthropic.TextRequestBody | backend/Sources/SwiftBedrockTypes/Anthropic/Anthropic.swift:31-47 | never fails; every knob, topK and stop sequences included, is `explicit ?? default` |
| Anthropic.ExplicitValuesKept | backend/Sources/SwiftBedrockTypes/Anthropic/Anthropic.swift:31-47 | an explicit topK and stop list are sent as given |
| Anthropic.RebuildIsFixedPoint | backend/Sources/SwiftBedrockTypes/Anthropic/Anthropic.swift:31-47 | feeding a body's knobs back in rebuilds the same body |
| Models.GetTextModality | backend/Sources/SwiftBedrockService/BedrockRequest.swift:62 | succeeds exactly for a text model and gives its adapter; otherwise `invalidModality` |
| Models.GetImageModality | backend/Sources/SwiftBedrockService/BedrockRequest.swift:88 | succeeds exactly for an image model; otherwise `invalidModality` |
| Models.GetTextToImageModality | backend/Sources/BedrockService/BedrockService.swift:343 | succeeds exactly for an image model offering text-to-image |
| Models.GetImageVariationModality | backend/Sources/BedrockService/BedrockService.swift:439 | succeeds exactly for an image model offering image variation |
| Models.GetConverseModality | backend/Sources/BedrockService/BedrockService.swift:517 | succeeds exactly for a Titan text model |
| Models.TextBody | backend/Sources/SwiftBedrockService/BedrockRequest.swift:62-67 | each family's result is its adapter's body, wrapped, or that adapter's error: Anthropic never fails, failures are `notFound` or `notSupported`, and only Anthropic accepts a topK |
| Models.PromptPassesThrough | backend/Sources/SwiftBedrockService/BedrockRequest.swift:62-67 | every family sends the prompt unchanged |
| Models.StopSequencesByFamily | backend/Sources/SwiftBedrockTypes/Models/Llama/Llama.swift:31-51 | given stop sequences are sent by Anthropic and Titan and refused by Llama |
| AnthropicModels.SharedConstraints | backend/Sources/SwiftBedrockTypes/Anthropic/AnthropicBedrockModels.swift:32-171 | every Claude entry has temperature 0–1 (default 1), topP 0–1 (0.999), topK 0–500 (0), a 200 000 prompt size and 8191 stop sequences (default none) |
| AnthropicModels.MaxTokensCeilings | backend/Sources/SwiftBedrockTypes/Anthropic/AnthropicBedrockModels.swift:32-171 | the four oldest entries have no maxTokens bound, the next two cap at 4096, and the last four cap at 8192 |
| AnthropicModels.SharedConstraintsWellFormed | backend/Sources/SwiftBedrockTypes/Anthropic/AnthropicBedrockModels.swift:32-45 | the shared Claude constraints are well formed for any well-formed maxTokens |
| AnthropicModels.DefaultsWithinBounds | backend/Sources/SwiftBedrockTypes/Anthropic/AnthropicBedrockModels.swift:32-171 | every default lies within its bounds, and unsupported knobs have none |
| AnthropicModels.DistinctIds | backend/Sources/SwiftBedrockTypes/Anthropic/AnthropicBedrockModels.swift:32-171 | no two Claude entries share an id |
| AnthropicModels.DefaultMaxTokensSent | backend/Sources/SwiftBedrockTypes/Anthropic/AnthropicBedrockModels.swift:32-171 | with no knobs given, Instant sends no maxTokens, Opus sends 4096 and Sonnet 3.7 sends 8192 |
| LlamaModels.SharedConstraints | backend/Sources/SwiftBedrockTypes/Models/Llama/LlamaBedrockModels.swift:21-124 | every Llama entry has temperature 0–1 (0.5), maxTokens 0–2048 (512), topP 0–1 (0.9), no topK, no stop sequences and no prompt-size limit |
| LlamaModels.LlamaConstraintsWellFormed | backend/Sources/SwiftBedrockTypes/Models/Llama/LlamaBedrockModels.swift:21-33 | the shared Llama constraints are well formed |
| LlamaModels.DefaultsWithinBounds | backend/Sources/SwiftBedrockTypes/Models/Llama/LlamaBedrockModels.swift:21-124 | every default lies within its bounds, and unsupported knobs have none |
| LlamaModels.DuplicateId | backend/Sources/SwiftBedrockTypes/Models/Llama/LlamaBedrockModels.swift:21-124 | the first and last entries are one model under two names, and no other two entries share an id |
| Registry.Lookup | Sources/ListModels/ModelSummary.swift:62 | no result exactly when no entry has the id; otherwise the first entry with the id |
| Registry.LookupFindsEntry | Sources/ListModels/ModelSummary.swift:62 | in a table whose equal ids mean equal entries, every entry is found by its id |
| Registry.JoinUnambiguous | Sources/ListModels/ModelSummary.swift:62 | joining two such tables with disjoint ids keeps that property |
| Registry.FamiliesDoNotShareIds | backend/Sources/SwiftBedrockTypes/Models/Llama/LlamaBedrockModels.swift:21-124 | no Claude id is a Llama id |
| Registry.TableUnambiguous | backend/Sources/SwiftBedrockTypes/Models/Llama/LlamaBedrockModels.swift:21-124 | in the joined registry, equal ids mean equal entries, despite the duplicated Llama id |
| Registry.EveryEntryFound | Sources/ListModels/ModelSummary.swift:62 | every registered model is found by its id |
| Registry.UnknownIdGivesNone | Sources/ListModels/ModelSummary.swift:62 | an id no entry has gives no model |
| ModelSummaries.GetModelSummary | Sources/ListModels/ModelSummary.swift:28-73 | the six presence checks fail in order as `notFound`, then an unknown status is `notSupported`; success copies the fields, maps the status to `active`/`legacy`, defaults streaming to false and looks the model up |
| ModelSummaries.SummaryRoundTrip | Sources/ListModels/ModelSummary.swift:28-73 | a summary with a known status rebuilt from its SDK form is unchanged |
| ModelSummaries.UnknownIdIsNotAnError | Sources/ListModels/ModelSummary.swift:62-72 | an unknown model id still yields a summary, with no model attached |
| BedrockRequests.NewRequest | backend/Sources/SwiftBedrockService/BedrockRequest.swift:26-36 | content type and accept default to JSON |
| BedrockRequests.TextRequest | backend/Sources/SwiftBedrockService/BedrockRequest.swift:56-69 | a model without a text modality is `invalidModality`; otherwise the request succeeds exactly when the family builds a body, and that body carries the prompt |
| BedrockRequests.CreateTextRequest | backend/Sources/SwiftBedrockService/BedrockRequest.swift:47-54 | only maxTokens and temperature are given, and a non-text model is refused |
| BedrockRequests.CreateTextToImageRequest | backend/Sources/SwiftBedrockService/BedrockRequest.swift:79-93 | a non-image model is refused; otherwise the modality's body or its error |
| BedrockRequests.CreateImageVariationRequest | backend/Sources/SwiftBedrockService/BedrockRequest.swift:105-130 | the same for image variation |
| BedrockRequests.GetInvokeModelInput | backend/Sources/SwiftBedrockService/BedrockRequest.swift:135-149 | fails, as `encodingError`, exactly when encoding fails; otherwise it carries the model id, the JSON header values and the encoded body |
| BedrockRequests.InputCarriesBody | backend/Sources/SwiftBedrockService/BedrockRequest.swift:135-149 | with a decoder that inverts the encoder, the sent bytes decode to the request's body |
| BedrockRequests.TextRequestNeedsTextModality | backend/Sources/SwiftBedrockService/BedrockRequest.swift:62 | a text request to an image model is `invalidModality` for that model |
| InvokeModelResponses.CreateTextResponse | backend/Sources/SwiftBedrockService/InvokeModel/InvokeModelResponse.swift:54-61 | succeeds exactly when the model is a text model and its decoder accepts the body; any failure is `invalidSDKResponseBody` with the raw bytes |
| InvokeModelResponses.CreateImageResponse | backend/Sources/SwiftBedrockService/InvokeModel/InvokeModelResponse.swift:69-76 | the same for image models |
| InvokeModelResponses.GetTextCompletion | backend/Sources/SwiftBedrockService/InvokeModel/InvokeModelResponse.swift:81-92 | no text body is a failure; a body the decoder reads gives the decoder's completion, and one it rejects is `decodingError("completion")` |
| InvokeModelResponses.GetGeneratedImage | backend/Sources/SwiftBedrockService/InvokeModel/InvokeModelResponse.swift:97-108 | fails exactly when there is no image body |
| InvokeModelResponses.ResponsesHoldOneKind | backend/Sources/SwiftBedrockService/InvokeModel/InvokeModelResponse.swift:54-108 | a text response has no image to give, and an image response has no text |
| InvokeModelResponses.OneKindPerModel | backend/Sources/SwiftBedrockService/InvokeModel/InvokeModelResponse.swift:54-76 | no model yields both a text and an image response |
| ConverseRequests.NewConverseRequest | backend/Sources/BedrockService/Converse/ConverseRequest.swift:27-47 | the inference configuration is always present and holds the four knobs as given |
| ConverseRequests.NarrowPresent | backend/Sources/BedrockService/Converse/ConverseRequest.swift:80-100 | a present value is narrowed, and an absent one stays absent |
| ConverseRequests.GetSdkInferenceConfig | backend/Sources/BedrockService/Converse/ConverseRequest.swift:80-100 | maxTokens and stop sequences are copied; temperature and topP are narrowed when present |
| ConverseRequests.GetSdkSystemPrompts | backend/Sources/BedrockService/Converse/ConverseRequest.swift:68-72 | one text block per prompt, in order, and none without prompts |
| ConverseRequests.SystemPromptsRoundTrip | backend/Sources/BedrockService/Converse/ConverseRequest.swift:68-72 | the blocks give back the prompts |
| ConverseRequests.GetConverseInput | backend/Sources/BedrockService/Converse/ConverseRequest.swift:49-66 | succeeds exactly when every message converts; carries the model id, the converted configuration, the system blocks and the messages in order |
| ConverseRequests.InputAlwaysConfigured | backend/Sources/BedrockService/Converse/ConverseRequest.swift:27-62 | every request built by the initializer is sent with an inference configuration |
| ConverseRequests.MessagesRoundTrip | backend/Sources/BedrockService/Converse/ConverseRequest.swift:49-66 | given a block round trip, the sent messages read back as the request's messages |
| BedrockService.ResponseBody | backend/Sources/BedrockService/BedrockService.swift:255-275 | a transport failure propagates, a missing body is `invalidSDKResponse`, and otherwise the body is the one returned |
| BedrockService.ReadText | backend/Sources/BedrockService/BedrockService.swift:279-289 | a reply without a body fails as above; a body the text response cannot be built from is `invalidSDKResponseBody` carrying it; a success is `getTextCompletion` of the built response |
| BedrockService.ReadImages | backend/Sources/BedrockService/BedrockService.swift:376-380 | the same for an image response and `getGeneratedImage` |
| BedrockService.TextReplyIsNoImage | backend/Sources/BedrockService/BedrockService.swift:279-380 | a reply read as a text completion cannot be read as generated images |
| BedrockService.CompleteText | backend/Sources/BedrockService/BedrockService.swift:197-294 | a text-modality or validation failure comes back with nothing sent; once both pass, a request or encoding failure comes back unchanged with nothing sent, and otherwise the built input is sent and the result is the completion read from the transport's reply |
| BedrockService.GenerateImage | backend/Sources/BedrockService/BedrockService.swift:312-385 | each of the image modality, its validation, the text-to-image modality and its validation fails the flow in that order with nothing sent; once all pass, a request or encoding failure comes back with nothing sent, and otherwise the input is sent and the result is the images read from the reply |
| BedrockService.GenerateImageVariation | backend/Sources/BedrockService/BedrockService.swift:405-488 | the same with the image-variation modality and its validation |
| BedrockService.ConverseConversation | backend/Sources/BedrockService/BedrockService.swift:506-582 | a modality or validation failure comes back with nothing sent; once both pass, a failing input conversion comes back with nothing sent, and otherwise the input, carrying every message of the conversation, is sent and the result is the reply read from the output |
| BedrockService.ReadReply | backend/Sources/BedrockService/BedrockService.swift:564-577 | a transport failure propagates, a missing output is `invalidSDKResponse`, and an output is converted as an SDK message |
| BedrockService.ReplyRoundTrip | backend/Sources/BedrockService/BedrockService.swift:564-577 | a message the service would send with round-tripping block conversions is read back as itself |
| BedrockService.CheckPrompt | backend/Sources/BedrockService/BedrockService.swift:628-667 | the guards, in source order: a non-Titan model fails with its modality error, tools without tool use and images without vision are `invalidModality`, a tool result without tools or after a message not ending in a tool use and a missing prompt are `invalidPrompt`; it succeeds exactly when every guard passes, with the tool-result, image-prompt or prompt message for the new turn |
| BedrockService.ConversePrompt | backend/Sources/BedrockService/BedrockService.swift:604-689 | tools on a model without tool use, and images on a model without vision, are `invalidModality`; a tool result without tools or without a preceding tool use, and a missing prompt, are `invalidPrompt`; once every guard passes, a successful reply gives the reply's text and the history plus the new turn and the reply, and a failed reply its error |
| BedrockService.ListModels | backend/Sources/BedrockService/BedrockService.swift:151-179 | a missing list is `invalidSDKResponse`; otherwise the loop converts every summary in order, and the first failure fails the list |
| Base.MapAllFailsFromPrefix | backend/Sources/BedrockService/BedrockService.swift:164-166 | once a prefix fails, the whole list fails with the same error |
| Authentication.Redact | Sources/BedrockAuthentication.swift:52-54 | the first (at most) three characters of the secret, then the fixed suffix |
| Authentication.ShortSecretKeptWhole | Sources/BedrockAuthentication.swift:53 | a secret shorter than three characters is shown whole |
| Authentication.RedactionRevealsOnlyPrefix | Sources/BedrockAuthentication.swift:52-54 | two secrets redact alike if and only if their kept prefixes agree |
| Authentication.Describe | Sources/BedrockAuthentication.swift:36-51 | each description starts with its kind's tag; the default chain is `default`; profile names, the role ARN, the region and the access key are shown in the clear; the token, secret key and API key appear only redacted; the session token never |
| Authentication.DescriptionNamesKind | Sources/BedrockAuthentication.swift:36-51 | a description starts with no other kind's tag |
| Authentication.OnlyDefaultDescribesAsDefault | Sources/BedrockAuthentication.swift:38-39 | the description is `default` exactly for the default chain |
| Authentication.DescriptionHidesSecrets | Sources/BedrockAuthentication.swift:46-47 | static credentials differing only beyond the kept prefix of the secret key, or in the session token, describe alike |
| Authentication.DescriptionHidesTokens | Sources/BedrockAuthentication.swift:44-49 | API keys and web-identity tokens differing only beyond the kept prefix describe alike |
| Authentication.ProfileNamesShown | Sources/BedrockAuthentication.swift:40-43 | profile and SSO descriptions show the profile name in the clear |
| Authentication.WebIdentityShowsRoleAndRegion | Sources/BedrockAuthentication.swift:44-45 | a web-identity description ends with the role ARN and the region in the clear, whatever the token |
| Authentication.StaticShowsAccessKey | Sources/BedrockAuthentication.swift:46-47 | a static description shows the access key in the clear after its tag, then only the redacted secret key |
| Authentication.GetBearerTokenResolver | Sources/BedrockAuthentication.swift:90-98 | a bearer-token resolver exists exactly for an API key, and carries the key |
| Authentication.GetAwsCredentialResolver | Sources/BedrockAuthentication.swift:61-85 | none for the default chain and for an API key; only web identity can fail; static credentials are carried whole; profile and SSO give their resolver exactly when it can be built; web identity gives the exchanged resolver or passes on its error |
| Authentication.ResolversExclusive | Sources/BedrockAuthentication.swift:61-98 | a configuration never yields both an AWS resolver and a bearer-token resolver |

## Left out

- Transport, I/O and concurrency: the SDK clients, `async`, client construction in `BedrockService.init`, and logging. Transport calls are `Env` fields that return a result or an error.
- The byte-level JSON codec (`JSONDecoder`/`JSONEncoder`) is left out. JSON is modelled over a parsed text tree, and parsing is a parameter.
- The UTF-8 conversion in `JSON(from: String)` always succeeds for Swift strings, so its `encodingError` branch is not modelled.
- Base64 encoding and decoding are a `Base64Codec` parameter.
- Smithy document conversions are treated as lossless copies.
- Floating point: Double values are reals. Double-to-Float narrowing is the parameter `narrow`.
- The families' response decoders, the image modalities' body builders, and the parameter validators are declared outside the modelled files. They are `Env` or record fields.
- The per-content-block SDK conversions other than video's, and `ConverseResponse.getReply`, are declared outside the modelled files. They are parameters (`Env.blockToSdk`, `Env.blockFromSdk`, `Env.replyText`).
- `BedrockService.ReadReply`: the throwing initializer `ConverseResponse(converseOutput)` is declared outside the modelled files. The model assumes it is `Message(from:)` applied to the output's message. An output that is not a message (another case of the SDK's `ConverseOutput` union) is not modelled. `BedrockService.ReplyRoundTrip` and the success clauses of `BedrockService.ConverseConversation` and `BedrockService.ConversePrompt` rest on this assumption.
- Streaming, tool choice and the other model families (Nova, Titan image, Deepseek, …) are not part of this model. `Registry.Lookup` searches only the Claude and Llama tables.
- `Authentication.GetAwsCredentialResolver`: resolver construction for profile, SSO and web identity reads files or calls the network. Whether it succeeds is a parameter, and the web-identity notification closure is dropped.
- A `Region` is modelled by its printed form.
- `BedrockService.ConversePrompt` does not carry `tools` into the SDK input, because the modelled `ConverseRequest` initializer takes none.
- `BedrockService.ListModels` models `compactMap` with a non-optional closure as a plain ordered map.
- `BedrockService.GenerateImage`: the image options the service validates and forwards are kept opaque (`ImageOptions`), beyond the negative prompt passed to the text-to-image check.
- The playground API routes and the frontend are not part of this model.
- `Video.SourceFromSdk`: `S3Location(from:)` is declared outside the modelled files and can throw. The model takes it as an infallible copy of the SDK location, with the URI always present. An S3 source whose location fails to convert is therefore not modelled, and `Video.SdkSourceRoundTrip` and `Video.SdkBlocksThatFailTheGuard` rest on this assumption.
- `MessageConversion.RoleFromSdk`: `Role(from:)` is declared outside the modelled files. The model maps the two known SDK roles and reports any other role as `notImplemented`.
- `Parameters.ConverseParametersOf`: `ConverseParameters(textGenerationParameters:)` is declared outside the modelled files. It is taken as a field-by-field copy of temperature, maxTokens, topP, stop sequences and prompt size.
- `Content.PromptMessage`, `Content.ImagePromptMessage` and `Content.ToolResultMessage`: the `Message` initializers are declared outside the modelled files. Their shapes are assumed: a user message with one text block; the text, then an image block; one tool-result block.
- `Authentication.Redact`: Swift counts a `String` in grapheme clusters, and the model counts Unicode scalars. `prefix(3)` of a secret with combining marks keeps more scalars than the model does, and the model's kept prefix can split a cluster.
- `Tools.NewTool`: the emptiness test and the `[a-zA-Z0-9_-]` search run over Unicode scalars, not grapheme clusters. A name such as `e` followed by a combining accent passes in the model, where Swift's regex, matching whole characters, finds no match.

## Findings

| source | as written | input that shows it | evidently intended | confidence | as-written member | corrected member |
|---|---|---|---|---|---|---|
| Sources/Converse/Tool.swift:65 | `getSDKToolSpecification` sends `description`, the `CustomStringConvertible` rendering `Tool(name: …, description: …)`, as the SDK's tool description | `Tool(name: "t", inputSchema: {}, description: nil)` reaches the SDK with the description `Tool(name: t, description: nil)`; reading it back gives a tool with that text as its `toolDescription` | the SDK description is the tool's own `toolDescription`, so that the conversion round-trips | high, not executed | Tools.SdkRoundTripReplacesDescription | Tools.IntendedSdkRoundTrip |
