# nano-banana-pro-mcp, modelled in Dafny

nano-banana-pro-mcp is an MCP server that exposes Google's Gemini image models as three tools:
`generate_image`, `edit_image` and `describe_image`. This project models its core in Dafny:

- **GeminiImageClient** (src/gemini.ts). It checks the model against a fixed allow-list and
  builds one `generateContent` request. It then turns the reply into a generated image or a
  description, or into one of a fixed set of errors.
- **The CallTool and GetPrompt handlers** (src/index.ts). These cover the argument schemas with
  their defaults and `min(1)` rules, the content list each tool returns, the wrapping of every
  failure into one error item, and the prompt lookup.

Modules, one per concern:

| module | file | models |
|---|---|---|
| `Wrappers` | wrappers.dfy | `Option` and `Result` |
| `Strings` | strings.dfy | `join`, `includes`, decimal rendering of a status code |
| `GeminiTypes` | types.dfy | the types of src/types.ts and the four enumerations |
| `GeminiErrors` | errors.dfy | `ALLOWED_MODELS`, `DEFAULT_MODEL`, every thrown message |
| `GeminiRequests` | request.dfy | model resolution, capability gating, request parts, generation config, URL |
| `GeminiResponses` | response.dfy | failure precedence and the part scan, as specification functions |
| `Gemini` | client.dfy | the `GeminiImageClient` class and the loops of its two methods |
| `ToolServer` | server.dfy | schemas, content layout, error wrapping, `CallTool`, `GetPrompt` |

How the model is shaped:

- **The network.** `fetch` is not modelled. Each client method takes the reply (`HttpReply`:
  `ok`, `status`, the text body and the parsed JSON) as a parameter. It returns the request it
  would send, or `None` when it throws before sending.
- **The loops.** The two loops over response parts are methods. They are proved equal to
  specification functions over the parts. The properties of the result (which part wins, what
  is accumulated, when a field is absent) are proved as lemmas about those functions.
- **The caption.** The description of a generated image comes from the *last* part that has no
  inline data, has non-empty text and is not flagged `thought`. Each such part overwrites the
  previous one (src/gemini.ts:118-123). It is not the first such part. A text carried by a part
  with inline data is never the caption, because that part is taken as the image
  (src/gemini.ts:113).
- **`personGeneration`.** It is accepted by the schemas and by `generateImage`, but it is never
  written into the request body. `GenerationConfigFor` states this: the image configuration's
  `personGeneration` is always absent.

## Model

| member | source | states |
|---|---|---|
| GeminiTypes.EnumerationsAreDistinct | src/index.ts:36-47 | There are 14 aspect ratios, 4 sizes, 3 person policies and 4 thinking levels. The ratios and the sizes have no duplicates. No enumerated value is empty, so a supplied value is always truthy. |
| GeminiErrors.InvalidModelMessage | src/gemini.ts:34-38 | The invalid-model message names the rejected model, then lists the four allowed ids in order, separated by ", ". |
| GeminiErrors.UnauthorizedMessage | src/gemini.ts:91-94 | An HTTP failure with status 401 renders as "Gemini API error (401): <body>": the status in decimal, then the raw body. |
| GeminiErrors.Message | src/gemini.ts:24-216 | Every thrown message is non-empty. An invalid-model message starts with "Invalid model: <model>". Both HTTP and API failures start with "Gemini API error". |
| Strings.DecimalRoundTrip | src/gemini.ts:93 | The decimal rendering of a status code reads back to the same number, so the message identifies the status. |
| Strings.JoinEmptyIff | src/gemini.ts:120 | Joining non-empty texts gives the empty string only for an empty list. |
| GeminiRequests.ResolveModel | src/gemini.ts:32 | A missing or empty model resolves to the default model; any other model is kept. The result is never empty. |
| GeminiRequests.DefaultModelIsAllowed | src/gemini.ts:11-18 | Leaving the model out always passes the allow-list. |
| GeminiRequests.ImagenIsRedundant | src/gemini.ts:40 | The capability test "contains image or imagen" holds exactly when the name contains "image". |
| GeminiRequests.AllowedModelCapabilities | src/gemini.ts:40 | Of the allowed models, the two "-image-" ones accept image configuration and the other two do not. |
| GeminiRequests.AllowedModelsAreUrlSafe | src/gemini.ts:81 | Every allowed id consists of lower-case letters, digits, '-' and '.'. Interpolating it into the URL path cannot change the path or the query. |
| GeminiRequests.RequestUrl | src/gemini.ts:81 | The URL starts with the API base, "/", the model and ":", and ends with the key. |
| GeminiRequests.RequestUrlInjective | src/gemini.ts:81 | For URL-safe model ids, different (model, key) pairs give different URLs, so the URL names exactly one model and one key. |
| GeminiRequests.RequestPartsDetermined | src/gemini.ts:42-55 | The prompt and the images determine the parts list uniquely: the prompt text first, then one inline part per image, in order. |
| GeminiRequests.GenerationConfigFor | src/gemini.ts:63-74 | Both modalities are requested. The image configuration is present iff the model contains "image" and a ratio or a size is given. When present, it holds just the given ratio and size and never a person policy. The thinking configuration is passed through verbatim. |
| GeminiRequests.GenerateRequestDetermined | src/gemini.ts:57-89 | The generate-request predicate fixes the POST completely: method, content type, URL, the single content block, configuration, and tools iff search is on. |
| GeminiRequests.DescribePrompt | src/gemini.ts:155-158 | The caller's prompt is used when it is non-empty. A missing or empty prompt gives "Describe this image in detail. What do you see?". The prompt is never empty. |
| GeminiRequests.DescribeRequestDetermined | src/gemini.ts:156-188 | The describe-request predicate fixes the POST completely: prompt and images, text-only modality, no tools. |
| GeminiResponses.ScanStep | src/gemini.ts:112-125 | Reading one more part does one of three things: an inline-data part replaces the image, a non-thought text replaces the caption, a thought text is appended after a newline. Describe appends the part's text. |
| GeminiResponses.LastImageWins | src/gemini.ts:113-117 | The image is absent iff no part has inline data. Otherwise it comes from an inline-data part with none after it. |
| GeminiResponses.LastCaptionWins | src/gemini.ts:113-123 | The description is absent iff no part without inline data carries a non-empty non-thought text. Otherwise it comes from such a part, and no later part is one. |
| GeminiResponses.ScanSplitsOverride | src/gemini.ts:113-123 | When scanning a + b, b's image and caption override a's whenever b has one. |
| GeminiResponses.ScanSplitsThoughts | src/gemini.ts:118-120 | When scanning a + b, the thought texts are a's followed by b's, in order. |
| GeminiResponses.ScanSplitsDescription | src/gemini.ts:208-212 | When describing a + b, the text is a's followed by b's. |
| GeminiResponses.ThoughtTextsNonEmpty | src/gemini.ts:113-120 | Every collected thought text is non-empty. There is at least one exactly when some part without inline data carries a non-empty text flagged `thought`. |
| GeminiResponses.ThoughtsPresence | src/gemini.ts:113-120 | Thoughts are present exactly when some part without inline data carries a non-empty text flagged `thought`. They are then non-empty. |
| GeminiResponses.DescriptionEmptyIff | src/gemini.ts:208-216 | The description is empty, and so the call fails, exactly when no part carries non-empty text. |
| GeminiResponses.GenerateFailurePrecedence | src/gemini.ts:91-129 | Generate failures are checked in a fixed order: HTTP failure, API error, empty candidates, no inline data. Each failure occurs exactly under its condition. |
| GeminiResponses.DescribeFailurePrecedence | src/gemini.ts:190-216 | Describe failures follow the same order. An empty candidate list reports "No response", and a reply with no text reports no description. |
| GeminiResponses.GeneratedImageWellFormed | src/gemini.ts:113-138 | In a generated image, each optional field that is present is non-empty. The payload is the inline data of a part of the first candidate, and no later part has inline data. |
| GeminiResponses.GenerateRoundTrip | src/gemini.ts:106-138 | Every well-formed image is produced from some reply, so no well-formed result is out of reach. |
| GeminiResponses.DescribeRoundTrip | src/gemini.ts:205-218 | Every non-empty string is the description of some reply. |
| GeminiResponses.FirstCandidate | src/gemini.ts:91-106 | The first candidate is returned iff the reply is OK, carries no API error and has a non-empty candidate list. A non-OK reply always reports its status and body. Otherwise the failure is the API error or the operation's "empty" error. |
| GeminiResponses.RoleOf | src/gemini.ts:113-124 | A part with inline data is an image, whatever its text. A part without inline data and without non-empty text is skipped. A non-empty text is a thought exactly when flagged `thought`, and a caption otherwise. |
| GeminiResponses.SearchQueries | src/gemini.ts:131-137 | The queries are kept exactly when the grounding metadata holds a non-empty list, and they are then that list. |
| GeminiResponses.NormaliseGenerate | src/gemini.ts:91-138 | A generated image is well formed: no present optional field is empty. A failure is one of HTTP, API, empty response or no image data. |
| GeminiResponses.NormaliseDescribe | src/gemini.ts:190-218 | A description is non-empty and is the concatenated text of the first candidate. A failure is one of HTTP, API, no response or no description. |
| GeminiResponses.ThoughtCaptionImageExample | src/gemini.ts:112-138 | A reply with a thought, a caption and an image yields exactly those three fields. |
| GeminiResponses.LastInlinePartWinsExample | src/gemini.ts:113-117 | With two inline parts, the second one's payload is returned. |
| Gemini.GeminiImageClient.constructor | src/gemini.ts:23-28 | A client keeps the non-empty key it was given. |
| Gemini.CreateClient | src/gemini.ts:23-28 | An empty key fails with "GEMINI_API_KEY is required". Otherwise it returns a fresh client holding the key. |
| Gemini.GeminiImageClient.GenerateImage | src/gemini.ts:30-139 | A request is sent iff the model passes the allow-list, and it is exactly the generate request for the options: URL, parts, config, and tools iff search is on. The result is the specified normalisation of the reply. |
| Gemini.GeminiImageClient.DescribeImage | src/gemini.ts:141-219 | A request is sent iff the model is allowed and there is at least one image. It is a text-only request with no tools. The result is the specified describe normalisation. |
| Gemini.CollectRequestParts | src/gemini.ts:42-55 | The loop builds the prompt part followed by one inline part per image, in order. |
| Gemini.ScanGenerateParts | src/gemini.ts:108-125 | The loop computes the last image, the last caption and the newline-joined thoughts, as specified. |
| Gemini.ConcatenateTexts | src/gemini.ts:206-212 | The loop concatenates every part's text, in order and with no separator. |
| Gemini.GenerateInvalidModelFailsFirst | src/gemini.ts:30-38 | A rejected model fails generation with the invalid-model error, whatever the other options and the reply are. |
| Gemini.DescribeInvalidModelFailsFirst | src/gemini.ts:141-153 | A rejected model fails description with the invalid-model error before the image check, whatever the images and the reply are. |
| Gemini.GenerateOutcome | src/gemini.ts:30-139 | Generate fails with the invalid-model error iff the resolved model is not allowed. An allowed model yields the normalised reply, and any image is well formed. |
| Gemini.DescribeOutcome | src/gemini.ts:141-219 | Describe fails with the invalid-model error iff the model is not allowed. It fails with "At least one image is required" iff the model is allowed and there are no images. With an allowed model and at least one image, the result is the normalised reply. A success is non-empty. |
| ToolServer.ParseGenerateArgs | src/index.ts:54-100 | Parsing succeeds iff a prompt is given and every enumerated field is listed. The ratio, size and search flag default to "1:1", "1K" and false. All other fields pass through unchanged, including the thinking level and `includeThoughts`. |
| ToolServer.ParseGenerateIdempotent | src/index.ts:54-100 | Parsing the parsed arguments again, defaults included, gives the same result. |
| ToolServer.ParseEditArgs | src/index.ts:102-120 | Parsing succeeds iff a prompt and at least one image are given and the person policy is listed. The prompt, images, model, output path and person policy pass through unchanged. |
| ToolServer.EditOptions | src/index.ts:361-366 | Edit hands on only the prompt, the images, the model and the person policy. It gives no ratio, size, search or thinking. |
| ToolServer.DescribeOptions | src/index.ts:406-410 | Describe hands on the images, the prompt and the model. |
| ToolServer.ParseDescribeArgs | src/index.ts:122-135 | Parsing succeeds iff at least one image is given. A missing image list is rejected on "images". |
| ToolServer.CallTool | src/index.ts:311-444 | The handler's result is the specified tool result. A schema rejection or an unknown tool sends nothing. After a successful parse, a request is sent iff the model is allowed. That request is the generate request for the parsed options (generate), for the edit options (edit), or the describe request for the describe options (describe). |
| ToolServer.ToolResultFor | src/index.ts:311-444 | Every result has content. An error is a single text item. Only the three known tools succeed, and a successful generate or edit starts with an image. |
| ToolServer.ErrorResult | src/index.ts:343-355 | A caught failure becomes one text item flagged as an error: the tool's prefix followed by the failure's message. |
| ToolServer.SavedPath | src/index.ts:317-320 | A file is saved iff a non-empty output path is given, and the reported path is the resolved one. |
| ToolServer.GenerateContent | src/index.ts:322-341 | The image comes first, then only text items, at most five. There is just the image iff there is no saved path, no description, no thoughts and no queries. |
| ToolServer.EditContent | src/index.ts:373-386 | The content is the generate layout for the same image with its thoughts and search queries removed, so it never shows a thinking or search-query line. The image comes first, then at most two text items. There is just the image iff there is no saved path and no description. |
| ToolServer.FailuresAreSingleItems | src/index.ts:343-432 | Every failure is a single text item starting with the tool's prefix. Only the three known tools can succeed. For each tool, a schema failure gives the prefix followed by the schema's complaint. A client failure gives the prefix followed by the message of the client's error for the parsed options. |
| ToolServer.UnknownToolResult | src/index.ts:435-443 | Any other tool name yields the error "Unknown tool: <name>". |
| ToolServer.DescribeToolResult | src/index.ts:403-419 | A successful description is one non-empty text item, and it is the client's description. |
| ToolServer.MissingImagesRejected | src/index.ts:102-135 | Edit or describe with no images is rejected by the schema, so the result is the schema error and no request is made. |
| ToolServer.GenerateContentLayout | src/index.ts:322-341 | The image comes first. Then come exactly the present lines, in the fixed order: saved path, description, "[Thinking] <thoughts>", and "[Search queries] <q1, q2, …>". Each sits at the position given by the lines present before it. |
| ToolServer.GenerateContentComplete | src/index.ts:322-341 | With a saved path, a description, thoughts and queries, the content is exactly the image followed by those four lines, in that order. |
| ToolServer.EditContentIsPrefix | src/index.ts:373-387 | Edit content is a prefix of the generate content for the same image, at most three items long. Without thoughts or queries the two are equal. Every text item is the saved-path line or the description. |
| ToolServer.ToolImageIsClientImage | src/index.ts:315-342 | A successful generate or edit shows exactly the image the client normalised from the reply. |
| ToolServer.ToolDefaultsReachImageConfig | src/index.ts:56-65 | Through the tool, an image-capable model always receives an image configuration, because of the defaults. With nothing given, it is "1:1" and "1K". |
| ToolServer.EditRequestIsPlain | src/index.ts:361-366 | An edit request has no image configuration, no thinking configuration and no tools. |
| ToolServer.FindPrompt | src/index.ts:462-464 | The lookup finds the first definition with that name, or reports that none has it. |
| ToolServer.GetPrompt | src/index.ts:461-468 | The handler returns the first definition in the catalog with that name. If none has it, it fails with "Unknown prompt: <name>". |

## Left out

- `fetch` and JSON parsing are not modelled. The reply is a parameter, and a body that is not valid JSON cannot be expressed.
- `saveImageToFile` is replaced by a `resolvePath` function parameter. Creating the directory, decoding base64 and writing the file are not modelled. A write failure, which the source reports as a generate or edit error, is not modelled either.
- zod's error text is not modelled. A schema rejection renders as "Invalid arguments: <field>", and only the first failing field in key order is reported.
- Arguments of the wrong JSON type, such as a number where a string is expected, are excluded by the Dafny types. So are a candidate without `content` and a `content` without `parts`. In the source, a candidate without `content` throws a TypeError where the parts are read (src/gemini.ts:107, and :205 for describe). A `content` without `parts` throws in the part loops (src/gemini.ts:112 and :208). The tool reports either TypeError as an error.
- The "Unknown error occurred" branch of the catch blocks is not modelled, because every modelled failure is an `Error`.
- The ListTools and ListPrompts handlers are not modelled, because they return static data.
- src/prompts.ts is not part of this model. The prompt catalog is a parameter, and `buildMessages` is not modelled.
- `main`, the stdio transport and the server bootstrap are not modelled.
- Grounding metadata is reduced to `webSearchQueries`. `searchEntryPoint` and `groundingChunks` are not represented, because the source never reads them. The API error's `code` and `status` are in the types but are not used.
