/**
 * The tool layer (src/index.ts): the argument schemas' defaults and
 * `min(1)` rules, the content list each tool returns, the wrapping of
 * failures, the CallTool handler and the prompt lookup.
 */
module ToolServer {
  import opened Wrappers
  import opened Strings
  import opened GeminiTypes
  import opened GeminiErrors
  import opened GeminiRequests
  import opened GeminiResponses
  import opened Gemini

  /** One element of a tool result's `content`. */
  datatype ContentItem = ImageItem(data: string, mimeType: string) | TextItem(text: string)

  /** A tool result; `isError` absent is `false`. */
  datatype ToolResult = ToolResult(isError: bool, content: seq<ContentItem>)

  datatype RawThinkingConfig = RawThinkingConfig(thinkingLevel: Option<string>, includeThoughts: Option<bool>)

  /** The `arguments` object of a tool call, before schema parsing; enumerated values are still strings. */
  datatype ToolArguments = ToolArguments(
    prompt: Option<string>,
    aspectRatio: Option<string>,
    imageSize: Option<string>,
    model: Option<string>,
    images: Option<seq<ImageInput>>,
    outputPath: Option<string>,
    personGeneration: Option<string>,
    useGoogleSearch: Option<bool>,
    thinkingConfig: Option<RawThinkingConfig>)

  datatype ToolCall = ToolCall(name: string, arguments: ToolArguments)

  /** Why a tool call failed: the client threw, or the schema rejected a field. */
  datatype ToolFailure = ClientFailed(error: ClientError) | SchemaRejected(field: string)

  function FailureMessage(f: ToolFailure): string
  {
    match f
    case ClientFailed(e) => Message(e)
    case SchemaRejected(field) => "Invalid arguments: " + field
  }

  const GENERATE_ERROR_PREFIX: string := "Failed to generate image: "
  const EDIT_ERROR_PREFIX: string := "Failed to edit image: "
  const DESCRIBE_ERROR_PREFIX: string := "Failed to describe image: "

  /** The catch block of each tool: one text item, flagged as an error. */
  function ErrorResult(prefix: string, f: ToolFailure): (r: ToolResult)
    ensures r.isError && |r.content| == 1 && r.content[0].TextItem?
    ensures prefix <= r.content[0].text && r.content[0].text[|prefix|..] == FailureMessage(f)
  {
    ToolResult(true, [TextItem(prefix + FailureMessage(f))])
  }

  // ---- Argument schemas ----

  /** An optional enumerated value: absent, or one of the listed strings. */
  predicate InEnum(value: Option<string>, allowed: seq<string>)
  {
    value.None? || value.value in allowed
  }

  /** `generateImageSchema.parse` once zod has parsed the arguments and the file path. */
  datatype GenerateArgs = GenerateArgs(options: GenerateImageOptions, outputPath: Option<string>)

  /**
   * `generateImageSchema.parse`: `prompt` is required, enumerated values must
   * be listed, and `aspectRatio`, `imageSize` and `useGoogleSearch` default to
   * "1:1", "1K" and false.
   */
  function ParseGenerateArgs(a: ToolArguments): (r: Result<GenerateArgs, ToolFailure>)
    ensures r.Success? <==>
      && a.prompt.Some?
      && InEnum(a.aspectRatio, ASPECT_RATIOS) && InEnum(a.imageSize, IMAGE_SIZES)
      && InEnum(a.personGeneration, PERSON_GENERATIONS)
      && (a.thinkingConfig.Some? ==> InEnum(a.thinkingConfig.value.thinkingLevel, THINKING_LEVELS))
    ensures r.Failure? ==> r.error.SchemaRejected?
    ensures r.Success? ==>
      var o := r.value.options;
      && o.prompt == a.prompt.value
      && o.aspectRatio.Some? && o.aspectRatio.value == (if a.aspectRatio.Some? then a.aspectRatio.value else "1:1")
      && o.imageSize.Some? && o.imageSize.value == (if a.imageSize.Some? then a.imageSize.value else "1K")
      && o.useGoogleSearch == Some(a.useGoogleSearch.Some? && a.useGoogleSearch.value)
      && o.model == a.model && o.images == a.images
      && (o.personGeneration.Some? <==> a.personGeneration.Some?)
      && (o.personGeneration.Some? ==> o.personGeneration.value == a.personGeneration.value)
      && (o.thinkingConfig.Some? <==> a.thinkingConfig.Some?)
      && (o.thinkingConfig.Some? ==>
            && o.thinkingConfig.value.includeThoughts == a.thinkingConfig.value.includeThoughts
            && (o.thinkingConfig.value.thinkingLevel.Some? <==> a.thinkingConfig.value.thinkingLevel.Some?)
            && (o.thinkingConfig.value.thinkingLevel.Some? ==>
                  o.thinkingConfig.value.thinkingLevel.value == a.thinkingConfig.value.thinkingLevel.value))
      && r.value.outputPath == a.outputPath
  {
    if a.prompt.None? then Failure(SchemaRejected("prompt"))
    else if !InEnum(a.aspectRatio, ASPECT_RATIOS) then Failure(SchemaRejected("aspectRatio"))
    else if !InEnum(a.imageSize, IMAGE_SIZES) then Failure(SchemaRejected("imageSize"))
    else if !InEnum(a.personGeneration, PERSON_GENERATIONS) then Failure(SchemaRejected("personGeneration"))
    else if a.thinkingConfig.Some? && !InEnum(a.thinkingConfig.value.thinkingLevel, THINKING_LEVELS)
    then Failure(SchemaRejected("thinkingConfig"))
    else
      var aspectRatio: AspectRatio := if a.aspectRatio.Some? then a.aspectRatio.value else "1:1";
      var imageSize: ImageSize := if a.imageSize.Some? then a.imageSize.value else "1K";
      var personGeneration: Option<PersonGeneration> :=
        if a.personGeneration.Some? then Some(a.personGeneration.value) else None;
      var thinkingConfig: Option<ThinkingConfig> :=
        if a.thinkingConfig.None? then None
        else
          var level: Option<ThinkingLevel> :=
            if a.thinkingConfig.value.thinkingLevel.Some? then Some(a.thinkingConfig.value.thinkingLevel.value) else None;
          Some(ThinkingConfig(level, a.thinkingConfig.value.includeThoughts));
      var useGoogleSearch := if a.useGoogleSearch.Some? then a.useGoogleSearch.value else false;
      Success(GenerateArgs(
        GenerateImageOptions(a.prompt.value, Some(aspectRatio), Some(imageSize), a.model, a.images,
                             personGeneration, Some(useGoogleSearch), thinkingConfig),
        a.outputPath))
  }

  /** The arguments object that parsed arguments stand for, defaults written out. */
  function GenerateArgumentsOf(g: GenerateArgs): ToolArguments
  {
    var o := g.options;
    var thinkingConfig: Option<RawThinkingConfig> :=
      if o.thinkingConfig.Some?
      then Some(RawThinkingConfig(o.thinkingConfig.value.thinkingLevel, o.thinkingConfig.value.includeThoughts))
      else None;
    ToolArguments(Some(o.prompt), o.aspectRatio, o.imageSize, o.model, o.images, g.outputPath,
                  o.personGeneration, o.useGoogleSearch, thinkingConfig)
  }

  /** Parsing is idempotent: parsing the parsed arguments again, defaults included, gives the same options. */
  lemma ParseGenerateIdempotent(a: ToolArguments)
    requires ParseGenerateArgs(a).Success?
    ensures ParseGenerateArgs(GenerateArgumentsOf(ParseGenerateArgs(a).value)) == ParseGenerateArgs(a)
  {
  }

  datatype EditArgs = EditArgs(
    prompt: string,
    images: seq<ImageInput>,
    model: Option<string>,
    outputPath: Option<string>,
    personGeneration: Option<PersonGeneration>)

  /** `editImageSchema.parse`: `prompt` and at least one image are required. */
  function ParseEditArgs(a: ToolArguments): (r: Result<EditArgs, ToolFailure>)
    ensures r.Success? <==>
      a.prompt.Some? && a.images.Some? && |a.images.value| >= 1 && InEnum(a.personGeneration, PERSON_GENERATIONS)
    ensures r.Failure? ==> r.error.SchemaRejected?
    ensures r.Success? ==>
      && r.value.prompt == a.prompt.value && r.value.images == a.images.value && |r.value.images| >= 1
      && r.value.model == a.model && r.value.outputPath == a.outputPath
      && (r.value.personGeneration.Some? <==> a.personGeneration.Some?)
      && (r.value.personGeneration.Some? ==> r.value.personGeneration.value == a.personGeneration.value)
  {
    if a.prompt.None? then Failure(SchemaRejected("prompt"))
    else if a.images.None? || |a.images.value| < 1 then Failure(SchemaRejected("images"))
    else if !InEnum(a.personGeneration, PERSON_GENERATIONS) then Failure(SchemaRejected("personGeneration"))
    else
      var personGeneration: Option<PersonGeneration> :=
        if a.personGeneration.Some? then Some(a.personGeneration.value) else None;
      Success(EditArgs(a.prompt.value, a.images.value, a.model, a.outputPath, personGeneration))
  }

  /** `edit_image` hands the generator only the prompt, the images, the model and the person policy. */
  function EditOptions(e: EditArgs): (o: GenerateImageOptions)
    ensures o.prompt == e.prompt && o.images == Some(e.images) && o.model == e.model
    ensures o.personGeneration == e.personGeneration
    ensures o.aspectRatio.None? && o.imageSize.None? && o.useGoogleSearch.None? && o.thinkingConfig.None?
  {
    GenerateImageOptions(e.prompt, None, None, e.model, Some(e.images), e.personGeneration, None, None)
  }

  datatype DescribeArgs = DescribeArgs(images: seq<ImageInput>, prompt: Option<string>, model: Option<string>)

  /** `describeImageSchema.parse`: at least one image is required. */
  function ParseDescribeArgs(a: ToolArguments): (r: Result<DescribeArgs, ToolFailure>)
    ensures r.Success? <==> a.images.Some? && |a.images.value| >= 1
    ensures r.Failure? ==> r.error == SchemaRejected("images")
    ensures r.Success? ==> r.value == DescribeArgs(a.images.value, a.prompt, a.model)
  {
    if a.images.None? || |a.images.value| < 1 then Failure(SchemaRejected("images"))
    else Success(DescribeArgs(a.images.value, a.prompt, a.model))
  }

  /** `describe_image` hands the describer the images, the prompt and the model. */
  function DescribeOptions(d: DescribeArgs): (o: DescribeImageOptions)
    ensures o.images == Some(d.images) && o.prompt == d.prompt && o.model == d.model
  {
    DescribeImageOptions(Some(d.images), d.prompt, d.model)
  }

  // ---- Content lists ----

  /** The path the image was written to, when a non-empty output path was given. */
  function SavedPath(outputPath: Option<string>, resolvePath: string -> string): (r: Option<string>)
    ensures r.Some? <==> outputPath.Some? && outputPath.value != ""
    ensures r.Some? ==> r.value == resolvePath(outputPath.value)
  {
    if outputPath.Some? && outputPath.value != "" then Some(resolvePath(outputPath.value)) else None
  }

  /** "Image saved to: <path>", when a file was written. */
  function SavedLine(savedPath: Option<string>): seq<ContentItem>
  {
    if savedPath.Some? && savedPath.value != "" then [TextItem("Image saved to: " + savedPath.value)] else []
  }

  /** The model's caption, when it gave a non-empty one. */
  function DescriptionLine(img: GeneratedImage): seq<ContentItem>
  {
    if img.description.Some? && img.description.value != "" then [TextItem(img.description.value)] else []
  }

  /** "[Thinking] <thoughts>", when there are thoughts. */
  function ThinkingLine(img: GeneratedImage): seq<ContentItem>
  {
    if img.thoughts.Some? && img.thoughts.value != "" then [TextItem("[Thinking] " + img.thoughts.value)] else []
  }

  /** "[Search queries] <q1, q2, ...>", when the search ran queries. */
  function SearchLine(img: GeneratedImage): seq<ContentItem>
  {
    if img.searchQueries.Some? && |img.searchQueries.value| > 0
    then [TextItem("[Search queries] " + Join(img.searchQueries.value, ", "))]
    else []
  }

  /** The content of a successful `generate_image` call. */
  function GenerateContent(img: GeneratedImage, savedPath: Option<string>): (c: seq<ContentItem>)
    ensures 1 <= |c| <= 5
    ensures c[0] == ImageItem(img.base64Data, img.mimeType)
    ensures forall k :: 1 <= k < |c| ==> c[k].TextItem?
    ensures |c| == 1 <==>
      && (savedPath.None? || savedPath.value == "")
      && (img.description.None? || img.description.value == "")
      && (img.thoughts.None? || img.thoughts.value == "")
      && (img.searchQueries.None? || |img.searchQueries.value| == 0)
  {
    [ImageItem(img.base64Data, img.mimeType)]
    + SavedLine(savedPath)
    + DescriptionLine(img)
    + ThinkingLine(img)
    + SearchLine(img)
  }

  /**
   * The content of a successful `edit_image` call: the generate layout with
   * the thinking and search-query lines never shown.
   */
  function EditContent(img: GeneratedImage, savedPath: Option<string>): (c: seq<ContentItem>)
    ensures c == GenerateContent(img.(thoughts := None, searchQueries := None), savedPath)
    ensures 1 <= |c| <= 3
    ensures c[0] == ImageItem(img.base64Data, img.mimeType)
    ensures forall k :: 1 <= k < |c| ==> c[k].TextItem?
    ensures |c| == 1 <==> (savedPath.None? || savedPath.value == "") && (img.description.None? || img.description.value == "")
  {
    [ImageItem(img.base64Data, img.mimeType)]
    + SavedLine(savedPath)
    + DescriptionLine(img)
  }

  /** What the CallTool handler returns for `call`, given the reply its one request would get. */
  function ToolResultFor(call: ToolCall, reply: HttpReply, resolvePath: string -> string): (r: ToolResult)
    ensures |r.content| >= 1
    ensures r.isError ==> |r.content| == 1 && r.content[0].TextItem?
    ensures !r.isError ==> call.name in {"generate_image", "edit_image", "describe_image"}
    ensures call.name in {"generate_image", "edit_image"} && !r.isError ==> r.content[0].ImageItem?
  {
    if call.name == "generate_image" then
      match ParseGenerateArgs(call.arguments)
      case Failure(f) => ErrorResult(GENERATE_ERROR_PREFIX, f)
      case Success(args) =>
        match GenerateOutcome(args.options, reply)
        case Failure(e) => ErrorResult(GENERATE_ERROR_PREFIX, ClientFailed(e))
        case Success(img) => ToolResult(false, GenerateContent(img, SavedPath(args.outputPath, resolvePath)))
    else if call.name == "edit_image" then
      match ParseEditArgs(call.arguments)
      case Failure(f) => ErrorResult(EDIT_ERROR_PREFIX, f)
      case Success(args) =>
        match GenerateOutcome(EditOptions(args), reply)
        case Failure(e) => ErrorResult(EDIT_ERROR_PREFIX, ClientFailed(e))
        case Success(img) => ToolResult(false, EditContent(img, SavedPath(args.outputPath, resolvePath)))
    else if call.name == "describe_image" then
      match ParseDescribeArgs(call.arguments)
      case Failure(f) => ErrorResult(DESCRIBE_ERROR_PREFIX, f)
      case Success(args) =>
        match DescribeOutcome(DescribeOptions(args), reply)
        case Failure(e) => ErrorResult(DESCRIBE_ERROR_PREFIX, ClientFailed(e))
        case Success(d) => ToolResult(false, [TextItem(d)])
    else ToolResult(true, [TextItem("Unknown tool: " + call.name)])
  }

  /**
   * The CallTool handler: parse, call the client, save the file, lay out the
   * content; any throw becomes an error result. `sent` is the request the
   * client hands to `fetch`, `None` when the call fails before that.
   */
  method CallTool(client: GeminiImageClient, call: ToolCall, reply: HttpReply, resolvePath: string -> string)
    returns (sent: Option<HttpRequest>, result: ToolResult)
    ensures result == ToolResultFor(call, reply, resolvePath)
    ensures call.name == "generate_image" ==>
      match ParseGenerateArgs(call.arguments)
      case Failure(_) => sent.None?
      case Success(args) =>
        && (sent.Some? <==> IsAllowedModel(ResolveModel(args.options.model)))
        && (sent.Some? ==> IsGenerateRequest(sent.value, client.apiKey, args.options))
    ensures call.name == "edit_image" ==>
      match ParseEditArgs(call.arguments)
      case Failure(_) => sent.None?
      case Success(args) =>
        && (sent.Some? <==> IsAllowedModel(ResolveModel(args.model)))
        && (sent.Some? ==> IsGenerateRequest(sent.value, client.apiKey, EditOptions(args)))
    ensures call.name == "describe_image" ==>
      match ParseDescribeArgs(call.arguments)
      case Failure(_) => sent.None?
      case Success(args) =>
        && (sent.Some? <==> IsAllowedModel(ResolveModel(args.model)))
        && (sent.Some? ==> IsDescribeRequest(sent.value, client.apiKey, DescribeOptions(args)))
    ensures call.name !in {"generate_image", "edit_image", "describe_image"} ==> sent.None?
  {
    if call.name == "generate_image" {
      var parsed := ParseGenerateArgs(call.arguments);
      if parsed.Failure? {
        return None, ErrorResult(GENERATE_ERROR_PREFIX, parsed.error);
      }
      var args := parsed.value;
      var request, generated := client.GenerateImage(args.options, reply);
      sent := request;
      if generated.Failure? {
        return sent, ErrorResult(GENERATE_ERROR_PREFIX, ClientFailed(generated.error));
      }
      var savedPath: Option<string> := None;
      if args.outputPath.Some? && args.outputPath.value != "" {
        savedPath := Some(resolvePath(args.outputPath.value));
      }
      return sent, ToolResult(false, GenerateContent(generated.value, savedPath));
    }

    if call.name == "edit_image" {
      var parsed := ParseEditArgs(call.arguments);
      if parsed.Failure? {
        return None, ErrorResult(EDIT_ERROR_PREFIX, parsed.error);
      }
      var args := parsed.value;
      var request, generated := client.GenerateImage(EditOptions(args), reply);
      sent := request;
      if generated.Failure? {
        return sent, ErrorResult(EDIT_ERROR_PREFIX, ClientFailed(generated.error));
      }
      var savedPath: Option<string> := None;
      if args.outputPath.Some? && args.outputPath.value != "" {
        savedPath := Some(resolvePath(args.outputPath.value));
      }
      return sent, ToolResult(false, EditContent(generated.value, savedPath));
    }

    if call.name == "describe_image" {
      var parsed := ParseDescribeArgs(call.arguments);
      if parsed.Failure? {
        return None, ErrorResult(DESCRIBE_ERROR_PREFIX, parsed.error);
      }
      var request, description := client.DescribeImage(DescribeOptions(parsed.value), reply);
      sent := request;
      if description.Failure? {
        return sent, ErrorResult(DESCRIBE_ERROR_PREFIX, ClientFailed(description.error));
      }
      return sent, ToolResult(false, [TextItem(description.value)]);
    }

    sent, result := None, ToolResult(true, [TextItem("Unknown tool: " + call.name)]);
  }

  // ---- Properties of the tool layer ----

  /** The prefix a tool puts in front of its error messages. */
  function ErrorPrefix(name: string): string
  {
    if name == "generate_image" then GENERATE_ERROR_PREFIX
    else if name == "edit_image" then EDIT_ERROR_PREFIX
    else if name == "describe_image" then DESCRIBE_ERROR_PREFIX
    else "Unknown tool: "
  }

  /**
   * Any failure is a single text item that starts with the tool's prefix; a
   * success is never flagged. After the prefix comes the schema's complaint
   * when parsing fails, and otherwise the message of the client's error.
   */
  lemma FailuresAreSingleItems(call: ToolCall, reply: HttpReply, resolvePath: string -> string)
    ensures var r := ToolResultFor(call, reply, resolvePath);
      r.isError ==> |r.content| == 1 && r.content[0].TextItem? && ErrorPrefix(call.name) <= r.content[0].text
    ensures var r := ToolResultFor(call, reply, resolvePath);
      !r.isError ==> call.name in {"generate_image", "edit_image", "describe_image"}
    ensures var r := ToolResultFor(call, reply, resolvePath);
      call.name == "generate_image" ==>
        match ParseGenerateArgs(call.arguments)
        case Failure(f) => r == ErrorResult(GENERATE_ERROR_PREFIX, f)
        case Success(args) =>
          GenerateOutcome(args.options, reply).Failure? ==>
            r.isError && r.content[0].text == GENERATE_ERROR_PREFIX + Message(GenerateOutcome(args.options, reply).error)
    ensures var r := ToolResultFor(call, reply, resolvePath);
      call.name == "edit_image" ==>
        match ParseEditArgs(call.arguments)
        case Failure(f) => r == ErrorResult(EDIT_ERROR_PREFIX, f)
        case Success(args) =>
          GenerateOutcome(EditOptions(args), reply).Failure? ==>
            r.isError && r.content[0].text == EDIT_ERROR_PREFIX + Message(GenerateOutcome(EditOptions(args), reply).error)
    ensures var r := ToolResultFor(call, reply, resolvePath);
      call.name == "describe_image" ==>
        match ParseDescribeArgs(call.arguments)
        case Failure(f) => r == ErrorResult(DESCRIBE_ERROR_PREFIX, f)
        case Success(args) =>
          DescribeOutcome(DescribeOptions(args), reply).Failure? ==>
            r.isError && r.content[0].text == DESCRIBE_ERROR_PREFIX + Message(DescribeOutcome(DescribeOptions(args), reply).error)
  {
  }

  /** An unknown tool name yields exactly "Unknown tool: <name>", flagged as an error. */
  lemma UnknownToolResult(call: ToolCall, reply: HttpReply, resolvePath: string -> string)
    requires call.name !in {"generate_image", "edit_image", "describe_image"}
    ensures ToolResultFor(call, reply, resolvePath) == ToolResult(true, [TextItem("Unknown tool: " + call.name)])
  {
  }

  /** A successful description is one non-empty text item: the description itself. */
  lemma DescribeToolResult(call: ToolCall, reply: HttpReply, resolvePath: string -> string)
    requires call.name == "describe_image"
    ensures var r := ToolResultFor(call, reply, resolvePath);
      !r.isError ==>
        && |r.content| == 1 && r.content[0].TextItem? && r.content[0].text != ""
        && ParseDescribeArgs(call.arguments).Success?
        && DescribeOutcome(DescribeOptions(ParseDescribeArgs(call.arguments).value), reply)
           == Success(r.content[0].text)
  {
  }

  /** `edit_image` and `describe_image` with no images fail without any request, as schema rejections. */
  lemma MissingImagesRejected(call: ToolCall, reply: HttpReply, resolvePath: string -> string)
    requires call.name in {"edit_image", "describe_image"}
    requires call.arguments.images.None? || |call.arguments.images.value| == 0
    ensures call.name == "describe_image" ==>
      ToolResultFor(call, reply, resolvePath) == ErrorResult(DESCRIBE_ERROR_PREFIX, SchemaRejected("images"))
    ensures call.name == "edit_image" ==>
      && ParseEditArgs(call.arguments).Failure?
      && ToolResultFor(call, reply, resolvePath) == ErrorResult(EDIT_ERROR_PREFIX, ParseEditArgs(call.arguments).error)
  {
  }

  /**
   * The content of a generate call, position by position: the image, then
   * each present line in the fixed order saved path, description, thinking,
   * search queries, with nothing else in between.
   */
  lemma GenerateContentLayout(img: GeneratedImage, savedPath: Option<string>)
    ensures var c := GenerateContent(img, savedPath);
      var s := if savedPath.Some? && savedPath.value != "" then 1 else 0;
      var d := if img.description.Some? && img.description.value != "" then 1 else 0;
      var t := if img.thoughts.Some? && img.thoughts.value != "" then 1 else 0;
      var q := if img.searchQueries.Some? && |img.searchQueries.value| > 0 then 1 else 0;
      && |c| == 1 + s + d + t + q
      && c[0] == ImageItem(img.base64Data, img.mimeType)
      && (s == 1 ==> c[1] == TextItem("Image saved to: " + savedPath.value))
      && (d == 1 ==> c[1 + s] == TextItem(img.description.value))
      && (t == 1 ==> c[1 + s + d] == TextItem("[Thinking] " + img.thoughts.value))
      && (q == 1 ==> c[1 + s + d + t] == TextItem("[Search queries] " + Join(img.searchQueries.value, ", ")))
  {
  }

  /** With every optional line present, the content is exactly these five items in this order. */
  lemma GenerateContentComplete(img: GeneratedImage, path: string)
    requires path != ""
    requires img.description.Some? && img.description.value != ""
    requires img.thoughts.Some? && img.thoughts.value != ""
    requires img.searchQueries.Some? && |img.searchQueries.value| > 0
    ensures GenerateContent(img, Some(path)) == [
      ImageItem(img.base64Data, img.mimeType),
      TextItem("Image saved to: " + path),
      TextItem(img.description.value),
      TextItem("[Thinking] " + img.thoughts.value),
      TextItem("[Search queries] " + Join(img.searchQueries.value, ", "))]
  {
  }

  /** Edit output is the first part of generate output: the same image, path and description, never thoughts or queries. */
  lemma EditContentIsPrefix(img: GeneratedImage, savedPath: Option<string>)
    ensures EditContent(img, savedPath) <= GenerateContent(img, savedPath)
    ensures |EditContent(img, savedPath)| <= 3
    ensures img.thoughts.None? && img.searchQueries.None? ==> EditContent(img, savedPath) == GenerateContent(img, savedPath)
    ensures forall k :: 1 <= k < |EditContent(img, savedPath)| ==>
      || (savedPath.Some? && EditContent(img, savedPath)[k] == TextItem("Image saved to: " + savedPath.value))
      || (img.description.Some? && EditContent(img, savedPath)[k] == TextItem(img.description.value))
  {
    var e := EditContent(img, savedPath);
    assert GenerateContent(img, savedPath) == e + ThinkingLine(img) + SearchLine(img);
  }

  /** A successful generate or edit result shows exactly the image the client normalised from the reply. */
  lemma ToolImageIsClientImage(call: ToolCall, reply: HttpReply, resolvePath: string -> string)
    requires call.name in {"generate_image", "edit_image"}
    requires !ToolResultFor(call, reply, resolvePath).isError
    ensures var c := ToolResultFor(call, reply, resolvePath).content;
      && NormaliseGenerate(reply).Success?
      && |c| >= 1
      && c[0] == ImageItem(NormaliseGenerate(reply).value.base64Data, NormaliseGenerate(reply).value.mimeType)
      && (call.name == "edit_image" ==> |c| <= 3)
  {
    var img := NormaliseGenerate(reply).value;
    if call.name == "edit_image" {
      EditContentIsPrefix(img, SavedPath(ParseEditArgs(call.arguments).value.outputPath, resolvePath));
    }
  }

  /** Through `generate_image`, an image-capable model always receives an image configuration, defaults included. */
  lemma ToolDefaultsReachImageConfig(a: ToolArguments)
    requires ParseGenerateArgs(a).Success?
    requires SupportsImageConfig(ResolveModel(ParseGenerateArgs(a).value.options.model))
    ensures var o := ParseGenerateArgs(a).value.options;
      GenerationConfigFor(ResolveModel(o.model), o.aspectRatio, o.imageSize, o.thinkingConfig).imageConfig
      == Some(ImageConfig(o.aspectRatio, o.imageSize, None))
    ensures a.aspectRatio.None? && a.imageSize.None? ==>
      ParseGenerateArgs(a).value.options.aspectRatio == Some("1:1")
      && ParseGenerateArgs(a).value.options.imageSize == Some("1K")
  {
    ImagenIsRedundant(ResolveModel(ParseGenerateArgs(a).value.options.model));
  }

  /** An edit request carries no image configuration, no thinking configuration and no tools. */
  lemma EditRequestIsPlain(req: HttpRequest, apiKey: string, e: EditArgs)
    requires IsGenerateRequest(req, apiKey, EditOptions(e))
    ensures req.body.generationConfig == GenerationConfig(["TEXT", "IMAGE"], None, None)
    ensures req.body.tools.None?
    ensures req.body.contents[0].parts[0] == TextPart(e.prompt) && |req.body.contents[0].parts| == 1 + |e.images|
  {
  }

  // ---- Prompt lookup ----

  datatype PromptArgument = PromptArgument(name: string, description: string, required: bool)

  /** A prompt template's metadata; the messages it builds are not part of this model. */
  datatype PromptDefinition = PromptDefinition(
    name: string,
    title: string,
    description: string,
    arguments: seq<PromptArgument>)

  /** `IMAGE_PROMPTS.find(p => p.name === name)`, as an index: the first definition with that name. */
  function FindPrompt(catalog: seq<PromptDefinition>, name: string): (r: Option<nat>)
    ensures r.None? <==> forall i :: 0 <= i < |catalog| ==> catalog[i].name != name
    ensures r.Some? ==> r.value < |catalog| && catalog[r.value].name == name
    ensures r.Some? ==> forall j :: 0 <= j < r.value ==> catalog[j].name != name
    decreases |catalog|
  {
    if catalog == [] then None
    else if catalog[0].name == name then Some(0)
    else match FindPrompt(catalog[1..], name)
      case None => None
      case Some(i) => Some(i + 1)
  }

  /** The GetPrompt handler: the first definition with that name, or "Unknown prompt: <name>". */
  function GetPrompt(catalog: seq<PromptDefinition>, name: string): (r: Result<PromptDefinition, string>)
    ensures r.Failure? <==> forall i :: 0 <= i < |catalog| ==> catalog[i].name != name
    ensures r.Failure? ==> r.error == "Unknown prompt: " + name
    ensures r.Success? ==> r.value.name == name
    ensures r.Success? ==>
      exists i :: 0 <= i < |catalog| && catalog[i] == r.value && forall j :: 0 <= j < i ==> catalog[j].name != name
  {
    match FindPrompt(catalog, name)
    case None => Failure("Unknown prompt: " + name)
    case Some(i) => Success(catalog[i])
  }
}
