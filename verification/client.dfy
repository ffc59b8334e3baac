/**
 * GeminiImageClient (src/gemini.ts): the key is fixed at construction; each
 * operation checks the model, builds the request, and normalises the reply.
 * The reply of the single `fetch` is a parameter; the request that would be
 * sent is returned, `None` when the operation fails before sending.
 */
module Gemini {
  import opened Wrappers
  import opened GeminiTypes
  import opened GeminiErrors
  import opened GeminiRequests
  import opened GeminiResponses

  /** What `generateImage` returns or throws. */
  function GenerateOutcome(options: GenerateImageOptions, reply: HttpReply): (r: Result<GeneratedImage, ClientError>)
    ensures r == Failure(InvalidModel(ResolveModel(options.model))) <==> !IsAllowedModel(ResolveModel(options.model))
    ensures IsAllowedModel(ResolveModel(options.model)) ==> r == NormaliseGenerate(reply)
    ensures r.Success? ==> WellFormedImage(r.value)
  {
    var model := ResolveModel(options.model);
    if !IsAllowedModel(model) then Failure(InvalidModel(model)) else NormaliseGenerate(reply)
  }

  /** What `describeImage` returns or throws: the model is checked before the images. */
  function DescribeOutcome(options: DescribeImageOptions, reply: HttpReply): (r: Result<string, ClientError>)
    ensures r == Failure(InvalidModel(ResolveModel(options.model))) <==> !IsAllowedModel(ResolveModel(options.model))
    ensures r == Failure(NoImages) <==>
      IsAllowedModel(ResolveModel(options.model)) && (options.images.None? || |options.images.value| == 0)
    ensures IsAllowedModel(ResolveModel(options.model)) && options.images.Some? && |options.images.value| > 0 ==>
      r == NormaliseDescribe(reply)
    ensures r.Success? ==> r.value != ""
  {
    var model := ResolveModel(options.model);
    if !IsAllowedModel(model) then Failure(InvalidModel(model))
    else if options.images.None? || |options.images.value| == 0 then Failure(NoImages)
    else NormaliseDescribe(reply)
  }

  class GeminiImageClient {
    /** The API key; a `const`, so no operation can change it. */
    const apiKey: string

    constructor (apiKey: string)
      requires apiKey != ""
      ensures this.apiKey == apiKey
    {
      this.apiKey := apiKey;
    }

    /** `generateImage`: model check, request build, one round trip, part scan. */
    method GenerateImage(options: GenerateImageOptions, reply: HttpReply)
      returns (sent: Option<HttpRequest>, r: Result<GeneratedImage, ClientError>)
      ensures sent.Some? <==> IsAllowedModel(ResolveModel(options.model))
      ensures sent.Some? ==> IsGenerateRequest(sent.value, apiKey, options)
      ensures r == GenerateOutcome(options, reply)
    {
      var model := ResolveModel(options.model);
      if !IsAllowedModel(model) {
        return None, Failure(InvalidModel(model));
      }
      var images := if options.images.Some? then options.images.value else [];
      var requestParts := CollectRequestParts(options.prompt, images);
      var config := GenerationConfigFor(model, options.aspectRatio, options.imageSize, options.thinkingConfig);
      var requestBody := GeminiRequest([Content(requestParts)], config, None);
      if options.useGoogleSearch == Some(true) {
        requestBody := requestBody.(tools := Some([GoogleSearch]));
      }
      sent := Some(HttpRequest("POST", RequestUrl(model, apiKey), "application/json", requestBody));

      var first := FirstCandidate(reply, EmptyGeneration);
      if first.Failure? {
        return sent, Failure(first.error);
      }
      var candidate := first.value;
      var imageData, description, thoughts := ScanGenerateParts(candidate.content.parts);
      if imageData.None? {
        return sent, Failure(NoImageData);
      }
      r := Success(GeneratedImage(imageData.value.mimeType, imageData.value.data, description, thoughts,
                                  SearchQueries(candidate)));
    }

    /** `describeImage`: model check, image check, request build, one round trip, text concatenation. */
    method DescribeImage(options: DescribeImageOptions, reply: HttpReply)
      returns (sent: Option<HttpRequest>, r: Result<string, ClientError>)
      ensures sent.Some? <==>
        IsAllowedModel(ResolveModel(options.model)) && options.images.Some? && |options.images.value| > 0
      ensures sent.Some? ==> IsDescribeRequest(sent.value, apiKey, options)
      ensures r == DescribeOutcome(options, reply)
    {
      var model := ResolveModel(options.model);
      if !IsAllowedModel(model) {
        return None, Failure(InvalidModel(model));
      }
      if options.images.None? || |options.images.value| == 0 {
        return None, Failure(NoImages);
      }
      var requestParts := CollectRequestParts(DescribePrompt(options.prompt), options.images.value);
      var requestBody := GeminiRequest([Content(requestParts)], GenerationConfig(["TEXT"], None, None), None);
      sent := Some(HttpRequest("POST", RequestUrl(model, apiKey), "application/json", requestBody));

      var first := FirstCandidate(reply, NoResponse);
      if first.Failure? {
        return sent, Failure(first.error);
      }
      var description := ConcatenateTexts(first.value.content.parts);
      if description == "" {
        return sent, Failure(NoDescription);
      }
      r := Success(description);
    }
  }

  /** `new GeminiImageClient(apiKey)`: an empty key throws; otherwise the client keeps the key. */
  method CreateClient(apiKey: string) returns (r: Result<GeminiImageClient, ClientError>)
    ensures r.Failure? <==> apiKey == ""
    ensures r.Failure? ==> r.error == MissingApiKey
    ensures r.Success? ==> fresh(r.value) && r.value.apiKey == apiKey
  {
    if apiKey == "" {
      return Failure(MissingApiKey);
    }
    var client := new GeminiImageClient(apiKey);
    r := Success(client);
  }

  /** Grows the parts list: the prompt first, then one inline part per image. */
  method CollectRequestParts(prompt: string, images: seq<ImageInput>) returns (parts: seq<RequestPart>)
    ensures IsRequestParts(parts, prompt, images)
  {
    parts := [TextPart(prompt)];
    for i := 0 to |images|
      invariant IsRequestParts(parts, prompt, images[..i])
    {
      parts := parts + [InlineDataPart(InlineData(images[i].mimeType, images[i].data))];
    }
    assert images[..|images|] == images;
  }

  /** The generate scan: the last image, the last caption, and the newline-joined thoughts. */
  method ScanGenerateParts(parts: seq<ResponsePart>)
    returns (imageData: Option<InlineData>, description: Option<string>, thoughts: Option<string>)
    ensures imageData == LastImage(parts)
    ensures description == LastCaption(parts)
    ensures thoughts == Thoughts(parts)
  {
    imageData, description, thoughts := None, None, None;
    for i := 0 to |parts|
      invariant imageData == LastImage(parts[..i])
      invariant description == LastCaption(parts[..i])
      invariant thoughts == Thoughts(parts[..i])
      invariant thoughts.Some? ==> thoughts.value != ""
    {
      var part := parts[i];
      ScanStep(parts, i);
      if part.inlineData.Some? {
        imageData := Some(part.inlineData.value);
      } else if part.text.Some? && part.text.value != "" {
        if part.thought == Some(true) {
          var previous := if thoughts.Some? && thoughts.value != "" then thoughts.value + "\n" else "";
          assert thoughts.None? ==> previous + part.text.value == part.text.value;
          thoughts := Some(previous + part.text.value);
        } else {
          description := Some(part.text.value);
        }
      }
    }
    assert parts[..|parts|] == parts;
  }

  /** The describe scan: every non-empty text, concatenated in order. */
  method ConcatenateTexts(parts: seq<ResponsePart>) returns (description: string)
    ensures description == DescriptionText(parts)
  {
    description := "";
    for i := 0 to |parts|
      invariant description == DescriptionText(parts[..i])
    {
      var part := parts[i];
      ScanStep(parts, i);
      if part.text.Some? && part.text.value != "" {
        description := description + part.text.value;
      }
    }
    assert parts[..|parts|] == parts;
  }

  /** A rejected model fails generation before any request exists, whatever the other options and the reply. */
  lemma GenerateInvalidModelFailsFirst(g: GenerateImageOptions, reply: HttpReply)
    requires !IsAllowedModel(ResolveModel(g.model))
    ensures GenerateOutcome(g, reply) == Failure(InvalidModel(ResolveModel(g.model)))
  {
  }

  /** A rejected model fails description before the image check, whatever the images and the reply. */
  lemma DescribeInvalidModelFailsFirst(d: DescribeImageOptions, reply: HttpReply)
    requires !IsAllowedModel(ResolveModel(d.model))
    ensures DescribeOutcome(d, reply) == Failure(InvalidModel(ResolveModel(d.model)))
  {
  }
}
