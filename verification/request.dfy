/**
 * The request builder of GeminiImageClient (src/gemini.ts): model resolution
 * and the allow-list, capability gating of the image configuration, the
 * parts list, the generation configuration and the target URL.
 */
module GeminiRequests {
  import opened Wrappers
  import opened Strings
  import opened GeminiTypes
  import opened GeminiErrors

  const GEMINI_API_BASE: string := "https://generativelanguage.googleapis.com/v1beta/models"

  /** The prompt `describeImage` sends when the caller gives none. */
  const DEFAULT_DESCRIBE_PROMPT: string := "Describe this image in detail. What do you see?"

  /** The POST the client would hand to `fetch`. */
  datatype HttpRequest = HttpRequest(httpMethod: string, url: string, contentType: string, body: GeminiRequest)

  /** `options.model || DEFAULT_MODEL`: a missing or empty model means the default one. */
  function ResolveModel(model: Option<string>): (m: string)
    ensures m != ""
    ensures model.Some? && model.value != "" ==> m == model.value
    ensures model.None? || model.value == "" ==> m == DEFAULT_MODEL
  {
    if model.Some? && model.value != "" then model.value else DEFAULT_MODEL
  }

  predicate IsAllowedModel(m: string)
  {
    m in ALLOWED_MODELS
  }

  /** Leaving the model out never trips the allow-list. */
  lemma DefaultModelIsAllowed(model: Option<string>)
    requires model.None? || model.value == ""
    ensures IsAllowedModel(ResolveModel(model))
  {
  }

  /** The capability test as written: the model name mentions "image" or "imagen". */
  predicate SupportsImageConfig(model: string)
  {
    Contains(model, "image") || Contains(model, "imagen")
  }

  /** The "imagen" alternative adds nothing: every name containing "imagen" contains "image". */
  lemma ImagenIsRedundant(model: string)
    ensures SupportsImageConfig(model) <==> Contains(model, "image")
  {
    if Contains(model, "imagen") {
      assert "imagen" == "image" + "n";
      ContainsPrefixOf(model, "image", "n");
    }
  }

  /** The two "-image-" models accept image shaping; the two older ones silently drop it. */
  lemma AllowedModelCapabilities()
    ensures SupportsImageConfig(ALLOWED_MODELS[0]) && SupportsImageConfig(ALLOWED_MODELS[1])
    ensures !SupportsImageConfig(ALLOWED_MODELS[2]) && !SupportsImageConfig(ALLOWED_MODELS[3])
  {
    assert OccursAt(ALLOWED_MODELS[0], "image", 17);
    assert OccursAt(ALLOWED_MODELS[1], "image", 13);
    ImagenIsRedundant(ALLOWED_MODELS[2]);
    ImagenIsRedundant(ALLOWED_MODELS[3]);
    NoImageWithoutIm(ALLOWED_MODELS[2]);
    NoImageWithoutIm(ALLOWED_MODELS[3]);
  }

  /** A name in which no 'i' is directly followed by 'm' cannot contain "image". */
  lemma NoImageWithoutIm(s: string)
    requires forall k :: 0 <= k < |s| - 1 ==> !(s[k] == 'i' && s[k + 1] == 'm')
    ensures !Contains(s, "image")
  {
    forall i: nat | i <= |s|
      ensures !OccursAt(s, "image", i)
    {
      if OccursAt(s, "image", i) {
        OccurrenceStartsWithIm(s, i);
        assert false;
      }
    }
  }

  lemma OccurrenceStartsWithIm(s: string, i: nat)
    requires OccursAt(s, "image", i)
    ensures i < |s| - 1 && s[i] == 'i' && s[i + 1] == 'm'
  {
    assert s[i..i + 5][0] == s[i] && s[i..i + 5][1] == s[i + 1];
  }

  /** Characters that cannot end the path segment of a URL or start its query. */
  predicate IsUrlSafeId(m: string)
  {
    forall c :: c in m ==> ('a' <= c <= 'z') || ('0' <= c <= '9') || c == '-' || c == '.'
  }

  /** Every allowed id is made of lower-case letters, digits, '-' and '.', so interpolating it into the URL path is safe. */
  lemma AllowedModelsAreUrlSafe(m: string)
    requires IsAllowedModel(m)
    ensures IsUrlSafeId(m)
  {
  }

  /** `${GEMINI_API_BASE}/${model}:generateContent?key=${apiKey}`. */
  function RequestUrl(model: string, apiKey: string): (url: string)
    ensures GEMINI_API_BASE + "/" + model + ":" <= url
    ensures |url| >= |apiKey| && url[|url| - |apiKey|..] == apiKey
  {
    GEMINI_API_BASE + "/" + model + ":generateContent?key=" + apiKey
  }

  /** For URL-safe model ids the URL names its model and key unambiguously: distinct pairs give distinct URLs. */
  lemma RequestUrlInjective(m1: string, k1: string, m2: string, k2: string)
    requires IsUrlSafeId(m1) && IsUrlSafeId(m2)
    requires RequestUrl(m1, k1) == RequestUrl(m2, k2)
    ensures m1 == m2 && k1 == k2
  {
    var p := GEMINI_API_BASE + "/";
    var s := ":generateContent?key=";
    var u := RequestUrl(m1, k1);
    assert u == p + m1 + s + k1;
    assert u == p + m2 + s + k2;
    // The ':' after the shorter id would fall inside the longer one, which has none.
    if |m1| < |m2| {
      CharAfterPrefix(p, m1, s, k1);
      CharAfterPrefix(p, m2, s, k2);
      assert false;
    } else if |m2| < |m1| {
      CharAfterPrefix(p, m2, s, k2);
      CharAfterPrefix(p, m1, s, k1);
      assert false;
    }
    assert m1 == u[|p|..|p| + |m1|] == m2;
    assert k1 == u[|p| + |m1| + |s|..] == k2;
  }

  /** In `p + m + s + k`, position `|p| + j` holds `m[j]` for `j < |m|`, and `s[0]` at `j == |m|`. */
  lemma CharAfterPrefix(p: string, m: string, s: string, k: string)
    requires s != []
    ensures (p + m + s + k)[|p| + |m|] == s[0]
    ensures forall j :: 0 <= j < |m| ==> (p + m + s + k)[|p| + j] == m[j] && m[j] in m
  {
  }

  /** The predicate fixes the generate request completely: method, URL, parts, configuration and tools. */
  lemma GenerateRequestDetermined(r1: HttpRequest, r2: HttpRequest, apiKey: string, options: GenerateImageOptions)
    requires IsGenerateRequest(r1, apiKey, options) && IsGenerateRequest(r2, apiKey, options)
    ensures r1 == r2
  {
    var images := if options.images.Some? then options.images.value else [];
    RequestPartsDetermined(r1.body.contents[0].parts, r2.body.contents[0].parts, options.prompt, images);
    assert r1.body.contents == [r1.body.contents[0]] == r2.body.contents;
  }

  /** The predicate fixes the describe request completely. */
  lemma DescribeRequestDetermined(r1: HttpRequest, r2: HttpRequest, apiKey: string, options: DescribeImageOptions)
    requires IsDescribeRequest(r1, apiKey, options) && IsDescribeRequest(r2, apiKey, options)
    ensures r1 == r2
  {
    var images := if options.images.Some? then options.images.value else [];
    RequestPartsDetermined(r1.body.contents[0].parts, r2.body.contents[0].parts, DescribePrompt(options.prompt), images);
    assert r1.body.contents == [r1.body.contents[0]] == r2.body.contents;
  }

  /** The parts list is the prompt text followed by one inline part per image, in input order. */
  predicate IsRequestParts(parts: seq<RequestPart>, prompt: string, images: seq<ImageInput>)
  {
    && |parts| == 1 + |images|
    && parts[0] == TextPart(prompt)
    && forall i :: 0 <= i < |images| ==> parts[1 + i] == InlineDataPart(InlineData(images[i].mimeType, images[i].data))
  }

  /** The prompt and the images fix the parts list completely. */
  lemma RequestPartsDetermined(p1: seq<RequestPart>, p2: seq<RequestPart>, prompt: string, images: seq<ImageInput>)
    requires IsRequestParts(p1, prompt, images) && IsRequestParts(p2, prompt, images)
    ensures p1 == p2
  {
    forall k | 0 <= k < |p1|
      ensures p1[k] == p2[k]
    {
      if k > 0 {
        var j := k - 1;
        assert p1[1 + j] == InlineDataPart(InlineData(images[j].mimeType, images[j].data)) == p2[1 + j];
      }
    }
  }

  /**
   * The `generationConfig` of a generate request: both modalities, the
   * image configuration only for an image-capable model given a ratio or a
   * size (each sub-key only when given, never `personGeneration`), and the
   * thinking configuration verbatim when supplied.
   */
  function GenerationConfigFor(
    model: string,
    aspectRatio: Option<AspectRatio>,
    imageSize: Option<ImageSize>,
    thinkingConfig: Option<ThinkingConfig>): (g: GenerationConfig)
    ensures g.responseModalities == ["TEXT", "IMAGE"]
    ensures g.imageConfig.Some? <==> Contains(model, "image") && (aspectRatio.Some? || imageSize.Some?)
    ensures g.imageConfig.Some? ==> g.imageConfig.value == ImageConfig(aspectRatio, imageSize, None)
    ensures g.thinkingConfig == thinkingConfig
  {
    ImagenIsRedundant(model);
    var imageConfig :=
      if SupportsImageConfig(model) && (aspectRatio.Some? || imageSize.Some?)
      then Some(ImageConfig(aspectRatio, imageSize, None))
      else None;
    GenerationConfig(["TEXT", "IMAGE"], imageConfig, thinkingConfig)
  }

  /** The request `generateImage` sends for `options` once `model` has passed the allow-list. */
  predicate IsGenerateRequest(req: HttpRequest, apiKey: string, options: GenerateImageOptions)
  {
    var model := ResolveModel(options.model);
    var images := if options.images.Some? then options.images.value else [];
    && req.httpMethod == "POST"
    && req.contentType == "application/json"
    && req.url == RequestUrl(model, apiKey)
    && |req.body.contents| == 1
    && IsRequestParts(req.body.contents[0].parts, options.prompt, images)
    && req.body.generationConfig
       == GenerationConfigFor(model, options.aspectRatio, options.imageSize, options.thinkingConfig)
    && (req.body.tools.Some? <==> options.useGoogleSearch == Some(true))
    && (req.body.tools.Some? ==> req.body.tools.value == [GoogleSearch])
  }

  /** `prompt || defaultPrompt`. */
  function DescribePrompt(prompt: Option<string>): (p: string)
    ensures p != ""
    ensures prompt.Some? && prompt.value != "" ==> p == prompt.value
    ensures prompt.None? || prompt.value == "" ==> p == DEFAULT_DESCRIBE_PROMPT
  {
    if prompt.Some? && prompt.value != "" then prompt.value else DEFAULT_DESCRIBE_PROMPT
  }

  /** The request `describeImage` sends: text-only output, no image shaping, no tools, no reasoning. */
  predicate IsDescribeRequest(req: HttpRequest, apiKey: string, options: DescribeImageOptions)
  {
    var images := if options.images.Some? then options.images.value else [];
    && req.httpMethod == "POST"
    && req.contentType == "application/json"
    && req.url == RequestUrl(ResolveModel(options.model), apiKey)
    && |req.body.contents| == 1
    && IsRequestParts(req.body.contents[0].parts, DescribePrompt(options.prompt), images)
    && req.body.generationConfig == GenerationConfig(["TEXT"], None, None)
    && req.body.tools.None?
  }
}
