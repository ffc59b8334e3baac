/**
 * The records exchanged with the Gemini API and with callers of the client
 * (src/types.ts), and the enumerations the tool schemas accept (src/index.ts).
 * A TypeScript union of string literals becomes a subset type of `string`
 * over the constant list that enumerates it.
 */
module GeminiTypes {
  import opened Wrappers

  /** The fourteen aspect ratios, in the order the tool schema lists them. */
  const ASPECT_RATIOS: seq<string> :=
    ["1:1", "3:2", "2:3", "3:4", "4:3", "4:5", "5:4", "9:16", "16:9", "21:9", "4:1", "1:4", "8:1", "1:8"]

  /** The four resolution tiers. */
  const IMAGE_SIZES: seq<string> := ["512px", "1K", "2K", "4K"]

  /** The three person-generation policies. */
  const PERSON_GENERATIONS: seq<string> := ["ALLOW_ALL", "ALLOW_ADULT", "ALLOW_NONE"]

  /** The four reasoning depths. */
  const THINKING_LEVELS: seq<string> := ["MINIMAL", "LOW", "MEDIUM", "HIGH"]

  type AspectRatio = s: string | s in ASPECT_RATIOS witness "1:1"
  type ImageSize = s: string | s in IMAGE_SIZES witness "1K"
  type PersonGeneration = s: string | s in PERSON_GENERATIONS witness "ALLOW_ALL"
  type ThinkingLevel = s: string | s in THINKING_LEVELS witness "MINIMAL"

  /** Each enumeration has the stated number of distinct members, none of them empty. */
  lemma EnumerationsAreDistinct()
    ensures |ASPECT_RATIOS| == 14 && |IMAGE_SIZES| == 4
    ensures |PERSON_GENERATIONS| == 3 && |THINKING_LEVELS| == 4
    ensures forall i, j :: 0 <= i < j < |ASPECT_RATIOS| ==> ASPECT_RATIOS[i] != ASPECT_RATIOS[j]
    ensures forall i, j :: 0 <= i < j < |IMAGE_SIZES| ==> IMAGE_SIZES[i] != IMAGE_SIZES[j]
    ensures forall s :: s in ASPECT_RATIOS + IMAGE_SIZES + PERSON_GENERATIONS + THINKING_LEVELS ==> s != ""
  {
  }

  /** A caller-supplied image: base64 payload and its MIME type. */
  datatype ImageInput = ImageInput(data: string, mimeType: string)

  /** The `inlineData` object of a request or response part. */
  datatype InlineData = InlineData(mimeType: string, data: string)

  /** The reasoning configuration, passed through to the API unchanged. */
  datatype ThinkingConfig = ThinkingConfig(thinkingLevel: Option<ThinkingLevel>, includeThoughts: Option<bool>)

  /** `generationConfig.imageConfig`; an absent key is `None`. */
  datatype ImageConfig = ImageConfig(
    aspectRatio: Option<AspectRatio>,
    imageSize: Option<ImageSize>,
    personGeneration: Option<PersonGeneration>)

  /** One element of `contents[0].parts` in a request. */
  datatype RequestPart = TextPart(text: string) | InlineDataPart(inlineData: InlineData)

  datatype Content = Content(parts: seq<RequestPart>)

  /** The only tool the client ever sends: `{ google_search: {} }`. */
  datatype Tool = GoogleSearch

  datatype GenerationConfig = GenerationConfig(
    responseModalities: seq<string>,
    imageConfig: Option<ImageConfig>,
    thinkingConfig: Option<ThinkingConfig>)

  /** The JSON request body; `tools: None` means the key is absent. */
  datatype GeminiRequest = GeminiRequest(
    contents: seq<Content>,
    generationConfig: GenerationConfig,
    tools: Option<seq<Tool>>)

  /** One response part: any of text, thought flag and inline data may be present. */
  datatype ResponsePart = ResponsePart(text: Option<string>, thought: Option<bool>, inlineData: Option<InlineData>)

  datatype CandidateContent = CandidateContent(parts: seq<ResponsePart>)

  datatype GroundingMetadata = GroundingMetadata(webSearchQueries: Option<seq<string>>)

  datatype Candidate = Candidate(content: CandidateContent, groundingMetadata: Option<GroundingMetadata>)

  /** The `error` object the API may return in a successful HTTP reply. */
  datatype ApiError = ApiError(code: int, message: string, status: string)

  /** The parsed JSON body of a reply. */
  datatype GeminiResponse = GeminiResponse(candidates: Option<seq<Candidate>>, error: Option<ApiError>)

  datatype GenerateImageOptions = GenerateImageOptions(
    prompt: string,
    aspectRatio: Option<AspectRatio>,
    imageSize: Option<ImageSize>,
    model: Option<string>,
    images: Option<seq<ImageInput>>,
    personGeneration: Option<PersonGeneration>,
    useGoogleSearch: Option<bool>,
    thinkingConfig: Option<ThinkingConfig>)

  /** What `generateImage` returns; `None` fields are absent or undefined keys. */
  datatype GeneratedImage = GeneratedImage(
    mimeType: string,
    base64Data: string,
    description: Option<string>,
    thoughts: Option<string>,
    searchQueries: Option<seq<string>>)

  datatype DescribeImageOptions = DescribeImageOptions(
    images: Option<seq<ImageInput>>,
    prompt: Option<string>,
    model: Option<string>)
}
