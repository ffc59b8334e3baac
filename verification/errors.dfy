/** The errors the client throws, and the exact message each one carries (src/gemini.ts). */
module GeminiErrors {
  import opened Strings

  /** The four model ids the client accepts; the first is the default. */
  const ALLOWED_MODELS: seq<string> := [
    "gemini-3.1-flash-image-preview",
    "gemini-3-pro-image-preview",
    "gemini-2.5-flash-preview-05-20",
    "gemini-2.0-flash-exp"
  ]

  const DEFAULT_MODEL: string := "gemini-3.1-flash-image-preview"

  datatype ClientError =
    | MissingApiKey
    | InvalidModel(model: string)
    | NoImages
    | HttpFailure(status: nat, body: string)
    | ApiFailure(message: string)
    | EmptyGeneration
    | NoResponse
    | NoImageData
    | NoDescription

  /** The `message` of the `Error` the client throws for `e`. */
  function Message(e: ClientError): (r: string)
    ensures r != ""
    ensures e.InvalidModel? ==> "Invalid model: " + e.model <= r
    ensures e.HttpFailure? || e.ApiFailure? ==> "Gemini API error" <= r
  {
    match e
    case MissingApiKey => "GEMINI_API_KEY is required"
    case InvalidModel(m) => "Invalid model: " + m + ". Allowed: " + Join(ALLOWED_MODELS, ", ")
    case NoImages => "At least one image is required"
    case HttpFailure(status, body) => "Gemini API error (" + DecimalString(status) + "): " + body
    case ApiFailure(message) => "Gemini API error: " + message
    case EmptyGeneration => "No image generated - empty response from Gemini"
    case NoResponse => "No response from Gemini"
    case NoImageData => "No image data in Gemini response"
    case NoDescription => "No description in Gemini response"
  }

  /** The rejection message lists the four ids, comma-separated, in allow-list order. */
  lemma InvalidModelMessage(m: string)
    ensures Message(InvalidModel(m)) ==
      "Invalid model: " + m + ". Allowed: " + ALLOWED_MODELS[0] + ", " + ALLOWED_MODELS[1] + ", "
      + ALLOWED_MODELS[2] + ", " + ALLOWED_MODELS[3]
  {
    JoinFour(ALLOWED_MODELS, ", ");
  }

  /** A transport failure reports the status in decimal before the raw body; status 401 is written "401". */
  lemma UnauthorizedMessage(body: string)
    ensures Message(HttpFailure(401, body)) == "Gemini API error (" + "401" + "): " + body
  {
    assert DigitChar(4) == '4' && DigitChar(0) == '0' && DigitChar(1) == '1';
    assert DecimalString(40) == ['4', '0'];
    assert DecimalString(401) == ['4', '0', '1'] == "401";
  }
}
