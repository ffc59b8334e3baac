/**
 * The response normaliser of GeminiImageClient (src/gemini.ts), as
 * specification functions: failure precedence, the role each part plays
 * in the scan, and what `generateImage` and `describeImage` make of a reply.
 * The loops that compute the same values are in module Gemini.
 */
module GeminiResponses {
  import opened Wrappers
  import opened Strings
  import opened GeminiTypes
  import opened GeminiErrors

  /** What `fetch` gives back: `ok`, `status`, `text()` (read on failure) and `json()` (read on success). */
  datatype HttpReply = HttpReply(ok: bool, status: nat, text: string, json: GeminiResponse)

  /**
   * The first candidate, or the first failure in the fixed order: HTTP
   * failure, then an API error object, then a missing or empty candidate
   * list (reported as `whenEmpty`, which differs between the operations).
   */
  function FirstCandidate(reply: HttpReply, whenEmpty: ClientError): (r: Result<Candidate, ClientError>)
    ensures r.Success? <==>
      reply.ok && reply.json.error.None? && reply.json.candidates.Some? && |reply.json.candidates.value| > 0
    ensures r.Success? ==> r.value == reply.json.candidates.value[0]
    ensures !reply.ok ==> r == Failure(HttpFailure(reply.status, reply.text))
    ensures r.Failure? ==> r.error.HttpFailure? || r.error.ApiFailure? || r.error == whenEmpty
  {
    if !reply.ok then Failure(HttpFailure(reply.status, reply.text))
    else if reply.json.error.Some? then Failure(ApiFailure(reply.json.error.value.message))
    else if reply.json.candidates.None? || |reply.json.candidates.value| == 0 then Failure(whenEmpty)
    else Success(reply.json.candidates.value[0])
  }

  /** The role a part plays in the generate scan. */
  datatype PartRole = ImageRole(image: InlineData) | CaptionRole(caption: string) | ThoughtRole(thought: string) | Skipped

  /** Inline data wins over text; empty text is skipped; the thought flag splits captions from thoughts. */
  function RoleOf(p: ResponsePart): (r: PartRole)
    ensures r.ImageRole? <==> p.inlineData.Some?
    ensures r.ImageRole? ==> r.image == p.inlineData.value
    ensures r.Skipped? <==> p.inlineData.None? && (p.text.None? || p.text.value == "")
    ensures r.ThoughtRole? ==> p.thought == Some(true) && r.thought == p.text.value && r.thought != ""
    ensures r.CaptionRole? ==> p.thought != Some(true) && r.caption == p.text.value && r.caption != ""
  {
    if p.inlineData.Some? then ImageRole(p.inlineData.value)
    else if p.text.Some? && p.text.value != "" then
      (if p.thought == Some(true) then ThoughtRole(p.text.value) else CaptionRole(p.text.value))
    else Skipped
  }

  /** The image of the last inline-data part. */
  function LastImage(parts: seq<ResponsePart>): Option<InlineData>
    decreases |parts|
  {
    if parts == [] then None
    else match RoleOf(parts[|parts| - 1])
      case ImageRole(d) => Some(d)
      case _ => LastImage(parts[..|parts| - 1])
  }

  /** The text of the last caption part. */
  function LastCaption(parts: seq<ResponsePart>): Option<string>
    decreases |parts|
  {
    if parts == [] then None
    else match RoleOf(parts[|parts| - 1])
      case CaptionRole(t) => Some(t)
      case _ => LastCaption(parts[..|parts| - 1])
  }

  /** The texts of the thought parts, in response order. */
  function ThoughtTexts(parts: seq<ResponsePart>): seq<string>
    decreases |parts|
  {
    if parts == [] then []
    else ThoughtTexts(parts[..|parts| - 1]) + match RoleOf(parts[|parts| - 1])
      case ThoughtRole(t) => [t]
      case _ => []
  }

  /** The accumulated thoughts: absent when there are none, else joined with newlines. */
  function Thoughts(parts: seq<ResponsePart>): Option<string>
  {
    var ts := ThoughtTexts(parts);
    if ts == [] then None else Some(Join(ts, "\n"))
  }

  /** `groundingMetadata.webSearchQueries`, kept only when it is a non-empty list. */
  function SearchQueries(c: Candidate): (r: Option<seq<string>>)
    ensures r.Some? ==> c.groundingMetadata.Some? && r == c.groundingMetadata.value.webSearchQueries && |r.value| > 0
    ensures r.None? <==>
      c.groundingMetadata.None? || c.groundingMetadata.value.webSearchQueries.None?
      || |c.groundingMetadata.value.webSearchQueries.value| == 0
  {
    if c.groundingMetadata.Some? && c.groundingMetadata.value.webSearchQueries.Some?
       && |c.groundingMetadata.value.webSearchQueries.value| > 0
    then c.groundingMetadata.value.webSearchQueries
    else None
  }

  /** What `generateImage` makes of a reply once the request has been sent. */
  function NormaliseGenerate(reply: HttpReply): (r: Result<GeneratedImage, ClientError>)
    ensures r.Success? ==> WellFormedImage(r.value)
    ensures r.Failure? ==>
      r.error.HttpFailure? || r.error.ApiFailure? || r.error == EmptyGeneration || r.error == NoImageData
  {
    match FirstCandidate(reply, EmptyGeneration)
    case Failure(e) => Failure(e)
    case Success(c) =>
      var parts := c.content.parts;
      match LastImage(parts)
      case None => Failure(NoImageData)
      case Some(d) =>
        LastCaptionWins(parts);
        ThoughtsPresence(parts);
        Success(GeneratedImage(d.mimeType, d.data, LastCaption(parts), Thoughts(parts), SearchQueries(c)))
  }

  /** The text a part contributes to a description: its text, whatever its other keys. */
  function TextOf(p: ResponsePart): string
  {
    if p.text.Some? then p.text.value else ""
  }

  /** Every part's text, in order, with no separator. */
  function DescriptionText(parts: seq<ResponsePart>): string
    decreases |parts|
  {
    if parts == [] then "" else DescriptionText(parts[..|parts| - 1]) + TextOf(parts[|parts| - 1])
  }

  /** What `describeImage` makes of a reply once the request has been sent. */
  function NormaliseDescribe(reply: HttpReply): (r: Result<string, ClientError>)
    ensures r.Success? ==>
      && r.value != "" && reply.json.candidates.Some? && |reply.json.candidates.value| > 0
      && r.value == DescriptionText(reply.json.candidates.value[0].content.parts)
    ensures r.Failure? ==>
      r.error.HttpFailure? || r.error.ApiFailure? || r.error == NoResponse || r.error == NoDescription
  {
    match FirstCandidate(reply, NoResponse)
    case Failure(e) => Failure(e)
    case Success(c) =>
      var d := DescriptionText(c.content.parts);
      if d == "" then Failure(NoDescription) else Success(d)
  }

  // ---- The scan: which part supplies each field ----

  /** One step of the left-to-right scan: how each field changes when part `parts[i]` is read. */
  lemma ScanStep(parts: seq<ResponsePart>, i: nat)
    requires i < |parts|
    ensures LastImage(parts[..i + 1])
      == if RoleOf(parts[i]).ImageRole? then Some(RoleOf(parts[i]).image) else LastImage(parts[..i])
    ensures LastCaption(parts[..i + 1])
      == if RoleOf(parts[i]).CaptionRole? then Some(RoleOf(parts[i]).caption) else LastCaption(parts[..i])
    ensures Thoughts(parts[..i + 1])
      == if !RoleOf(parts[i]).ThoughtRole? then Thoughts(parts[..i])
         else if Thoughts(parts[..i]).None? then Some(RoleOf(parts[i]).thought)
         else Some(Thoughts(parts[..i]).value + "\n" + RoleOf(parts[i]).thought)
    ensures DescriptionText(parts[..i + 1]) == DescriptionText(parts[..i]) + TextOf(parts[i])
  {
    var prefix := parts[..i + 1];
    assert prefix[..i] == parts[..i] && prefix[i] == parts[i];
    var ts := ThoughtTexts(parts[..i]);
    if RoleOf(parts[i]).ThoughtRole? {
      var t := RoleOf(parts[i]).thought;
      assert ThoughtTexts(prefix) == ts + [t];
      if ts == [] {
        assert ts + [t] == [t];
      } else {
        assert (ts + [t])[..|ts|] == ts;
      }
    } else {
      assert ThoughtTexts(prefix) == ts + [] == ts;
    }
  }


  /** The image comes from an inline-data part with no inline-data part after it; absent only if there is none. */
  lemma {:induction false} LastImageWins(parts: seq<ResponsePart>)
    ensures LastImage(parts).None? <==> forall i :: 0 <= i < |parts| ==> !RoleOf(parts[i]).ImageRole?
    ensures LastImage(parts).Some? ==>
      exists i :: 0 <= i < |parts| && RoleOf(parts[i]) == ImageRole(LastImage(parts).value)
        && forall j :: i < j < |parts| ==> !RoleOf(parts[j]).ImageRole?
    decreases |parts|
  {
    if parts != [] {
      var n := |parts| - 1;
      var init := parts[..n];
      LastImageWins(init);
      assert forall i :: 0 <= i < n ==> init[i] == parts[i];
      if !RoleOf(parts[n]).ImageRole? && LastImage(init).Some? {
        var i :| 0 <= i < n && RoleOf(init[i]) == ImageRole(LastImage(init).value)
          && forall j :: i < j < n ==> !RoleOf(init[j]).ImageRole?;
        assert RoleOf(parts[i]) == ImageRole(LastImage(parts).value);
      }
    }
  }

  /** The description comes from a caption part with no caption part after it; absent only if there is none. */
  lemma {:induction false} LastCaptionWins(parts: seq<ResponsePart>)
    ensures LastCaption(parts).None? <==> forall i :: 0 <= i < |parts| ==> !RoleOf(parts[i]).CaptionRole?
    ensures LastCaption(parts).Some? ==>
      exists i :: 0 <= i < |parts| && RoleOf(parts[i]) == CaptionRole(LastCaption(parts).value)
        && forall j :: i < j < |parts| ==> !RoleOf(parts[j]).CaptionRole?
    decreases |parts|
  {
    if parts != [] {
      var n := |parts| - 1;
      var init := parts[..n];
      LastCaptionWins(init);
      assert forall i :: 0 <= i < n ==> init[i] == parts[i];
      if !RoleOf(parts[n]).CaptionRole? && LastCaption(init).Some? {
        var i :| 0 <= i < n && RoleOf(init[i]) == CaptionRole(LastCaption(init).value)
          && forall j :: i < j < n ==> !RoleOf(init[j]).CaptionRole?;
        assert RoleOf(parts[i]) == CaptionRole(LastCaption(parts).value);
      }
    }
  }

  /** Later parts override earlier ones: the image and the caption of `a + b` are `b`'s when it has one. */
  lemma {:induction false} ScanSplitsOverride(a: seq<ResponsePart>, b: seq<ResponsePart>)
    ensures LastImage(a + b) == if LastImage(b).Some? then LastImage(b) else LastImage(a)
    ensures LastCaption(a + b) == if LastCaption(b).Some? then LastCaption(b) else LastCaption(a)
    decreases |b|
  {
    if b == [] {
      assert a + b == a;
    } else {
      var n := |b| - 1;
      assert (a + b)[..|a + b| - 1] == a + b[..n];
      assert (a + b)[|a + b| - 1] == b[n];
      ScanSplitsOverride(a, b[..n]);
    }
  }

  /** Thoughts accumulate in order: the thought texts of `a + b` are `a`'s followed by `b`'s. */
  lemma {:induction false} ScanSplitsThoughts(a: seq<ResponsePart>, b: seq<ResponsePart>)
    ensures ThoughtTexts(a + b) == ThoughtTexts(a) + ThoughtTexts(b)
    decreases |b|
  {
    if b == [] {
      assert a + b == a;
    } else {
      var n := |b| - 1;
      assert (a + b)[..|a + b| - 1] == a + b[..n];
      assert (a + b)[|a + b| - 1] == b[n];
      ScanSplitsThoughts(a, b[..n]);
    }
  }

  /** Description text accumulates in order: that of `a + b` is `a`'s followed by `b`'s. */
  lemma {:induction false} ScanSplitsDescription(a: seq<ResponsePart>, b: seq<ResponsePart>)
    ensures DescriptionText(a + b) == DescriptionText(a) + DescriptionText(b)
    decreases |b|
  {
    if b == [] {
      assert a + b == a;
    } else {
      var n := |b| - 1;
      assert (a + b)[..|a + b| - 1] == a + b[..n];
      assert (a + b)[|a + b| - 1] == b[n];
      ScanSplitsDescription(a, b[..n]);
    }
  }

  /** Thoughts are present exactly when some part is a thought, and are then never empty. */
  lemma {:induction false} ThoughtsPresence(parts: seq<ResponsePart>)
    ensures Thoughts(parts).Some? <==> exists i :: 0 <= i < |parts| && RoleOf(parts[i]).ThoughtRole?
    ensures Thoughts(parts).Some? ==> Thoughts(parts).value != ""
  {
    ThoughtTextsNonEmpty(parts);
    JoinEmptyIff(ThoughtTexts(parts), "\n");
  }

  /** The thought texts are the non-empty texts of the thought parts; there is one for each such part. */
  lemma {:induction false} ThoughtTextsNonEmpty(parts: seq<ResponsePart>)
    ensures forall k :: 0 <= k < |ThoughtTexts(parts)| ==> ThoughtTexts(parts)[k] != ""
    ensures ThoughtTexts(parts) != [] <==> exists i :: 0 <= i < |parts| && RoleOf(parts[i]).ThoughtRole?
    decreases |parts|
  {
    if parts != [] {
      var n := |parts| - 1;
      ThoughtTextsNonEmpty(parts[..n]);
      assert forall i :: 0 <= i < n ==> parts[..n][i] == parts[i];
    }
  }

  /** A description is empty exactly when no part carries non-empty text. */
  lemma {:induction false} DescriptionEmptyIff(parts: seq<ResponsePart>)
    ensures DescriptionText(parts) == "" <==> forall i :: 0 <= i < |parts| ==> TextOf(parts[i]) == ""
    decreases |parts|
  {
    if parts != [] {
      var n := |parts| - 1;
      DescriptionEmptyIff(parts[..n]);
      assert forall i :: 0 <= i < n ==> parts[..n][i] == parts[i];
    }
  }

  // ---- Failure precedence ----

  /** Each failure of the generate path happens exactly under its condition, checked in the fixed order. */
  lemma GenerateFailurePrecedence(reply: HttpReply)
    ensures !reply.ok <==> NormaliseGenerate(reply) == Failure(HttpFailure(reply.status, reply.text))
    ensures reply.ok && reply.json.error.Some? <==> NormaliseGenerate(reply).Failure? && NormaliseGenerate(reply).error.ApiFailure?
    ensures reply.ok && reply.json.error.Some? ==> NormaliseGenerate(reply) == Failure(ApiFailure(reply.json.error.value.message))
    ensures NormaliseGenerate(reply) == Failure(EmptyGeneration)
      <==> reply.ok && reply.json.error.None?
           && (reply.json.candidates.None? || |reply.json.candidates.value| == 0)
    ensures NormaliseGenerate(reply) == Failure(NoImageData)
      <==> reply.ok && reply.json.error.None? && reply.json.candidates.Some?
           && |reply.json.candidates.value| > 0
           && LastImage(reply.json.candidates.value[0].content.parts).None?
  {
  }

  /** The describe path has the same order; an empty candidate list is reported as NoResponse. */
  lemma DescribeFailurePrecedence(reply: HttpReply)
    ensures !reply.ok <==> NormaliseDescribe(reply) == Failure(HttpFailure(reply.status, reply.text))
    ensures reply.ok && reply.json.error.Some? <==> NormaliseDescribe(reply).Failure? && NormaliseDescribe(reply).error.ApiFailure?
    ensures reply.ok && reply.json.error.Some? ==> NormaliseDescribe(reply) == Failure(ApiFailure(reply.json.error.value.message))
    ensures NormaliseDescribe(reply) == Failure(NoResponse)
      <==> reply.ok && reply.json.error.None?
           && (reply.json.candidates.None? || |reply.json.candidates.value| == 0)
    ensures NormaliseDescribe(reply) == Failure(NoDescription)
      <==> reply.ok && reply.json.error.None? && reply.json.candidates.Some?
           && |reply.json.candidates.value| > 0
           && DescriptionText(reply.json.candidates.value[0].content.parts) == ""
  {
  }

  // ---- What a successful result looks like, and that every such result occurs ----

  /** Optional fields of a generated image that are present are never empty. */
  predicate WellFormedImage(img: GeneratedImage)
  {
    && (img.description.Some? ==> img.description.value != "")
    && (img.thoughts.Some? ==> img.thoughts.value != "")
    && (img.searchQueries.Some? ==> |img.searchQueries.value| > 0)
  }

  /** Every generated image is well formed, and its payload is the last inline-data part of the first candidate. */
  lemma {:induction false} GeneratedImageWellFormed(reply: HttpReply)
    requires NormaliseGenerate(reply).Success?
    ensures WellFormedImage(NormaliseGenerate(reply).value)
    ensures var parts := reply.json.candidates.value[0].content.parts;
      exists i :: 0 <= i < |parts| && parts[i].inlineData
        == Some(InlineData(NormaliseGenerate(reply).value.mimeType, NormaliseGenerate(reply).value.base64Data))
        && forall j :: i < j < |parts| ==> parts[j].inlineData.None?
  {
    var parts := reply.json.candidates.value[0].content.parts;
    LastCaptionWins(parts);
    ThoughtsPresence(parts);
    LastImageWins(parts);
  }

  /** A reply that carries `img` in the canonical part layout: thoughts, caption, image. */
  function ReplyFor(img: GeneratedImage): HttpReply
  {
    var thoughtParts := if img.thoughts.Some? then [ResponsePart(img.thoughts, Some(true), None)] else [];
    var captionParts := if img.description.Some? then [ResponsePart(img.description, None, None)] else [];
    var imagePart := ResponsePart(None, None, Some(InlineData(img.mimeType, img.base64Data)));
    var grounding := if img.searchQueries.Some? then Some(GroundingMetadata(img.searchQueries)) else None;
    var candidate := Candidate(CandidateContent(thoughtParts + captionParts + [imagePart]), grounding);
    HttpReply(true, 200, "", GeminiResponse(Some([candidate]), None))
  }

  /** Every well-formed image is what the normaliser returns for some reply: nothing is lost. */
  lemma {:induction false} GenerateRoundTrip(img: GeneratedImage)
    requires WellFormedImage(img)
    ensures NormaliseGenerate(ReplyFor(img)) == Success(img)
  {
    var thoughtParts := if img.thoughts.Some? then [ResponsePart(img.thoughts, Some(true), None)] else [];
    var captionParts := if img.description.Some? then [ResponsePart(img.description, None, None)] else [];
    var imagePart := ResponsePart(None, None, Some(InlineData(img.mimeType, img.base64Data)));
    var parts := thoughtParts + captionParts + [imagePart];
    assert parts[..|parts| - 1] == thoughtParts + captionParts;
    ScanSplitsOverride(thoughtParts, captionParts);
    ScanSplitsThoughts(thoughtParts, captionParts);
    assert thoughtParts[..0] == [] && captionParts[..0] == [];
    assert ThoughtTexts(parts) == if img.thoughts.Some? then [img.thoughts.value] else [];
  }

  /** Every non-empty string is the description of some reply. */
  lemma DescribeRoundTrip(d: string)
    requires d != ""
    ensures NormaliseDescribe(HttpReply(true, 200, "", GeminiResponse(
      Some([Candidate(CandidateContent([ResponsePart(Some(d), None, None)]), None)]), None))) == Success(d)
  {
    var parts := [ResponsePart(Some(d), None, None)];
    assert parts[..0] == [];
    assert DescriptionText(parts) == d;
  }

  // ---- Worked examples ----

  /** Thought "T", caption "D" and PNG payload "P" normalise to exactly those four fields. */
  lemma ThoughtCaptionImageExample()
    ensures NormaliseGenerate(HttpReply(true, 200, "", GeminiResponse(Some([Candidate(CandidateContent([
      ResponsePart(Some("T"), Some(true), None),
      ResponsePart(Some("D"), None, None),
      ResponsePart(None, None, Some(InlineData("image/png", "P")))]), None)]), None)))
      == Success(GeneratedImage("image/png", "P", Some("D"), Some("T"), None))
  {
    var parts := [
      ResponsePart(Some("T"), Some(true), None),
      ResponsePart(Some("D"), None, None),
      ResponsePart(None, None, Some(InlineData("image/png", "P")))];
    assert parts[..2][..1] == parts[..1] && parts[..1][..0] == [];
    assert LastImage(parts) == Some(InlineData("image/png", "P"));
    assert LastCaption(parts[..2]) == Some("D");
    assert ThoughtTexts(parts[..1]) == ["T"];
    assert ThoughtTexts(parts) == ["T"];
  }

  /** With inline parts "A" then "B", the payload is "B". */
  lemma LastInlinePartWinsExample()
    ensures var reply := HttpReply(true, 200, "", GeminiResponse(Some([Candidate(CandidateContent([
      ResponsePart(None, None, Some(InlineData("image/png", "A"))),
      ResponsePart(None, None, Some(InlineData("image/png", "B")))]), None)]), None));
      NormaliseGenerate(reply).Success? && NormaliseGenerate(reply).value.base64Data == "B"
  {
  }
}
