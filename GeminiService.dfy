/** The frame-analysis service (services/geminiService.ts): it strips the
    data-URL prefix off a captured frame, sends the frame and a fixed
    instruction to the model, and turns the reply or any failure into the
    text or the single error message the player shows. The remote client is
    a function from request to reply, supplied by the caller. */
module GeminiService {
  import opened Types
  import opened Strings

  const ModelId: string := "gemini-2.5-flash"
  const FrameMimeType: string := "image/png"
  const Instruction: string := "Analyze this video frame. Describe the visual content, lighting, and potential context briefly (under 50 words). Treat this as technical metadata analysis."
  const NoAnalysisText: string := "No analysis available."
  const FailureMessage: string := "Failed to analyze frame. Please check API key or quota."

  /** The one request the service makes: the model, an inline image and the
      instruction text. */
  datatype Request = Request(model: string, mimeType: string, data: string, prompt: string)

  /** What the remote client does with a request: it answers with a response
      whose text may be missing, or it throws. */
  datatype Reply = Responded(text: Option<string>) | Threw

  /** `base64Image.split(',')[1] || base64Image`. */
  function Payload(image: string): (p: string)
    ensures image != [] ==> p != []
    ensures p == image || ',' !in p
  {
    OrElse(Field(image, ',', 1), image)
  }

  /** An input without a comma is sent unchanged. */
  lemma PayloadWithoutComma(image: string)
    requires ',' !in image
    ensures Payload(image) == image
  {
    NoSecondField(image, ',');
  }

  /** With a comma, what is sent is the segment between the first comma and
      the next (or the end); an empty segment falls back to the whole
      input. A data URL "header,body" with no comma in `body` sends `body`. */
  lemma PayloadIsSecondSegment(header: string, body: string, rest: string)
    requires ',' !in header && ',' !in body
    requires rest == [] || rest[0] == ','
    ensures var image := header + "," + body + rest;
            Payload(image) == if body == [] then image else body
  {
    SecondField(header, body, rest, ',');
  }

  lemma PngDataUrl(body: string)
    requires ',' !in body && body != []
    ensures Payload("data:image/png;base64," + body) == body
  {
    PayloadIsSecondSegment("data:image/png;base64", body, []);
    assert "data:image/png;base64," + body == "data:image/png;base64" + "," + body + [];
  }

  /** The request sent for a captured frame. */
  function RequestFor(image: string): (r: Request)
    ensures r.model == ModelId && r.mimeType == FrameMimeType && r.prompt == Instruction
    ensures r.data == Payload(image)
  {
    Request(ModelId, FrameMimeType, Payload(image), Instruction)
  }

  /** `analyzeFrame`. `apiKey` is the environment's API key (empty when it
      is not set) and `client` the remote model. A missing key throws
      before the client is consulted; every failure surfaces as the one
      message `FailureMessage`; a missing or empty reply text becomes
      `NoAnalysisText`. */
  function AnalyzeFrame(image: string, apiKey: string, client: Request -> Reply): (r: Result<string>)
    ensures apiKey == [] ==> r == Err(FailureMessage)
    ensures r.Err? ==> r.message == FailureMessage
    ensures apiKey != [] ==>
              match client(RequestFor(image))
              case Threw => r == Err(FailureMessage)
              case Responded(text) =>
                r.Ok? && (text.Some? && text.value != [] ==> r.value == text.value)
                      && (text.None? || text.value == [] ==> r.value == NoAnalysisText)
    ensures r.Ok? ==> r.value != []
  {
    if apiKey == [] then Err(FailureMessage)
    else
      match client(RequestFor(image))
      case Threw => Err(FailureMessage)
      case Responded(text) => Ok(OrElse(text, NoAnalysisText))
  }
}
