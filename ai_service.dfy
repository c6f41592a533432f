/** The client of the completions endpoint: the three prompts, the response
    handling of the shared request helper, the title truncation, and the
    usage event each call records. The endpoint itself is a function
    parameter from request to response. */
module AiService {
  import opened Wrappers
  import opened Text

  /** The three AI features, as recorded in the `ai_usage` table. */
  datatype Feature = Summarize | Generate | AutoTitle

  /** The `feature` column value of a usage row. */
  function FeatureName(f: Feature): (name: string)
    ensures name in ["summarize", "generate", "autoTitle"]
  {
    match f
    case Summarize => "summarize"
    case Generate => "generate"
    case AutoTitle => "autoTitle"
  }

  /** Distinct features are recorded under distinct names. */
  lemma FeatureNameInjective(a: Feature, b: Feature)
    ensures FeatureName(a) == FeatureName(b) <==> a == b
  {
    assert "summarize"[0] != "autoTitle"[0];
  }

  /** The request body fields that vary: the system and user messages, the
      token limit and the sampling temperature. */
  datatype Request = Request(system: string, user: string, maxTokens: nat, temperature: real)

  /** What the endpoint call came to: a non-success status with its body
      text; an exception raised on the way (network failure, or a body that
      lacks `choices[0].message.content`) with the runtime's message; or the
      completion text. */
  datatype ApiResponse =
    | NotOk(bodyText: string)
    | Thrown(message: string)
    | Completed(content: string)

  /** `callOpenAI` after the request: a non-success status becomes an error
      whose message is "AI API error: " followed by the body text, an
      exception passes its message through, and a completion is returned
      trimmed. */
  function CallCompletion(response: ApiResponse): (r: Result<string, string>)
    ensures response.NotOk? <==> r.Err? && |r.error| >= 14 && r.error[..14] == "AI API error: " && !response.Thrown?
    ensures r.Ok? <==> response.Completed?
    ensures r.Ok? ==> NoOuterSpace(r.value)
    ensures response.Completed? ==> r == Ok(Trim(response.content))
    ensures response.NotOk? ==> r == Err("AI API error: " + response.bodyText)
    ensures response.Thrown? ==> r == Err(response.message)
  {
    match response
    case NotOk(text) => Err("AI API error: " + text)
    case Thrown(message) => Err(message)
    case Completed(content) => Ok(Trim(content))
  }

  /** One AI call: the usage rows it inserts before the request (a failed
      insert is logged and swallowed, so it does not change the result), the
      request it sends, and what it returns or throws. */
  datatype AiCall = AiCall(logged: seq<string>, request: Request, result: Result<string, string>)

  const SummarizeSystem: string := "You are a helpful assistant that summarizes notes."
  const SummarizePrompt: string := "Summarize this note:"
  const GenerateSystem: string :=
    "You are a helpful assistant that expands shorthand or bullet points into a full, clear note. "
    + "Provide comprehensive, well-structured content that fully expands on the given points."
  const GeneratePrompt: string := "Expand this shorthand or bullet points into a full note:"
  const TitleSystem: string :=
    "You are a helpful assistant that generates concise, descriptive titles for notes. "
    + "Keep titles under 50 characters and make them clear and specific."
  const TitlePrompt: string := "Generate a short, descriptive title for this note (max 50 characters):"

  function SummarizeRequest(content: string): Request {
    Request(SummarizeSystem, SummarizePrompt + "\n" + content, 100, 0.7)
  }

  function GenerateRequest(shorthand: string): Request {
    Request(GenerateSystem, GeneratePrompt + "\n" + shorthand, 1000, 0.7)
  }

  function TitleRequest(content: string): Request {
    Request(TitleSystem, TitlePrompt + "\n" + content, 16, 0.3)
  }

  const MaxTitleLength: nat := 50

  /** `title.length > 50 ? title.substring(0, 47) + '...' : title`. */
  function TruncateTitle(title: string): (r: string)
    ensures |r| <= MaxTitleLength
    ensures |title| <= MaxTitleLength ==> r == title
    ensures |title| > MaxTitleLength ==> |r| == MaxTitleLength && r[..47] == title[..47] && r[47..] == "..."
  {
    if |title| > MaxTitleLength then title[..47] + "..." else title
  }

  /** The user message ends with a line holding `text`. */
  predicate CarriesText(req: Request, text: string) {
    |text| < |req.user| && req.user[|req.user| - |text| - 1..] == "\n" + text
  }

  lemma CarriesAfterPrompt(req: Request, prompt: string, text: string)
    requires req.user == prompt + "\n" + text
    ensures CarriesText(req, text)
  {
    assert req.user == prompt + ("\n" + text);
  }

  /** `summarizeNote`: one "summarize" row, the note in the prompt, at most
      100 tokens; a summary exactly when the endpoint completes, trimmed. */
  function SummarizeNote(content: string, complete: Request -> ApiResponse): (c: AiCall)
    ensures c.logged == [FeatureName(Summarize)]
    ensures CarriesText(c.request, content) && c.request.maxTokens == 100
    ensures c.result.Ok? <==> complete(c.request).Completed?
    ensures c.result.Ok? ==> NoOuterSpace(c.result.value)
    ensures c.result == CallCompletion(complete(c.request))
  {
    CarriesAfterPrompt(SummarizeRequest(content), SummarizePrompt, content);
    var req := SummarizeRequest(content);
    AiCall([FeatureName(Summarize)], req, CallCompletion(complete(req)))
  }

  /** `generateNoteFromShorthand`: one "generate" row, the shorthand in the
      prompt, at most 1000 tokens; content exactly when the endpoint
      completes, trimmed. */
  function GenerateNoteFromShorthand(shorthand: string, complete: Request -> ApiResponse): (c: AiCall)
    ensures c.logged == [FeatureName(Generate)]
    ensures CarriesText(c.request, shorthand) && c.request.maxTokens == 1000
    ensures c.result.Ok? <==> complete(c.request).Completed?
    ensures c.result.Ok? ==> NoOuterSpace(c.result.value)
    ensures c.result == CallCompletion(complete(c.request))
  {
    CarriesAfterPrompt(GenerateRequest(shorthand), GeneratePrompt, shorthand);
    var req := GenerateRequest(shorthand);
    AiCall([FeatureName(Generate)], req, CallCompletion(complete(req)))
  }

  /** `autoTitleNote`: one "autoTitle" row, the note in the prompt, at most
      16 tokens; a title exactly when the endpoint completes, errors passed
      through unchanged. */
  function AutoTitleNote(content: string, complete: Request -> ApiResponse): (c: AiCall)
    ensures c.logged == [FeatureName(AutoTitle)]
    ensures CarriesText(c.request, content) && c.request.maxTokens == 16
    ensures c.result.Ok? <==> complete(c.request).Completed?
    ensures c.result.Err? ==> c.result == CallCompletion(complete(c.request))
    ensures c.result.Ok? ==> c.result.value == TruncateTitle(Trim(complete(c.request).content))
  {
    CarriesAfterPrompt(TitleRequest(content), TitlePrompt, content);
    var req := TitleRequest(content);
    var r := CallCompletion(complete(req));
    AiCall([FeatureName(AutoTitle)], req, if r.Ok? then Ok(TruncateTitle(r.value)) else r)
  }

  // ---------------------------------------------------------------------------

  /** Truncation is idempotent. */
  lemma TruncateIdempotent(title: string)
    ensures TruncateTitle(TruncateTitle(title)) == TruncateTitle(title)
  {
  }

  /** A generated title is at most 50 characters long and, since the
      completion is trimmed first, never starts or ends with whitespace; a
      trimmed completion of at most 50 characters is kept as it is, and a
      longer one is cut to its first 47 characters followed by "...". */
  lemma AutoTitleShape(content: string, complete: Request -> ApiResponse)
    ensures var c := AutoTitleNote(content, complete);
      c.result.Ok? ==> |c.result.value| <= MaxTitleLength && NoOuterSpace(c.result.value)
    ensures var resp := complete(TitleRequest(content));
      resp.Completed? && |Trim(resp.content)| <= MaxTitleLength ==>
        AutoTitleNote(content, complete).result == Ok(Trim(resp.content))
    ensures var resp := complete(TitleRequest(content));
      resp.Completed? && |Trim(resp.content)| > MaxTitleLength ==>
        AutoTitleNote(content, complete).result == Ok(Trim(resp.content)[..47] + "...")
  {
    var resp := complete(TitleRequest(content));
    var r := CallCompletion(resp);
    if r.Ok? && |r.value| > MaxTitleLength {
      var t := TruncateTitle(r.value);
      assert t[0] == r.value[0];
      assert t[|t| - 1] == '.';
    }
  }

  /** Every one of the three calls records exactly one usage row, named
      after its feature, whatever the endpoint answers. */
  lemma OneUsageRowPerCall(text: string, complete: Request -> ApiResponse)
    ensures SummarizeNote(text, complete).logged == ["summarize"]
    ensures GenerateNoteFromShorthand(text, complete).logged == ["generate"]
    ensures AutoTitleNote(text, complete).logged == ["autoTitle"]
  {
  }
}
