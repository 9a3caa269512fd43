/**
 * The prompt-suggestion handler (`api/generate-prompts.js`): it validates a
 * POST with product images, asks the model once for prompt suggestions as a
 * JSON array, and answers with that array after checking that it is a
 * non-empty array.
 */
module GeneratePrompts {
  import opened Wrappers
  import opened Js
  import opened Http
  import opened Parts

  /** The text part when several images are sent: combine all the products. */
  const CombinedProductsText := "ここに写っているすべての商品を組み合わせた、魅力的なシーンのプロンプトを4つ提案してください。"
  /** The text part for a single image: analyse this product. */
  const SingleProductText := "この商品を分析して、プロンプトを4つ提案してください。"

  const InvalidResponseFormat := "Invalid response format from AI"
  const NoValidSuggestions := "AI did not return valid suggestions"
  const RateLimitExceeded := "Rate limit exceeded. Please try again later."
  const ApiKeyError := "API key error"
  const ApiKeyErrorDetails := "Please check that GEMINI_API_KEY is correctly set in Vercel environment variables"
  const FailedToGenerate := "Failed to generate prompts"
  const UnknownError := "Unknown error occurred"

  /** `files.length > 1 ? combined : single`: the combining text is chosen
      exactly when more than one file is sent. */
  function TextPrompt(fileCount: nat): (text: string)
    ensures text == CombinedProductsText <==> fileCount > 1
    ensures text == SingleProductText <==> fileCount <= 1
  {
    assert |CombinedProductsText| != |SingleProductText|;
    if fileCount > 1 then CombinedProductsText else SingleProductText
  }

  /** The checks on the parsed model output: a parse failure and anything but
      a non-empty array are 500s; a non-empty array is sent back unchanged,
      whatever its length and the types of its elements. */
  function ReplyResponse(parsed: ParseOutcome): (r: Response)
    ensures parsed.ParseFailure? ==> r == Response(500, ErrorBody(InvalidResponseFormat, None))
    ensures r.status == 200 <==> parsed.Parsed? && parsed.value.Arr? && |parsed.value.elems| > 0
    ensures r.status == 200 ==> r.body == SuggestionsBody(parsed.value)
    ensures parsed.Parsed? && r.status != 200 ==> r == Response(500, ErrorBody(NoValidSuggestions, None))
  {
    match parsed
    case ParseFailure => Response(500, ErrorBody(InvalidResponseFormat, None))
    case Parsed(suggestions) =>
      if !suggestions.Arr? || |suggestions.elems| == 0 then Response(500, ErrorBody(NoValidSuggestions, None))
      else Response(200, SuggestionsBody(suggestions))
  }

  /** The catch block, testing the message in order: "429" first, then "API
      key", then a generic failure carrying the message or a fixed default. */
  function CatchResponse(message: Option<string>): (r: Response)
    ensures r.status == 429 <==> message.Some? && Contains(message.value, "429")
    ensures r.status == 429 ==> r.body == ErrorBody(RateLimitExceeded, None)
    ensures r.status != 429 ==> r.status == 500 && r.body.ErrorBody? && r.body.details.Some? && r.body.details.value != ""
    ensures r.body == ErrorBody(ApiKeyError, Some(ApiKeyErrorDetails)) <==>
      message.Some? && !Contains(message.value, "429") && Contains(message.value, "API key")
    ensures (message.None? || (!Contains(message.value, "429") && !Contains(message.value, "API key"))) ==>
      r.body.error == FailedToGenerate &&
      r.body.details == Some(if message.Some? && message.value != "" then message.value else UnknownError)
  {
    assert |ApiKeyError| != |FailedToGenerate|;
    if message.Some? && Contains(message.value, "429") then
      Response(429, ErrorBody(RateLimitExceeded, None))
    else if message.Some? && Contains(message.value, "API key") then
      Response(500, ErrorBody(ApiKeyError, Some(ApiKeyErrorDetails)))
    else
      Response(500, ErrorBody(FailedToGenerate,
        Some(if message.Some? && message.value != "" then message.value else UnknownError)))
  }

  /** The checks inside the `try` block all pass: the body can be read, the
      files form a non-empty array, and the API key is set. */
  predicate Admitted(body: JsValue, apiKey: Option<string>) {
    !Nullish(body) && !FilesRejected(Prop(body, "files")) && !ApiKeyMissing(apiKey)
  }

  /** The parts the handler sends: the text chosen by the number of files, then the files. */
  function SuggestionParts(body: JsValue): Result<seq<Part>, string>
    requires !Nullish(body) && !FilesRejected(Prop(body, "files"))
  {
    var files := Prop(body, "files").elems;
    AssembleParts(TextPrompt(|files|), files)
  }

  /** The code of the `try` block. `JSON.stringify(req.body).length` throws for
      an undefined body; destructuring throws for a null one. */
  function TryBlock(body: JsValue, apiKey: Option<string>,
                    generate: seq<Part> -> ModelOutcome, jsonParse: string -> ParseOutcome): Attempt
  {
    if body.Undefined? then Attempt(Threw(Some(ReadError(body, "length"))), None)
    else if body.Null? then Attempt(Threw(Some(DestructureError(body, "files"))), None)
    else if FilesRejected(Prop(body, "files")) then
      Attempt(Returned(Response(400, ErrorBody(NoFilesProvided, None))), None)
    else if ApiKeyMissing(apiKey) then
      Attempt(Returned(Response(500, ErrorBody(ApiKeyConfigurationError, None))), None)
    else
      match SuggestionParts(body)
      case Failure(e) => Attempt(Threw(Some(e)), None)
      case Success(parts) =>
        match generate(parts)
        case Rejected(message) => Attempt(Threw(message), Some(parts))
        case Reply(text) => Attempt(Returned(ReplyResponse(jsonParse(text))), Some(parts))
  }

  /** The handler. `apiKey` is the GEMINI_API_KEY environment variable,
      `generate` the model call with `response.text()`, `jsonParse` the outcome
      of `JSON.parse`. No prompt field is read; the checks apply in a fixed
      order, and none of the early answers calls the model. */
  function Handle(req: Request, apiKey: Option<string>,
                  generate: seq<Part> -> ModelOutcome, jsonParse: string -> ParseOutcome): (r: Exchange)
    ensures req.verb == "OPTIONS" ==> r == Exchange(Response(200, NoBody), None)
    ensures req.verb != "OPTIONS" && req.verb != "POST" ==>
      r == Exchange(Response(405, ErrorBody(MethodNotAllowed, None)), None)
    ensures (req.verb == "POST" && !Nullish(req.body) && FilesRejected(Prop(req.body, "files"))) ==>
      r == Exchange(Response(400, ErrorBody(NoFilesProvided, None)), None)
    ensures (req.verb == "POST" && !Nullish(req.body) && !FilesRejected(Prop(req.body, "files")) &&
             ApiKeyMissing(apiKey)) ==>
      r == Exchange(Response(500, ErrorBody(ApiKeyConfigurationError, None)), None)
    ensures r.modelRequest.Some? ==>
      req.verb == "POST" && Admitted(req.body, apiKey) && SuggestionParts(req.body) == Success(r.modelRequest.value)
    ensures r.response.status in {200, 400, 405, 429, 500}
    ensures r.response.status == 200 ==> req.verb == "OPTIONS" || r.modelRequest.Some?
  {
    match MethodGate(req.verb)
    case Some(response) => Exchange(response, None)
    case None => Settle(TryBlock(req.body, apiKey, generate, jsonParse), CatchResponse)
  }

  /** The body's `prompt` property, whatever it holds, changes nothing. */
  lemma PromptIgnored(req: Request, prompt: JsValue, apiKey: Option<string>,
                      generate: seq<Part> -> ModelOutcome, jsonParse: string -> ParseOutcome)
    requires req.body.Obj?
    ensures Handle(Request(req.verb, Obj(req.body.props["prompt" := prompt])), apiKey, generate, jsonParse) ==
      Handle(req, apiKey, generate, jsonParse)
  {
    var other := Obj(req.body.props["prompt" := prompt]);
    assert "files" != "prompt";
    assert Prop(other, "files") == Prop(req.body, "files");
  }

  /** An admitted request whose files are all readable makes exactly one model
      call, with files.length + 1 parts: the combining text when there is more
      than one file and the single-product text otherwise, then each file's
      mimeType and base64 in input order. */
  lemma ModelRequestSent(req: Request, apiKey: Option<string>,
                         generate: seq<Part> -> ModelOutcome, jsonParse: string -> ParseOutcome)
    requires req.verb == "POST" && Admitted(req.body, apiKey)
    requires AllReadable(Prop(req.body, "files").elems)
    ensures var files := Prop(req.body, "files").elems;
      var r := Handle(req, apiKey, generate, jsonParse);
      r.modelRequest.Some? && |r.modelRequest.value| == |files| + 1 &&
      r.modelRequest.value[0] == TextPart(if |files| > 1 then CombinedProductsText else SingleProductText) &&
      forall i :: 0 <= i < |files| ==>
        r.modelRequest.value[i + 1] == InlineData(Prop(files[i], "mimeType"), Prop(files[i], "base64"))
  {
    var files := Prop(req.body, "files").elems;
    AssemblePartsShape(TextPrompt(|files|), files);
  }

  /** An undefined or null body ends in the catch block as a generic failure
      carrying the runtime's TypeError message, before any model call. */
  lemma UnreadableBody(req: Request, apiKey: Option<string>,
                       generate: seq<Part> -> ModelOutcome, jsonParse: string -> ParseOutcome)
    requires req.verb == "POST" && Nullish(req.body)
    ensures var r := Handle(req, apiKey, generate, jsonParse);
      r.modelRequest.None? &&
      (req.body.Undefined? ==>
        r.response == Response(500, ErrorBody(FailedToGenerate, Some(ReadError(Undefined, "length"))))) &&
      (req.body.Null? ==>
        r.response == Response(500, ErrorBody(FailedToGenerate, Some(DestructureError(Null, "files")))))
  {
    if req.body.Undefined? {
      assert Plain("length");
      ReadErrorIsGeneric(req.body, "length");
    } else {
      assert Plain("files");
      DestructureErrorIsGeneric(req.body, "files");
    }
  }

  /** A null or undefined file entry ends in the catch block as a generic
      failure carrying the TypeError of the first such entry, before any model call. */
  lemma UnreadableFile(req: Request, apiKey: Option<string>,
                       generate: seq<Part> -> ModelOutcome, jsonParse: string -> ParseOutcome)
    requires req.verb == "POST" && Admitted(req.body, apiKey) && !AllReadable(Prop(req.body, "files").elems)
    ensures var r := Handle(req, apiKey, generate, jsonParse);
      var files := Prop(req.body, "files").elems;
      r.modelRequest.None? &&
      exists k :: (FirstUnreadable(files, k) &&
        r.response == Response(500, ErrorBody(FailedToGenerate, Some(ReadError(files[k], "mimeType")))))
  {
    var files := Prop(req.body, "files").elems;
    AssemblePartsShape(TextPrompt(|files|), files);
    var k :| FirstUnreadable(files, k) && SuggestionParts(req.body).error == ReadError(files[k], "mimeType");
    assert Plain("mimeType");
    ReadErrorIsGeneric(files[k], "mimeType");
  }

  /** The model's text decides the answer through the JSON checks; an error
      from the model call reaches the catch block with its message. */
  lemma ModelOutcomeDecides(req: Request, apiKey: Option<string>,
                            generate: seq<Part> -> ModelOutcome, jsonParse: string -> ParseOutcome)
    requires req.verb == "POST" && Admitted(req.body, apiKey) && SuggestionParts(req.body).Success?
    ensures var parts := SuggestionParts(req.body).value;
      var r := Handle(req, apiKey, generate, jsonParse);
      r.modelRequest == Some(parts) &&
      (generate(parts).Reply? ==> r.response == ReplyResponse(jsonParse(generate(parts).text))) &&
      (generate(parts).Rejected? ==> r.response == CatchResponse(generate(parts).message))
  {
  }

  /** A message that includes both "429" and "API key" is reported as a rate limit. */
  lemma RateLimitTestedFirst(message: string)
    requires Contains(message, "429") && Contains(message, "API key")
    ensures CatchResponse(Some(message)) == Response(429, ErrorBody(RateLimitExceeded, None))
  {
  }
}
