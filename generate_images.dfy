/**
 * The image-plan handler (`api/generate-images.js`): it validates a POST with
 * a prompt and reference images, asks the model once for a Japanese shooting
 * plan, and answers with the plan and a fixed SVG card that embeds the plan
 * as markup, base64-encoded.
 */
module GenerateImages {
  import opened Wrappers
  import opened Js
  import opened Http
  import opened Parts
  import opened Markup

  /** The art-director instructions placed before the caller's prompt. */
  const SystemPrompt: string :=
    "あなたは商品写真のアートディレクターです。\n" +
    "    以下の形式で、商品画像の詳細な撮影プランを日本語で作成してください：\n" +
    "\n" +
    "    【撮影コンセプト】\n" +
    "    シーンの全体的なコンセプトと狙い\n" +
    "\n" +
    "    【構図とレイアウト】\n" +
    "    - 商品の配置\n" +
    "    - カメラアングル\n" +
    "    - 構図のバランス\n" +
    "\n" +
    "    【照明と色調】\n" +
    "    - ライティングの設定\n" +
    "    - 色温度と雰囲気\n" +
    "    - 影の使い方\n" +
    "\n" +
    "    【背景と小物】\n" +
    "    - 背景の設定\n" +
    "    - 使用する小物\n" +
    "    - 全体的な雰囲気作り\n" +
    "\n" +
    "    【ターゲットへの訴求】\n" +
    "    - 想定するターゲット層\n" +
    "    - 購買意欲を高めるポイント"

  /** What follows the caller's prompt in `finalPrompt`. */
  const FinalPromptTail: string :=
    "\n" +
    "    \n" +
    "    上記のコンセプトに基づいて、日本のAmazonで販売する商品の魅力的な撮影プランを作成してください。"

  /** The SVG card up to the place where the description's markup goes. */
  const SvgPrefix: string :=
    "\n" +
    "      <svg width=\"800\" height=\"800\" xmlns=\"http://www.w3.org/2000/svg\">\n" +
    "        <defs>\n" +
    "          <linearGradient id=\"grad1\" x1=\"0%\" y1=\"0%\" x2=\"100%\" y2=\"100%\">\n" +
    "            <stop offset=\"0%\" style=\"stop-color:#667eea;stop-opacity:1\" />\n" +
    "            <stop offset=\"100%\" style=\"stop-color:#764ba2;stop-opacity:1\" />\n" +
    "          </linearGradient>\n" +
    "          <filter id=\"shadow\" x=\"-50%\" y=\"-50%\" width=\"200%\" height=\"200%\">\n" +
    "            <feDropShadow dx=\"0\" dy=\"4\" stdDeviation=\"8\" flood-opacity=\"0.15\"/>\n" +
    "          </filter>\n" +
    "        </defs>\n" +
    "        \n" +
    "        <!-- 背景 -->\n" +
    "        <rect width=\"800\" height=\"800\" fill=\"url(#grad1)\" opacity=\"0.1\"/>\n" +
    "        \n" +
    "        <!-- メインカード -->\n" +
    "        <rect x=\"40\" y=\"40\" width=\"720\" height=\"720\" rx=\"20\" fill=\"white\" filter=\"url(#shadow)\"/>\n" +
    "        \n" +
    "        <!-- ヘッダー -->\n" +
    "        <rect x=\"40\" y=\"40\" width=\"720\" height=\"80\" rx=\"20\" fill=\"url(#grad1)\"/>\n" +
    "        <text x=\"400\" y=\"85\" font-family=\"'Noto Sans JP', sans-serif\" font-size=\"28\" font-weight=\"bold\" text-anchor=\"middle\" fill=\"white\">\n" +
    "          AI 撮影プラン\n" +
    "        </text>\n" +
    "        \n" +
    "        <!-- コンテンツエリア -->\n" +
    "        <foreignObject x=\"60\" y=\"140\" width=\"680\" height=\"580\">\n" +
    "          <div xmlns=\"http://www.w3.org/1999/xhtml\" style=\"\n" +
    "            font-family: 'Noto Sans JP', -apple-system, BlinkMacSystemFont, sans-serif;\n" +
    "            font-size: 14px;\n" +
    "            line-height: 1.8;\n" +
    "            color: #333;\n" +
    "            padding: 20px;\n" +
    "            overflow-y: auto;\n" +
    "            height: 580px;\n" +
    "            white-space: pre-wrap;\n" +
    "            word-wrap: break-word;\n" +
    "          \">\n" +
    "            <style>\n" +
    "              div { \n" +
    "                background: linear-gradient(180deg, rgba(255,255,255,0) 0%, rgba(255,255,255,1) 100%);\n" +
    "              }\n" +
    "              strong { \n" +
    "                color: #5b21b6; \n" +
    "                font-weight: 600; \n" +
    "                display: block;\n" +
    "                margin-top: 16px;\n" +
    "                margin-bottom: 8px;\n" +
    "                font-size: 16px;\n" +
    "              }\n" +
    "            </style>\n" +
    "            "

  /** The SVG card after the description's markup. */
  const SvgSuffix: string :=
    "\n" +
    "          </div>\n" +
    "        </foreignObject>\n" +
    "        \n" +
    "        <!-- フッター -->\n" +
    "        <text x=\"400\" y=\"740\" font-family=\"'Noto Sans JP', sans-serif\" font-size=\"11\" text-anchor=\"middle\" fill=\"#666\">\n" +
    "          ※ このプランを基に、実際の撮影または画像生成AIで商品画像を作成してください\n" +
    "        </text>\n" +
    "      </svg>\n" +
    "    "


  /** The fixed texts of the handler: the instructions around the caller's
      prompt, and the card's SVG around the description's markup. The
      functions below take them as a parameter, so that what is proved of them
      holds for any such texts and in particular for `SourceTemplate`. */
  datatype Template = Template(systemPrompt: string, finalPromptTail: string, svgPrefix: string, svgSuffix: string)

  /** The texts written in the handler. */
  const SourceTemplate := Template(SystemPrompt, FinalPromptTail, SvgPrefix, SvgSuffix)

  const RateLimitExceeded := "Rate limit exceeded"
  const RateLimitDetails := "APIのレート制限に達しました。しばらく待ってから再試行してください。"
  const FailedToGenerate := "Failed to generate image"
  const DefaultDetails := "画像プラン生成中にエラーが発生しました。"
  const NoDescriptionGenerated := "No description generated"

  /** The text part: `systemPrompt + '\n\n' + finalPrompt`. */
  function PlanRequestText(t: Template, prompt: string): string {
    t.systemPrompt + "\n\n" + prompt + t.finalPromptTail
  }

  /** The SVG card around the description's markup. */
  function SvgCard(t: Template, description: string): string {
    t.svgPrefix + ToMarkup(description) + t.svgSuffix
  }

  /** The catch block: a message that includes "429" is a rate limit; every
      other error is a generic failure that carries the message, or a fixed
      default when the message is missing or empty. */
  function CatchResponse(message: Option<string>): (r: Response)
    ensures r.status == 429 <==> message.Some? && Contains(message.value, "429")
    ensures r.status == 429 ==> r.body == ErrorBody(RateLimitExceeded, Some(RateLimitDetails))
    ensures r.status != 429 ==> r.status == 500 && r.body.ErrorBody? && r.body.error == FailedToGenerate
    ensures r.status != 429 ==> r.body.details.Some? && r.body.details.value != ""
    ensures r.status != 429 && message.Some? && message.value != "" ==> r.body.details == message
    ensures r.status != 429 && (message.None? || message.value == "") ==> r.body.details == Some(DefaultDetails)
  {
    if message.Some? && Contains(message.value, "429") then
      Response(429, ErrorBody(RateLimitExceeded, Some(RateLimitDetails)))
    else
      Response(500, ErrorBody(FailedToGenerate,
        Some(if message.Some? && message.value != "" then message.value else DefaultDetails)))
  }

  /** The checks inside the `try` block all pass: the body can be destructured,
      the prompt is a non-empty string, the files a non-empty array, and the API key is set. */
  predicate Admitted(body: JsValue, apiKey: Option<string>) {
    !Nullish(body) && !PromptRejected(Prop(body, "prompt")) &&
    !FilesRejected(Prop(body, "files")) && !ApiKeyMissing(apiKey)
  }

  /** The parts the handler sends for an admitted body. */
  function PlanParts(t: Template, body: JsValue): Result<seq<Part>, string>
    requires !Nullish(body) && !PromptRejected(Prop(body, "prompt")) && !FilesRejected(Prop(body, "files"))
  {
    AssembleParts(PlanRequestText(t, Prop(body, "prompt").s), Prop(body, "files").elems)
  }

  /** The code of the `try` block, from destructuring the body to the success response. */
  function TryBlock(t: Template, body: JsValue, apiKey: Option<string>,
                    generate: seq<Part> -> ModelOutcome, encode: string -> string): Attempt
  {
    if Nullish(body) then Attempt(Threw(Some(DestructureError(body, "prompt"))), None)
    else if PromptRejected(Prop(body, "prompt")) then
      Attempt(Returned(Response(400, ErrorBody(NoPromptProvided, None))), None)
    else if FilesRejected(Prop(body, "files")) then
      Attempt(Returned(Response(400, ErrorBody(NoFilesProvided, None))), None)
    else if ApiKeyMissing(apiKey) then
      Attempt(Returned(Response(500, ErrorBody(ApiKeyConfigurationError, None))), None)
    else
      match PlanParts(t, body)
      case Failure(e) => Attempt(Threw(Some(e)), None)
      case Success(parts) =>
        match generate(parts)
        case Rejected(message) => Attempt(Threw(message), Some(parts))
        case Reply(description) =>
          if description == "" then Attempt(Threw(Some(NoDescriptionGenerated)), Some(parts))
          else Attempt(Returned(Response(200, PlanBody(encode(SvgCard(t, description)), description))), Some(parts))
  }

  /** The handler. `apiKey` is the GEMINI_API_KEY environment variable,
      `generate` the model call with `response.text()`, `encode` the base64
      encoding of the card's UTF-8 bytes. The checks apply in a fixed order and
      the first that fails decides; none of the early answers calls the model. */
  function Handler(t: Template, req: Request, apiKey: Option<string>,
                  generate: seq<Part> -> ModelOutcome, encode: string -> string): (r: Exchange)
    ensures req.verb == "OPTIONS" ==> r == Exchange(Response(200, NoBody), None)
    ensures req.verb != "OPTIONS" && req.verb != "POST" ==>
      r == Exchange(Response(405, ErrorBody(MethodNotAllowed, None)), None)
    ensures req.verb == "POST" && !Nullish(req.body) && PromptRejected(Prop(req.body, "prompt")) ==>
      r == Exchange(Response(400, ErrorBody(NoPromptProvided, None)), None)
    ensures (req.verb == "POST" && !Nullish(req.body) && !PromptRejected(Prop(req.body, "prompt")) &&
             FilesRejected(Prop(req.body, "files"))) ==>
      r == Exchange(Response(400, ErrorBody(NoFilesProvided, None)), None)
    ensures (req.verb == "POST" && !Nullish(req.body) && !PromptRejected(Prop(req.body, "prompt")) &&
             !FilesRejected(Prop(req.body, "files")) && ApiKeyMissing(apiKey)) ==>
      r == Exchange(Response(500, ErrorBody(ApiKeyConfigurationError, None)), None)
    ensures r.modelRequest.Some? ==>
      req.verb == "POST" && Admitted(req.body, apiKey) && PlanParts(t, req.body) == Success(r.modelRequest.value)
    ensures r.response.status in {200, 400, 405, 429, 500}
    ensures r.response.status == 200 ==> req.verb == "OPTIONS" || r.modelRequest.Some?
  {
    match MethodGate(req.verb)
    case Some(response) => Exchange(response, None)
    case None => Settle(TryBlock(t, req.body, apiKey, generate, encode), CatchResponse)
  }

  /** The handler with the texts written in the source. */
  function Handle(req: Request, apiKey: Option<string>,
                  generate: seq<Part> -> ModelOutcome, encode: string -> string): Exchange
  {
    Handler(SourceTemplate, req, apiKey, generate, encode)
  }

  /** An admitted request whose files are all readable makes exactly one model
      call, with files.length + 1 parts: the instructions followed by the
      caller's prompt, then each file's mimeType and base64 in input order. */
  lemma ModelRequestSent(t: Template, req: Request, apiKey: Option<string>,
                         generate: seq<Part> -> ModelOutcome, encode: string -> string)
    requires req.verb == "POST" && Admitted(req.body, apiKey)
    requires AllReadable(Prop(req.body, "files").elems)
    ensures var files := Prop(req.body, "files").elems;
      var r := Handler(t, req, apiKey, generate, encode);
      r.modelRequest.Some? && |r.modelRequest.value| == |files| + 1 &&
      r.modelRequest.value[0] == TextPart(t.systemPrompt + "\n\n" + Prop(req.body, "prompt").s + t.finalPromptTail) &&
      forall i :: 0 <= i < |files| ==>
        r.modelRequest.value[i + 1] == InlineData(Prop(files[i], "mimeType"), Prop(files[i], "base64"))
  {
    AssemblePartsShape(PlanRequestText(t, Prop(req.body, "prompt").s), Prop(req.body, "files").elems);
  }

  /** A body that cannot be destructured ends in the catch block as a generic
      failure carrying the runtime's TypeError message, before any model call. */
  lemma UnreadableBody(t: Template, req: Request, apiKey: Option<string>,
                       generate: seq<Part> -> ModelOutcome, encode: string -> string)
    requires req.verb == "POST" && Nullish(req.body)
    ensures Handler(t, req, apiKey, generate, encode) ==
      Exchange(Response(500, ErrorBody(FailedToGenerate, Some(DestructureError(req.body, "prompt")))), None)
  {
    assert Plain("prompt");
    DestructureErrorIsGeneric(req.body, "prompt");
  }

  /** A null or undefined file entry ends in the catch block as a generic
      failure carrying the TypeError of the first such entry, before any model call. */
  lemma UnreadableFile(t: Template, req: Request, apiKey: Option<string>,
                       generate: seq<Part> -> ModelOutcome, encode: string -> string)
    requires req.verb == "POST" && Admitted(req.body, apiKey) && !AllReadable(Prop(req.body, "files").elems)
    ensures var r := Handler(t, req, apiKey, generate, encode);
      var files := Prop(req.body, "files").elems;
      r.modelRequest.None? &&
      exists k :: (FirstUnreadable(files, k) &&
        r.response == Response(500, ErrorBody(FailedToGenerate, Some(ReadError(files[k], "mimeType")))))
  {
    var files := Prop(req.body, "files").elems;
    AssemblePartsShape(PlanRequestText(t, Prop(req.body, "prompt").s), files);
    var k :| FirstUnreadable(files, k) && PlanParts(t, req.body).error == ReadError(files[k], "mimeType");
    assert Plain("mimeType");
    ReadErrorIsGeneric(files[k], "mimeType");
  }

  /** The catch block answers the "No description generated" error with 500 and that message. */
  lemma NoDescriptionResponse()
    ensures CatchResponse(Some(NoDescriptionGenerated)) ==
      Response(500, ErrorBody(FailedToGenerate, Some(NoDescriptionGenerated)))
  {
    NoDescriptionPlain();
    Lacks(NoDescriptionGenerated, "429");
  }

  lemma NoDescriptionPlain()
    ensures "429"[0] !in NoDescriptionGenerated
  {
  }

  lemma EmptyDescriptionThrows(t: Template, req: Request, apiKey: Option<string>,
                               generate: seq<Part> -> ModelOutcome, encode: string -> string)
    requires req.verb == "POST" && Admitted(req.body, apiKey) && PlanParts(t, req.body).Success?
    requires generate(PlanParts(t, req.body).value) == Reply("")
    ensures Handler(t, req, apiKey, generate, encode) ==
      Exchange(CatchResponse(Some(NoDescriptionGenerated)), Some(PlanParts(t, req.body).value))
  {
  }

  /** An empty description from the model is an error that the catch block
      answers with 500 and "No description generated". */
  lemma EmptyDescriptionFails(t: Template, req: Request, apiKey: Option<string>,
                              generate: seq<Part> -> ModelOutcome, encode: string -> string)
    requires req.verb == "POST" && Admitted(req.body, apiKey) && PlanParts(t, req.body).Success?
    requires generate(PlanParts(t, req.body).value) == Reply("")
    ensures Handler(t, req, apiKey, generate, encode) ==
      Exchange(Response(500, ErrorBody(FailedToGenerate, Some(NoDescriptionGenerated))), Some(PlanParts(t, req.body).value))
  {
    EmptyDescriptionThrows(t, req, apiKey, generate, encode);
    NoDescriptionResponse();
  }

  /** A non-empty description is answered with 200, the description unchanged
      and the encoded card built from it. */
  lemma PlanAnswered(t: Template, req: Request, apiKey: Option<string>,
                     generate: seq<Part> -> ModelOutcome, encode: string -> string)
    requires req.verb == "POST" && Admitted(req.body, apiKey) && PlanParts(t, req.body).Success?
    requires var outcome := generate(PlanParts(t, req.body).value); outcome.Reply? && outcome.text != ""
    ensures var d := generate(PlanParts(t, req.body).value).text;
      Handler(t, req, apiKey, generate, encode) ==
      Exchange(Response(200, PlanBody(encode(SvgCard(t, d)), d)), Some(PlanParts(t, req.body).value))
  {
  }

  /** An error from the model call reaches the catch block with its message. */
  lemma ModelErrorCaught(t: Template, req: Request, apiKey: Option<string>,
                         generate: seq<Part> -> ModelOutcome, encode: string -> string)
    requires req.verb == "POST" && Admitted(req.body, apiKey) && PlanParts(t, req.body).Success?
    requires generate(PlanParts(t, req.body).value).Rejected?
    ensures Handler(t, req, apiKey, generate, encode) ==
      Exchange(CatchResponse(generate(PlanParts(t, req.body).value).message), Some(PlanParts(t, req.body).value))
  {
  }

  /** The card is the fixed prefix, the description's markup and the fixed
      suffix; the markup holds no `【`, `】` or line feed, and when the
      description has no `<` it can be read back from the card. */
  lemma CardEmbedsDescription(t: Template, description: string)
    ensures var card := SvgCard(t, description);
      var m := ToMarkup(description);
      |card| == |t.svgPrefix| + |m| + |t.svgSuffix| &&
      card[..|t.svgPrefix|] == t.svgPrefix &&
      card[|t.svgPrefix|..|t.svgPrefix| + |m|] == m &&
      card[|t.svgPrefix| + |m|..] == t.svgSuffix &&
      Open !in m && Close !in m && LineFeed !in m
    ensures '<' !in description ==>
      FromMarkup(SvgCard(t, description)[|t.svgPrefix|..|SvgCard(t, description)| - |t.svgSuffix|]) == description
  {
    var m := ToMarkup(description);
    var card := SvgCard(t, description);
    assert card[|t.svgPrefix|..|t.svgPrefix| + |m|] == m;
    if '<' !in description {
      MarkupRoundTrip(description);
    }
  }
}
