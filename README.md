# AI product image generator: the two request handlers, modelled in Dafny

The repository has two serverless handlers around Google's Gemini SDK:

- `api/generate-images.js` takes a prompt and reference images. It asks the
  model once for a Japanese product-photography plan. It answers with the plan
  and a fixed 800×800 SVG card that shows the plan, base64-encoded.
- `api/generate-prompts.js` takes product images. It asks the model once for
  prompt suggestions as a JSON array. It answers with that array if it is a
  non-empty array.

Each handler is modelled as a pure function. Its inputs are the request
(method and parsed body), the `GEMINI_API_KEY` environment variable (a string
or absent), and the model call as a function from the parts list to an
outcome. The model call's outcome is the reply text or a thrown error with its
message. The image handler also takes the base64 encoding as a function; the
prompts handler takes `JSON.parse` as a function. Each handler returns the
response (status and JSON body) and the parts list sent to the model, or no
parts list when the model is not called.

Modules:

- `Wrappers`: `Option` and `Result`.
- `Js`: the JavaScript values a JSON body can hold, truthiness, property reads
  and the TypeError they throw on `null`/`undefined`, and
  `String.prototype.includes`.
- `Http`: the request and response types, the parts, the model outcome, and
  the checks the handlers use: the method gate, the files test and the
  API-key test (both handlers), and the prompt test (image handler only).
- `Parts`: the parts list (text part first, one inline-data part per file, in
  order). It is a recursive function and also a loop method proved equal to it.
- `Markup`: the chain of three global replacements (`【`→`<strong>`,
  `】`→`</strong>`, line feed→`<br/>`). It is proved equal to a one-pass
  character-wise definition, idempotent, free of the three characters, and
  invertible on descriptions without `<`.
- `GenerateImages` and `GeneratePrompts`: the two handlers, the checks in
  their order, the catch-block error mapping, and the outcome of the model
  call.

`GenerateImages.Handler` takes the handler's fixed texts as a `Template`
parameter: the instructions around the prompt and the SVG around the markup.
`GenerateImages.Handle` applies it to `SourceTemplate`, which holds the texts
written in the source. The lemmas hold for every template, so they hold for
the source's.

Two facts about the code that the model keeps:

- Neither handler retries. Each calls `generateContent` exactly once
  (api/generate-images.js:124, api/generate-prompts.js:83).
- The prompts handler checks only that the parsed value is a non-empty array.
  It does not check the count or the element types, and it sends the array
  back unchanged.

## Model

| member | source | states |
|---|---|---|
| Http.PromptRejected | api/generate-images.js:48-50 | `!prompt \|\| typeof prompt !== 'string'` holds exactly when the prompt is not a non-empty string |
| Http.FilesRejected | api/generate-images.js:52-54 | the files test holds exactly when the files are not a non-empty array |
| Js.Get | api/generate-images.js:114-117 | reading a property throws exactly on null and undefined, and otherwise yields the property's value |
| Js.ContainsAt | api/generate-images.js:217 | `includes` holds exactly when the substring occurs at some position |
| Parts.InlinePartsShape | api/generate-images.js:112-119 | the loop yields one inline-data part per file, in order, with that file's mimeType and base64; it fails exactly when some entry is null or undefined, with the TypeError of the first such entry |
| Parts.AssemblePartsShape | api/generate-images.js:107-119 | the parts list has files.length + 1 elements: the text first, then file i's inline data at position i + 1 |
| Parts.BuildParts | api/generate-prompts.js:68-80 | the push loop computes exactly the parts list of `AssembleParts`, including the TypeError on an unreadable entry |
| Markup.ReplaceAll | api/generate-images.js:193 | after a global replacement the replaced character is gone, unless the replacement contains it; a text without that character is unchanged |
| Markup.ReplaceAllMembers | api/generate-images.js:193 | a character is in the result exactly when it is a kept character of the input, or it is in the replacement and the replaced character occurred |
| Markup.ReplaceAllAppend | api/generate-images.js:193 | replacing distributes over concatenation |
| Markup.ToMarkup | api/generate-images.js:193 | the transformed description holds no `【`, `】` or line feed |
| Markup.ToMarkupIsCharwise | api/generate-images.js:193 | the three-pass chain equals the one-pass reference: `【`, `】` and line feed become `<strong>`, `</strong>` and `<br/>`, and all other characters are kept in order |
| Markup.ToMarkupIdempotent | api/generate-images.js:193 | applying the transform to its output changes nothing |
| Markup.ToMarkupKeepsPlainText | api/generate-images.js:193 | a description without the three characters passes through unchanged |
| Markup.FromMarkupInvertsCharwise | api/generate-images.js:193 | reading the tags back recovers any description without `<` |
| Markup.MarkupRoundTrip | api/generate-images.js:193 | for a description without `<`, the markup decodes back to the description |
| Markup.CharwiseAppend | api/generate-images.js:193 | the one-pass reference distributes over concatenation |
| Markup.ToMarkupMergesBreaks | api/generate-images.js:193 | with `<` allowed the transform is not injective: in any surrounding text, a line feed and the text `<br/>` give the same markup |
| GenerateImages.CatchResponse | api/generate-images.js:213-228 | a message including "429" gives 429 "Rate limit exceeded" with the fixed Japanese details; anything else gives 500 "Failed to generate image" with details equal to the message when it is non-empty, and to the fixed Japanese default when it is missing or empty |
| GenerateImages.Handler | api/generate-images.js:34-61 | OPTIONS gives 200 with no body whatever the body; another non-POST method gives 405; then a bad prompt gives 400 "No prompt provided" whatever the files and key; then bad files give 400 "No files provided" whatever the key; then a missing or empty key gives 500 with the configuration message; none of these calls the model; a model call only happens for an admitted request, with the assembled parts; statuses are 200, 400, 405, 429 or 500 |
| GenerateImages.ModelRequestSent | api/generate-images.js:102-128 | an admitted request with readable files makes one model call with files.length + 1 parts: `systemPrompt + '\n\n' + prompt + tail` first, then each file's mimeType and base64 in order |
| GenerateImages.UnreadableBody | api/generate-images.js:46 | a null or undefined body gives 500 "Failed to generate image" with the destructuring TypeError as details, and no model call |
| GenerateImages.UnreadableFile | api/generate-images.js:112-116 | a null or undefined file entry gives 500 with the first such entry's TypeError as details, and no model call |
| GenerateImages.NoDescriptionResponse | api/generate-images.js:224-227 | the catch block answers "No description generated" with 500 and that message as details |
| GenerateImages.EmptyDescriptionFails | api/generate-images.js:133-135 | an empty model reply gives 500 "Failed to generate image" with details "No description generated", after one model call |
| GenerateImages.PlanAnswered | api/generate-images.js:143-211 | a non-empty reply gives 200 with the description unchanged and the encoding of the card built from it |
| GenerateImages.ModelErrorCaught | api/generate-images.js:124-131 | an error from the model call is answered by the catch block from its message |
| GenerateImages.CardEmbedsDescription | api/generate-images.js:143-202 | the card is the fixed prefix, the description's markup and the fixed suffix; the markup region holds no `【`, `】` or line feed, and for a description without `<` it decodes back to the description |
| GeneratePrompts.TextPrompt | api/generate-prompts.js:62-65 | the combining text is chosen exactly when more than one file is sent, and the single-product text otherwise |
| GeneratePrompts.ReplyResponse | api/generate-prompts.js:98-112 | a parse failure gives 500 "Invalid response format from AI"; a parsed non-array or empty array gives 500 "AI did not return valid suggestions"; 200 exactly for a non-empty array, which is sent back unchanged |
| GeneratePrompts.CatchResponse | api/generate-prompts.js:114-134 | "429" gives 429; otherwise "API key" gives 500 "API key error" (exactly when "429" is absent and "API key" present); otherwise 500 "Failed to generate prompts" with the message or "Unknown error occurred" |
| GeneratePrompts.Handle | api/generate-prompts.js:22-50 | OPTIONS gives 200 with no body; another non-POST method gives 405; bad files give 400 whatever the key; then a missing or empty key gives 500 with the configuration message; none of these calls the model; a model call only happens for an admitted request |
| GeneratePrompts.PromptIgnored | api/generate-prompts.js:36 | the body's `prompt` property, whatever its value, does not change the result |
| GeneratePrompts.ModelRequestSent | api/generate-prompts.js:68-92 | an admitted request with readable files makes one model call with files.length + 1 parts, the text chosen by the file count first, then each file's data in order |
| GeneratePrompts.UnreadableBody | api/generate-prompts.js:33-36 | an undefined body (JSON.stringify then `.length`) or a null body (destructuring) gives 500 "Failed to generate prompts" with the TypeError as details, and no model call |
| GeneratePrompts.UnreadableFile | api/generate-prompts.js:73-80 | a null or undefined file entry gives 500 with the first such entry's TypeError as details, and no model call |
| GeneratePrompts.ModelOutcomeDecides | api/generate-prompts.js:83-112 | after the single model call, reply text is judged by the JSON checks and a thrown error by the catch block |
| GeneratePrompts.RateLimitTestedFirst | api/generate-prompts.js:119-128 | a message including both "429" and "API key" is reported as a rate limit |

## Left out

- The Gemini SDK calls (`GoogleGenerativeAI`, `getGenerativeModel`, `generateContent`, `response.text()`) are a foreign network client. The model name, generation settings and system instruction they receive are not modelled. Their result is the `generate` parameter: reply text, or an error with an optional message.
- `JSON.parse` is the `jsonParse` parameter. `Buffer.from(svg).toString('base64')` is the `encode` parameter, applied to the SVG string.
- The CORS `setHeader` calls, the `config.bodyParser.sizeLimit` export and all `console` logging are platform configuration or logging.
- `gradientPatterns` and the `Math.random` choice are not modelled. The chosen gradient is never used in the SVG.
- Writing to `res` is modelled as the returned `Exchange` value, not as updates to a response object.
- The wording of the TypeErrors for reading properties of `null`/`undefined` follows the V8 engine. Only two facts about it decide the status and `error`: it is non-empty, and it includes neither "429" nor "API key". The wording itself appears in `details`, so the modelled `details` match Node's V8 engine only.
- A thrown `null` or `undefined` would make `error.message` throw inside the catch block. This is not modelled: thrown errors are values with an optional message.
- JavaScript numbers are reals plus NaN, with no floating-point detail. Objects keep only their own properties. Strings are sequences of Unicode scalar values, not UTF-16 code units; the replaced characters are all in the Basic Multilingual Plane, so replacement behaves the same.
- `JSON.stringify(req.body).length` is modelled only to the extent that it throws for an undefined body: `JSON.stringify(undefined)` returns undefined, and reading its `length` throws. Values it cannot serialise (cycles, BigInt) cannot come from a JSON body.
- GenerateImages.ModelRequestSent, GeneratePrompts.ModelRequestSent: these assume every file entry is readable; an unreadable entry is covered by the UnreadableFile lemmas instead.
