/**
 * What the two handlers share: the request and response they see, the parts
 * of a model request, the abstract outcome of the model call, and the early
 * checks: the method gate, the files test and the API-key test (both handlers),
 * and the prompt test (image handler only).
 */
module Http {
  import opened Wrappers
  import opened Js

  /** An incoming request: its method (`req.method`) and its parsed body. */
  datatype Request = Request(verb: string, body: JsValue)

  /** The JSON bodies the handlers send (or none, for the preflight answer). */
  datatype Body =
    | NoBody
    | ErrorBody(error: string, details: Option<string>)
    | PlanBody(image: string, description: string)
    | SuggestionsBody(suggestions: JsValue)

  datatype Response = Response(status: int, body: Body)

  /** One element of the `parts` list sent to the model. */
  datatype Part = TextPart(text: string) | InlineData(mimeType: JsValue, data: JsValue)

  /** What awaiting the model and calling `response.text()` gives: the text, or
      an error thrown (with its `message`, absent for a thrown non-Error). */
  datatype ModelOutcome = Reply(text: string) | Rejected(message: Option<string>)

  /** How the code inside a handler's `try` block ends: by returning a
      response, or by throwing an error whose message the `catch` block reads. */
  datatype Completion = Returned(response: Response) | Threw(message: Option<string>)

  /** A completion together with the parts sent to the model, if it was called. */
  datatype Attempt = Attempt(completion: Completion, modelRequest: Option<seq<Part>>)

  /** What a handler does: the response it sends and the model request it made, if any. */
  datatype Exchange = Exchange(response: Response, modelRequest: Option<seq<Part>>)

  const MethodNotAllowed := "Method not allowed"
  const NoPromptProvided := "No prompt provided"
  const NoFilesProvided := "No files provided"
  const ApiKeyConfigurationError :=
    "API key configuration error. Please set GEMINI_API_KEY in Vercel environment variables."

  /** `!prompt || typeof prompt !== 'string'`: the prompt is refused unless it is a non-empty string. */
  predicate PromptRejected(prompt: JsValue)
    ensures PromptRejected(prompt) <==> !(prompt.Str? && prompt.s != "")
  {
    !Truthy(prompt) || !prompt.Str?
  }

  /** `!files || !Array.isArray(files) || files.length === 0`: the files are
      refused unless they form a non-empty array. */
  predicate FilesRejected(files: JsValue)
    ensures FilesRejected(files) <==> !(files.Arr? && |files.elems| > 0)
  {
    !Truthy(files) || !files.Arr? || |files.elems| == 0
  }

  /** `!apiKey` for the environment variable, which is a string or undefined. */
  predicate ApiKeyMissing(apiKey: Option<string>) {
    apiKey.None? || apiKey.value == ""
  }

  /** The preflight and method checks that precede each handler's `try` block:
      a response for OPTIONS and for every method other than POST, none for POST. */
  function MethodGate(verb: string): Option<Response> {
    if verb == "OPTIONS" then Some(Response(200, NoBody))
    else if verb != "POST" then Some(Response(405, ErrorBody(MethodNotAllowed, None)))
    else None
  }

  /** The handler's result once the method gate is passed: the try block's
      response, or the catch block's response to the error it threw. */
  function Settle(a: Attempt, catchResponse: Option<string> -> Response): Exchange {
    match a.completion
    case Returned(response) => Exchange(response, a.modelRequest)
    case Threw(message) => Exchange(catchResponse(message), a.modelRequest)
  }
}
