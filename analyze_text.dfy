/** The `/api/analyze-text` route (src/pages/api/analyze-text.ts) and the
    placeholder `LegalAI.analyze` it calls. The handler becomes a function from
    the request method and the parsed body to the response it writes and the
    call it makes. */
module AnalyzeText {
  import opened Wrappers

  /** A request body as JavaScript sees it once parsed: `Undefined` also stands
      for a property that is absent. */
  datatype JsValue =
    | Undefined
    | Null
    | Bool(b: bool)
    | Number(n: real)
    | Str(s: string)
    | Arr(items: seq<JsValue>)
    | Obj(fields: map<string, JsValue>)

  /** JavaScript truthiness, which `!prompt || !context` tests. */
  predicate Truthy(v: JsValue) {
    match v
    case Undefined => false
    case Null => false
    case Bool(b) => b
    case Number(n) => n != 0.0
    case Str(s) => s != ""
    case Arr(_) => true
    case Obj(_) => true
  }

  /** `const { prompt, context } = body` throws exactly on `null` and `undefined`. */
  predicate Destructurable(body: JsValue) {
    !body.Undefined? && !body.Null?
  }

  /** The value destructuring binds for `name`: an object's own field, and
      `undefined` for a missing one or for any other kind of value. */
  function Field(body: JsValue, name: string): (v: JsValue)
    ensures body.Obj? && name in body.fields ==> v == body.fields[name]
    ensures !(body.Obj? && name in body.fields) ==> v == Undefined
  {
    match body
    case Obj(fields) => if name in fields then fields[name] else Undefined
    case _ => Undefined
  }

  datatype Metadata = Metadata(modelVersion: string, tokensUsed: int, processingTime: string)

  /** The argument of `LegalAI.analyze`. `prompt` and `context` are forwarded
      untouched, whatever truthy value they hold. */
  datatype AnalyzeParams = AnalyzeParams(
    modelId: string, projectId: string, prompt: JsValue, context: JsValue, maxTokens: int)

  datatype AnalyzeResult = AnalyzeResult(output: string, metadata: Metadata)

  const Placeholder: string := "This is a placeholder response until the real API is integrated"

  const PlaceholderMetadata: Metadata := Metadata("1.0", 0, "0.0s")

  /** `LegalAI.analyze`: a fixed answer whatever it is asked. */
  function Analyze(params: AnalyzeParams): (result: AnalyzeResult)
    ensures result.output == Placeholder
    ensures result.metadata == Metadata("1.0", 0, "0.0s")
  {
    AnalyzeResult(Placeholder, PlaceholderMetadata)
  }

  /** The analysis is independent of its input. */
  lemma AnalyzeIgnoresInput(p: AnalyzeParams, q: AnalyzeParams)
    ensures Analyze(p) == Analyze(q)
  {
  }

  datatype ResponseBody =
    | ErrorBody(error: string)
    | AnalysisBody(response: string, metadata: Metadata)

  datatype Response = Response(status: int, body: ResponseBody)

  /** The response written and the analysis call made, if any. */
  datatype Outcome = Outcome(response: Response, analyzeCall: Option<AnalyzeParams>)

  /** `handler(req, res)`: `httpMethod` is `req.method` (absent as `None`), `body` is
      `req.body`. */
  function Handler(httpMethod: Option<string>, body: JsValue): (r: Outcome)
    ensures r.response.status in {200, 400, 405, 500}
    // The method check comes first and decides alone.
    ensures r.response.status == 405 <==> httpMethod != Some("POST")
    ensures r.response.status == 405 ==> r == Outcome(Response(405, ErrorBody("Method not allowed")), None)
    // A POST whose body cannot be destructured fails inside the try block.
    ensures r.response.status == 500 <==> httpMethod == Some("POST") && !Destructurable(body)
    ensures r.response.status == 500 ==> r == Outcome(Response(500, ErrorBody("Internal server error")), None)
    // Either field falsy: rejected before any analysis.
    ensures r.response.status == 400 <==>
              httpMethod == Some("POST") && Destructurable(body)
              && (!Truthy(Field(body, "prompt")) || !Truthy(Field(body, "context")))
    ensures r.response.status == 400 ==> r == Outcome(Response(400, ErrorBody("Missing prompt or context")), None)
    // Otherwise one analysis call with both fields forwarded, and its answer.
    ensures r.response.status == 200 ==>
              && r.analyzeCall == Some(AnalyzeParams("1.0", "legal-docs", Field(body, "prompt"), Field(body, "context"), 500))
              && r.response.body == AnalysisBody(Placeholder, Metadata("1.0", 0, "0.0s"))
    ensures r.analyzeCall.Some? <==> r.response.status == 200
  {
    if httpMethod != Some("POST") then
      Outcome(Response(405, ErrorBody("Method not allowed")), None)
    else if !Destructurable(body) then
      Outcome(Response(500, ErrorBody("Internal server error")), None)
    else
      var prompt := Field(body, "prompt");
      var context := Field(body, "context");
      if !Truthy(prompt) || !Truthy(context) then
        Outcome(Response(400, ErrorBody("Missing prompt or context")), None)
      else
        var params := AnalyzeParams("1.0", "legal-docs", prompt, context, 500);
        var result := Analyze(params);
        Outcome(Response(200, AnalysisBody(result.output, result.metadata)), Some(params))
  }

  /** A POST of an object whose `prompt` and `context` are non-empty strings is
      answered with the placeholder analysis. */
  lemma WellFormedPostSucceeds(prompt: string, context: string, rest: map<string, JsValue>)
    requires prompt != "" && context != ""
    ensures var body := Obj(rest["prompt" := Str(prompt)]["context" := Str(context)]);
            Handler(Some("POST"), body)
            == Outcome(Response(200, AnalysisBody(Placeholder, Metadata("1.0", 0, "0.0s"))),
                       Some(AnalyzeParams("1.0", "legal-docs", Str(prompt), Str(context), 500)))
  {
    var body := Obj(rest["prompt" := Str(prompt)]["context" := Str(context)]);
    assert Field(body, "prompt") == Str(prompt);
  }
}
