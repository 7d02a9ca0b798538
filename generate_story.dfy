/** The story function: an HTTP handler that checks its request, builds a
    prompt from the three choices, asks the upstream text model for a story
    (retrying once with the other request shape) and answers with the story or
    an error status. The network calls are inputs: what each upstream attempt
    came back with. */
module GenerateStory {
  import opened Js

  /** The request body after `JSON.parse(event.body || '{}')`. */
  datatype Body =
    | Fields(dinosaur: JsValue, style: JsValue, lesson: JsValue)
    | Unparsable   // parsing threw, or the body was `null`

  /** Which environment settings are present and non-empty. */
  datatype Env = Env(apiKey: bool, userId: bool, appId: bool, modelId: bool, modelVersionId: bool)

  /** The prompt, by the parts that vary; its fixed wording is not modelled. */
  datatype Prompt = Prompt(dinosaur: string, style: string, lesson: string)

  /** The two request shapes: the prompt under `text.raw`, or as `text` itself. */
  datatype Payload = RawText(prompt: Prompt) | PlainText(prompt: Prompt)

  /** The fields of the upstream answer the handler reads:
      `outputs[0].data.text.raw` and `outputs[0].data.text.generated`
      (Undefined where the path is missing). */
  datatype Output = Output(raw: JsValue, generated: JsValue)

  /** What one upstream attempt came back with. */
  datatype Upstream =
    | Unreachable                          // fetch threw
    | Failed(status: int, text: string)    // not ok; text is "" when it could not be read
    | Answered(output: Option<Output>)      // ok; None when the body was not JSON

  datatype ResponseBody =
    | Plain(text: string)
    | Error(error: string)
    | UpstreamError(error: string, status: int, detail: string)
    | Story(story: JsValue)

  datatype Response = Response(statusCode: int, body: ResponseBody)

  /** The response, and the upstream requests made on the way. */
  datatype Outcome = Outcome(response: Response, sent: seq<Payload>)

  const DetailLimit: nat := 800

  const StyleMap: map<string, string> := map[
    "funny" := "divertido y gracioso",
    "adventurous" := "aventurero y emocionante",
    "gentle" := "suave y relajante",
    "magical" := "mágico y encantador",
    "educational" := "educativo y didáctico"
  ]

  const MethodNotAllowed := Response(405, Plain("Method Not Allowed"))
  const InvalidParameters := Response(400, Plain("Parámetros inválidos"))
  const MissingKey := Response(500, Error("Falta CLARIFAI_API_KEY"))
  const MissingIds := Response(500, Error("Faltan CLARIFAI_USER_ID, CLARIFAI_APP_ID, CLARIFAI_MODEL_ID o CLARIFAI_MODEL_VERSION_ID"))
  const NoStory := Response(502, Error("No se pudo generar el cuento"))
  const Crashed := Response(500, Error("Error al generar el cuento"))

  /** `styleMap[style] || style`, as the prompt shows it: the description of a
      known style key, otherwise the style as given. */
  function StylePhrase(style: JsValue): (r: string)
    ensures ToString(style) in StyleMap ==> r == StyleMap[ToString(style)]
    ensures ToString(style) !in StyleMap ==> r == ToString(style)
  {
    var key := ToString(style);
    if key in StyleMap then StyleMap[key] else key
  }

  /** The story in an upstream answer: `raw`, else `generated`, else "". */
  function StoryOf(o: Output): (r: JsValue)
    ensures Truthy(r) <==> Truthy(o.raw) || Truthy(o.generated)
    ensures Truthy(o.raw) ==> r == o.raw
    ensures !Truthy(o.raw) && Truthy(o.generated) ==> r == o.generated
    ensures !Truthy(o.raw) && !Truthy(o.generated) ==> r == Str("")
  {
    Or(o.raw, Or(o.generated, Str("")))
  }

  /** The answer built from an ok upstream response. */
  function FromAnswer(output: Option<Output>, sent: seq<Payload>): Outcome {
    match output
    case None => Outcome(Crashed, sent)
    case Some(o) =>
      var story := StoryOf(o);
      if Truthy(story) then Outcome(Response(200, Story(story)), sent)
      else Outcome(NoStory, sent)
  }

  /** After the first attempt failed with text firstText: try again with the
      prompt as plain text. */
  function Retry(prompt: Prompt, firstText: string, second: Upstream): Outcome {
    var sent := [RawText(prompt), PlainText(prompt)];
    match second
    case Unreachable => Outcome(Crashed, sent)
    case Answered(output) => FromAnswer(output, sent)
    case Failed(status, secondText) =>
      var detail := Slice(if firstText != "" then firstText else secondText, DetailLimit);
      Outcome(Response(if status == 0 then 502 else status,
                       UpstreamError("Clarifai falló", status, detail)), sent)
  }

  /** A POST whose three fields are all present. */
  predicate ValidRequest(httpMethod: string, body: Body) {
    httpMethod == "POST" && body.Fields? &&
    Truthy(body.dinosaur) && Truthy(body.style) && Truthy(body.lesson)
  }

  predicate FullyConfigured(env: Env) {
    env.apiKey && env.userId && env.appId && env.modelId && env.modelVersionId
  }

  /** The handler. */
  function Handle(httpMethod: string, body: Body, env: Env, first: Upstream, second: Upstream): (o: Outcome)
    // only POST is served
    ensures httpMethod != "POST" ==> o == Outcome(MethodNotAllowed, [])
    // a body that cannot be read is an internal error
    ensures httpMethod == "POST" && body.Unparsable? ==> o == Outcome(Crashed, [])
    // a missing field is rejected before anything else is looked at
    ensures httpMethod == "POST" && body.Fields? &&
            (!Truthy(body.dinosaur) || !Truthy(body.style) || !Truthy(body.lesson))
            ==> o == Outcome(InvalidParameters, [])
    // configuration is checked before any upstream call
    ensures ValidRequest(httpMethod, body) && !env.apiKey ==> o == Outcome(MissingKey, [])
    ensures ValidRequest(httpMethod, body) && env.apiKey && !FullyConfigured(env) ==>
              o == Outcome(MissingIds, [])
    // a failure to reach the upstream service, or an unreadable answer, is an internal error
    ensures ValidRequest(httpMethod, body) && FullyConfigured(env) && first.Unreachable? ==>
              o == Outcome(Crashed, o.sent) && |o.sent| == 1
    ensures o.sent == [] ==>
              o.response in {MethodNotAllowed, Crashed, InvalidParameters, MissingKey, MissingIds}
    // the prompt carries the dinosaur, the style phrase and the lesson
    ensures o.sent != [] ==>
              body.Fields? &&
              o.sent[0].prompt == Prompt(ToString(body.dinosaur), StylePhrase(body.style), ToString(body.lesson))
    // at most two attempts, the second only after the first failed, with the other shape
    ensures |o.sent| <= 2
    ensures |o.sent| == 2 ==> first.Failed? && o.sent[0].RawText? && o.sent[1] == PlainText(o.sent[0].prompt)
    ensures |o.sent| == 1 ==> o.sent[0].RawText? && !first.Failed?
    // an upstream failure on both attempts: the upstream status (502 for 0) and a short detail
    ensures o.response.body.UpstreamError? ==>
              |o.sent| == 2 && first.Failed? && second.Failed? &&
              o.response.statusCode == (if second.status == 0 then 502 else second.status) &&
              |o.response.body.detail| <= DetailLimit &&
              o.response.body.detail <= (if first.text != "" then first.text else second.text)
    // a served request sends the prompt once, and again as plain text after a failure
    ensures ValidRequest(httpMethod, body) && FullyConfigured(env) ==>
              var prompt := Prompt(ToString(body.dinosaur), StylePhrase(body.style), ToString(body.lesson));
              o.sent == (if first.Failed? then [RawText(prompt), PlainText(prompt)] else [RawText(prompt)])
    // the attempt that counts decides the response: an unreachable service or an
    // unreadable answer is a crash, a story is a 200, no story a 502, and a second
    // failure the upstream status with the first error text preferred
    ensures ValidRequest(httpMethod, body) && FullyConfigured(env) ==>
              var last := if first.Failed? then second else first;
              (last.Unreachable? ==> o.response == Crashed) &&
              (last == Answered(None) ==> o.response == Crashed) &&
              (last.Answered? && last.output.Some? ==>
                 o.response == (if Truthy(StoryOf(last.output.value))
                                then Response(200, Story(StoryOf(last.output.value)))
                                else NoStory)) &&
              (last.Failed? ==>
                 o.response == Response(if second.status == 0 then 502 else second.status,
                                        UpstreamError("Clarifai falló", second.status,
                                                      Slice(if first.text != "" then first.text else second.text,
                                                            DetailLimit))))
    // a 200 always carries a story, taken from `raw` before `generated`
    ensures o.response.statusCode == 200 && !o.response.body.UpstreamError? ==>
              o.response.body.Story? && Truthy(o.response.body.story) &&
              exists out: Output :: (first == Answered(Some(out)) || second == Answered(Some(out))) &&
                                    o.response.body.story == (if Truthy(out.raw) then out.raw else out.generated)
  {
    if httpMethod != "POST" then Outcome(MethodNotAllowed, [])
    else match body
      case Unparsable => Outcome(Crashed, [])
      case Fields(dinosaur, style, lesson) =>
        if !Truthy(dinosaur) || !Truthy(style) || !Truthy(lesson) then Outcome(InvalidParameters, [])
        else if !env.apiKey then Outcome(MissingKey, [])
        else if !FullyConfigured(env) then Outcome(MissingIds, [])
        else
          var prompt := Prompt(ToString(dinosaur), StylePhrase(style), ToString(lesson));
          match first
          case Unreachable => Outcome(Crashed, [RawText(prompt)])
          case Answered(output) => FromAnswer(output, [RawText(prompt)])
          case Failed(_, firstText) => Retry(prompt, firstText, second)
  }
}
