/** The speech function: an HTTP handler that checks its request, asks the
    upstream text-to-speech model for audio and answers either with JSON naming
    the audio's URL or, when the query asks for `format=binary`, with the audio
    itself. The network calls are inputs: what the upstream call came back with,
    and what downloading the audio's URL gave. */
module GenerateAudio {
  import opened Js

  /** The request body after `JSON.parse(event.body || '{}')`. */
  datatype Body = Fields(text: JsValue) | Unparsable

  /** `outputs[0].data.audio.base64` and `.url` of the upstream answer
      (Undefined where the path is missing). */
  datatype Audio = Audio(base64: JsValue, url: JsValue)

  datatype Upstream =
    | Unreachable                         // fetch threw
    | Failed(status: int, text: string)   // not ok; text is "" when it could not be read
    | Answered(audio: Option<Audio>)      // ok; None when the body was not JSON

  /** Downloading the audio URL. Its HTTP status is not looked at. */
  datatype Download = DownloadThrew | Downloaded(bytes: seq<bv8>, contentType: Option<string>)

  /** The upstream requests the handler makes. */
  datatype Call = Synthesize(text: string) | Fetch(url: string)

  /** A binary body: the upstream's base64 text passed on, or the base64 text
      of downloaded bytes. */
  datatype AudioData = Inline(base64: JsValue) | Encoded(bytes: seq<bv8>)

  datatype ResponseBody =
    | Plain(text: string)
    | Error(error: string)
    | UpstreamError(error: string, detail: string)
    | AudioJson(audioUrl: Option<JsValue>, mime: string)   // None stands for null
    | Binary(data: AudioData)

  datatype Response = Response(statusCode: int, body: ResponseBody, contentType: Option<string>, isBase64Encoded: bool)

  datatype Outcome = Outcome(response: Response, calls: seq<Call>)

  const DetailLimit: nat := 800
  const DefaultMime := "audio/mpeg"

  const MethodNotAllowed := Response(405, Plain("Method Not Allowed"), None, false)
  const InvalidParameters := Response(400, Error("Parámetros inválidos"), None, false)
  const MissingKey := Response(500, Error("Falta CLARIFAI_API_KEY"), None, false)
  const NoAudio := Response(502, Error("Audio no disponible"), None, false)
  const NoBinaryAudio := Response(502, Error("Audio binario no disponible"), None, false)
  const Crashed := Response(500, Error("Error al generar audio"), None, false)

  /** `(format || '').toLowerCase() === 'binary'`. */
  function WantsBinary(format: Option<string>): (b: bool)
    ensures b ==> format.Some? && |format.value| == 6
  {
    ToLower(OrElse(format, "")) == "binary"
  }

  /** Binary mode is chosen by f exactly when f is the six letters of
      "binary", each in either letter case. */
  lemma WantsBinaryIff(f: string)
    ensures WantsBinary(Some(f)) <==>
              |f| == 6 && forall i :: 0 <= i < 6 ==> LowerChar(f[i]) == "binary"[i]
  {
    if |f| == 6 && forall i :: 0 <= i < 6 ==> LowerChar(f[i]) == "binary"[i] {
      LowersTo(f, "binary");
    }
  }

  /** The same for every format value at once. */
  lemma BinaryInAnyCase()
    ensures forall f :: WantsBinary(Some(f)) <==>
              |f| == 6 && forall i :: 0 <= i < 6 ==> LowerChar(f[i]) == "binary"[i]
  {
    forall f
      ensures WantsBinary(Some(f)) <==> |f| == 6 && forall i :: 0 <= i < 6 ==> LowerChar(f[i]) == "binary"[i]
    {
      WantsBinaryIff(f);
    }
  }

  /** The query the page adds for chunked playback selects binary mode, and
      so does its upper-case spelling. */
  lemma PageQuerySelectsBinary()
    ensures WantsBinary(Some("binary")) && WantsBinary(Some("BINARY"))
  {
    LowersTo("binary", "binary");
    LowersTo("BINARY", "binary");
  }

  /** No query, or an empty one, selects JSON mode, and so does any value that
      is not six characters long. */
  lemma JsonByDefault()
    ensures !WantsBinary(None) && !WantsBinary(Some(""))
    ensures forall f :: WantsBinary(Some(f)) ==> |f| == 6
  {
  }

  /** Lower-casing is character by character. */
  lemma LowersTo(s: string, t: string)
    requires |s| == |t| && forall i :: 0 <= i < |s| ==> LowerChar(s[i]) == t[i]
    ensures ToLower(s) == t
  {
  }

  /** A POST whose text is a non-empty string. */
  predicate ValidRequest(httpMethod: string, body: Body) {
    httpMethod == "POST" && body.Fields? && body.text.Str? && body.text.s != ""
  }

  /** `x || null`. */
  function OrNull(v: JsValue): (r: Option<JsValue>)
    ensures r.Some? <==> Truthy(v)
    ensures r.Some? ==> r.value == v
  {
    if Truthy(v) then Some(v) else None
  }

  /** Binary mode: the inline audio if there is some, else the downloaded one. */
  function BinaryAnswer(audio: Audio, download: Download, calls: seq<Call>): Outcome {
    if Truthy(audio.base64) then
      Outcome(Response(200, Binary(Inline(audio.base64)), Some(DefaultMime), true), calls)
    else
      var fetched := calls + [Fetch(ToString(audio.url))];
      match download
      case DownloadThrew => Outcome(Crashed, fetched)
      case Downloaded(bytes, contentType) =>
        if bytes == [] then Outcome(NoBinaryAudio, fetched)
        else Outcome(Response(200, Binary(Encoded(bytes)), Some(OrElse(contentType, DefaultMime)), true), fetched)
  }

  /** The handler. */
  function Handle(httpMethod: string, body: Body, apiKey: bool, format: Option<string>,
                  upstream: Upstream, download: Download): (o: Outcome)
    // rejections made before any upstream call
    ensures httpMethod != "POST" ==> o == Outcome(MethodNotAllowed, [])
    ensures httpMethod == "POST" && body.Unparsable? ==> o == Outcome(Crashed, [])
    ensures httpMethod == "POST" && body.Fields? && !ValidRequest(httpMethod, body) ==>
              o == Outcome(InvalidParameters, [])
    ensures ValidRequest(httpMethod, body) && !apiKey ==> o == Outcome(MissingKey, [])
    // otherwise the text goes upstream first; the audio URL is fetched only in
    // binary mode, and only when no inline audio came back
    ensures ValidRequest(httpMethod, body) && apiKey ==>
              |o.calls| >= 1 && o.calls[0] == Synthesize(body.text.s)
    ensures |o.calls| <= 2
    ensures |o.calls| == 2 ==>
              WantsBinary(format) && upstream.Answered? && upstream.audio.Some? &&
              !Truthy(upstream.audio.value.base64) && Truthy(upstream.audio.value.url) &&
              o.calls[1] == Fetch(ToString(upstream.audio.value.url))
    // an upstream error is passed on with its status (502 for 0) and a short detail
    ensures |o.calls| >= 1 && upstream.Failed? ==>
              o.response.statusCode == (if upstream.status == 0 then 502 else upstream.status) &&
              o.response.body.UpstreamError? &&
              |o.response.body.detail| <= DetailLimit && o.response.body.detail <= upstream.text
    // neither inline audio nor a URL: 502
    ensures |o.calls| >= 1 && upstream.Answered? && upstream.audio.Some? &&
            !Truthy(upstream.audio.value.base64) && !Truthy(upstream.audio.value.url) ==>
              o == Outcome(NoAudio, o.calls)
    // exact responses once the text went upstream: a failed call or unreadable
    // answer is a crash, an upstream failure is passed on with its text cut to
    // the detail limit
    ensures ValidRequest(httpMethod, body) && apiKey && (upstream.Unreachable? || upstream == Answered(None)) ==>
              o == Outcome(Crashed, [Synthesize(body.text.s)])
    ensures ValidRequest(httpMethod, body) && apiKey && upstream.Failed? ==>
              o == Outcome(Response(if upstream.status == 0 then 502 else upstream.status,
                                    UpstreamError("Clarifai TTS falló", Slice(upstream.text, DetailLimit)),
                                    None, false),
                           [Synthesize(body.text.s)])
    // usable audio: JSON mode names the URL; binary mode sends the inline audio,
    // or downloads the URL and sends its bytes (500 if the download throws, 502
    // if it is empty)
    ensures ValidRequest(httpMethod, body) && apiKey && upstream.Answered? && upstream.audio.Some? &&
            (Truthy(upstream.audio.value.base64) || Truthy(upstream.audio.value.url)) ==>
              var a := upstream.audio.value;
              (!WantsBinary(format) ==>
                 o == Outcome(Response(200, AudioJson(OrNull(a.url), DefaultMime), None, false),
                              [Synthesize(body.text.s)])) &&
              (WantsBinary(format) && Truthy(a.base64) ==>
                 o == Outcome(Response(200, Binary(Inline(a.base64)), Some(DefaultMime), true),
                              [Synthesize(body.text.s)])) &&
              (WantsBinary(format) && !Truthy(a.base64) ==>
                 o.calls == [Synthesize(body.text.s), Fetch(ToString(a.url))] &&
                 (download.DownloadThrew? ==> o.response == Crashed) &&
                 (download.Downloaded? && download.bytes == [] ==> o.response == NoBinaryAudio) &&
                 (download.Downloaded? && download.bytes != [] ==>
                    o.response == Response(200, Binary(Encoded(download.bytes)),
                                           Some(OrElse(download.contentType, DefaultMime)), true)))
    // a success has the form the mode asks for
    ensures o.response.statusCode == 200 && !o.response.body.UpstreamError? ==>
              upstream.Answered? && upstream.audio.Some? &&
              (o.response.body.Binary? <==> WantsBinary(format)) &&
              (o.response.isBase64Encoded <==> WantsBinary(format))
    // JSON mode names only the URL (or null) and always says audio/mpeg
    ensures o.response.body.AudioJson? ==>
              upstream.Answered? && upstream.audio.Some? && !WantsBinary(format) &&
              o.response.body == AudioJson(OrNull(upstream.audio.value.url), DefaultMime)
    // binary mode prefers the inline audio, and never answers 200 with nothing
    ensures o.response.body.Binary? ==>
              o.response.statusCode == 200 && upstream.Answered? && upstream.audio.Some? &&
              (o.response.body.data.Inline? <==> Truthy(upstream.audio.value.base64)) &&
              (o.response.body.data.Inline? ==>
                 Truthy(o.response.body.data.base64) && o.response.contentType == Some(DefaultMime)) &&
              (o.response.body.data.Encoded? ==>
                 download.Downloaded? && o.response.body.data.bytes == download.bytes != [] &&
                 o.response.contentType == Some(OrElse(download.contentType, DefaultMime)))
  {
    if httpMethod != "POST" then Outcome(MethodNotAllowed, [])
    else match body
      case Unparsable => Outcome(Crashed, [])
      case Fields(text) =>
        if !(text.Str? && text.s != "") then Outcome(InvalidParameters, [])
        else if !apiKey then Outcome(MissingKey, [])
        else
          var calls := [Synthesize(text.s)];
          match upstream
          case Unreachable => Outcome(Crashed, calls)
          case Failed(status, detail) =>
            Outcome(Response(if status == 0 then 502 else status,
                             UpstreamError("Clarifai TTS falló", Slice(detail, DetailLimit)), None, false), calls)
          case Answered(None) => Outcome(Crashed, calls)
          case Answered(Some(audio)) =>
            if !Truthy(audio.base64) && !Truthy(audio.url) then Outcome(NoAudio, calls)
            else if WantsBinary(format) then BinaryAnswer(audio, download, calls)
            else Outcome(Response(200, AudioJson(OrNull(audio.url), DefaultMime), None, false), calls)
  }
}
