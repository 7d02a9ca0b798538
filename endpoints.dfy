/** Where the page sends its requests. The story endpoint is fixed; the speech
    endpoint is derived from two optional build-time settings, the backend base
    URL and the speech base URL. */
module Endpoints {
  import opened Js

  const DefaultBase := "/.netlify/functions"
  const StoryEndpoint := "/.netlify/functions/generate-story"
  const BinaryQuery := "?format=binary"

  /** `s.replace(/\/$/, '')`: one trailing '/' removed, if there is one. */
  function StripSlash(s: string): (r: string)
    ensures EndsWith(s, "/") ==> r + "/" == s
    ensures !EndsWith(s, "/") ==> r == s
  {
    if s != [] && s[|s| - 1] == '/' then s[..|s| - 1] else s
  }

  /** The backend base: the setting if it is non-empty, else the default. */
  function ApiBase(backendSetting: Option<string>): (r: string)
    ensures backendSetting.None? || backendSetting == Some("") ==> r == DefaultBase
    ensures backendSetting.Some? && backendSetting.value != "" && EndsWith(backendSetting.value, "/") ==>
              r + "/" == backendSetting.value
    ensures backendSetting.Some? && backendSetting.value != "" && !EndsWith(backendSetting.value, "/") ==>
              r == backendSetting.value
  {
    StripSlash(OrElse(backendSetting, DefaultBase))
  }

  /** The speech base: its own setting if non-empty, else the backend base,
      with one more trailing '/' removed either way. */
  function SpeechBase(speechSetting: Option<string>, backendSetting: Option<string>): (r: string)
    ensures speechSetting.Some? && speechSetting.value != "" && EndsWith(speechSetting.value, "/") ==>
              r + "/" == speechSetting.value
    ensures speechSetting.Some? && speechSetting.value != "" && !EndsWith(speechSetting.value, "/") ==>
              r == speechSetting.value
    ensures (speechSetting.None? || speechSetting == Some("")) ==>
              (EndsWith(ApiBase(backendSetting), "/") ==> r + "/" == ApiBase(backendSetting)) &&
              (!EndsWith(ApiBase(backendSetting), "/") ==> r == ApiBase(backendSetting))
    ensures ((speechSetting.None? || speechSetting == Some("")) &&
             (backendSetting.None? || backendSetting == Some(""))) ==> r == DefaultBase
  {
    StripSlash(OrElse(speechSetting, ApiBase(backendSetting)))
  }

  /** With only the backend setting given, its trailing '/' is removed twice:
      once for the backend base and once more for the speech base. */
  lemma BackendOnlyStripsTwice()
    ensures SpeechBase(None, Some("https://h/api//")) == "https://h/api"
    ensures ApiBase(Some("https://h/api//")) == "https://h/api/"
  {
    assert EndsWith("https://h/api//", "/");
    assert EndsWith("https://h/api/", "/");
    assert "https://h/api/" + "/" == "https://h/api//";
    assert "https://h/api" + "/" == "https://h/api/";
  }

  /** The speech endpoint: `/generate-audio` under a serverless-functions base,
      `/tts` under any other base. */
  function SpeechEndpoint(speechSetting: Option<string>, backendSetting: Option<string>): string {
    var base := SpeechBase(speechSetting, backendSetting);
    if EndsWith(base, DefaultBase) then base + "/generate-audio" else base + "/tts"
  }

  /** A string ends with what was appended to it. */
  lemma EndsWithAppended(a: string, b: string)
    ensures EndsWith(a + b, b)
  {
    assert (a + b)[|a|..] == b;
  }

  /** Two strings with the same suffix end in the same character. */
  lemma SameLastChar(r: string, x: string)
    requires x != "" && EndsWith(r, x)
    ensures r[|r| - 1] == x[|x| - 1]
  {
    assert r[|r| - |x|..][|x| - 1] == r[|r| - 1];
  }

  /** The two route suffixes cannot be told apart by anything but their last
      character, which differs. */
  lemma RoutesDiffer(base: string)
    ensures EndsWith(base + "/generate-audio", "/generate-audio") && !EndsWith(base + "/generate-audio", "/tts")
    ensures EndsWith(base + "/tts", "/tts") && !EndsWith(base + "/tts", "/generate-audio")
  {
    var g := base + "/generate-audio";
    var t := base + "/tts";
    EndsWithAppended(base, "/generate-audio");
    EndsWithAppended(base, "/tts");
    SameLastChar(g, "/generate-audio");
    SameLastChar(t, "/tts");
    if EndsWith(g, "/tts") { SameLastChar(g, "/tts"); }
    if EndsWith(t, "/generate-audio") { SameLastChar(t, "/generate-audio"); }
  }

  /** Which of the two routes is taken depends only on whether the speech base
      names the serverless-functions directory. */
  lemma SpeechEndpointRoute(speechSetting: Option<string>, backendSetting: Option<string>)
    ensures var base := SpeechBase(speechSetting, backendSetting);
            var r := SpeechEndpoint(speechSetting, backendSetting);
            (EndsWith(r, "/generate-audio") <==> EndsWith(base, DefaultBase)) &&
            (EndsWith(r, "/tts") <==> !EndsWith(base, DefaultBase))
  {
    RoutesDiffer(SpeechBase(speechSetting, backendSetting));
  }

  /** The endpoint the chunked strategy posts to: the speech endpoint asking
      for raw audio. */
  function BinarySpeechEndpoint(speechSetting: Option<string>, backendSetting: Option<string>): string {
    SpeechEndpoint(speechSetting, backendSetting) + BinaryQuery
  }

  /** With neither setting, speech goes to the bundled function. */
  lemma DefaultSpeechEndpoint()
    ensures SpeechEndpoint(None, None) == "/.netlify/functions/generate-audio"
    ensures BinarySpeechEndpoint(None, None) == "/.netlify/functions/generate-audio?format=binary"
  {
    assert ApiBase(None) == DefaultBase;
    assert SpeechBase(None, None) == DefaultBase;
    EndsWithAppended("", DefaultBase);
  }

  /** A trailing '/' on a setting makes no difference. */
  lemma TrailingSlashIgnored(speech: string, backend: Option<string>)
    requires speech != "" && !EndsWith(speech, "/")
    ensures SpeechEndpoint(Some(speech + "/"), backend) == SpeechEndpoint(Some(speech), backend)
  {
    var s := speech + "/";
    assert s[|s| - 1] == '/' && s[..|s| - 1] == speech;
  }
}
