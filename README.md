# cuenta-dinos, modelled in Dafny

cuenta-dinos is a bedtime-story wizard. The page collects a dinosaur, a story
style and a lesson over three form steps. It sends them to a serverless story
function that asks a hosted text model for a story, and it can read the story
aloud. Reading aloud tries three strategies in order:

1. one audio asset from a serverless speech function;
2. the story sentence by sentence through Web Audio;
3. the device's speech synthesizer.

This project models:

- **The page** (`src/App.jsx`). This covers the form and its gates, the
  progress bar, step navigation, story creation with its local fallback
  story, the reset button, the story-change effect, the read/stop button and
  its whole fallback cascade, the sentence chunker, the speech-endpoint
  derivation, and the bounded audio log.
- **The two serverless handlers** (`netlify/functions/generate-story.js`,
  `netlify/functions/generate-audio.js`).

How each part is modelled:

- `Js` models the JavaScript value semantics the code relies on: truthiness,
  `||`, `trim`, `slice`, `endsWith` and `toLowerCase`.
- `Chunker` models the sentence chunker
  `split(/(?<=\.)\s+/).map(trim).filter(Boolean)`. It proves the shape of
  every chunk and that joining well-formed sentences with spaces chunks back
  into the same list.
- `Endpoints` models how the speech endpoint is derived from the two
  optional build settings.
- `AudioLogs` is a class holding the log. It keeps only the newest sixty
  entries.
- `GenerateStory` and `GenerateAudio` model the handlers. Each is a pure
  function from the method, the parsed body, which settings are present and
  what each upstream call came back with, to the response and the list of
  upstream calls made.
- `Wizard` holds the pure parts of the page.
- `Playback` models the reading cascade. It is a function of how each outside
  step turned out: the single-asset request, `play()`, each chunk's request
  and decoding, whether Web Audio is there, and whether the device can speak.
- `PageState` holds the page's whole state as a value, with one transition
  function per handler. It proves the handlers' properties and the invariant
  they keep.
- `App.Page` is the page as a class whose fields the handlers update in
  place. Each method is proved to move the fields exactly as its `PageState`
  or `Playback` function says: the parts of the start path
  (`PlayChunksWebAudio`, `SpeakFallback`, `ChunksThenCatch`) follow
  `Playback.ChunkLoop`, `Playback.Speak` and `Playback.AfterChunks`. The constructor and the methods that are whole handlers
  (the form, navigation, story, reset, read/stop and ending handlers) are
  also proved to keep the invariant. The steps inside the read/stop button
  (`StoryChanged`, `StopReading`, `StartReading` and the parts of the start
  path it calls) are proved only to move the fields as their functions say;
  `ToggleRead`, which runs them, keeps the invariant. The chunk loop of
  `playChunksWebAudio` is a `while` loop proved against `Playback.ChunkLoop`.

Three behaviours of the code are kept as written, although each differs from
what one would expect of a page that reads a story aloud.

- **The chunk loop stops after its first chunk.** The guard `!isReading && i > 0`
  reads the `isReading` that the click handler's closure captured. That value
  is always `false` on the start path, so at most one chunk is ever requested
  and played, not the whole story. `Playback.StaleGuardStopsAfterFirstChunk`
  proves this. `Playback.LiveGuardPlaysEveryChunk` proves what a live guard
  would give.
- **The page can be left reading with nothing sounding.** This happens when
  the speech function answers with a non-2xx status or names no audio, Web
  Audio is missing or fails, and the device cannot speak. (A request that
  throws or times out goes straight to the synthesizer fallback instead, and
  leaves the page idle when the device cannot speak.) One would expect playback then to end idle,
  but the code leaves `isReading` set. See `Playback.ReadingWithNothingPlaying`
  and `PageState.ReadingWithNothingSounding`.
- **Stopping does not release everything.** The stop branch of the button
  does three things: it pauses the element (keeping it), forgets the object
  URL and cancels speech. It neither stops a Web Audio buffer source nor
  suspends the context. Only `resetAll` does those.

## Model

| member | source | states |
|---|---|---|
| Js.Or | netlify/functions/generate-story.js:104-107 | `a \|\| b` is truthy iff either operand is; it is `a` whenever `a` is truthy and `b` whenever `a` is falsy |
| Js.OrElse | src/App.jsx:50-51 | `x \|\| fallback` on an optional string: the value when it is present and non-empty, the fallback otherwise |
| Js.Trim | src/App.jsx:69 | `trim()` yields a string with no white space at either end, cut out of the input between its leading and trailing white space |
| Js.TrimEmptyIffBlank | src/App.jsx:69 | a string trims to "" exactly when every character is white space |
| Js.TrimOfTrimmed | src/App.jsx:274 | trimming a string with no white space at its ends changes nothing |
| Js.Slice | netlify/functions/generate-story.js:97 | `slice(0, n)` gives a prefix of at most n characters: the whole string when it is no longer than n, exactly its first n characters otherwise |
| Js.LowerChar | netlify/functions/generate-audio.js:18 | an ASCII capital lowers to the small letter 32 code points above it; every other character is kept |
| Js.ToLower | netlify/functions/generate-audio.js:18 | lower-casing keeps the length and maps each character on its own |
| Chunker.NextBreak | src/App.jsx:273 | the first position where the split pattern matches (a '.' then white space) at or after i, or the end when there is none |
| Chunker.NextBreakAt | src/App.jsx:273 | any position that is a match with no match before it is the one NextBreak finds |
| Chunker.Split | src/App.jsx:273 | the split always has at least one piece |
| Chunker.SplitHead | src/App.jsx:273 | the first piece starts where the story starts |
| Chunker.SplitGreedy | src/App.jsx:273 | the match takes the whole run of white space: no piece after the first starts with white space |
| Chunker.HeadShape | src/App.jsx:273 | the first piece has no match inside, ends in '.', and is cut off by a non-empty run of white space |
| Chunker.SplitJoins | src/App.jsx:273 | putting each piece's consumed white space back after it rebuilds the story exactly |
| Chunker.WellCutCons | src/App.jsx:273 | a sentence cut off by white space, put in front of well-cut pieces, gives well-cut pieces |
| Chunker.SplitPieces | src/App.jsx:273 | no piece holds a '.' followed by white space; every piece but the last ends in '.' and was cut off by white space; the last consumed none |
| Chunker.TrimTexts | src/App.jsx:274 | `map(trim)` keeps the count and trims each piece in place |
| Chunker.NonEmpty | src/App.jsx:275 | `filter(Boolean)` keeps only non-empty strings, each one drawn from the input, never more than the input, and every non-empty input string is kept |
| Chunker.NonEmptyAppend | src/App.jsx:275 | filtering a concatenation is concatenating the filtered parts, so the kept strings stay in input order |
| Chunker.Chunks | src/App.jsx:272-275 | split at each '.' followed by white space, trim, drop the empty pieces; its shape is proved by ChunkShape and its round trip by ChunksOfJoin |
| Chunker.TrimKeepsNoBreak | src/App.jsx:272-275 | trimming a piece with no match inside cannot create one |
| Chunker.TrimKeepsPeriod | src/App.jsx:272-275 | a piece ending in '.' still ends in '.' once trimmed |
| Chunker.NonEmptyKeepsPeriods | src/App.jsx:275 | dropping empty strings keeps "every string but the last ends in '.'" |
| Chunker.ChunkShape | src/App.jsx:272-275 | every chunk is non-empty, has no white space at either end and no '.' followed by white space, and every chunk but the last ends in '.' |
| Chunker.OneSentence | src/App.jsx:400-403 | a story that is one well-formed sentence is one chunk, itself |
| Chunker.SentenceThenRest | src/App.jsx:400-403 | a sentence, white space and the rest chunk into that sentence followed by the chunks of the rest, so chunks keep the story's order |
| Chunker.JoinSentencesStart | src/App.jsx:400-403 | sentences joined with spaces start with the first sentence's first character |
| Chunker.ChunksOfJoin | src/App.jsx:400-403 | round trip: well-formed sentences joined with single spaces chunk back into exactly the same list |
| Endpoints.StripSlash | src/App.jsx:50-51 | `replace(/\/$/, '')` removes exactly one trailing '/', and nothing when there is none |
| Endpoints.ApiBase | src/App.jsx:50 | the backend base is the default functions path when the setting is missing or empty; otherwise it is the setting with its one trailing '/' removed when it ends in '/', and the setting itself when it does not |
| Endpoints.SpeechBase | src/App.jsx:51 | a non-empty speech setting gives itself with one trailing '/' removed when it ends in '/', and itself when it does not; without one, the backend base with one more trailing '/' removed in the same way; the default functions path when neither setting is given |
| Endpoints.BackendOnlyStripsTwice | src/App.jsx:50-51 | with only the backend setting `https://h/api//`, the backend base keeps one '/' and the speech base none: the trailing '/' is removed twice |
| Endpoints.SpeechEndpoint | src/App.jsx:52-54 | the speech base with `/generate-audio` or `/tts` appended; which route is chosen is proved by SpeechEndpointRoute |
| Endpoints.BinarySpeechEndpoint | src/App.jsx:55 | the speech endpoint with `?format=binary` appended; its default value is proved by DefaultSpeechEndpoint |
| Endpoints.EndsWithAppended | src/App.jsx:54 | a string ends with whatever was appended to it |
| Endpoints.SameLastChar | src/App.jsx:54 | a string ending with a suffix ends in the suffix's last character |
| Endpoints.RoutesDiffer | src/App.jsx:54 | a base plus `/generate-audio` ends with that route and not with `/tts`, and the other way round |
| Endpoints.SpeechEndpointRoute | src/App.jsx:52-54 | the endpoint ends in `/generate-audio` iff the speech base ends in `/.netlify/functions`, and in `/tts` iff it does not |
| Endpoints.DefaultSpeechEndpoint | src/App.jsx:50-55 | with neither setting, speech goes to `/.netlify/functions/generate-audio`, and the chunks to the same path with `?format=binary` |
| Endpoints.TrailingSlashIgnored | src/App.jsx:51 | a speech setting with or without one trailing '/' gives the same endpoint |
| AudioLogs.Newest | src/App.jsx:128 | `slice(-n)`: the last min(n, length) entries, as a suffix |
| AudioLogs.Appended | src/App.jsx:128 | the entry goes last, the log grows by one up to sixty and then stays at sixty, and the older entries kept are the newest ones, in order |
| AudioLogs.AppendedKeepsNewest | src/App.jsx:127-129 | trimming on every append equals keeping the newest sixty of every entry ever added |
| AudioLogs.AudioLog.constructor | src/App.jsx:47 | the log starts empty |
| AudioLogs.AudioLog.Add | src/App.jsx:127-129 | `addAudioLog` appends and trims, and the log stays the newest sixty entries of its whole history |
| GenerateStory.StylePhrase | netlify/functions/generate-story.js:10-20 | `styleMap[style] \|\| style`: a known key gives its description, anything else is used as given |
| GenerateStory.StoryOf | netlify/functions/generate-story.js:104-107 | the story is truthy iff `raw` or `generated` is; it is `raw` when that is truthy, else `generated` when that is truthy, else "" |
| GenerateStory.Handle | netlify/functions/generate-story.js:1-122 | 405 for any non-POST; 500 for an unreadable body; 400 when any field is falsy; 500 for a missing key or id, before any upstream call; the prompt carries the fields and the style phrase and is sent once, and a second time as plain text exactly after a failed first attempt; for a served request the attempt that counts decides the exact response: unreachable or unreadable gives 500, an output gives 200 with `StoryOf` of it when that is truthy and 502 otherwise, and a second failure gives the upstream status (502 for 0) with `slice(0, 800)` of the first error text, or of the second when the first is empty |
| GenerateAudio.WantsBinary | netlify/functions/generate-audio.js:18 | binary mode needs a `format` of six characters; which ones is proved by WantsBinaryIff |
| GenerateAudio.WantsBinaryIff | netlify/functions/generate-audio.js:18 | a `format` selects binary mode iff it has six characters that lower-case to b, i, n, a, r, y |
| GenerateAudio.BinaryInAnyCase | netlify/functions/generate-audio.js:18 | for every string: binary mode iff six characters lowering pointwise to "binary", so any letter case selects it |
| GenerateAudio.PageQuerySelectsBinary | src/App.jsx:55 | the page's `?format=binary` query, and its upper-case spelling, select binary mode |
| GenerateAudio.LowersTo | netlify/functions/generate-audio.js:18 | a string lowers to t when each character lowers to the matching character of t |
| GenerateAudio.JsonByDefault | netlify/functions/generate-audio.js:18 | no `format`, or an empty one, selects JSON mode, and so does any value not six characters long |
| GenerateAudio.OrNull | netlify/functions/generate-audio.js:47-48 | `x \|\| null` is the value exactly when it is truthy |
| GenerateAudio.Handle | netlify/functions/generate-audio.js:1-79 | 405 for any non-POST; 500 for an unreadable body; 400 unless `text` is a non-empty string; 500 without a key; otherwise the text goes upstream first, and the exact response follows: an unreachable upstream or an unreadable answer gives 500; an upstream failure gives its status (502 for 0) with `slice(0, 800)` of its text; no audio at all gives 502; JSON mode gives 200 naming the URL or null with `audio/mpeg`; binary mode gives 200 with the inline audio, base64-marked, or else fetches the URL and gives 500 if that throws, 502 for empty bytes and 200 with the encoded bytes and their type (default `audio/mpeg`) otherwise |
| Wizard.CanCreateIffVisibleLesson | src/App.jsx:69 | the create button is enabled iff the lesson has a character that is not white space |
| Wizard.CanContinueStep0 | src/App.jsx:67 | the first step's button needs a non-empty dinosaur; PageState.GatesFollowSelection proves how picking one opens it |
| Wizard.CanContinueStep1 | src/App.jsx:68 | the second step's button needs a non-empty style; PageState.GatesFollowSelection proves how picking one opens it |
| Wizard.CanCreate | src/App.jsx:69 | the create button needs a lesson that trims to a non-empty string; CanCreateIffVisibleLesson proves what that means |
| Wizard.OnlyLessonIsTrimmed | src/App.jsx:67-69 | for every non-empty string of white space: as a dinosaur or a style it opens its gate, as a lesson it does not |
| Wizard.ProgressInfo | src/App.jsx:71-75 | the bar shows 33, 67 or 100; "Paso 1 de 3" at 33 exactly up to step 0, "Paso 2 de 3" at 67 exactly at step 1, "Paso 3 de 3" at 100 exactly from step 2 on |
| Wizard.ProgressMonotone | src/App.jsx:71-75 | the bar never moves back as the step grows |
| Wizard.NextStep | src/App.jsx:198-200 | forward moves at most one step and stays put exactly from step 2 on |
| Wizard.PrevStep | src/App.jsx:201-203 | back moves at most one step and stays put exactly up to step 0 |
| Wizard.NavigationStaysInForm | src/App.jsx:198-203 | any sequence of forward and back presses from a form step stays within steps 0-2 |
| Wizard.NextBackRoundTrip | src/App.jsx:198-203 | forward then back, and back then forward, return to the same form step |
| Wizard.FallbackStory | src/App.jsx:438 | the fallback story holds the dinosaur and the lesson at fixed places of the sentence and ends in '.' |
| Wizard.StoryFor | src/App.jsx:428-440 | the story shown is never empty: the returned story when it is non-empty, otherwise exactly `"Había una vez un " + dinosaur + " que aprendió: " + lesson + "."` |
| Wizard.PageShowsFunctionStory | src/App.jsx:419-439 | end to end with the story function: a 200 with a string story is what the page shows, and any error status makes the page show the fallback |
| Playback.ChunkLoop | src/App.jsx:280-313 | the chunk loop never plays more than it fetches or more than there are chunks; every chunk it played succeeded; a success played every fetched chunk; a failure fetched one chunk more than it played, and that chunk failed |
| Playback.StaleGuardStopsAfterFirstChunk | src/App.jsx:281-282 | with the captured `isReading == false`, at most one chunk is fetched, and the run is decided by the first chunk alone |
| Playback.LiveGuardPlaysEveryChunk | src/App.jsx:281-310 | had the guard seen the live reading flag, every chunk would be fetched and played when all succeed |
| Playback.PlayChunks | src/App.jsx:270-317 | `playChunksWebAudio` started from the button: without Web Audio nothing is requested and it fails, otherwise it is ChunkLoop with the captured guard `false`; a part of Cascade |
| Playback.Speak | src/App.jsx:381-392 | the outer `catch`: with a synthesizer the page reads and speaks, without one the reading flag stays as it was; loading always clears; a part of Cascade |
| Playback.AfterChunks | src/App.jsx:331-333 | after the chunks: a success ends reading with nothing more tried, a failure goes on to the outer `catch`; a part of Cascade |
| Playback.Cascade | src/App.jsx:319-392 | the reading run for each outcome of the request, `play()`, the chunks and the synthesizer, made of PlayChunks, AfterChunks and Speak; its properties are proved by CascadeOutcome |
| Playback.CascadeOutcome | src/App.jsx:319-392 | strategies run in the fixed order; the chunks run iff the request was not ok, named no audio or `play()` was refused; synthesis runs iff the device can speak and the request threw or the chunks failed; the page speaks iff synthesis ran; the loading flag always clears; at most one chunk is fetched, and when the chunks run the counts fetched and played are those of PlayChunks; the page reads iff audio plays, the device speaks, or the chunks failed after a non-2xx or audio-less answer with no synthesizer |
| Playback.ReadingWithNothingPlaying | src/App.jsx:324-334 | a request that is not ok, no Web Audio and no synthesizer leave the page reading with nothing fetched or spoken |
| Playback.SingleAssetPlaysOnlyUrls | netlify/functions/generate-audio.js:70-74 | end to end with the speech function's JSON mode: the page never gets inline audio, and gets a URL exactly when the upstream gave one |
| PageState.SelectDinosaur | src/App.jsx:173-178 | picking a dinosaur sets it and nothing else; FormHandlersKeepInv and GatesFollowSelection prove its properties |
| PageState.SelectStyle | src/App.jsx:180-185 | picking a style sets it and nothing else; FormHandlersKeepInv and GatesFollowSelection prove its properties |
| PageState.SetLesson | src/App.jsx:187-196 | picking a lesson (`handleSelectLesson`; `handleLesson` does the same but no element uses it) sets it and nothing else; FormHandlersKeepInv and GatesFollowSelection prove its properties |
| PageState.GoNext | src/App.jsx:198-200 | forward changes only the step, as NextStep says; FormHandlersKeepInv proves it keeps the page consistent |
| PageState.GoBack | src/App.jsx:201-203 | back changes only the step, as PrevStep says; FormHandlersKeepInv proves it keeps the page consistent |
| PageState.StartCreateStory | src/App.jsx:406-418 | the click shows the generating step and sets the generating flag; CreateStoryKeepsInv and CreateStoryShowsStory prove its properties |
| PageState.StoryChanged | src/App.jsx:85-103 | a new story stops speech, drops the element and its URL and clears reading, leaving the buffer source and the loading flag |
| PageState.SettleCreateStory | src/App.jsx:419-444 | the settled story is StoryFor of the reply on step 4, and a changed story runs StoryChanged; CreateStoryShowsStory proves its properties |
| PageState.ResetAll | src/App.jsx:205-241 | reset is the initial page with any context kept suspended; ResetForgetsEverything proves its properties |
| PageState.StopReading | src/App.jsx:246-265 | stopping pauses but keeps the element, forgets the URL, ends speech and clears reading; ToggleTwiceStops proves its use |
| PageState.StartReading | src/App.jsx:267-393 | starting moves the flags, the element, the buffer source and the context as Cascade's run says; StartReadingOutcome proves its properties |
| PageState.ToggleRead | src/App.jsx:243-393 | nothing without a story, stop while reading, else start with the story's chunk count; ToggleReadKeepsInv, StartReadingOutcome and ToggleTwiceStops prove its properties |
| PageState.AudioEnded | src/App.jsx:361 | the element's end pauses it and clears reading; ResetAndEndingsKeepInv proves it keeps the page consistent |
| PageState.SpeechEnded | src/App.jsx:389 | the utterance's end clears speaking and reading; ResetAndEndingsKeepInv proves it keeps the page consistent |
| PageState.FormHandlersKeepInv | src/App.jsx:173-203 | the initial state is consistent, and the selection and navigation handlers keep it so |
| PageState.CreateStoryKeepsInv | src/App.jsx:406-444 | both halves of creating a story keep the page consistent |
| PageState.ResetAndEndingsKeepInv | src/App.jsx:205-241 | resetting, and the end of the element's or the synthesizer's playback, keep the page consistent |
| PageState.ToggleReadKeepsInv | src/App.jsx:243-393 | the read/stop button keeps the page consistent: on a step 0-4, a story on step 4, and anything sounding reported as reading but never both element and speech |
| PageState.GatesFollowSelection | src/App.jsx:67-69 | after picking a dinosaur or a style its gate is open iff the value is non-empty; after setting the lesson the create gate is open iff it has a visible character |
| PageState.CreateStoryShowsStory | src/App.jsx:85-103 | creating a story always ends on step 4, not generating, with a non-empty story that is the returned one or the fallback from the form at the click; a new story stops whatever was being read and keeps the form |
| PageState.ResetForgetsEverything | src/App.jsx:205-241 | reset empties the form and story, goes to step 0, clears every flag and handle, keeps a context only suspended, and doing it twice is doing it once |
| PageState.StartReadingOutcome | src/App.jsx:267-393 | starting to read always clears the loading flag, plays the element iff a source came back and `play()` was accepted, never both plays and speaks, speaks only with a synthesizer, and changes the context only to a running one when Web Audio is there |
| PageState.ToggleTwiceStops | src/App.jsx:246-265 | pressing the button again after a start that left the page reading stops the reading, the speech, the element and the object URL |
| PageState.ReadingWithNothingSounding | src/App.jsx:324-334 | on the page, a non-2xx answer from the speech function with no Web Audio and no synthesizer leaves it reading with nothing sounding and the buffer source as it was (no new one is made) |
| App.Page.constructor | src/App.jsx:40-45 | the page starts at step 0 with an empty form and story and nothing playing, consistent |
| App.Page.SelectDinosaur | src/App.jsx:173-178 | sets only the dinosaur and keeps the page consistent |
| App.Page.SelectStyle | src/App.jsx:180-185 | sets only the style and keeps the page consistent |
| App.Page.SetLesson | src/App.jsx:187-196 | sets only the lesson and keeps the page consistent |
| App.Page.GoNext | src/App.jsx:198-200 | moves one step forward below step 2 and otherwise stays, keeping the page consistent |
| App.Page.GoBack | src/App.jsx:201-203 | moves one step back above step 0 and otherwise stays, keeping the page consistent |
| App.Page.StartCreateStory | src/App.jsx:406-418 | shows the loading step and returns the form the request and the fallback are made from |
| App.Page.StoryChanged | src/App.jsx:85-103 | a new story cancels speech, drops the element and the object URL and clears the reading flag, nothing else |
| App.Page.SettleCreateStory | src/App.jsx:419-444 | shows the settled story on step 4, clears the generating flag and runs the story-change effect when the story changed |
| App.Page.ResetAll | src/App.jsx:205-241 | moves the page to the reset state and keeps it consistent |
| App.Page.PlayChunksWebAudio | src/App.jsx:270-318 | the loop's run is exactly ChunkLoop's; the context runs when one was ready; a buffer source is held once a chunk played; loading clears at the first chunk or the end; reading clears only on success |
| App.Page.StopReading | src/App.jsx:246-265 | pauses but keeps the element, forgets the URL, cancels speech and clears reading, nothing else |
| App.Page.SpeakFallback | src/App.jsx:381-392 | the outer `catch` clears loading, and reads and speaks exactly when the device can speak |
| App.Page.StartAfterFailedRequest | src/App.jsx:319-323 | a request that threw goes straight to the outer `catch`, as the cascade says |
| App.Page.ChunksThenCatch | src/App.jsx:330-333 | the chunks are tried and, if they fail, the outer `catch` runs from the given reading flag, as the cascade says |
| App.Page.StartWithoutSource | src/App.jsx:324-356 | a request that was not ok or named no audio leads to the chunks and then the `catch`, as the cascade says |
| App.Page.StartWithSource | src/App.jsx:357-380 | a source binds the element and plays it; a refused `play()` leads to the chunks and, on their failure, to reading stopped and the `catch`, as the cascade says |
| App.Page.StartReading | src/App.jsx:267-393 | the start half of the button moves the page as the cascade says |
| App.Page.ToggleRead | src/App.jsx:243-393 | nothing without a story, stop when reading, else start; the page stays consistent |
| App.Page.AudioEnded | src/App.jsx:361 | the element's end clears reading and keeps the page consistent |
| App.Page.SpeechEnded | src/App.jsx:389 | the utterance's end clears reading and speaking and keeps the page consistent |

## Left out

- Network I/O, timeouts and body parsing: `fetch`, the 15-second abort, `res.json()` and `res.text()` are not modelled. Each becomes an outcome value given as a parameter.
- Interleavings: each handler runs to completion. `createStory` is split at its one `await` into a start and a settle step. A click landing while a request is in flight is not modelled.
- Browser capabilities are reduced to whether each one succeeds. This covers `AudioContext` creation and `resume`, `decodeAudioData`, buffer sources, the `<audio>` element, `atob`/`Blob`/object URLs, `Buffer` base64 encoding and `speechSynthesis`.
- App.Page.PlayChunksWebAudio: a context that could not be created or resumed is modelled as no context change at all.
- App.Page.ToggleRead: the story is cut into chunks once per press and not inside the asynchronous closure. The two are the same because the story cannot change while the closure runs in this model.
- The utterance's language, rate and pitch, and the audio element's `playsinline`, `load()` and `currentTime` are left out. They do not affect the page state.
- `reportError`'s log entries and `alert` inside the handlers are left out. The log itself is modelled on its own as `AudioLogs`. Console logging is left out too.
- Event-listener registration and the audio debug events are left out, as are the iOS user-agent detection, the `audioDebug` query, scrolling and the markup.
- The prompt's fixed wording is left out. Only the parts that vary are kept: the dinosaur, the style phrase and the lesson.
- The upstream services themselves and the exact URLs sent to them are left out. The `encodeURIComponent` of the ids is not modelled either.
- Environment variables are modelled only by whether they are present and non-empty.
- JSON values that are not strings are kept only as their truthiness and their `String()` text. Object keys that exist on every object are not modelled: `styleMap['constructor']` finds an inherited function in JavaScript, while the model treats it as unknown.
- `Js.ToLower` maps only the ASCII capitals. The comparison with `"binary"` is still exact: the one non-ASCII character whose lower case holds an ASCII letter of "binary", U+0130, lowers to "i" followed by U+0307, and that added U+0307 cannot match "binary".
- `Js.Slice` counts characters where JavaScript counts UTF-16 code units, so details holding characters outside the Basic Multilingual Plane differ.
- The `story` field sent back by the story function is passed on whatever its type. The page models a string story; any other truthy value is not modelled as shown.
- Log timestamps are left out: an entry's text is an input.
