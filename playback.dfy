/** What reading a story aloud does, as a function of how each outside step
    turned out: the single-asset request, the audio element's `play()`, each
    chunk's binary request and decoding, and whether the device can speak.
    Strategies are tried in order: the single audio asset, then the story
    chunk by chunk through Web Audio, then on-device speech synthesis. */
module Playback {
  import opened Js
  import GenerateAudio

  /** The single-asset request, as the page sees it. */
  datatype AssetReply =
    | RequestFailed                           // fetch threw, timed out, or the body or its base64 was unreadable
    | NotOk                                   // any status outside 200-299
    | Delivered(inline: bool, url: bool)      // ok; whether `audioBase64` / `audioUrl` was set

  /** The audio element's `play()`. */
  datatype PlayResult = Accepted | Rejected

  datatype Strategy = SingleAsset | Chunked | Synthesis

  /** What a run of the chunk loop did. */
  datatype ChunkRun = ChunkRun(ok: bool, fetched: nat, played: nat)

  /** The chunk loop over n chunks, continued from index i: how the whole run
      ends, counting from the first chunk. `captured` is the value of
      `isReading` the loop's closure saw when playback was started; chunkOk(i)
      says whether chunk i's request and decoding succeeded. */
  function ChunkLoop(n: nat, captured: bool, chunkOk: nat -> bool, i: nat): (r: ChunkRun)
    requires i <= n
    ensures i <= r.played <= r.fetched <= n
    ensures r.ok ==> r.played == r.fetched
    ensures !r.ok ==> r.fetched == r.played + 1 && !chunkOk(r.played)
    ensures forall j :: i <= j < r.played ==> chunkOk(j)
    decreases n - i
  {
    if i == n then ChunkRun(true, i, i)
    else if !captured && i > 0 then ChunkRun(true, i, i)
    else if !chunkOk(i) then ChunkRun(false, i + 1, i)
    else ChunkLoop(n, captured, chunkOk, i + 1)
  }

  /** Because the closure saw `isReading == false`, the loop stops before its
      second chunk: at most one chunk is ever requested. */
  lemma {:induction false} StaleGuardStopsAfterFirstChunk(n: nat, chunkOk: nat -> bool)
    ensures ChunkLoop(n, false, chunkOk, 0).fetched <= 1
    ensures n > 0 ==> ChunkLoop(n, false, chunkOk, 0) ==
                      (if chunkOk(0) then ChunkRun(true, 1, 1) else ChunkRun(false, 1, 0))
  {
    if n > 0 && chunkOk(0) {
      assert ChunkLoop(n, false, chunkOk, 1) == ChunkRun(true, 1, 1);
    }
  }

  /** Were the guard to see the live value (reading), every chunk from i on
      would be requested and played, in order, when all of them succeed. */
  lemma {:induction false} LiveGuardPlaysEveryChunk(n: nat, chunkOk: nat -> bool, i: nat)
    requires i <= n
    requires forall j :: i <= j < n ==> chunkOk(j)
    ensures ChunkLoop(n, true, chunkOk, i) == ChunkRun(true, n, n)
    decreases n - i
  {
    if i < n {
      LiveGuardPlaysEveryChunk(n, chunkOk, i + 1);
    }
  }

  /** `playChunksWebAudio`, started from the toggle (so the guard saw false).
      Without Web Audio nothing is requested. */
  function PlayChunks(n: nat, webAudio: bool, chunkOk: nat -> bool): ChunkRun {
    if webAudio then ChunkLoop(n, false, chunkOk, 0) else ChunkRun(false, 0, 0)
  }

  /** Where a run of the toggle leaves the page. */
  datatype Run = Run(tried: seq<Strategy>, reading: bool, loading: bool,
                     chunkFetches: nat, chunksPlayed: nat, speaking: bool)

  /** The strategies tried so far: the single asset, then perhaps the chunks. */
  function Tried(chunked: bool): seq<Strategy> {
    if chunked then [SingleAsset, Chunked] else [SingleAsset]
  }

  /** The outer `catch`: hand the story to the synthesizer if there is one. */
  function Speak(chunked: bool, readingBefore: bool, synth: bool, c: ChunkRun): Run {
    if synth then
      Run(if chunked then [SingleAsset, Chunked, Synthesis] else [SingleAsset, Synthesis],
          true, false, c.fetched, c.played, true)
    else Run(Tried(chunked), readingBefore, false, c.fetched, c.played, false)
  }

  /** After the chunk strategy: done if it succeeded, else fall through. */
  function AfterChunks(readingBefore: bool, synth: bool, c: ChunkRun): Run {
    if c.ok then Run(Tried(true), false, false, c.fetched, c.played, false)
    else Speak(true, readingBefore, synth, c)
  }

  /** Whether the single-asset answer gives the audio element a source. */
  predicate HasSource(reply: AssetReply) {
    reply.Delivered? && (reply.inline || reply.url)
  }

  /** Starting playback of a story of n chunks. */
  function Cascade(reply: AssetReply, play: PlayResult, n: nat, webAudio: bool,
                   chunkOk: nat -> bool, synth: bool): Run {
    var c := PlayChunks(n, webAudio, chunkOk);
    match reply
    case RequestFailed => Speak(false, false, synth, ChunkRun(false, 0, 0))
    case NotOk => AfterChunks(true, synth, c)
    case Delivered(inline, url) =>
      if !inline && !url then AfterChunks(true, synth, c)
      else if play == Accepted then Run(Tried(false), true, false, 0, 0, false)
      else AfterChunks(false, synth, c)
  }

  /** What starting playback promises, whatever the outside world does. */
  lemma CascadeOutcome(reply: AssetReply, play: PlayResult, n: nat, webAudio: bool,
                       chunkOk: nat -> bool, synth: bool)
    ensures var r := Cascade(reply, play, n, webAudio, chunkOk, synth);
            var chunksOk := PlayChunks(n, webAudio, chunkOk).ok;
            // the strategies are tried in their fixed order
            r.tried in {[SingleAsset], [SingleAsset, Chunked], [SingleAsset, Chunked, Synthesis],
                        [SingleAsset, Synthesis]} &&
            // the chunks are tried after a failed request, a missing source or a refused play()
            (Chunked in r.tried <==>
               reply.NotOk? || (reply.Delivered? && (!HasSource(reply) || play == Rejected))) &&
            // synthesis comes last, when it exists and nothing before it worked;
            // a request that threw skips the chunks
            (Synthesis in r.tried <==>
               synth && (reply.RequestFailed? || (Chunked in r.tried && !chunksOk))) &&
            (r.speaking <==> Synthesis in r.tried) &&
            // the loading overlay is always cleared
            !r.loading &&
            // at most one chunk is requested
            r.chunkFetches <= 1 && r.chunksPlayed <= r.chunkFetches &&
            (Chunked !in r.tried ==> r.chunkFetches == 0) &&
            (Chunked in r.tried ==>
               r.chunkFetches == PlayChunks(n, webAudio, chunkOk).fetched &&
               r.chunksPlayed == PlayChunks(n, webAudio, chunkOk).played) &&
            // the page says it is reading when audio plays or the device speaks, and
            // also, with nothing playing, when the chunks failed after a failed request
            // or a missing source and the device cannot speak
            (r.reading <==>
               (HasSource(reply) && play == Accepted) || r.speaking ||
               (!synth && (reply.NotOk? || (reply.Delivered? && !HasSource(reply))) && !chunksOk))
  {
    StaleGuardStopsAfterFirstChunk(n, chunkOk);
    if reply.Delivered? && HasSource(reply) && play != Accepted {
      assert play == Rejected;
    }
  }

  /** The case where the page is left saying it reads while nothing plays: the
      answer is not ok, Web Audio is missing and the device cannot speak. */
  lemma ReadingWithNothingPlaying(n: nat, chunkOk: nat -> bool)
    ensures var r := Cascade(NotOk, Rejected, n, false, chunkOk, false);
            r.reading && !r.speaking && r.tried == [SingleAsset, Chunked] && r.chunkFetches == 0
  {
    CascadeOutcome(NotOk, Rejected, n, false, chunkOk, false);
  }

  /** How the page reads a JSON-mode response of the speech function. */
  function AssetReplyOf(r: GenerateAudio.Response): AssetReply {
    if !(200 <= r.statusCode < 300) then NotOk
    else match r.body
      case AudioJson(audioUrl, _) => Delivered(false, audioUrl.Some?)
      case _ => RequestFailed
  }

  /** End to end: the speech function's JSON mode never sends inline audio, so
      the single-asset strategy plays only a remote URL, and only when the
      upstream service gave one. */
  lemma SingleAssetPlaysOnlyUrls(httpMethod: string, body: GenerateAudio.Body, apiKey: bool,
                                 upstream: GenerateAudio.Upstream, download: GenerateAudio.Download)
    ensures var reply := AssetReplyOf(GenerateAudio.Handle(httpMethod, body, apiKey, None, upstream, download).response);
            reply.Delivered? ==>
              !reply.inline &&
              (reply.url <==> upstream.Answered? && upstream.audio.Some? && Truthy(upstream.audio.value.url))
  {
    GenerateAudio.JsonByDefault();
  }
}
