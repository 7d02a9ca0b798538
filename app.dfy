/** The page: its state in fields, and the handlers that change it. Each
    handler runs to completion: an asynchronous handler is one method per part
    that runs without waiting, and what the outside world answered is a
    parameter. Each handler moves the state exactly as its function in module
    PageState says. */
module App {
  import opened Wizard
  import Chunker
  import Playback
  import opened PageState

  class Page {
    var step: int
    var form: Form
    var isGenerating: bool
    var story: string
    var isReading: bool
    var isTtsLoading: bool
    var audio: AudioElement
    var blobUrl: bool
    var sourceNode: bool
    var context: ContextState
    var speaking: bool

    /** The fields as one value. */
    function Snapshot(): State
      reads this
    {
      State(step, form, isGenerating, story, isReading, isTtsLoading, audio, blobUrl,
            sourceNode, context, speaking)
    }

    predicate Valid()
      reads this
    {
      Inv(Snapshot())
    }

    constructor ()
      ensures Valid()
      ensures Snapshot() == Initial
    {
      step := 0;
      form := EmptyForm;
      isGenerating := false;
      story := "";
      isReading := false;
      isTtsLoading := false;
      audio := NoAudio;
      blobUrl := false;
      sourceNode := false;
      context := NoContext;
      speaking := false;
    }

    /** `handleSelectDino`. */
    method SelectDinosaur(name: string)
      requires Valid()
      modifies this`form
      ensures Valid()
      ensures Snapshot() == PageState.SelectDinosaur(old(Snapshot()), name)
    {
      form := form.(dinosaur := name);
      FormHandlersKeepInv(old(Snapshot()), name);
    }

    /** `handleSelectStyle`. */
    method SelectStyle(key: string)
      requires Valid()
      modifies this`form
      ensures Valid()
      ensures Snapshot() == PageState.SelectStyle(old(Snapshot()), key)
    {
      form := form.(style := key);
      FormHandlersKeepInv(old(Snapshot()), key);
    }

    /** `handleLesson` and `handleSelectLesson`: the lesson as typed or picked. */
    method SetLesson(text: string)
      requires Valid()
      modifies this`form
      ensures Valid()
      ensures Snapshot() == PageState.SetLesson(old(Snapshot()), text)
    {
      form := form.(lesson := text);
      FormHandlersKeepInv(old(Snapshot()), text);
    }

    /** `goNext`. */
    method GoNext()
      requires Valid()
      modifies this`step
      ensures Valid()
      ensures Snapshot() == PageState.GoNext(old(Snapshot()))
    {
      if step < 2 {
        step := step + 1;
      }
      FormHandlersKeepInv(old(Snapshot()), "");
    }

    /** `goBack`. */
    method GoBack()
      requires Valid()
      modifies this`step
      ensures Valid()
      ensures Snapshot() == PageState.GoBack(old(Snapshot()))
    {
      if step > 0 {
        step := step - 1;
      }
      FormHandlersKeepInv(old(Snapshot()), "");
    }

    /** The part of `createStory` before the request: the loading step is
        shown. Returns the form the request carries, which is also the form the
        fallback story is made from. */
    method StartCreateStory() returns (request: Form)
      requires Valid()
      modifies this`isGenerating, this`step
      ensures Valid()
      ensures Snapshot() == PageState.StartCreateStory(old(Snapshot()))
      ensures request == form
    {
      isGenerating := true;
      step := 3;
      request := form;
      CreateStoryKeepsInv(old(Snapshot()), request, Unreachable);
    }

    /** The effect run when the story changes. */
    method StoryChanged()
      modifies this`speaking, this`audio, this`blobUrl, this`isReading
      ensures Snapshot() == PageState.StoryChanged(old(Snapshot()))
    {
      speaking := false;
      audio := NoAudio;
      blobUrl := false;
      isReading := false;
    }

    /** The part of `createStory` after the request settled. */
    method SettleCreateStory(request: Form, reply: StoryReply)
      requires Valid()
      modifies this
      ensures Valid()
      ensures Snapshot() == PageState.SettleCreateStory(old(Snapshot()), request, reply)
    {
      var next := StoryFor(reply, request);
      var changed := next != story;
      story := next;
      step := 4;
      isGenerating := false;
      if changed {
        StoryChanged();
      }
      CreateStoryKeepsInv(old(Snapshot()), request, reply);
    }

    /** `resetAll`. An existing context is suspended, not closed. */
    method ResetAll()
      requires Valid()
      modifies this
      ensures Valid()
      ensures Snapshot() == PageState.ResetAll(old(Snapshot()))
    {
      speaking := false;
      audio := NoAudio;
      blobUrl := false;
      sourceNode := false;
      if context != NoContext {
        context := Suspended;
      }
      isReading := false;
      isTtsLoading := false;
      story := "";
      isGenerating := false;
      form := EmptyForm;
      step := 0;
      assert Snapshot() == Initial.(context := context);
      ResetAndEndingsKeepInv(old(Snapshot()));
    }

    /** `playChunksWebAudio`: the story's pieces requested one at a time in
        binary form and played in order through Web Audio. `parts` is the
        story cut into sentences; `captured` the reading flag the loop's guard
        sees; `contextReady` whether a context could be obtained and resumed;
        chunkOk(i) whether piece i's request and decoding succeeded. */
    method PlayChunksWebAudio(parts: seq<string>, captured: bool, contextReady: bool, chunkOk: nat -> bool)
      returns (run: Playback.ChunkRun)
      modifies this`context, this`sourceNode, this`isTtsLoading, this`isReading
      ensures contextReady ==> run == Playback.ChunkLoop(|parts|, captured, chunkOk, 0)
      ensures !contextReady ==> run == Playback.ChunkRun(false, 0, 0)
      ensures context == (if contextReady then Running else old(context))
      // the buffer source is kept once a piece starts playing
      ensures sourceNode == (old(sourceNode) || run.played > 0)
      // the loading flag clears when the first piece starts, or at the end
      ensures isTtsLoading == (old(isTtsLoading) && !run.ok && run.played == 0)
      // reading stops at the end; a failure leaves it to the caller
      ensures isReading == (old(isReading) && !run.ok)
    {
      var n := |parts|;
      if !contextReady {
        return Playback.ChunkRun(false, 0, 0);
      }
      context := Running;
      var firstStarted := false;
      var i: nat := 0;
      ghost var total := Playback.ChunkLoop(n, captured, chunkOk, 0);
      while i < n
        invariant 0 <= i <= n
        invariant total == Playback.ChunkLoop(n, captured, chunkOk, i)
        invariant firstStarted <==> i > 0
        invariant sourceNode == (old(sourceNode) || i > 0)
        invariant isTtsLoading == (old(isTtsLoading) && i == 0)
        invariant isReading == old(isReading)
        invariant context == Running
      {
        if !captured && i > 0 {
          break;
        }
        if !chunkOk(i) {
          run := Playback.ChunkRun(false, i + 1, i);
          assert run == total;
          return;
        }
        sourceNode := true;
        if !firstStarted {
          isTtsLoading := false;
          firstStarted := true;
        }
        i := i + 1;
      }
      run := Playback.ChunkRun(true, i, i);
      assert run == total;
      isReading := false;
      isTtsLoading := false;
    }

    /** The stopping half of `toggleRead`. */
    method StopReading()
      modifies this`audio, this`blobUrl, this`speaking, this`isReading
      ensures Snapshot() == PageState.StopReading(old(Snapshot()))
    {
      if audio != NoAudio {
        audio := Paused;
      }
      blobUrl := false;
      speaking := false;
      isReading := false;
    }

    /** The outer `catch` of `toggleRead`: the loading flag clears and, if the
        device can speak, the story is spoken and the page reads. */
    method SpeakFallback(synth: bool)
      modifies this`isTtsLoading, this`isReading, this`speaking
      ensures !isTtsLoading
      ensures synth ==> isReading && speaking
      ensures !synth ==> isReading == old(isReading) && speaking == old(speaking)
    {
      isTtsLoading := false;
      if synth {
        isReading := true;
        speaking := true;
      }
    }

    /** The starting half of `toggleRead` when the single-asset request
        threw: straight to the outer `catch`, the chunks are skipped. */
    method StartAfterFailedRequest(parts: seq<string>, reply: Playback.AssetReply, play: Playback.PlayResult,
                                   contextReady: bool, chunkOk: nat -> bool, synth: bool)
      requires reply.RequestFailed? && !isReading && !speaking
      modifies this`isReading, this`isTtsLoading, this`speaking, this`audio, this`blobUrl,
               this`sourceNode, this`context
      ensures Snapshot() == PageState.StartReading(old(Snapshot()), |parts|, reply, play, contextReady, chunkOk, synth)
    {
      isTtsLoading := true;
      SpeakFallback(synth);
      assert Playback.Cascade(reply, play, |parts|, contextReady, chunkOk, synth) ==
             Playback.Speak(false, false, synth, Playback.ChunkRun(false, 0, 0));
    }

    /** The chunk strategy and, if it fails, the outer `catch`. The page reads
        while the chunks are tried; `readingBefore` is the reading flag the
        `catch` starts from when they fail. */
    method ChunksThenCatch(parts: seq<string>, readingBefore: bool, contextReady: bool,
                           chunkOk: nat -> bool, synth: bool)
      requires isReading && !speaking
      modifies this`isReading, this`isTtsLoading, this`speaking, this`sourceNode, this`context
      ensures var r := Playback.AfterChunks(readingBefore, synth, Playback.PlayChunks(|parts|, contextReady, chunkOk));
              isReading == r.reading && isTtsLoading == r.loading && speaking == r.speaking &&
              sourceNode == (old(sourceNode) || r.chunksPlayed > 0) &&
              context == (if contextReady then Running else old(context))
    {
      var run := PlayChunksWebAudio(parts, false, contextReady, chunkOk);
      if !run.ok {
        isReading := readingBefore;
        SpeakFallback(synth);
      }
    }

    /** The starting half of `toggleRead` when the answer was not ok or named
        no audio: the page reads, the chunks are tried, then the outer
        `catch`. */
    method StartWithoutSource(parts: seq<string>, reply: Playback.AssetReply, play: Playback.PlayResult,
                              contextReady: bool, chunkOk: nat -> bool, synth: bool)
      requires reply.NotOk? || (reply.Delivered? && !Playback.HasSource(reply))
      requires !isReading && !speaking
      modifies this`isReading, this`isTtsLoading, this`speaking, this`audio, this`blobUrl,
               this`sourceNode, this`context
      ensures Snapshot() == PageState.StartReading(old(Snapshot()), |parts|, reply, play, contextReady, chunkOk, synth)
    {
      isTtsLoading := true;
      isReading := true;
      ChunksThenCatch(parts, true, contextReady, chunkOk, synth);
      assert Playback.Cascade(reply, play, |parts|, contextReady, chunkOk, synth) ==
             Playback.AfterChunks(true, synth, Playback.PlayChunks(|parts|, contextReady, chunkOk));
    }

    /** The starting half of `toggleRead` when the answer gave the element a
        source: the element is bound and played; if `play()` is refused, the
        chunks are tried, and if they fail reading stops and the outer `catch`
        runs. */
    method StartWithSource(parts: seq<string>, reply: Playback.AssetReply, play: Playback.PlayResult,
                           contextReady: bool, chunkOk: nat -> bool, synth: bool)
      requires Playback.HasSource(reply) && !isReading && !speaking
      modifies this`isReading, this`isTtsLoading, this`speaking, this`audio, this`blobUrl,
               this`sourceNode, this`context
      ensures Snapshot() == PageState.StartReading(old(Snapshot()), |parts|, reply, play, contextReady, chunkOk, synth)
    {
      isTtsLoading := true;
      audio := Paused;
      blobUrl := reply.inline;
      isTtsLoading := false;
      isReading := true;
      if play == Playback.Accepted {
        audio := Playing;
        assert Playback.Cascade(reply, play, |parts|, contextReady, chunkOk, synth) ==
               Playback.Run([Playback.SingleAsset], true, false, 0, 0, false);
      } else {
        ChunksThenCatch(parts, false, contextReady, chunkOk, synth);
        assert Playback.Cascade(reply, play, |parts|, contextReady, chunkOk, synth) ==
               Playback.AfterChunks(false, synth, Playback.PlayChunks(|parts|, contextReady, chunkOk));
      }
    }

    /** The starting half of `toggleRead`, for the story cut into `parts`.
        The guard of the chunk loop sees the reading flag as it was on the
        click, which is false here. */
    method StartReading(parts: seq<string>, reply: Playback.AssetReply, play: Playback.PlayResult,
                        contextReady: bool, chunkOk: nat -> bool, synth: bool)
      requires !isReading && !speaking
      modifies this`isReading, this`isTtsLoading, this`speaking, this`audio, this`blobUrl,
               this`sourceNode, this`context
      ensures Snapshot() == PageState.StartReading(old(Snapshot()), |parts|, reply, play, contextReady, chunkOk, synth)
    {
      if reply.RequestFailed? {
        StartAfterFailedRequest(parts, reply, play, contextReady, chunkOk, synth);
      } else if Playback.HasSource(reply) {
        StartWithSource(parts, reply, play, contextReady, chunkOk, synth);
      } else {
        StartWithoutSource(parts, reply, play, contextReady, chunkOk, synth);
      }
    }

    /** `toggleRead`: nothing without a story; otherwise stop if reading, else
        start. The story is cut into sentences once, for the chunk loop. */
    method ToggleRead(reply: Playback.AssetReply, play: Playback.PlayResult, contextReady: bool,
                      chunkOk: nat -> bool, synth: bool)
      requires Valid()
      modifies this
      ensures Valid()
      ensures Snapshot() == PageState.ToggleRead(old(Snapshot()), reply, play, contextReady, chunkOk, synth)
    {
      if story != "" {
        if isReading {
          StopReading();
        } else {
          var parts := Chunker.Chunks(story);
          StartReading(parts, reply, play, contextReady, chunkOk, synth);
        }
      }
      ToggleReadKeepsInv(old(Snapshot()), reply, play, contextReady, chunkOk, synth);
    }

    /** The audio element's `ended` event. */
    method AudioEnded()
      requires Valid() && audio == Playing
      modifies this`audio, this`isReading
      ensures Valid()
      ensures Snapshot() == PageState.AudioEnded(old(Snapshot()))
    {
      audio := Paused;
      isReading := false;
      ResetAndEndingsKeepInv(old(Snapshot()));
    }

    /** The utterance's `end` event. */
    method SpeechEnded()
      requires Valid() && speaking
      modifies this`speaking, this`isReading
      ensures Valid()
      ensures Snapshot() == PageState.SpeechEnded(old(Snapshot()))
    {
      speaking := false;
      isReading := false;
      ResetAndEndingsKeepInv(old(Snapshot()));
    }
  }
}
