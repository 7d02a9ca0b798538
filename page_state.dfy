/** The page's state as a value, and what each handler makes of it. The page
    class in module App holds the same state in fields and is proved to move
    it exactly as these functions say; the properties of the handlers are
    proved here, once, about the functions. */
module PageState {
  import opened Js
  import opened Wizard
  import Chunker
  import Playback

  /** The audio element the page holds on to, if any. */
  datatype AudioElement = NoAudio | Playing | Paused

  /** The Web Audio context, created on first use and never closed. */
  datatype ContextState = NoContext | Running | Suspended

  datatype State = State(
    step: int,               // 0-2 the form, 3 generating, 4 the story
    form: Form,
    isGenerating: bool,
    story: string,
    isReading: bool,
    isTtsLoading: bool,
    audio: AudioElement,
    blobUrl: bool,           // an object URL is held for inline audio
    sourceNode: bool,        // a Web Audio buffer source is held
    context: ContextState,
    speaking: bool)          // the device's synthesizer is speaking the story

  const Initial := State(0, EmptyForm, false, "", false, false, NoAudio, false, false, NoContext, false)

  /** What holds between handlers: the page is on one of its five steps, the
      story step has a story, and whatever sounds is reported as reading. */
  predicate Inv(s: State) {
    0 <= s.step <= 4 &&
    (s.step == 4 ==> s.story != "") &&
    (s.audio == Playing ==> s.isReading) &&
    (s.speaking ==> s.isReading) &&
    !(s.audio == Playing && s.speaking)
  }

  /** `handleSelectDino`. */
  function SelectDinosaur(s: State, name: string): State {
    s.(form := s.form.(dinosaur := name))
  }

  /** `handleSelectStyle`. */
  function SelectStyle(s: State, key: string): State {
    s.(form := s.form.(style := key))
  }

  /** `handleLesson` and `handleSelectLesson`. */
  function SetLesson(s: State, text: string): State {
    s.(form := s.form.(lesson := text))
  }

  /** `goNext`. */
  function GoNext(s: State): State {
    s.(step := NextStep(s.step))
  }

  /** `goBack`. */
  function GoBack(s: State): State {
    s.(step := PrevStep(s.step))
  }

  /** The part of `createStory` before its request. */
  function StartCreateStory(s: State): State {
    s.(isGenerating := true, step := 3)
  }

  /** The effect run when the story changes. It leaves the buffer source and
      the loading flag alone. */
  function StoryChanged(s: State): State {
    s.(speaking := false, audio := NoAudio, blobUrl := false, isReading := false)
  }

  /** The part of `createStory` after its request settled; `request` is the
      form the request was made from. */
  function SettleCreateStory(s: State, request: Form, reply: StoryReply): State {
    var story := StoryFor(reply, request);
    var t := s.(story := story, step := 4, isGenerating := false);
    if story != s.story then StoryChanged(t) else t
  }

  /** `resetAll`. */
  function ResetAll(s: State): State {
    Initial.(context := if s.context == NoContext then NoContext else Suspended)
  }

  /** The stopping half of `toggleRead`: the element is paused but kept, a
      buffer source is not stopped. */
  function StopReading(s: State): State {
    s.(audio := if s.audio == NoAudio then NoAudio else Paused,
       blobUrl := false, speaking := false, isReading := false)
  }

  /** The starting half of `toggleRead`, as `Playback.Cascade` describes it,
      for a story cut into n chunks. */
  function StartReading(s: State, n: nat, reply: Playback.AssetReply, play: Playback.PlayResult,
                        contextReady: bool, chunkOk: nat -> bool, synth: bool): State {
    var r := Playback.Cascade(reply, play, n, contextReady, chunkOk, synth);
    s.(isReading := r.reading, isTtsLoading := r.loading, speaking := r.speaking,
       audio := if Playback.HasSource(reply) then (if play == Playback.Accepted then Playing else Paused)
                else s.audio,
       blobUrl := if Playback.HasSource(reply) then reply.inline else s.blobUrl,
       sourceNode := s.sourceNode || r.chunksPlayed > 0,
       context := if Playback.Chunked in r.tried && contextReady then Running else s.context)
  }

  /** `toggleRead`. */
  function ToggleRead(s: State, reply: Playback.AssetReply, play: Playback.PlayResult,
                      contextReady: bool, chunkOk: nat -> bool, synth: bool): State {
    if s.story == "" then s
    else if s.isReading then StopReading(s)
    else StartReading(s, |Chunker.Chunks(s.story)|, reply, play, contextReady, chunkOk, synth)
  }

  /** The audio element's `ended` event. */
  function AudioEnded(s: State): State {
    s.(audio := Paused, isReading := false)
  }

  /** The utterance's `end` event. */
  function SpeechEnded(s: State): State {
    s.(speaking := false, isReading := false)
  }

  /** The page starts in a consistent state, and the form's handlers keep it
      so. */
  lemma FormHandlersKeepInv(s: State, v: string)
    requires Inv(s)
    ensures Inv(Initial)
    ensures Inv(SelectDinosaur(s, v)) && Inv(SelectStyle(s, v)) && Inv(SetLesson(s, v))
    ensures Inv(GoNext(s)) && Inv(GoBack(s))
  {
  }

  /** Creating a story keeps the page consistent. */
  lemma CreateStoryKeepsInv(s: State, request: Form, reply: StoryReply)
    requires Inv(s)
    ensures Inv(StartCreateStory(s)) && Inv(SettleCreateStory(s, request, reply))
  {
  }

  /** So do starting over and the end of playback. */
  lemma ResetAndEndingsKeepInv(s: State)
    requires Inv(s)
    ensures Inv(ResetAll(s))
    ensures s.audio == Playing ==> Inv(AudioEnded(s))
    ensures s.speaking ==> Inv(SpeechEnded(s))
  {
  }

  /** The reading button keeps the page consistent too. */
  lemma ToggleReadKeepsInv(s: State, reply: Playback.AssetReply, play: Playback.PlayResult,
                           contextReady: bool, chunkOk: nat -> bool, synth: bool)
    requires Inv(s)
    ensures Inv(ToggleRead(s, reply, play, contextReady, chunkOk, synth))
  {
    Playback.CascadeOutcome(reply, play, |Chunker.Chunks(s.story)|, contextReady, chunkOk, synth);
  }

  /** The form buttons' gates follow the field just set. */
  lemma GatesFollowSelection(s: State, v: string)
    ensures CanContinueStep0(SelectDinosaur(s, v).form) <==> v != ""
    ensures CanContinueStep1(SelectStyle(s, v).form) <==> v != ""
    ensures CanCreate(SetLesson(s, v).form) <==> exists i :: 0 <= i < |v| && !IsSpace(v[i])
  {
    CanCreateIffVisibleLesson(SetLesson(s, v).form);
  }

  /** Creating a story always ends on the story step with a story: the one
      that came back, else the fallback made from the form at the click. A
      new story silences whatever was being read. */
  lemma CreateStoryShowsStory(s: State, reply: StoryReply)
    requires Inv(s)
    ensures var t := SettleCreateStory(StartCreateStory(s), s.form, reply);
            t.step == 4 && !t.isGenerating && t.story == StoryFor(reply, s.form) && t.story != "" &&
            (t.story != s.story ==> !t.isReading && !t.speaking && t.audio == NoAudio && !t.blobUrl) &&
            t.form == s.form
  {
  }

  /** Starting over forgets the form and the story and releases everything
      but the context, and doing it twice is doing it once. */
  lemma ResetForgetsEverything(s: State)
    ensures var t := ResetAll(s);
            t.step == 0 && t.form == EmptyForm && t.story == "" && !t.isReading && !t.isTtsLoading &&
            !t.speaking && t.audio == NoAudio && !t.blobUrl && !t.sourceNode && !t.isGenerating
    ensures ResetAll(ResetAll(s)) == ResetAll(s)
    ensures (ResetAll(s).context == NoContext) <==> (s.context == NoContext)
    ensures s.context != NoContext ==> ResetAll(s).context == Suspended
  {
  }

  /** Starting to read always clears the loading flag, never both plays the
      element and speaks, and plays the element exactly when a source came
      back and `play()` was accepted. */
  lemma StartReadingOutcome(s: State, reply: Playback.AssetReply, play: Playback.PlayResult,
                            contextReady: bool, chunkOk: nat -> bool, synth: bool)
    requires Inv(s) && s.story != "" && !s.isReading
    ensures var t := ToggleRead(s, reply, play, contextReady, chunkOk, synth);
            !t.isTtsLoading &&
            (t.audio == Playing <==> Playback.HasSource(reply) && play == Playback.Accepted) &&
            !(t.audio == Playing && t.speaking) &&
            (t.speaking ==> synth) &&
            (t.context != s.context ==> t.context == Running && contextReady)
  {
  }

  /** Pressing the button again after a start that left the page reading
      stops everything the element or the synthesizer was doing. */
  lemma ToggleTwiceStops(s: State, reply: Playback.AssetReply, play: Playback.PlayResult,
                         contextReady: bool, chunkOk: nat -> bool, synth: bool,
                         reply2: Playback.AssetReply, play2: Playback.PlayResult,
                         contextReady2: bool, chunkOk2: nat -> bool, synth2: bool)
    requires Inv(s) && s.story != "" && !s.isReading
    requires ToggleRead(s, reply, play, contextReady, chunkOk, synth).isReading
    ensures var t := ToggleRead(ToggleRead(s, reply, play, contextReady, chunkOk, synth),
                                reply2, play2, contextReady2, chunkOk2, synth2);
            !t.isReading && !t.speaking && t.audio != Playing && !t.blobUrl
  {
  }

  /** The page can be left reading with nothing sounding: the speech function
      answers with a non-2xx status, Web Audio is missing and the device cannot
      speak. No new buffer source is made. The button then
      shows the stop state, and pressing it only clears the flag. */
  lemma ReadingWithNothingSounding(s: State, play: Playback.PlayResult, chunkOk: nat -> bool)
    requires Inv(s) && s.story != "" && !s.isReading
    ensures var t := ToggleRead(s, Playback.NotOk, play, false, chunkOk, false);
            t.isReading && !t.speaking && t.audio != Playing && t.sourceNode == s.sourceNode
  {
    Playback.ReadingWithNothingPlaying(|Chunker.Chunks(s.story)|, chunkOk);
  }
}
