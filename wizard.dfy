/** The pure parts of the wizard page: the form, the gates on its buttons, the
    progress bar, step navigation and what story the page ends up showing. */
module Wizard {
  import opened Js
  import GenerateStory

  /** `formData`. */
  datatype Form = Form(dinosaur: string, style: string, lesson: string)

  const EmptyForm := Form("", "", "")

  /** The first step's button needs a dinosaur. */
  predicate CanContinueStep0(f: Form) { f.dinosaur != "" }

  /** The second step's button needs a style. */
  predicate CanContinueStep1(f: Form) { f.style != "" }

  /** The create button needs a lesson that is not blank once trimmed. */
  predicate CanCreate(f: Form) { Trim(f.lesson) != "" }

  /** The create gate holds exactly when the lesson has a character that is not
      white space. */
  lemma CanCreateIffVisibleLesson(f: Form)
    ensures CanCreate(f) <==> exists i :: 0 <= i < |f.lesson| && !IsSpace(f.lesson[i])
  {
    TrimEmptyIffBlank(f.lesson);
  }

  /** Only the lesson is trimmed: a dinosaur or a style made only of white
      space still opens its gate, while such a lesson does not. */
  lemma OnlyLessonIsTrimmed(f: Form, v: string)
    requires v != "" && AllSpace(v)
    ensures CanContinueStep0(f.(dinosaur := v)) && CanContinueStep1(f.(style := v))
    ensures !CanCreate(f.(lesson := v))
  {
    TrimEmptyIffBlank(v);
  }

  datatype Progress = Progress(caption: string, value: int)

  /** `progressInfo`: the progress bar over the three form steps. */
  function ProgressInfo(step: int): (p: Progress)
    ensures p.value in {33, 67, 100}
    ensures step <= 0 <==> p == Progress("Paso 1 de 3", 33)
    ensures step == 1 <==> p == Progress("Paso 2 de 3", 67)
    ensures step >= 2 <==> p == Progress("Paso 3 de 3", 100)
    ensures p.value == 100 <==> step >= 2
  {
    if step <= 0 then Progress("Paso 1 de 3", 33)
    else if step == 1 then Progress("Paso 2 de 3", 67)
    else Progress("Paso 3 de 3", 100)
  }

  /** The bar never moves back as the step grows. */
  lemma ProgressMonotone(a: int, b: int)
    requires a <= b
    ensures ProgressInfo(a).value <= ProgressInfo(b).value
  {
  }

  /** `goNext`: forward, but never past the last form step. */
  function NextStep(step: int): (r: int)
    ensures step <= r <= step + 1
    ensures r == step <==> step >= 2
  {
    if step < 2 then step + 1 else step
  }

  /** `goBack`: back, but never before the first step. */
  function PrevStep(step: int): (r: int)
    ensures step - 1 <= r <= step
    ensures r == step <==> step <= 0
  {
    if step > 0 then step - 1 else step
  }

  datatype Move = Next | Back

  /** The step reached by pressing the forward and back buttons in turn. */
  function Navigate(step: int, moves: seq<Move>): int
    decreases |moves|
  {
    if moves == [] then step
    else Navigate(if moves[0] == Next then NextStep(step) else PrevStep(step), moves[1..])
  }

  /** Navigation alone keeps the wizard among the three form steps; only
      creating a story leaves them. */
  lemma {:induction false} NavigationStaysInForm(step: int, moves: seq<Move>)
    requires 0 <= step <= 2
    ensures 0 <= Navigate(step, moves) <= 2
    decreases |moves|
  {
    if moves != [] {
      NavigationStaysInForm(if moves[0] == Next then NextStep(step) else PrevStep(step), moves[1..]);
    }
  }

  /** Going forward then back returns to the same form step, and so does going
      back then forward from a step after the first. */
  lemma NextBackRoundTrip(step: int)
    requires 0 <= step < 2
    ensures PrevStep(NextStep(step)) == step
    ensures NextStep(PrevStep(step + 1)) == step + 1
  {
  }

  /** What the story request came back with, as the page sees it. */
  datatype StoryReply =
    | Unreachable                 // fetch threw or timed out
    | NotOk                       // any status outside 200-299
    | Answered(story: Option<string>)   // ok; None when the body or its `story` is missing

  /** The local story used whenever no story came back. */
  function FallbackStory(dinosaur: string, lesson: string): (s: string)
    ensures |s| == 33 + |dinosaur| + |lesson| && s[|s| - 1] == '.'
    ensures s[17..17 + |dinosaur|] == dinosaur
    ensures s[32 + |dinosaur|..|s| - 1] == lesson
  {
    "Había una vez un " + dinosaur + " que aprendió: " + lesson + "."
  }

  /** The story `createStory` settles on: the one that came back if it is
      non-empty, else the fallback. Either way there is a story. */
  function StoryFor(reply: StoryReply, f: Form): (s: string)
    ensures s != ""
    ensures reply.Answered? && reply.story.Some? && reply.story.value != "" ==> s == reply.story.value
    ensures !(reply.Answered? && reply.story.Some? && reply.story.value != "") ==>
              s == FallbackStory(f.dinosaur, f.lesson)
  {
    match reply
    case Answered(Some(story)) => if story != "" then story else FallbackStory(f.dinosaur, f.lesson)
    case _ => FallbackStory(f.dinosaur, f.lesson)
  }

  /** How the page reads a response of the story function. */
  function ReplyOf(r: GenerateStory.Response): StoryReply {
    if !(200 <= r.statusCode < 300) then NotOk
    else match r.body
      case Story(Str(s)) => Answered(Some(s))
      case _ => Answered(None)
  }

  /** End to end: when the story function answers 200 with a string story, the
      page shows exactly that story; when it answers with any error, the page
      shows the fallback. */
  lemma PageShowsFunctionStory(httpMethod: string, body: GenerateStory.Body, env: GenerateStory.Env,
                               first: GenerateStory.Upstream, second: GenerateStory.Upstream, f: Form)
    ensures var r := GenerateStory.Handle(httpMethod, body, env, first, second).response;
            (r.statusCode == 200 && r.body.Story? && r.body.story.Str? ==>
               StoryFor(ReplyOf(r), f) == r.body.story.s) &&
            (!(200 <= r.statusCode < 300) ==> StoryFor(ReplyOf(r), f) == FallbackStory(f.dinosaur, f.lesson))
  {
  }
}
