/** The storyboard service (internal/service/storyboard_service.go): the
    image prompt derived from a shot, the pass that fills in missing
    prompts, and the fixed negative prompt. The language-model call and the
    JSON file are outside the model; their results are inputs. */
module StoryboardService {
  import opened Wrappers
  import opened Model
  import Text

  const BasePrompt := "anime style, manga, japanese animation, high quality, detailed, cinematic, "
  const QualitySuffix := ", professional artwork, trending on pixiv"

  const CloseupFragment := "close-up shot, facial expression, detailed face, "
  const MediumFragment := "medium shot, half body, character interaction, "
  const LongFragment := "wide shot, establishing shot, full body, environment, "
  /** The fragment of a shot whose type is none of the three known ones. */
  const OtherFragment := "medium shot, "

  /** What every image generation is asked to avoid. */
  const NegativePrompt := "low quality, blurry, distorted, ugly, bad anatomy, bad proportions, "
    + "bad hands, text, error, missing fingers, extra digit, fewer digits, "
    + "cropped, worst quality, jpeg artifacts, signature, watermark, username"

  /** The framing fragment of a shot type; unknown types are framed as a
      plain medium shot. */
  function KindFragment(kind: string): (f: string)
    ensures kind == ShotCloseup ==> f == CloseupFragment
    ensures kind == ShotMedium ==> f == MediumFragment
    ensures kind == ShotLong ==> f == LongFragment
    ensures kind !in {ShotCloseup, ShotMedium, ShotLong} ==> f == OtherFragment
  {
    if kind == ShotCloseup then CloseupFragment
    else if kind == ShotMedium then MediumFragment
    else if kind == ShotLong then LongFragment
    else OtherFragment
  }

  /** ", featuring N character(s)", present exactly when the shot lists
      characters, N being how many. */
  function CharactersFragment(shot: Shot): (f: string)
    ensures f != "" <==> |shot.characters| > 0
    ensures f != "" ==> f == ", featuring " + Text.NatToDecimal(|shot.characters|) + " character(s)"
  {
    if |shot.characters| > 0 then ", featuring " + Text.NatToDecimal(|shot.characters|) + " character(s)" else ""
  }

  /** ", <emotion> atmosphere", present exactly when the shot has a dialogue
      whose emotion is non-empty. */
  function EmotionFragment(shot: Shot): (f: string)
    ensures f != "" <==> shot.dialogue.Some? && shot.dialogue.value.emotion != ""
    ensures f != "" ==> f == ", " + shot.dialogue.value.emotion + " atmosphere"
  {
    if shot.dialogue.Some? && shot.dialogue.value.emotion != "" then ", " + shot.dialogue.value.emotion + " atmosphere"
    else ""
  }

  /** The prompt the image generator gets for a shot: the fixed style
      prefix, the framing, the description, the optional character count
      and mood, and the fixed quality tags. */
  function ImagePrompt(shot: Shot): (p: string)
    ensures |BasePrompt| + |QualitySuffix| <= |p|
    ensures BasePrompt <= p
    ensures Text.EndsWith(p, QualitySuffix)
    ensures p[|BasePrompt|..|p| - |QualitySuffix|]
              == KindFragment(shot.kind) + shot.description + CharactersFragment(shot) + EmotionFragment(shot)
  {
    var middle := KindFragment(shot.kind) + shot.description + CharactersFragment(shot) + EmotionFragment(shot);
    Text.Enclosed(BasePrompt, middle, QualitySuffix);
    BasePrompt + middle + QualitySuffix
  }

  /** The shot with a prompt: its own when it has one, else a derived one. */
  function WithPrompt(shot: Shot): (s: Shot)
    ensures shot.prompt != "" ==> s == shot
    ensures shot.prompt == "" ==> s == shot.(prompt := ImagePrompt(shot))
    ensures s.prompt != ""
  {
    if shot.prompt == "" then shot.(prompt := ImagePrompt(shot)) else shot
  }

  /** The prompt-filling pass over the shots, in order. */
  function FillPrompts(shots: seq<Shot>): (r: seq<Shot>)
    ensures |r| == |shots|
    ensures forall i :: 0 <= i < |shots| ==> r[i] == WithPrompt(shots[i])
  {
    if |shots| == 0 then [] else [WithPrompt(shots[0])] + FillPrompts(shots[1..])
  }

  /** Only the prompt can differ after filling, and only where it was empty;
      every shot then has a prompt. */
  lemma FillPromptsFrame(shots: seq<Shot>)
    ensures forall i :: 0 <= i < |shots| ==> FillPrompts(shots)[i].(prompt := shots[i].prompt) == shots[i]
    ensures forall i :: 0 <= i < |shots| ==> shots[i].prompt != "" ==> FillPrompts(shots)[i].prompt == shots[i].prompt
    ensures forall i :: 0 <= i < |shots| ==> FillPrompts(shots)[i].prompt != ""
  {
  }

  /** A storyboard that has been through the pass is left alone by a second. */
  lemma {:induction false} FillPromptsIdempotent(shots: seq<Shot>)
    ensures FillPrompts(FillPrompts(shots)) == FillPrompts(shots)
  {
    var once := FillPrompts(shots);
    var twice := FillPrompts(once);
    forall i | 0 <= i < |shots|
      ensures twice[i] == once[i]
    {
      assert once[i] == WithPrompt(shots[i]);
      assert once[i].prompt != "";
    }
  }

  /** `Generate`: the storyboard the language model returned (or its
      error), with the missing prompts filled in, then saved. */
  function Generate(reply: Outcome<Storyboard>, saveErr: Option<string>): (r: Outcome<Storyboard>)
    ensures reply.Err? ==> r == Err("failed to generate storyboard: " + reply.error)
    ensures reply.Ok? && saveErr.Some? ==> r == Err("failed to save storyboard: " + saveErr.value)
    ensures r.Ok? <==> reply.Ok? && saveErr.None?
    ensures r.Ok? ==> r.value.shots == FillPrompts(reply.value.shots)
    ensures r.Ok? ==> r.value.totalDuration == reply.value.totalDuration
  {
    match reply
    case Err(e) => Err("failed to generate storyboard: " + e)
    case Ok(sb) =>
      var filled := sb.(shots := FillPrompts(sb.shots));
      if saveErr.Some? then Err("failed to save storyboard: " + saveErr.value) else Ok(filled)
  }
}
