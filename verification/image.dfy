/** The image service (internal/service/image_service.go): the serial
    per-shot generation loop of `GenerateAll` and the single-shot
    `RegenerateShot`. The image generator, the file writes and the context
    are collaborators; what each of them does for the shot at a given
    position is an input (`ShotAttempt`). */
module ImageService {
  import opened Wrappers
  import opened Model
  import Text

  /** What happens to the shot at one position of the loop: the context is
      found cancelled before it, generation fails, writing the image fails,
      or the image is saved. */
  datatype ShotAttempt = Cancelled(ctxErr: string) | GenerateFailed(err: string) | SaveFailed(err: string) | Saved

  /** The observable effect of one `GenerateAll` call: the shots afterwards,
      the progress callbacks in the order they were made, the prompts sent
      to the generator, and the error returned (None for success). */
  datatype Run = Run(shots: seq<Shot>, callbacks: seq<(int, int)>, prompts: seq<string>, err: Option<string>)

  function ImagesDir(dataDir: string, taskId: string): string {
    Text.PathJoin(Text.PathJoin(Text.PathJoin(dataDir, "projects"), taskId), "images")
  }

  /** `<dir>/shot_NNN.png`, NNN being the shot id formatted by `%03d`. */
  function ImagePathFor(dir: string, id: int): string {
    dir + "/shot_" + Text.PadZero3(id) + ".png"
  }

  /** The file name carries the id in (at least) three digits, so the
      names of ids 0 to 999 sort in id order and have a fixed length. */
  lemma ImagePathShape(dir: string, id: int)
    ensures var p := ImagePathFor(dir, id);
            && |p| == |dir| + 10 + |Text.PadZero3(id)|
            && dir + "/shot_" <= p && Text.EndsWith(p, ".png")
            && p[|dir| + 6..|p| - 4] == Text.PadZero3(id)
            && (0 <= id < 1000 ==> |p| == |dir| + 13)
  {
    Text.Enclosed(dir + "/shot_", Text.PadZero3(id), ".png");
  }

  /** Where the loop saves the image of a shot with a given id. */
  function ShotPath(dir: string): int -> string {
    id => ImagePathFor(dir, id)
  }

  function WithImage(shot: Shot, pathOf: int -> string): Shot {
    shot.(imagePath := pathOf(shot.id))
  }

  /** The error a failed attempt makes the loop return. */
  function AttemptError(shot: Shot, a: ShotAttempt): string
    requires !a.Saved?
  {
    match a
    case Cancelled(e) => e
    case GenerateFailed(e) => "failed to generate image for shot " + Text.IntToDecimal(shot.id) + ": " + e
    case SaveFailed(e) => "failed to save image: " + e
  }

  /** The first position from `i` on whose attempt does not save, or `n`:
      where the loop stops. */
  function FirstUnsaved(attempt: nat -> ShotAttempt, i: nat, n: nat): (k: nat)
    requires i <= n
    ensures i <= k <= n
    ensures forall j :: i <= j < k ==> attempt(j).Saved?
    ensures k < n ==> !attempt(k).Saved?
    decreases n - i
  {
    if i == n then n else if attempt(i).Saved? then FirstUnsaved(attempt, i + 1, n) else i
  }

  /** The shots with the first `m` given their image paths. */
  function SavedUpTo(shots: seq<Shot>, pathOf: int -> string, m: nat): seq<Shot> {
    seq(|shots|, j requires 0 <= j < |shots| => if j < m then WithImage(shots[j], pathOf) else shots[j])
  }

  /** The callbacks after `m` saved shots out of `n`. */
  function Counted(m: nat, n: nat): seq<(int, int)> {
    seq(m, j => (j + 1, n))
  }

  /** The prompts of the first `m` shots. */
  function Asked(shots: seq<Shot>, m: nat): seq<string>
    requires m <= |shots|
  {
    seq(m, j requires 0 <= j < m => shots[j].prompt)
  }

  /** What a `GenerateAll` loop that stops at the first unsaved position
      leaves behind, stated position by position: the shots before the stop
      have their image paths, the callbacks count them, the generator was
      asked for their prompts and, unless the stop was a cancellation, for
      the stopping shot's too. */
  function Loop(shots: seq<Shot>, pathOf: int -> string, attempt: nat -> ShotAttempt): (r: Run)
    ensures |r.shots| == |shots| && |r.callbacks| <= |shots|
    ensures r.err.None? <==> forall j :: 0 <= j < |shots| ==> attempt(j).Saved?
    ensures r.err.None? ==> |r.callbacks| == |shots| && |r.prompts| == |shots|
  {
    var n := |shots|;
    var k := FirstUnsaved(attempt, 0, n);
    var asked := if k < n && !attempt(k).Cancelled? then k + 1 else k;
    Run(SavedUpTo(shots, pathOf, k), Counted(k, n), Asked(shots, asked),
        if k == n then None else Some(AttemptError(shots[k], attempt(k))))
  }

  /** `GenerateAll`: create the images directory, then generate and save
      the shots strictly in order, reporting (done, total) after each. */
  function GenerateAll(shots: seq<Shot>, dataDir: string, taskId: string, dirErr: Option<string>,
                       attempt: nat -> ShotAttempt): (r: Run)
    ensures dirErr.Some? ==>
              r.err == Some("failed to create images directory: " + dirErr.value)
              && r.shots == shots && r.callbacks == [] && r.prompts == []
    ensures r.err.None? <==> dirErr.None? && forall j :: 0 <= j < |shots| ==> attempt(j).Saved?
  {
    if dirErr.Some? then Run(shots, [], [], Some("failed to create images directory: " + dirErr.value))
    else Loop(shots, ShotPath(ImagesDir(dataDir, taskId)), attempt)
  }

  /** One more saved shot: one more path, callback and prompt. */
  lemma SaveOneMore(shots: seq<Shot>, pathOf: int -> string, i: nat)
    requires i < |shots|
    ensures SavedUpTo(shots, pathOf, i + 1) == SavedUpTo(shots, pathOf, i)[i := WithImage(shots[i], pathOf)]
    ensures Counted(i + 1, |shots|) == Counted(i, |shots|) + [(i + 1, |shots|)]
    ensures Asked(shots, i + 1) == Asked(shots, i) + [shots[i].prompt]
  {
  }

  /** The loop as the service runs it: one shot at a time, updating the
      shot in place, calling back after each save, leaving at the first
      failure. It computes exactly `Loop`. */
  method RunLoop(shots: seq<Shot>, pathOf: int -> string, attempt: nat -> ShotAttempt) returns (r: Run)
    ensures r == Loop(shots, pathOf, attempt)
  {
    var n := |shots|;
    var current := shots;
    var callbacks: seq<(int, int)> := [];
    var prompts: seq<string> := [];
    var err: Option<string> := None;
    var i := 0;
    assert current == SavedUpTo(shots, pathOf, 0);
    while i < n
      invariant 0 <= i <= FirstUnsaved(attempt, 0, n)
      invariant current == SavedUpTo(shots, pathOf, i)
      invariant callbacks == Counted(i, n)
      invariant prompts == Asked(shots, i)
      invariant err.None?
    {
      var a := attempt(i);
      if !a.Saved? {
        if !a.Cancelled? {
          SaveOneMore(shots, pathOf, i);
          prompts := prompts + [shots[i].prompt];
        }
        err := Some(AttemptError(shots[i], a));
        break;
      }
      SaveOneMore(shots, pathOf, i);
      prompts := prompts + [shots[i].prompt];
      current := current[i := WithImage(shots[i], pathOf)];
      callbacks := callbacks + [(i + 1, n)];
      i := i + 1;
    }
    r := Run(current, callbacks, prompts, err);
  }

  /** `GenerateAll` as the service runs it. */
  method RunGenerateAll(shots: seq<Shot>, dataDir: string, taskId: string, dirErr: Option<string>,
                        attempt: nat -> ShotAttempt) returns (r: Run)
    ensures r == GenerateAll(shots, dataDir, taskId, dirErr, attempt)
  {
    if dirErr.Some? {
      return Run(shots, [], [], Some("failed to create images directory: " + dirErr.value));
    }
    r := RunLoop(shots, ShotPath(ImagesDir(dataDir, taskId)), attempt);
  }

  /** The callbacks count the finished shots one by one against a fixed
      total: strictly increasing from 1, never above the total, and none at
      all for an empty storyboard. */
  lemma CallbacksCountUp(shots: seq<Shot>, dataDir: string, taskId: string, dirErr: Option<string>,
                         attempt: nat -> ShotAttempt)
    ensures var cbs := GenerateAll(shots, dataDir, taskId, dirErr, attempt).callbacks;
            && |cbs| <= |shots|
            && (forall j :: 0 <= j < |cbs| ==> cbs[j].0 == j + 1 && cbs[j].1 == |shots| && 1 <= cbs[j].0 <= cbs[j].1)
            && (|shots| == 0 ==> cbs == [])
  {
  }

  /** A run that reports success has saved every shot, each at the path
      named after its id, and called back once per shot. */
  lemma SuccessSavesEveryShot(shots: seq<Shot>, dataDir: string, taskId: string,
                                                  attempt: nat -> ShotAttempt)
    requires GenerateAll(shots, dataDir, taskId, None, attempt).err.None?
    ensures var r := GenerateAll(shots, dataDir, taskId, None, attempt);
            && |r.shots| == |shots| && |r.callbacks| == |shots|
            && (forall j :: 0 <= j < |shots| ==>
                  r.shots[j] == shots[j].(imagePath := ImagePathFor(ImagesDir(dataDir, taskId), shots[j].id)))
            && (forall j :: 0 <= j < |shots| ==> r.shots[j].imagePath != "")
  {
  }

  /** A failing run stops at the shot that failed: the shots before it keep
      their new paths, it and the later ones are untouched, and there is no
      callback for it or after it. */
  lemma FailureStopsAtFirstUnsaved(shots: seq<Shot>, dataDir: string, taskId: string, attempt: nat -> ShotAttempt)
    requires GenerateAll(shots, dataDir, taskId, None, attempt).err.Some?
    ensures var r := GenerateAll(shots, dataDir, taskId, None, attempt);
            var k := |r.callbacks|;
            && k < |shots| && !attempt(k).Saved?
            && r.err == Some(AttemptError(shots[k], attempt(k)))
            && (forall j :: 0 <= j < k ==> attempt(j).Saved? && r.shots[j].imagePath == ImagePathFor(ImagesDir(dataDir, taskId), shots[j].id))
            && (forall j :: k <= j < |shots| ==> r.shots[j] == shots[j])
  {
  }

  /** The position of the first shot carrying `id`, if any. */
  function FindShot(shots: seq<Shot>, id: int): (i: Option<nat>)
    ensures i.Some? ==> i.value < |shots| && shots[i.value].id == id
                        && forall j :: 0 <= j < i.value ==> shots[j].id != id
    ensures i.None? <==> forall j :: 0 <= j < |shots| ==> shots[j].id != id
  {
    if |shots| == 0 then None
    else if shots[0].id == id then Some(0)
    else match FindShot(shots[1..], id)
      case None => None
      case Some(i) => Some(i + 1)
  }

  /** The prompt a regeneration uses: the caller's when it gives one. */
  function RegenerationPrompt(shot: Shot, customPrompt: string): (p: string)
    ensures customPrompt != "" ==> p == customPrompt
    ensures customPrompt == "" ==> p == shot.prompt
  {
    if customPrompt != "" then customPrompt else shot.prompt
  }

  /** One `RegenerateShot` call: the prompt sent to the generator (None if
      none was) and the saved path or the error. */
  datatype Regeneration = Regeneration(prompt: Option<string>, outcome: Outcome<string>)

  /** `RegenerateShot`: load the storyboard, find the first shot with the
      id, generate with the chosen prompt, save over its image. */
  function RegenerateShot(loaded: Outcome<Storyboard>, dataDir: string, taskId: string, shotId: int,
                          customPrompt: string, genErr: Option<string>, writeErr: Option<string>): (r: Regeneration)
    ensures loaded.Err? ==> r == Regeneration(None, Err("failed to load storyboard: " + loaded.error))
    ensures loaded.Ok? && FindShot(loaded.value.shots, shotId).None? ==>
              r == Regeneration(None, Err("shot " + Text.IntToDecimal(shotId) + " not found"))
    ensures r.prompt.Some? ==>
              && loaded.Ok? && FindShot(loaded.value.shots, shotId).Some?
              && r.prompt.value == RegenerationPrompt(loaded.value.shots[FindShot(loaded.value.shots, shotId).value], customPrompt)
    ensures r.outcome.Ok? <==> loaded.Ok? && FindShot(loaded.value.shots, shotId).Some? && genErr.None? && writeErr.None?
    ensures r.outcome.Ok? ==> r.outcome.value == ImagePathFor(ImagesDir(dataDir, taskId), shotId)
  {
    match loaded
    case Err(e) => Regeneration(None, Err("failed to load storyboard: " + e))
    case Ok(sb) =>
      match FindShot(sb.shots, shotId)
      case None => Regeneration(None, Err("shot " + Text.IntToDecimal(shotId) + " not found"))
      case Some(i) =>
        var prompt := RegenerationPrompt(sb.shots[i], customPrompt);
        if genErr.Some? then Regeneration(Some(prompt), Err("failed to generate image: " + genErr.value))
        else if writeErr.Some? then Regeneration(Some(prompt), Err("failed to save image: " + writeErr.value))
        else Regeneration(Some(prompt), Ok(ImagePathFor(ImagesDir(dataDir, taskId), shotId)))
  }
}
