/** The records of the video generator: a task with its four fixed steps,
    the submitted input, the result, and the script/storyboard structures the
    generation stages pass along (internal/model/types.go).

    Time is an abstract clock reading (`nat`); a step's duration is the
    difference of two readings. Floating-point seconds (shot durations, the
    storyboard's total) are `real`. */
module Model {
  import opened Wrappers

  // Step names, in pipeline order.
  const StepParseScript := "parse_script"
  const StepGenerateStoryboard := "generate_storyboard"
  const StepGenerateImages := "generate_images"
  const StepRenderVideo := "render_video"
  const StepNames: seq<string> := [StepParseScript, StepGenerateStoryboard, StepGenerateImages, StepRenderVideo]

  // Task statuses.
  const TaskQueued := "queued"
  const TaskProcessing := "processing"
  const TaskCompleted := "completed"
  const TaskFailed := "failed"

  // Step statuses.
  const StepPending := "pending"
  const StepProcessing := "processing"
  const StepCompleted := "completed"
  const StepFailed := "failed"

  // Shot kinds.
  const ShotCloseup := "closeup"
  const ShotMedium := "medium"
  const ShotLong := "long"

  datatype Step = Step(
    name: string,
    status: string,
    progress: int,
    current: string,
    duration: int,
    startAt: Option<nat>,
    endAt: Option<nat>)

  datatype Options = Options(style: string, durationTarget: int, aspectRatio: string, bgm: string)

  datatype Input = Input(text: string, options: Options)

  datatype Result = Result(
    videoPath: string,
    duration: real,
    resolution: string,
    fileSize: int,
    thumbnailUrl: string,
    shotCount: int)

  datatype Dialogue = Dialogue(character: string, text: string, emotion: string)

  datatype Action = Action(character: string, description: string)

  datatype Scene = Scene(
    id: int,
    location: string,
    time: string,
    characters: seq<string>,
    dialogues: seq<Dialogue>,
    actions: seq<Action>)

  datatype Metadata = Metadata(totalScenes: int, totalShots: int, estimatedDuration: real, wordCount: int)

  datatype ParsedScript = ParsedScript(scenes: seq<Scene>, characters: seq<string>, metadata: Metadata)

  datatype Shot = Shot(
    id: int,
    kind: string,
    description: string,
    characters: seq<string>,
    duration: real,
    transition: string,
    dialogue: Option<Dialogue>,
    imagePath: string,
    prompt: string)

  datatype Storyboard = Storyboard(shots: seq<Shot>, totalDuration: real)

  datatype Task = Task(
    id: string,
    status: string,
    progress: int,
    currentStep: string,
    steps: seq<Step>,
    input: Input,
    result: Option<Result>,
    error: string,
    createdAt: nat,
    updatedAt: nat)

  /** A step as a new task lists it: pending, nothing recorded yet. */
  predicate IsPendingStep(s: Step, name: string) {
    s == Step(name, StepPending, 0, "", 0, None, None)
  }

  /** The step list has the fixed shape: four steps with the fixed names in
      the fixed order. */
  predicate Shaped(t: Task) {
    |t.steps| == |StepNames| && forall i :: 0 <= i < |StepNames| ==> t.steps[i].name == StepNames[i]
  }

  /** The state `NewTask` leaves a task in. */
  predicate IsFresh(t: Task) {
    && t.status == TaskQueued
    && t.progress == 0
    && t.currentStep == "queued"
    && t.result == None
    && t.error == ""
    && |t.steps| == |StepNames|
    && forall i :: 0 <= i < |StepNames| ==> IsPendingStep(t.steps[i], StepNames[i])
  }

  /** Builds a new task: queued, no progress, four pending steps. */
  function NewTask(id: string, input: Input, now: nat): (t: Task)
    ensures IsFresh(t) && Shaped(t)
    ensures t.id == id && t.input == input
    ensures t.createdAt == now && t.updatedAt == now
  {
    Task(id, TaskQueued, 0, "queued",
      seq(|StepNames|, i requires 0 <= i < |StepNames| => Step(StepNames[i], StepPending, 0, "", 0, None, None)),
      input, None, "", now, now)
  }

  /** `i` is the position of the first step called `name`. */
  predicate IsFirstMatch(steps: seq<Step>, name: string, i: int) {
    0 <= i < |steps| && steps[i].name == name && forall j :: 0 <= j < i ==> steps[j].name != name
  }

  /** The change a single step undergoes. */
  datatype StepEdit = SetStatus(status: string, now: nat) | SetProgress(progress: int, current: string)

  function ApplyEdit(s: Step, e: StepEdit): Step {
    match e
    case SetStatus(status, now) =>
      if status == StepProcessing then
        s.(status := status, startAt := Some(now))
      else if status == StepCompleted || status == StepFailed then
        s.(status := status, endAt := Some(now),
           duration := if s.startAt.Some? then now - s.startAt.value else s.duration)
      else
        s.(status := status)
    case SetProgress(progress, current) =>
      s.(progress := progress, current := current)
  }

  /** Applies `e` to the first step called `name`, if any; every other step
      is left as it was. */
  function EditFirst(steps: seq<Step>, name: string, e: StepEdit): (r: seq<Step>)
    ensures |r| == |steps|
    ensures forall i :: 0 <= i < |steps| ==> r[i].name == steps[i].name
    ensures forall i :: 0 <= i < |steps| && !IsFirstMatch(steps, name, i) ==> r[i] == steps[i]
    ensures forall i :: IsFirstMatch(steps, name, i) ==> r[i] == ApplyEdit(steps[i], e)
  {
    if |steps| == 0 then []
    else if steps[0].name == name then [ApplyEdit(steps[0], e)] + steps[1..]
    else
      var rest := EditFirst(steps[1..], name, e);
      assert forall i :: 1 <= i < |steps| ==> (IsFirstMatch(steps, name, i) <==> IsFirstMatch(steps[1..], name, i - 1));
      [steps[0]] + rest
  }

  /** What `UpdateStep(name, status)` does to the matching step `s`, giving `s2`:
      the status is replaced; "processing" stamps the start time; "completed"
      and "failed" stamp the end time and, only when a start time exists,
      the duration end - start; progress and detail are kept. */
  predicate StatusEdited(s: Step, s2: Step, status: string, now: nat) {
    var ends := status == StepCompleted || status == StepFailed;
    && s2.name == s.name
    && s2.status == status
    && s2.progress == s.progress
    && s2.current == s.current
    && s2.startAt == (if status == StepProcessing then Some(now) else s.startAt)
    && s2.endAt == (if ends then Some(now) else s.endAt)
    && s2.duration == (if ends && s.startAt.Some? then now - s.startAt.value else s.duration)
  }

  /** Sets the status of the first step called `name`, then records `name` as
      the current step and `now` as the update time, whether or not a step
      matched. */
  function UpdateStep(t: Task, name: string, status: string, now: nat): (r: Task)
    ensures |r.steps| == |t.steps|
    ensures forall i :: 0 <= i < |t.steps| ==> r.steps[i].name == t.steps[i].name
    ensures forall i :: 0 <= i < |t.steps| && !IsFirstMatch(t.steps, name, i) ==> r.steps[i] == t.steps[i]
    ensures forall i :: IsFirstMatch(t.steps, name, i) ==> StatusEdited(t.steps[i], r.steps[i], status, now)
    ensures r.currentStep == name && r.updatedAt == now
    ensures r.(steps := t.steps, currentStep := t.currentStep, updatedAt := t.updatedAt) == t
  {
    t.(steps := EditFirst(t.steps, name, SetStatus(status, now)), currentStep := name, updatedAt := now)
  }

  /** Records sub-progress on the first step called `name`; nothing but that
      step's progress and detail and the update time changes. */
  function SetStepProgress(t: Task, name: string, progress: int, current: string, now: nat): (r: Task)
    ensures |r.steps| == |t.steps|
    ensures forall i :: 0 <= i < |t.steps| && !IsFirstMatch(t.steps, name, i) ==> r.steps[i] == t.steps[i]
    ensures forall i :: IsFirstMatch(t.steps, name, i) ==>
      r.steps[i] == t.steps[i].(progress := progress, current := current)
    ensures r.updatedAt == now
    ensures r.(steps := t.steps, updatedAt := t.updatedAt) == t
  {
    t.(steps := EditFirst(t.steps, name, SetProgress(progress, current)), updatedAt := now)
  }

  /** In a shaped task, step k is the first step carrying the k-th name. */
  lemma ShapedFirstMatch(t: Task, k: nat)
    requires Shaped(t) && k < |StepNames|
    ensures IsFirstMatch(t.steps, StepNames[k], k)
  {
  }

  /** Updating one of the four named steps of a shaped task keeps the shape,
      changes only step k, and changes it as `StatusEdited` says. */
  lemma {:induction false} UpdateShapedStep(t: Task, k: nat, status: string, now: nat)
    requires Shaped(t) && k < |StepNames|
    ensures Shaped(UpdateStep(t, StepNames[k], status, now))
    ensures StatusEdited(t.steps[k], UpdateStep(t, StepNames[k], status, now).steps[k], status, now)
    ensures forall j :: 0 <= j < |StepNames| && j != k ==> UpdateStep(t, StepNames[k], status, now).steps[j] == t.steps[j]
  {
    ShapedFirstMatch(t, k);
    var r := UpdateStep(t, StepNames[k], status, now);
    forall j | 0 <= j < |StepNames| && j != k
      ensures r.steps[j] == t.steps[j]
    {
      assert !IsFirstMatch(t.steps, StepNames[k], j);
    }
  }
}
