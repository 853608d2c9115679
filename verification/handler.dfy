/** The HTTP handler and the background pipeline (internal/handler/video_handler.go):
    request validation and task creation, the four-step run of a task with
    every snapshot it stores in the registry, and the lookup, list, download
    and delete endpoints.

    The services, the file system and the clock are collaborators: what
    they return is an input (`Env`). The pipeline is split in two: `Events`
    decides, from the collaborators' outcomes, which edits the run makes to
    its task, and `Replay` applies them one stored snapshot at a time. */
module Handler {
  import opened Wrappers
  import opened Model
  import Text
  import Config
  import TaskManager
  import ParserService
  import StoryboardService
  import ImageService
  import RenderService
  import QiniuVideo

  // ---------------------------------------------------------------------
  // Settings and replies

  /** The configuration values the handler and the services it drives read. */
  datatype Settings = Settings(
    dataDir: string,
    maxTextLength: int,
    maxShotsPerVideo: int,
    defaultBgm: string,
    useQiniuMode: bool,
    fps: int,
    maxWait: nat,
    videoModel: string)

  /** The handler's view of a configuration. The direct video mode is chosen
      exactly when the back end is "qiniu"; a negative wait limit is read as
      no wait at all. */
  function SettingsOf(cfg: Config.Config): (s: Settings)
    ensures s.useQiniuMode <==> cfg.videoGeneration.kind == Config.KindQiniu
    ensures cfg.videoGeneration.qiniu.maxWaitTime >= 0 ==> s.maxWait == cfg.videoGeneration.qiniu.maxWaitTime
    ensures cfg.videoGeneration.qiniu.maxWaitTime < 0 ==> s.maxWait == 0
    ensures s.dataDir == cfg.dataDir && s.defaultBgm == cfg.video.defaultBgm && s.fps == cfg.video.fps
    ensures s.maxTextLength == cfg.limits.maxTextLength && s.maxShotsPerVideo == cfg.limits.maxShotsPerVideo
    ensures s.videoModel == cfg.videoGeneration.qiniu.model
  {
    var q := cfg.videoGeneration.qiniu;
    Settings(cfg.dataDir, cfg.limits.maxTextLength, cfg.limits.maxShotsPerVideo, cfg.video.defaultBgm,
             cfg.videoGeneration.kind == Config.KindQiniu, cfg.video.fps,
             if q.maxWaitTime < 0 then 0 else q.maxWaitTime, q.model)
  }

  /** An HTTP reply: status code, message, error text, and the payload. */
  datatype Reply<T> = Reply(status: int, message: string, error: string, data: Option<T>)

  // ---------------------------------------------------------------------
  // Generate: validation and task creation

  const DefaultStyle := "anime"
  const DefaultDurationTarget := 60
  const DefaultAspectRatio := "16:9"

  const ErrEmptyText := "text field cannot be empty"

  function TooLongError(maxTextLength: int): string {
    "text length exceeds maximum of " + Text.IntToDecimal(maxTextLength) + " characters"
  }

  /** The options with every unset one (empty, or a zero duration) replaced
      by its default; options the request did set are kept. */
  function WithDefaults(o: Options, defaultBgm: string): (r: Options)
    ensures o.style != "" ==> r.style == o.style
    ensures o.durationTarget != 0 ==> r.durationTarget == o.durationTarget
    ensures o.aspectRatio != "" ==> r.aspectRatio == o.aspectRatio
    ensures o.bgm != "" ==> r.bgm == o.bgm
    ensures o.style == "" ==> r.style == DefaultStyle
    ensures o.durationTarget == 0 ==> r.durationTarget == DefaultDurationTarget
    ensures o.aspectRatio == "" ==> r.aspectRatio == DefaultAspectRatio
    ensures o.bgm == "" ==> r.bgm == defaultBgm
    ensures r.style != "" && r.durationTarget != 0 && r.aspectRatio != ""
    ensures r.bgm == "" ==> defaultBgm == ""
  {
    Options(if o.style == "" then DefaultStyle else o.style,
            if o.durationTarget == 0 then DefaultDurationTarget else o.durationTarget,
            if o.aspectRatio == "" then DefaultAspectRatio else o.aspectRatio,
            if o.bgm == "" then defaultBgm else o.bgm)
  }

  /** The reply to a generate request and the registry afterwards. */
  datatype Submission = Submission(reply: Reply<string>, tasks: TaskManager.Tasks)

  /** `Generate`: `request` is the decoded body or the decoding error, `id`
      the fresh task ID and `now` the clock reading. The text must be
      non-empty and at most the configured number of bytes (UTF-8); a
      rejected request creates nothing. An accepted one stores a new task,
      options defaulted, and replies with its ID. */
  function Submit(tasks: TaskManager.Tasks, s: Settings, request: Outcome<Input>, id: string, now: nat): (r: Submission)
    ensures r.reply.status == 200 <==>
              request.Ok? && request.value.text != [] && Text.Utf8Length(request.value.text) <= s.maxTextLength
    ensures r.reply.status != 200 ==> r.reply.status == 400 && r.reply.data == None && r.tasks == tasks
    ensures request.Err? ==> r.reply.error == request.error
    ensures request.Ok? && request.value.text == [] ==> r.reply.error == ErrEmptyText
    ensures request.Ok? && request.value.text != [] && Text.Utf8Length(request.value.text) > s.maxTextLength ==>
              r.reply.error == TooLongError(s.maxTextLength)
    ensures r.reply.status == 200 ==>
              && r.reply.data == Some(id)
              && r.tasks.Keys == tasks.Keys + {id}
              && (forall k :: k in tasks && k != id ==> r.tasks[k] == tasks[k])
              && IsFresh(r.tasks[id]) && r.tasks[id].id == id && r.tasks[id].createdAt == now
              && r.tasks[id].input == Input(request.value.text, WithDefaults(request.value.options, s.defaultBgm))
  {
    match request
    case Err(e) => Submission(Reply(400, "Invalid request", e, None), tasks)
    case Ok(req) =>
      var bytes := Text.Utf8Length(req.text);
      if bytes == 0 then Submission(Reply(400, "Text is required", ErrEmptyText, None), tasks)
      else if bytes > s.maxTextLength then
        Submission(Reply(400, "Text too long", TooLongError(s.maxTextLength), None), tasks)
      else
        var t := NewTask(id, Input(req.text, WithDefaults(req.options, s.defaultBgm)), now);
        Submission(Reply(200, "success", "", Some(id)), TaskManager.Create(tasks, t))
  }

  /** Decoding the body already enforces the `required` tag on the text
      (internal/model/types.go:32): a body that decodes has non-empty text.
      Under that guarantee the handler's own "Text is required" reply never
      occurs; the model keeps the branch as the handler writes it. */
  predicate BindsRequiredText(request: Outcome<Input>) {
    request.Ok? ==> request.value.text != []
  }

  lemma EmptyTextCheckIsUnreachable(tasks: TaskManager.Tasks, s: Settings, request: Outcome<Input>, id: string, now: nat)
    requires BindsRequiredText(request)
    ensures Submit(tasks, s, request, id, now).reply.message != "Text is required"
  {
  }

  // ---------------------------------------------------------------------
  // The edits a run makes to its task

  /** A position in the fixed step list. */
  type StepIndex = k: int | 0 <= k < 4

  type Positive = n: int | n > 0 witness 1

  /** One change the run makes before storing the task again. */
  datatype Event =
    | Mark(steps: seq<StepIndex>, status: string)    // UpdateStep on each listed step, in order
    | ReportProgress(done: nat, total: Positive)     // the image loop's progress callback
    | FailStep(step: StepIndex, message: string)     // failTask
    | Complete(result: Result)                       // the final success update

  /** The overall progress after `done` of `total` shots: integer division,
      as the callback computes it. */
  function Percent(done: nat, total: Positive): int {
    done * 100 / total
  }

  function ProgressText(done: nat, total: Positive): string {
    Text.IntToDecimal(done) + "/" + Text.IntToDecimal(total) + " shots"
  }

  /** Updates the listed steps, in order, to `status`. */
  function MarkAll(t: Task, steps: seq<StepIndex>, status: string, now: nat): Task
    decreases |steps|
  {
    if |steps| == 0 then t else MarkAll(UpdateStep(t, StepNames[steps[0]], status, now), steps[1..], status, now)
  }

  /** The task after one event; `now` is the clock reading taken for it. A
      failure updates the step first, then marks the task failed with the
      message; success sets status, progress and result together. */
  function Apply(t: Task, e: Event, now: nat): Task {
    match e
    case Mark(steps, status) => MarkAll(t, steps, status, now)
    case ReportProgress(done, total) =>
      var p := Percent(done, total);
      SetStepProgress(t.(progress := p), StepGenerateImages, p, ProgressText(done, total), now)
    case FailStep(k, message) => UpdateStep(t, StepNames[k], StepFailed, now).(status := TaskFailed, error := message)
    case Complete(result) => t.(status := TaskCompleted, progress := 100, result := Some(result))
  }

  /** The snapshots stored while applying `events` to `t`, one per event;
      the event at position i reads the clock as `clock(at + i)`. */
  function Replay(t: Task, events: seq<Event>, clock: nat -> nat, at: nat): (trace: seq<Task>)
    ensures |trace| == |events|
    decreases |events|
  {
    if |events| == 0 then []
    else
      var next := Apply(t, events[0], clock(at));
      [next] + Replay(next, events[1..], clock, at + 1)
  }

  /** The task once all of `events` have been applied. */
  function After(t: Task, events: seq<Event>, clock: nat -> nat, at: nat): Task
    decreases |events|
  {
    if |events| == 0 then t else After(Apply(t, events[0], clock(at)), events[1..], clock, at + 1)
  }

  // ---------------------------------------------------------------------
  // The pipeline

  /** What the collaborators of one run do: the parser's model reply and
      file errors, the storyboard's model reply and save error, the direct
      video generation and the size of the file it saved, the images
      directory error and the per-shot image attempts, the render, the
      number formatters, and the clock readings. */
  datatype Env = Env(
    parseReply: Outcome<ParsedScript>,
    parseDirErr: Option<string>,
    parseSaveErr: Option<string>,
    storyboardReply: Outcome<Storyboard>,
    storyboardSaveErr: Option<string>,
    video: QiniuVideo.Env,
    videoSize: Option<int>,
    imagesDirErr: Option<string>,
    attempt: nat -> ImageService.ShotAttempt,
    render: RenderService.RenderEnv,
    oneDecimal: real -> string,
    twoDecimals: real -> string,
    clock: nat -> nat)

  function ParseFailure(e: string): string { "Failed to parse script: " + e }
  function StoryboardFailure(e: string): string { "Failed to generate storyboard: " + e }
  function TooManyShots(count: int, max: int): string {
    "Too many shots generated (" + Text.IntToDecimal(count) + "), maximum is " + Text.IntToDecimal(max)
  }
  function VideoFailure(e: string): string { "Failed to generate video with Qiniu: " + e }
  function ImagesFailure(e: string): string { "Failed to generate images: " + e }
  function RenderFailure(e: string): string { "Failed to render video: " + e }

  // The service calls of a run.

  function Parsed(t0: Task, env: Env): Outcome<ParsedScript> {
    ParserService.Parse(env.parseReply, t0.input.text, env.parseDirErr, env.parseSaveErr)
  }

  function Boarded(env: Env): Outcome<Storyboard> {
    StoryboardService.Generate(env.storyboardReply, env.storyboardSaveErr)
  }

  function VideoRun(t0: Task, s: Settings, sb: Storyboard, env: Env): QiniuVideo.Generation {
    QiniuVideo.GenerateFromStoryboard(s.dataDir, t0.id, sb, s.maxWait, s.videoModel, env.oneDecimal, env.video)
  }

  function ImageRun(t0: Task, s: Settings, sb: Storyboard, env: Env): ImageService.Run {
    ImageService.GenerateAll(sb.shots, s.dataDir, t0.id, env.imagesDirErr, env.attempt)
  }

  /** The render of the storyboard as the image loop left it: the loop
      writes the image paths into the same storyboard the render reads. */
  function RenderRun(t0: Task, s: Settings, sb: Storyboard, env: Env): RenderService.SubtitledRendering {
    var shots := ImageRun(t0, s, sb, env).shots;
    RenderService.RenderWithSubtitles(s.dataDir, t0.id, sb.(shots := shots), t0.input.options.bgm, s.fps,
                                      env.twoDecimals, env.render)
  }

  /** The result recorded in direct mode: the saved video, the storyboard's
      duration, a fixed resolution, the file size (0 when it cannot be
      read), no thumbnail. */
  function DirectResult(path: string, sb: Storyboard, size: Option<int>): Result {
    Result(path, sb.totalDuration, RenderService.Resolution1080p, size.GetOr(0), "", |sb.shots|)
  }

  /** What a run reads from its collaborators, stage by stage: the parsed
      script, the storyboard, and, for the storyboard the run generated,
      the direct generation's outcome and the size of the file it saved,
      the image loop's progress callbacks (shots saved, shots in all) and
      its error, and the render's outcome. */
  datatype Stages = Stages(
    parsed: Outcome<ParsedScript>,
    boarded: Outcome<Storyboard>,
    video: Pending<string>,
    videoSize: Option<int>,
    progress: seq<(nat, Positive)>,
    imagesErr: Option<string>,
    rendered: Outcome<Result>)

  /** The image loop's callbacks count the saved shots up from 1, out of
      all the storyboard's shots. */
  predicate CountsUp(st: Stages) {
    st.boarded.Ok? ==>
      && |st.progress| <= |st.boarded.value.shots|
      && forall j :: 0 <= j < |st.progress| ==>
           st.progress[j].0 == j + 1 && st.progress[j].1 == |st.boarded.value.shots|
  }

  /** The stages of a run of task `t0`. The later stages are read only when
      the storyboard was generated; an empty storyboard stands in otherwise. */
  function StagesOf(t0: Task, s: Settings, env: Env): (st: Stages)
    ensures CountsUp(st)
  {
    var sb := match Boarded(env) case Ok(b) => b case Err(_) => Storyboard([], 0.0);
    Stages(Parsed(t0, env), Boarded(env), VideoRun(t0, s, sb, env).outcome, env.videoSize,
           ImageProgress(t0, s, sb, env), ImageRun(t0, s, sb, env).err, RenderRun(t0, s, sb, env).result)
  }

  /** The image loop's callbacks: after the i-th saved image (counting from
      1) it reports i of the storyboard's shots. */
  function ImageProgress(t0: Task, s: Settings, sb: Storyboard, env: Env): (progress: seq<(nat, Positive)>)
    ensures |progress| <= |sb.shots|
    ensures forall j :: 0 <= j < |progress| ==> progress[j].0 == j + 1 && progress[j].1 == |sb.shots|
  {
    var cbs := ImageRun(t0, s, sb, env).callbacks;
    ImageService.CallbacksCountUp(sb.shots, s.dataDir, t0.id, env.imagesDirErr, env.attempt);
    seq(|cbs|, j requires 0 <= j < |cbs| => (cbs[j].0 as nat, cbs[j].1 as Positive))
  }

  /** The progress events for the image loop's callbacks. */
  function Reports(progress: seq<(nat, Positive)>): (events: seq<Event>)
    ensures |events| == |progress|
    ensures forall j :: 0 <= j < |events| ==> events[j] == ReportProgress(progress[j].0, progress[j].1)
  {
    seq(|progress|, j requires 0 <= j < |progress| => ReportProgress(progress[j].0, progress[j].1))
  }

  /** Step `k` completes and the next one starts. */
  function Handoff(k: StepIndex): seq<Event>
    requires k < 3
  {
    [Mark([k], StepCompleted), Mark([k + 1], StepProcessing)]
  }

  /** The edits of a run, in order. */
  function Events(s: Settings, st: Stages): (ev: seq<Event>)
    ensures |ev| >= 2 && ev[0] == Mark([0], StepProcessing)
    ensures EndingOf(s, st).FailsAt? ==>
              ev[|ev| - 1] == FailStep(EndingOf(s, st).step, EndingOf(s, st).message)
    ensures EndingOf(s, st).Succeeds? ==> ev[|ev| - 1] == Complete(EndingOf(s, st).result)
    ensures EndingOf(s, st).Stalls? ==> !ev[|ev| - 1].FailStep? && !ev[|ev| - 1].Complete?
  {
    [Mark([0], StepProcessing)] + ParseEvents(s, st)
  }

  function ParseEvents(s: Settings, st: Stages): seq<Event> {
    match st.parsed
    case Err(e) => [FailStep(0, ParseFailure(e))]
    case Ok(_) => Handoff(0) + StoryboardEvents(s, st)
  }

  /** The storyboard step; more shots than the limit fail the step. */
  function StoryboardEvents(s: Settings, st: Stages): seq<Event> {
    match st.boarded
    case Err(e) => [FailStep(1, StoryboardFailure(e))]
    case Ok(sb) =>
      if |sb.shots| > s.maxShotsPerVideo then [FailStep(1, TooManyShots(|sb.shots|, s.maxShotsPerVideo))]
      else Handoff(1) + ModeEvents(s, st, sb)
  }

  /** The images step and the render step, as the configured mode runs them. */
  function ModeEvents(s: Settings, st: Stages, sb: Storyboard): seq<Event> {
    if s.useQiniuMode then DirectEvents(st, sb) else ImageEvents(st)
  }

  /** Direct mode: the video is generated during the images step; the
      render step is marked completed without ever having started. While
      the poll loop has not returned the run makes no further edit. */
  function DirectEvents(st: Stages, sb: Storyboard): seq<Event> {
    match st.video
    case Waiting => []
    case Finished(Err(e)) => [FailStep(2, VideoFailure(e))]
    case Finished(Ok(path)) => [Mark([2, 3], StepCompleted), Complete(DirectResult(path, sb, st.videoSize))]
  }

  /** Image mode: one progress event per saved shot, then the rest. */
  function ImageEvents(st: Stages): seq<Event> {
    Reports(st.progress) + AfterImages(st)
  }

  /** What follows the image loop: its failure, or the render step. */
  function AfterImages(st: Stages): seq<Event> {
    if st.imagesErr.Some? then [FailStep(2, ImagesFailure(st.imagesErr.value))]
    else Handoff(2) + RenderEvents(st)
  }

  function RenderEvents(st: Stages): seq<Event> {
    match st.rendered
    case Err(e) => [FailStep(3, RenderFailure(e))]
    case Ok(res) => [Mark([3], StepCompleted), Complete(res)]
  }

  /** The task as the run first stores it: marked processing. */
  function Started(t0: Task): Task {
    t0.(status := TaskProcessing)
  }

  /** Every snapshot `processTask` stores for the task `t0` it found, in
      order. The clock is read once per stored snapshot after the first. */
  function Trace(t0: Task, s: Settings, st: Stages, clock: nat -> nat): (trace: seq<Task>)
    ensures |trace| >= 2
  {
    [Started(t0)] + Replay(Started(t0), Events(s, st), clock, 1)
  }

  /** The task as the run leaves it. */
  function Final(t0: Task, s: Settings, st: Stages, clock: nat -> nat): Task {
    After(Started(t0), Events(s, st), clock, 1)
  }

  /** Storing the snapshots one after another with `Update`. */
  function Store(tasks: TaskManager.Tasks, trace: seq<Task>): (r: TaskManager.Tasks)
    ensures r.Keys == tasks.Keys
    ensures forall k :: k in tasks && (forall i :: 0 <= i < |trace| ==> trace[i].id != k) ==> r[k] == tasks[k]
    decreases |trace|
  {
    if |trace| == 0 then tasks else Store(TaskManager.Update(tasks, trace[0]).tasks, trace[1..])
  }

  /** `processTask`: nothing happens for an unknown ID; otherwise the run's
      snapshots are stored in turn. */
  function ProcessTask(tasks: TaskManager.Tasks, id: string, s: Settings, env: Env): (r: TaskManager.Tasks)
    ensures id !in tasks ==> r == tasks
    ensures r.Keys == tasks.Keys
  {
    match TaskManager.Get(tasks, id)
    case None => tasks
    case Some(t0) => Store(tasks, Trace(t0, s, StagesOf(t0, s, env), env.clock))
  }

  // ---------------------------------------------------------------------
  // How a run ends

  /** How a run ends: failed at a step with a message, completed with a
      result, or still waiting for the remote video service. */
  datatype Ending = FailsAt(step: StepIndex, message: string) | Succeeds(result: Result) | Stalls

  /** Direct mode left the render step as it was before the run, apart from
      its status and end time: it never started. */
  predicate RenderSkipped(t0: Task, t: Task) {
    && Shaped(t0) && Shaped(t)
    && t.steps[3].startAt == t0.steps[3].startAt
    && (t0.steps[3].startAt == None ==> t.steps[3].duration == t0.steps[3].duration)
  }

  /** The ending read off the stages' outcomes, stage by stage. */
  function EndingOf(s: Settings, st: Stages): (e: Ending)
    ensures e.FailsAt? && e.step == 0 <==> st.parsed.Err?
    ensures e.Stalls? <==>
              && st.parsed.Ok? && st.boarded.Ok? && |st.boarded.value.shots| <= s.maxShotsPerVideo
              && s.useQiniuMode && st.video == Waiting
    ensures e.Succeeds? ==>
              && st.parsed.Ok? && st.boarded.Ok? && |st.boarded.value.shots| <= s.maxShotsPerVideo
              && (s.useQiniuMode ==> st.video.Finished? && st.video.outcome.Ok?)
              && (!s.useQiniuMode ==> st.imagesErr.None? && st.rendered == Ok(e.result))
  {
    match st.parsed
    case Err(e) => FailsAt(0, ParseFailure(e))
    case Ok(_) => StoryboardEnding(s, st)
  }

  function StoryboardEnding(s: Settings, st: Stages): Ending {
    match st.boarded
    case Err(e) => FailsAt(1, StoryboardFailure(e))
    case Ok(sb) =>
      if |sb.shots| > s.maxShotsPerVideo then FailsAt(1, TooManyShots(|sb.shots|, s.maxShotsPerVideo))
      else ModeEnding(s, st, sb)
  }

  function ModeEnding(s: Settings, st: Stages, sb: Storyboard): Ending {
    if s.useQiniuMode then DirectEnding(st, sb) else ImageEnding(st)
  }

  function DirectEnding(st: Stages, sb: Storyboard): Ending {
    match st.video
    case Waiting => Stalls
    case Finished(Err(e)) => FailsAt(2, VideoFailure(e))
    case Finished(Ok(path)) => Succeeds(DirectResult(path, sb, st.videoSize))
  }

  function ImageEnding(st: Stages): Ending {
    if st.imagesErr.Some? then FailsAt(2, ImagesFailure(st.imagesErr.value)) else RenderEnding(st)
  }

  function RenderEnding(st: Stages): Ending {
    match st.rendered
    case Err(e) => FailsAt(3, RenderFailure(e))
    case Ok(res) => Succeeds(res)
  }

  /** The steps before `k` are completed, step `k` (when there is one) has
      status `st`, and the steps after it are as they were in `t0`. */
  predicate StepsAt(t0: Task, t: Task, k: nat, st: string) {
    && Shaped(t0) && Shaped(t) && k <= 4
    && (forall j :: 0 <= j < k ==> t.steps[j].status == StepCompleted)
    && (k < 4 ==> t.steps[k].status == st)
    && (forall j :: k < j < 4 ==> t.steps[j] == t0.steps[j])
  }

  /** In flight at step `k`: processing, with the error and result the task
      had, steps before `k` completed and step `k` processing. */
  predicate Running(t0: Task, t: Task, k: nat) {
    t.status == TaskProcessing && t.error == t0.error && t.result == t0.result && StepsAt(t0, t, k, StepProcessing)
  }

  /** The state a task is left in by a run that ends as `e`. */
  predicate Ends(t0: Task, t: Task, e: Ending) {
    match e
    case FailsAt(k, message) =>
      t.status == TaskFailed && t.error == message && t.result == t0.result && StepsAt(t0, t, k, StepFailed)
    case Succeeds(res) =>
      t.status == TaskCompleted && t.progress == 100 && t.result == Some(res) && t.error == t0.error
      && StepsAt(t0, t, 4, StepCompleted)
    case Stalls => Running(t0, t, 2)
  }

  // ---------------------------------------------------------------------
  // Lookup, list, download, delete

  const ErrTaskNotFound := "Task not found"

  /** `GetTask`: the stored task, or 404 naming the ID. */
  function GetTask(tasks: TaskManager.Tasks, id: string): (r: Reply<Task>)
    ensures r.data.Some? <==> id in tasks
    ensures id in tasks ==> r.status == 200 && r.data.value == tasks[id]
    ensures id !in tasks ==> r.status == 404 && r.message == ErrTaskNotFound
                             && r.error == "task " + id + " does not exist"
  {
    match TaskManager.Get(tasks, id)
    case None => Reply(404, ErrTaskNotFound, "task " + id + " does not exist", None)
    case Some(t) => Reply(200, "success", "", Some(t))
  }

  /** `ListTasks`: every stored task once, and their number. */
  method ListTasks(tasks: TaskManager.Tasks) returns (listed: seq<Task>, total: int)
    ensures total == |listed| == |tasks|
    ensures forall i :: 0 <= i < |listed| ==> exists k :: k in tasks && listed[i] == tasks[k]
    ensures forall k :: k in tasks ==> exists i :: 0 <= i < |listed| && listed[i] == tasks[k]
  {
    var order;
    order, listed := TaskManager.List(tasks);
    total := |listed|;
    assert forall i :: 0 <= i < |listed| ==> order[i] in tasks && listed[i] == tasks[order[i]];
    forall k | k in tasks
      ensures exists i :: 0 <= i < |listed| && listed[i] == tasks[k]
    {
      var i :| 0 <= i < |order| && order[i] == k;
      assert listed[i] == tasks[k];
    }
  }

  /** `Download`: the path served, when the task exists, has completed with
      a result, and the file is present (`existing` is the set of files on
      disk). */
  function Download(tasks: TaskManager.Tasks, id: string, existing: set<string>): (r: Reply<string>)
    ensures r.data.Some? <==>
              id in tasks && tasks[id].status == TaskCompleted && tasks[id].result.Some?
              && tasks[id].result.value.videoPath in existing
    ensures r.data.Some? ==> r.status == 200 && r.data.value == tasks[id].result.value.videoPath
    ensures id !in tasks ==> r.status == 404 && r.message == ErrTaskNotFound
    ensures id in tasks && (tasks[id].status != TaskCompleted || tasks[id].result.None?) ==>
              r.status == 400 && r.error == "task status is " + tasks[id].status
  {
    match TaskManager.Get(tasks, id)
    case None => Reply(404, ErrTaskNotFound, "", None)
    case Some(t) =>
      if t.status != TaskCompleted || t.result.None? then
        Reply(400, "Video not ready", "task status is " + t.status, None)
      else if t.result.value.videoPath !in existing then
        Reply(404, "Video file not found", "video file has been deleted or moved", None)
      else Reply(200, "success", "", Some(t.result.value.videoPath))
  }

  /** The reply to a delete, the registry afterwards, and the project
      directory removed from disk (None when nothing was removed). */
  datatype Deletion = Deletion(reply: Reply<()>, tasks: TaskManager.Tasks, removedDir: Option<string>)

  /** `DeleteTask`: removes the project directory when it exists (a failure
      to remove it is only logged) and the task; 404 for an unknown ID. */
  function DeleteTask(tasks: TaskManager.Tasks, id: string, dataDir: string, existing: set<string>,
                      removeErr: Option<string>): (r: Deletion)
    ensures id !in tasks ==> r.reply.status == 404 && r.tasks == tasks && r.removedDir == None
    ensures id in tasks ==> && r.reply.status == 200 && r.tasks.Keys == tasks.Keys - {id}
                            && (forall k :: k in r.tasks ==> r.tasks[k] == tasks[k])
    ensures r.removedDir.Some? ==>
              && id in tasks && removeErr.None?
              && r.removedDir.value == RenderService.ProjectDir(dataDir, id) && r.removedDir.value in existing
  {
    match TaskManager.Get(tasks, id)
    case None => Deletion(Reply(404, ErrTaskNotFound, "", None), tasks, None)
    case Some(_) =>
      var dir := RenderService.ProjectDir(dataDir, id);
      var removed := if dir in existing && removeErr.None? then Some(dir) else None;
      Deletion(Reply(200, "Task deleted successfully", "", None), TaskManager.Delete(tasks, id).tasks, removed)
  }
}
