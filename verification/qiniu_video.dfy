/** The direct video-generation service (internal/service/qiniu_video_service.go):
    the video prompt built from a storyboard, and the submit / wait /
    download / save sequence with its error wrapping. What the remote calls
    and the file system return is an input (`Env`). */
module QiniuVideo {
  import opened Wrappers
  import opened Model
  import Text
  import QiniuClient

  /** The provider accepts only eight-second clips; every request asks for
      this length, whatever the storyboard or the caller says. */
  const ClipSeconds := 8

  const PromptHeader := "Create an anime-style video with the following scenes:\n\n"
  const PromptFooter := "\nStyle: Japanese anime/manga art style, high quality, cinematic"

  /** Outcomes of the collaborators of one generation: the submit call, the
      events the poll loop observes starting at clock `start`, the download,
      creating the project directory and writing the file (an error text or
      None for success). */
  datatype Env = Env(
    submit: Outcome<QiniuClient.Response>,
    start: nat,
    events: seq<QiniuClient.Event>,
    download: Outcome<nat>,
    dirErr: Option<string>,
    writeErr: Option<string>)

  /** One generation: the request posted (None if none was), the URL
      downloaded (None if no download happened), and the saved path or the
      error; `Waiting` while the poll loop has not returned. */
  datatype Generation = Generation(
    request: QiniuClient.Request,
    downloaded: Option<string>,
    outcome: Pending<string>)

  /** "Dialogue: ..." line of a scene block; present exactly when the shot
      has a dialogue, even an empty one. */
  function DialogueLine(shot: Shot): (line: string)
    ensures line != "" <==> shot.dialogue.Some?
  {
    match shot.dialogue
    case None => ""
    case Some(d) => "Dialogue: " + d.character + " says \"" + d.text + "\" (" + d.emotion + " emotion)\n"
  }

  /** "Characters: [...]" line; present exactly when the shot lists characters. */
  function CharactersLine(shot: Shot): (line: string)
    ensures line != "" <==> |shot.characters| > 0
  {
    if |shot.characters| > 0 then "Characters: " + Text.FormatStrings(shot.characters) + "\n" else ""
  }

  /** The block for the shot at position `index` (0-based); `seconds`
      renders a duration the way `%.1f` does. */
  function SceneBlock(index: nat, shot: Shot, seconds: real -> string): string {
    SceneHeading(index, shot, seconds) + shot.description + "\n" + DialogueLine(shot) + CharactersLine(shot)
      + TransitionLine(shot)
  }

  function SceneHeading(index: nat, shot: Shot, seconds: real -> string): string {
    SceneLead(index) + shot.kind + " shot, " + seconds(shot.duration) + " seconds):\n"
  }

  function SceneLead(index: nat): string {
    "Scene " + Text.NatToDecimal(index + 1) + " ("
  }

  function TransitionLine(shot: Shot): string {
    "Transition: " + shot.transition + "\n\n"
  }

  /** Every block opens with its 1-based scene number and closes with the
      shot's transition line. */
  lemma SceneBlockFrame(index: nat, shot: Shot, seconds: real -> string)
    ensures SceneLead(index) <= SceneBlock(index, shot, seconds)
    ensures Text.EndsWith(SceneBlock(index, shot, seconds), TransitionLine(shot))
  {
    var lead := SceneLead(index);
    var rest := shot.kind + " shot, " + seconds(shot.duration) + " seconds):\n";
    var body := shot.description + "\n" + DialogueLine(shot) + CharactersLine(shot);
    var tail := TransitionLine(shot);
    var block := SceneBlock(index, shot, seconds);
    assert block == lead + (rest + body + tail);
    assert block == (lead + rest + body) + tail;
    Text.PrefixOfConcat(lead, rest + body + tail);
    Text.SuffixOfConcat(lead + rest + body, tail);
  }

  /** One block per shot, in order, numbered consecutively from `first`. */
  function SceneBlocks(shots: seq<Shot>, first: nat, seconds: real -> string): (blocks: seq<string>)
    ensures |blocks| == |shots|
    ensures forall i :: 0 <= i < |shots| ==> blocks[i] == SceneBlock(first + i, shots[i], seconds)
    ensures forall i :: 0 <= i < |shots| ==>
              SceneLead(first + i) <= blocks[i] && Text.EndsWith(blocks[i], TransitionLine(shots[i]))
  {
    seq(|shots|, i requires 0 <= i < |shots| => SceneBlock(first + i, shots[i], seconds))
  }

  /** The blocks of `shots`, numbered from `first`. */
  function Blocks(shots: seq<Shot>, first: nat, seconds: real -> string): string {
    Text.Flatten(SceneBlocks(shots, first, seconds))
  }

  /** Splitting the shot list splits the text: the blocks of the second
      part carry on the numbering where the first part stops. */
  lemma BlocksAppend(a: seq<Shot>, b: seq<Shot>, first: nat, seconds: real -> string)
    ensures Blocks(a + b, first, seconds) == Blocks(a, first, seconds) + Blocks(b, first + |a|, seconds)
  {
    var x := SceneBlocks(a, first, seconds);
    var y := SceneBlocks(b, first + |a|, seconds);
    var z := SceneBlocks(a + b, first, seconds);
    forall i | 0 <= i < |z|
      ensures z[i] == (x + y)[i]
    {
      if i < |a| {
        assert (a + b)[i] == a[i];
      } else {
        assert (a + b)[i] == b[i - |a|];
      }
    }
    assert z == x + y;
    Text.FlattenAppend(x, y);
  }

  /** The text sent as the generation prompt. */
  function BuildVideoPrompt(sb: Storyboard, seconds: real -> string): (prompt: string)
    ensures |prompt| == |PromptHeader| + |Blocks(sb.shots, 0, seconds)| + |PromptFooter|
    ensures PromptHeader <= prompt
    ensures Text.EndsWith(prompt, PromptFooter)
    ensures prompt[|PromptHeader|..|prompt| - |PromptFooter|] == Blocks(sb.shots, 0, seconds)
  {
    var blocks := Blocks(sb.shots, 0, seconds);
    Text.Enclosed(PromptHeader, blocks, PromptFooter);
    PromptHeader + blocks + PromptFooter
  }

  /** The prompt of the text-only variant. */
  function SimplePrompt(text: string): string {
    "Create an anime-style video based on this story:\n\n" + text + "\n\nStyle: Japanese anime/manga art style, cinematic, high quality"
  }

  const WaitPrefix := "video generation failed: "
  const DownloadPrefix := "failed to download video: "
  const DirPrefix := "failed to create project directory: "
  const SavePrefix := "failed to save video: "

  /** Submit, wait, check the URL, download, save: the part both entry
      points share. Each failure is wrapped with the step it happened in. */
  function SubmitAndFetch(prompt: string, projectDir: string, maxWait: nat, modelName: string, env: Env): (g: Generation)
    ensures g.request == QiniuClient.BuildRequest(prompt, ClipSeconds, modelName)
    ensures env.submit.Err? ==> g.outcome == Finished(Err("failed to start video generation: " + env.submit.error))
    ensures g.downloaded.Some? ==> g.downloaded.value != ""
    ensures g.outcome.Finished? && g.outcome.outcome.Ok? ==>
              g.downloaded.Some? && env.download.Ok? && env.dirErr.None? && env.writeErr.None?
              && g.outcome.outcome.value == Text.PathJoin(projectDir, "output.mp4")
    ensures env.submit.Ok? ==>
              var w := QiniuClient.WaitForCompletion(env.events, env.start, maxWait);
              && (w.outcome == Waiting ==> g.outcome == Waiting && g.downloaded == None)
              && (w.outcome.Finished? && w.outcome.outcome.Err? ==>
                    g.outcome == Finished(Err(WaitPrefix + w.outcome.outcome.error)) && g.downloaded == None)
              && (w.outcome.Finished? && w.outcome.outcome.Ok? ==>
                    var url := QiniuClient.GetVideoURL(w.outcome.outcome.value);
                    && g.downloaded == Some(url)
                    && (env.download.Err? ==> g.outcome == Finished(Err(DownloadPrefix + env.download.error)))
                    && (env.download.Ok? && env.dirErr.Some? ==>
                          g.outcome == Finished(Err(DirPrefix + env.dirErr.value)))
                    && (env.download.Ok? && env.dirErr.None? && env.writeErr.Some? ==>
                          g.outcome == Finished(Err(SavePrefix + env.writeErr.value)))
                    && (env.download.Ok? && env.dirErr.None? && env.writeErr.None? ==>
                          g.outcome == Finished(Ok(Text.PathJoin(projectDir, "output.mp4")))))
  {
    var req := QiniuClient.BuildRequest(prompt, ClipSeconds, modelName);
    match env.submit
    case Err(e) => Generation(req, None, Finished(Err("failed to start video generation: " + e)))
    case Ok(created) =>
      var w := QiniuClient.WaitForCompletion(env.events, env.start, maxWait);
      match w.outcome
      case Waiting => Generation(req, None, Waiting)
      case Finished(Err(e)) => Generation(req, None, Finished(Err(WaitPrefix + e)))
      case Finished(Ok(resp)) =>
        var url := QiniuClient.GetVideoURL(resp);
        if url == "" then Generation(req, None, Finished(Err("no video URL in response")))
        else
          var fetched := Generation(req, Some(url), Waiting);
          match env.download
          case Err(e) => fetched.(outcome := Finished(Err(DownloadPrefix + e)))
          case Ok(_) =>
            if env.dirErr.Some? then fetched.(outcome := Finished(Err(DirPrefix + env.dirErr.value)))
            else if env.writeErr.Some? then fetched.(outcome := Finished(Err(SavePrefix + env.writeErr.value)))
            else fetched.(outcome := Finished(Ok(Text.PathJoin(projectDir, "output.mp4"))))
  }

  /** Generates the whole video from the storyboard in one request. */
  function GenerateFromStoryboard(dataDir: string, taskId: string, sb: Storyboard, maxWait: nat, modelName: string,
                                  seconds: real -> string, env: Env): (g: Generation)
    ensures g.request.parameters.durationSeconds == ClipSeconds
    ensures |g.request.instances| == 1 && g.request.instances[0].prompt == BuildVideoPrompt(sb, seconds)
  {
    SubmitAndFetch(BuildVideoPrompt(sb, seconds), ProjectDir(dataDir, taskId), maxWait, modelName, env)
  }

  /** Generates a video straight from the text; the requested `duration`
      is ignored. */
  function GenerateSimple(dataDir: string, taskId: string, text: string, duration: int, maxWait: nat, modelName: string,
                          env: Env): (g: Generation)
    ensures g.request.parameters.durationSeconds == ClipSeconds
    ensures |g.request.instances| == 1 && g.request.instances[0].prompt == SimplePrompt(text)
  {
    SubmitAndFetch(SimplePrompt(text), ProjectDir(dataDir, taskId), maxWait, modelName, env)
  }

  function ProjectDir(dataDir: string, taskId: string): string {
    Text.PathJoin(Text.PathJoin(dataDir, "projects"), taskId)
  }

  /** The "no video URL" check after a successful wait never fires: the
      poll loop already turns a success without a URL into an error, so a
      successful wait always goes on to download the URL it found. */
  lemma NoURLCheckIsUnreachable(prompt: string, projectDir: string, maxWait: nat, modelName: string, env: Env)
    requires env.submit.Ok?
    ensures var w := QiniuClient.WaitForCompletion(env.events, env.start, maxWait);
            w.outcome.Finished? && w.outcome.outcome.Ok? ==>
              SubmitAndFetch(prompt, projectDir, maxWait, modelName, env).downloaded
                == Some(QiniuClient.GetVideoURL(w.outcome.outcome.value))
  {
  }
}
