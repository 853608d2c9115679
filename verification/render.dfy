/** The render service (internal/service/render_service.go): the ffmpeg
    concat list, the background-track lookup, the result of `Render`, the
    subtitle cues and the subtitle fallbacks of `RenderWithSubtitles`.
    Creating files, running ffmpeg and reading file sizes are inputs
    (`RenderEnv`); `%.2f` and the SRT clock format are formatter
    parameters. */
module RenderService {
  import opened Wrappers
  import opened Model
  import Text
  import Ffmpeg

  // ---------------------------------------------------------------------
  // The concat list

  /** `file '<path>'` */
  function FileLine(path: string): string {
    "file '" + path + "'"
  }

  /** `duration <seconds>`, the seconds rendered by `%.2f`. */
  function DurationLine(seconds: real, twoDecimals: real -> string): string {
    "duration " + twoDecimals(seconds)
  }

  /** The lines the loop writes for `shots`: each shot's file line, then
      its duration line unless it is the last shot. */
  function Entries(shots: seq<Shot>, twoDecimals: real -> string): (lines: seq<string>)
    ensures |shots| == 0 ==> lines == []
    ensures |shots| > 0 ==> |lines| == 2 * |shots| - 1
    ensures forall j :: 0 <= j < |shots| ==> lines[2 * j] == FileLine(shots[j].imagePath)
    ensures forall j :: 0 <= j < |shots| - 1 ==> lines[2 * j + 1] == DurationLine(shots[j].duration, twoDecimals)
    decreases |shots|
  {
    if |shots| == 0 then []
    else if |shots| == 1 then [FileLine(shots[0].imagePath)]
    else
      var rest := Entries(shots[1..], twoDecimals);
      var lines := [FileLine(shots[0].imagePath), DurationLine(shots[0].duration, twoDecimals)] + rest;
      assert forall j :: 1 <= j < |shots| ==> lines[2 * j] == rest[2 * (j - 1)];
      assert forall j :: 1 <= j < |shots| - 1 ==> lines[2 * j + 1] == rest[2 * (j - 1) + 1];
      lines
  }

  /** The first shot without an image, if any. */
  function FirstWithoutImage(shots: seq<Shot>): (i: Option<nat>)
    ensures i.Some? ==> i.value < |shots| && shots[i.value].imagePath == ""
                        && forall j :: 0 <= j < i.value ==> shots[j].imagePath != ""
    ensures i.None? <==> forall j :: 0 <= j < |shots| ==> shots[j].imagePath != ""
  {
    if |shots| == 0 then None
    else if shots[0].imagePath == "" then Some(0)
    else match FirstWithoutImage(shots[1..])
      case None => None
      case Some(i) => Some(i + 1)
  }

  /** Whether `generateConcatFile` as written returns at all: it indexes the
      last shot after its loop, which a storyboard without shots does not
      have (the loop returns early only on a creation error or a missing
      image). */
  predicate ConcatReturns(shots: seq<Shot>, createErr: Option<string>) {
    createErr.Some? || |shots| > 0
  }

  /** `generateConcatFile` as written; defined only where it returns. */
  function ConcatFileAsWritten(shots: seq<Shot>, twoDecimals: real -> string, createErr: Option<string>)
    : (r: Outcome<seq<string>>)
    requires ConcatReturns(shots, createErr)
    ensures createErr.Some? ==> r == Err("failed to create concat file: " + createErr.value)
  {
    if createErr.Some? then Err("failed to create concat file: " + createErr.value)
    else match FirstWithoutImage(shots)
      case Some(i) => Err("shot " + Text.IntToDecimal(shots[i].id) + " has no image path")
      case None => Ok(Entries(shots, twoDecimals) + [FileLine(shots[|shots| - 1].imagePath)])
  }

  const ErrNoShots := "storyboard has no shots"

  /** `generateConcatFile` with the empty storyboard reported as an error
      instead of indexing past it. Otherwise the same: one file line per
      shot with a duration line between consecutive shots, then the last
      file line once more, as the concat format wants. */
  function ConcatFile(shots: seq<Shot>, twoDecimals: real -> string, createErr: Option<string>)
    : (r: Outcome<seq<string>>)
    ensures createErr.Some? ==> r == Err("failed to create concat file: " + createErr.value)
    ensures createErr.None? && FirstWithoutImage(shots).Some? ==>
              r == Err("shot " + Text.IntToDecimal(shots[FirstWithoutImage(shots).value].id) + " has no image path")
    ensures createErr.None? && |shots| == 0 ==> r == Err(ErrNoShots)
    ensures r.Ok? <==> createErr.None? && |shots| > 0 && forall j :: 0 <= j < |shots| ==> shots[j].imagePath != ""
    ensures r.Ok? ==>
              && |r.value| == 2 * |shots|
              && (forall j :: 0 <= j < |shots| ==> r.value[2 * j] == FileLine(shots[j].imagePath))
              && (forall j :: 0 <= j < |shots| - 1 ==> r.value[2 * j + 1] == DurationLine(shots[j].duration, twoDecimals))
              && r.value[2 * |shots| - 1] == FileLine(shots[|shots| - 1].imagePath)
  {
    if createErr.None? && |shots| == 0 then Err(ErrNoShots)
    else ConcatFileAsWritten(shots, twoDecimals, createErr)
  }

  /** Wherever the code as written returns, the corrected version returns
      the same. */
  lemma ConcatFileAgrees(shots: seq<Shot>, twoDecimals: real -> string, createErr: Option<string>)
    requires ConcatReturns(shots, createErr)
    ensures ConcatFile(shots, twoDecimals, createErr) == ConcatFileAsWritten(shots, twoDecimals, createErr)
  {
  }

  /** The only input on which the code as written does not return is an
      empty storyboard whose file could be created. */
  lemma ConcatFailsOnlyWithoutShots(shots: seq<Shot>, createErr: Option<string>)
    ensures !ConcatReturns(shots, createErr) <==> shots == [] && createErr.None?
  {
  }

  // ---------------------------------------------------------------------
  // Render

  function ProjectDir(dataDir: string, taskId: string): string {
    Text.PathJoin(Text.PathJoin(dataDir, "projects"), taskId)
  }

  function BgmPath(dataDir: string, bgm: string): string {
    Text.PathJoin(Text.PathJoin(Text.PathJoin(dataDir, "assets"), "bgm"), bgm)
  }

  /** The background track handed to ffmpeg: none when none is asked for,
      the track under the data directory's assets/bgm when that file exists,
      and none (the video is made silent, without an error) when it does
      not. */
  function ResolveBgm(bgm: string, dataDir: string, existing: set<string>): (path: string)
    ensures path == "" || path == BgmPath(dataDir, bgm)
    ensures path != "" <==> bgm != "" && BgmPath(dataDir, bgm) in existing
  {
    if bgm == "" then ""
    else if BgmPath(dataDir, bgm) in existing then BgmPath(dataDir, bgm)
    else ""
  }

  /** What the file system and ffmpeg do during one render: creating the
      concat and subtitle files, which files exist, running ffmpeg for the
      video and for the subtitles, the sizes of the two outputs (None when
      they cannot be read) and making the thumbnail. */
  datatype RenderEnv = RenderEnv(
    concatCreateErr: Option<string>,
    existing: set<string>,
    ffmpegErr: Option<string>,
    outputSize: Option<int>,
    thumbnailErr: Option<string>,
    subtitleCreateErr: Option<string>,
    burnErr: Option<string>,
    subtitledSize: Option<int>)

  /** One render: the ffmpeg argument vector run (None when none was run)
      and the result or the error. */
  datatype Rendering = Rendering(command: Option<seq<string>>, result: Outcome<Result>)

  const Resolution1080p := "1920x1080"

  /** `Render`: write the concat list, resolve the track, run ffmpeg, then
      describe the output. A failed size lookup gives size 0 and a failed
      thumbnail gives no thumbnail; neither is an error. */
  function Render(dataDir: string, taskId: string, sb: Storyboard, bgm: string, fps: int,
                  twoDecimals: real -> string, env: RenderEnv): (r: Rendering)
    ensures r.result.Ok? <==>
              && env.concatCreateErr.None? && env.ffmpegErr.None? && |sb.shots| > 0
              && forall j :: 0 <= j < |sb.shots| ==> sb.shots[j].imagePath != ""
    ensures r.command.Some? <==> ConcatFile(sb.shots, twoDecimals, env.concatCreateErr).Ok?
    ensures r.command.Some? ==>
              r.command.value == Ffmpeg.ConcatArgs(Text.PathJoin(ProjectDir(dataDir, taskId), "concat.txt"),
                                                   ResolveBgm(bgm, dataDir, env.existing),
                                                   Text.PathJoin(ProjectDir(dataDir, taskId), "output.mp4"), fps)
    ensures ConcatFile(sb.shots, twoDecimals, env.concatCreateErr).Err? ==>
              r.result == Err("failed to generate concat file: " + ConcatFile(sb.shots, twoDecimals, env.concatCreateErr).error)
    ensures r.command.Some? && env.ffmpegErr.Some? ==> r.result == Err("failed to render video: " + env.ffmpegErr.value)
    ensures r.result.Ok? ==>
              var res := r.result.value;
              && res.videoPath == Text.PathJoin(ProjectDir(dataDir, taskId), "output.mp4")
              && res.duration == sb.totalDuration
              && res.resolution == Resolution1080p
              && res.shotCount == |sb.shots|
              && res.fileSize == env.outputSize.GetOr(0)
              && (res.thumbnailUrl != "" <==> env.thumbnailErr.None?)
  {
    var project := ProjectDir(dataDir, taskId);
    var output := Text.PathJoin(project, "output.mp4");
    var concatPath := Text.PathJoin(project, "concat.txt");
    match ConcatFile(sb.shots, twoDecimals, env.concatCreateErr)
    case Err(e) => Rendering(None, Err("failed to generate concat file: " + e))
    case Ok(_) =>
      var command := Ffmpeg.ConcatArgs(concatPath, ResolveBgm(bgm, dataDir, env.existing), output, fps);
      if env.ffmpegErr.Some? then Rendering(Some(command), Err("failed to render video: " + env.ffmpegErr.value))
      else
        var thumbnail := if env.thumbnailErr.None? then Text.PathJoin(project, "thumbnail.jpg") else "";
        Rendering(Some(command), Ok(Result(output, sb.totalDuration, Resolution1080p, env.outputSize.GetOr(0),
                                           thumbnail, |sb.shots|)))
  }

  // ---------------------------------------------------------------------
  // Subtitles

  datatype Cue = Cue(number: int, start: real, end: real, character: string, text: string)

  /** A shot gets a cue when it has a dialogue with some text. */
  predicate Speaking(shot: Shot) {
    shot.dialogue.Some? && shot.dialogue.value.text != ""
  }

  /** When the shot at position `i` starts: the durations of all the shots
      before it, whether they speak or not. */
  function Offset(shots: seq<Shot>, i: nat): real
    requires i <= |shots|
  {
    if i == 0 then 0.0 else Offset(shots, i - 1) + shots[i - 1].duration
  }

  /** The positions from `from` on of the shots that speak, in order. */
  function Speakers(shots: seq<Shot>, from: nat): (ps: seq<nat>)
    requires from <= |shots|
    ensures forall m :: 0 <= m < |ps| ==> from <= ps[m] < |shots| && Speaking(shots[ps[m]])
    ensures forall m, m' :: 0 <= m < m' < |ps| ==> ps[m] < ps[m']
    decreases |shots| - from
  {
    if from == |shots| then []
    else if Speaking(shots[from]) then [from] + Speakers(shots, from + 1)
    else Speakers(shots, from + 1)
  }

  /** No speaking shot is missed. */
  lemma {:induction false} SpeakersComplete(shots: seq<Shot>, from: nat, j: nat)
    requires from <= j < |shots| && Speaking(shots[j])
    ensures j in Speakers(shots, from)
    decreases |shots| - from
  {
    if from < j {
      SpeakersComplete(shots, from + 1, j);
    }
  }

  /** The cue numbered `number` for the shot at position `j`. */
  function CueFor(shots: seq<Shot>, j: nat, number: int): Cue
    requires j < |shots| && Speaking(shots[j])
  {
    Cue(number, Offset(shots, j), Offset(shots, j) + shots[j].duration,
        shots[j].dialogue.value.character, shots[j].dialogue.value.text)
  }

  /** The subtitle loop from position `i`, with the running clock and the
      next cue number. */
  function Scan(shots: seq<Shot>, i: nat, clock: real, number: int): seq<Cue>
    requires i <= |shots|
    decreases |shots| - i
  {
    if i == |shots| then []
    else
      var shot := shots[i];
      if Speaking(shot) then
        [Cue(number, clock, clock + shot.duration, shot.dialogue.value.character, shot.dialogue.value.text)]
          + Scan(shots, i + 1, clock + shot.duration, number + 1)
      else Scan(shots, i + 1, clock + shot.duration, number)
  }

  /** The cues `GenerateSubtitles` writes. */
  function Cues(shots: seq<Shot>): seq<Cue> {
    Scan(shots, 0, 0.0, 1)
  }

  /** The loop with a running clock computes, for the m-th speaking shot,
      the cue numbered from the starting number on, starting at the sum of
      all earlier durations and lasting the shot's own duration. */
  lemma {:induction false} ScanIsCuesBySpeaker(shots: seq<Shot>, i: nat, clock: real, number: int)
    requires i <= |shots|
    requires clock == Offset(shots, i)
    ensures var ps := Speakers(shots, i);
            var cues := Scan(shots, i, clock, number);
            && |cues| == |ps|
            && forall m :: 0 <= m < |ps| ==> cues[m] == CueFor(shots, ps[m], number + m)
    decreases |shots| - i
  {
    if i < |shots| {
      var next := clock + shots[i].duration;
      assert Offset(shots, i + 1) == next;
      var ps := Speakers(shots, i);
      var rest := Speakers(shots, i + 1);
      var cues := Scan(shots, i, clock, number);
      if Speaking(shots[i]) {
        ScanIsCuesBySpeaker(shots, i + 1, next, number + 1);
        var tail := Scan(shots, i + 1, next, number + 1);
        assert ps == [i] + rest;
        assert cues == [CueFor(shots, i, number)] + tail;
        forall m | 0 <= m < |ps|
          ensures cues[m] == CueFor(shots, ps[m], number + m)
        {
          if m > 0 {
            assert cues[m] == tail[m - 1] && ps[m] == rest[m - 1];
          }
        }
      } else {
        ScanIsCuesBySpeaker(shots, i + 1, next, number);
        assert ps == rest;
        assert cues == Scan(shots, i + 1, next, number);
      }
    }
  }

  /** One cue per speaking shot, numbered 1, 2, ... in shot order; each
      starts when its shot starts and ends after the shot's duration. */
  lemma CuesBySpeaker(shots: seq<Shot>)
    ensures var ps := Speakers(shots, 0);
            var cues := Cues(shots);
            && |cues| == |ps|
            && (forall m :: 0 <= m < |cues| ==> cues[m].number == m + 1)
            && (forall m :: 0 <= m < |cues| ==> cues[m].start == Offset(shots, ps[m]))
            && (forall m :: 0 <= m < |cues| ==> cues[m].end == cues[m].start + shots[ps[m]].duration)
            && (forall m :: 0 <= m < |cues| ==>
                  (Speaking(shots[ps[m]]) && cues[m].text == shots[ps[m]].dialogue.value.text
                   && cues[m].character == shots[ps[m]].dialogue.value.character))
    ensures forall j :: 0 <= j < |shots| && Speaking(shots[j]) ==> j in Speakers(shots, 0)
  {
    ScanIsCuesBySpeaker(shots, 0, 0.0, 1);
    forall j | 0 <= j < |shots| && Speaking(shots[j])
      ensures j in Speakers(shots, 0)
    {
      SpeakersComplete(shots, 0, j);
    }
  }

  /** The SRT text of a cue, the clock readings rendered by `clockText`. */
  function CueText(c: Cue, clockText: real -> string): string {
    Text.IntToDecimal(c.number) + "\n" + clockText(c.start) + " --> " + clockText(c.end) + "\n"
      + c.character + ": " + c.text + "\n\n"
  }

  function SubtitleText(cues: seq<Cue>, clockText: real -> string): string {
    Text.Flatten(seq(|cues|, m requires 0 <= m < |cues| => CueText(cues[m], clockText)))
  }

  /** `GenerateSubtitles`: the subtitle file's path once it is written. */
  function GenerateSubtitles(dataDir: string, taskId: string, createErr: Option<string>): (r: Outcome<string>)
    ensures r.Err? <==> createErr.Some?
    ensures r.Err? ==> r.error == "failed to create subtitle file: " + createErr.value
    ensures r.Ok? ==> r.value == Text.PathJoin(ProjectDir(dataDir, taskId), "subtitles.srt")
  {
    if createErr.Some? then Err("failed to create subtitle file: " + createErr.value)
    else Ok(Text.PathJoin(ProjectDir(dataDir, taskId), "subtitles.srt"))
  }

  /** A render followed by a subtitle burn-in: the ffmpeg runs made (video,
      then subtitles) and the result. */
  datatype SubtitledRendering = SubtitledRendering(commands: seq<seq<string>>, result: Outcome<Result>)

  /** `RenderWithSubtitles`: a render error is returned as is; a failure to
      write or burn in the subtitles falls back to the plain video; on
      success only the video path changes, and the size when it can be
      read. */
  function RenderWithSubtitles(dataDir: string, taskId: string, sb: Storyboard, bgm: string, fps: int,
                               twoDecimals: real -> string, env: RenderEnv): (r: SubtitledRendering)
    ensures var base := Render(dataDir, taskId, sb, bgm, fps, twoDecimals, env).result;
            && (r.result.Err? <==> base.Err?)
            && (base.Err? ==> r.result == base)
            && (r.result.Ok? ==> r.result.value.(videoPath := base.value.videoPath, fileSize := base.value.fileSize) == base.value)
            && (env.subtitleCreateErr.Some? || env.burnErr.Some? ==> r.result == base)
            && (base.Ok? && env.subtitleCreateErr.None? && env.burnErr.None? ==>
                  r.result.value.videoPath == Text.PathJoin(ProjectDir(dataDir, taskId), "output_with_subtitles.mp4")
                  && r.result.value.fileSize == env.subtitledSize.GetOr(base.value.fileSize))
    ensures |r.commands| <= 2
  {
    var base := Render(dataDir, taskId, sb, bgm, fps, twoDecimals, env);
    var ran := if base.command.Some? then [base.command.value] else [];
    match base.result
    case Err(e) => SubtitledRendering(ran, Err(e))
    case Ok(res) =>
      match GenerateSubtitles(dataDir, taskId, env.subtitleCreateErr)
      case Err(_) => SubtitledRendering(ran, Ok(res))
      case Ok(srt) =>
        var subtitled := Text.PathJoin(ProjectDir(dataDir, taskId), "output_with_subtitles.mp4");
        var burn := Ffmpeg.SubtitleArgs(res.videoPath, srt, subtitled);
        if env.burnErr.Some? then SubtitledRendering(ran + [burn], Ok(res))
        else SubtitledRendering(ran + [burn], Ok(res.(videoPath := subtitled, fileSize := env.subtitledSize.GetOr(res.fileSize))))
  }
}
