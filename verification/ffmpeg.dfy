/** The command lines handed to ffmpeg (pkg/ffmpeg/ffmpeg.go). Running the
    tool is outside the model: its success or failure is an input of the
    render model. */
module Ffmpeg {
  import Text

  /** The fixed video-encoding options, with the frame rate in decimal. */
  function VideoBlock(fps: int): seq<string> {
    ["-c:v", "libx264", "-pix_fmt", "yuv420p", "-r", Text.IntToDecimal(fps), "-preset", "medium", "-crf", "23"]
  }

  const AudioBlock: seq<string> := ["-c:a", "aac", "-b:a", "192k", "-shortest"]

  /** Arguments for turning a concat list of stills into a video, with an
      optional background track. */
  function ConcatArgs(concatFile: string, bgmPath: string, outputPath: string, fps: int): (args: seq<string>)
    ensures |args| == if bgmPath == "" then 18 else 25
    ensures args[..6] == ["-f", "concat", "-safe", "0", "-i", concatFile]
    ensures bgmPath != "" ==> args[6..8] == ["-i", bgmPath]
    ensures var v := if bgmPath == "" then 6 else 8;
            args[v..v + 10] == VideoBlock(fps) && args[v + 4] == "-r" && args[v + 5] == Text.IntToDecimal(fps)
    ensures bgmPath != "" ==> args[18..23] == AudioBlock
    ensures args[|args| - 2..] == ["-y", outputPath]
  {
    var audioIn := if bgmPath != "" then ["-i", bgmPath] else [];
    var audioOut := if bgmPath != "" then AudioBlock else [];
    ["-f", "concat", "-safe", "0", "-i", concatFile] + audioIn + VideoBlock(fps) + audioOut + ["-y", outputPath]
  }

  /** The background track adds exactly its input and the audio options:
      removing them leaves the arguments used without a track. */
  lemma TrackAddsOnlyAudio(concatFile: string, bgmPath: string, outputPath: string, fps: int)
    requires bgmPath != ""
    ensures var with := ConcatArgs(concatFile, bgmPath, outputPath, fps);
            with[..6] + with[8..18] + with[23..] == ConcatArgs(concatFile, "", outputPath, fps)
  {
    var with := ConcatArgs(concatFile, bgmPath, outputPath, fps);
    assert with[..6] == ["-f", "concat", "-safe", "0", "-i", concatFile];
    assert with[8..18] == VideoBlock(fps);
    assert with[23..] == ["-y", outputPath];
  }

  /** Arguments for burning a subtitle file into a video, audio copied. */
  function SubtitleArgs(inputVideo: string, subtitleFile: string, outputVideo: string): (args: seq<string>)
    ensures |args| == 8
    ensures args[0] == "-i" && args[1] == inputVideo
    ensures args[2] == "-vf" && args[3] == "subtitles=" + subtitleFile
    ensures args[4..6] == ["-c:a", "copy"]
    ensures args[6] == "-y" && args[7] == outputVideo
  {
    ["-i", inputVideo, "-vf", "subtitles=" + subtitleFile, "-c:a", "copy", "-y", outputVideo]
  }
}
