/** Application configuration and its validation (pkg/config/config.go).
    Reading the YAML file and expanding environment variables are outside
    the model; a `Config` value is what they would produce. Only the fields
    the modelled code reads are kept. */
module Config {
  import opened Wrappers

  datatype OpenAIConfig = OpenAIConfig(apiKey: string, model: string, baseUrl: string, timeout: int)
  datatype QiniuConfig = QiniuConfig(apiUrl: string, apiKey: string, model: string, timeout: int, maxWaitTime: int)
  datatype LocalSDConfig = LocalSDConfig(apiUrl: string, timeout: int)
  datatype VideoGenerationConfig = VideoGenerationConfig(kind: string, qiniu: QiniuConfig, localSd: LocalSDConfig)
  datatype VideoConfig = VideoConfig(defaultBgm: string, resolution: string, fps: int)
  datatype LimitsConfig = LimitsConfig(maxShotsPerVideo: int, maxTextLength: int)
  datatype LogConfig = LogConfig(level: string, output: string, filePath: string)

  datatype Config = Config(
    dataDir: string,
    openAI: OpenAIConfig,
    videoGeneration: VideoGenerationConfig,
    video: VideoConfig,
    limits: LimitsConfig,
    log: LogConfig)

  const KindQiniu := "qiniu"
  const KindLocalSd := "local_sd"
  /** The video-generation back ends the validator accepts, in the order it tries them. */
  const ValidKinds: seq<string> := [KindQiniu, KindLocalSd]

  const ErrOpenAIKey := "openai.api_key is required"
  const ErrKind := "video_generation.type must be one of: qiniu, local_sd"
  const ErrQiniuKey := "video_generation.qiniu.api_key is required when type is 'qiniu'"
  const ErrLocalSdUrl := "video_generation.local_sd.api_url is required when type is 'local_sd'"

  /** Whether `kind` is one of `kinds`, scanning them in order as the
      validator's loop does. */
  function KindListed(kind: string, kinds: seq<string>): (found: bool)
    ensures found <==> kind in kinds
  {
    if |kinds| == 0 then false else kind == kinds[0] || KindListed(kind, kinds[1..])
  }

  /** The first failing check's message, or None when all pass. */
  function Validate(cfg: Config): (err: Option<string>)
    ensures cfg.openAI.apiKey == "" ==> err == Some(ErrOpenAIKey)
    ensures err.Some? ==> err.value in {ErrOpenAIKey, ErrKind, ErrQiniuKey, ErrLocalSdUrl}
  {
    if cfg.openAI.apiKey == "" then Some(ErrOpenAIKey)
    else if !KindListed(cfg.videoGeneration.kind, ValidKinds) then Some(ErrKind)
    else if cfg.videoGeneration.kind == KindQiniu && cfg.videoGeneration.qiniu.apiKey == "" then Some(ErrQiniuKey)
    else if cfg.videoGeneration.kind == KindLocalSd && cfg.videoGeneration.localSd.apiUrl == "" then Some(ErrLocalSdUrl)
    else None
  }

  /** The requirements, each with its message, in the order they are checked. */
  function Checks(cfg: Config): seq<(bool, string)> {
    var kind := cfg.videoGeneration.kind;
    [ (cfg.openAI.apiKey != "", ErrOpenAIKey),
      (kind == KindQiniu || kind == KindLocalSd, ErrKind),
      (kind != KindQiniu || cfg.videoGeneration.qiniu.apiKey != "", ErrQiniuKey),
      (kind != KindLocalSd || cfg.videoGeneration.localSd.apiUrl != "", ErrLocalSdUrl) ]
  }

  /** The message of the first check that does not hold. */
  function FirstFailure(checks: seq<(bool, string)>): Option<string> {
    if |checks| == 0 then None
    else if !checks[0].0 then Some(checks[0].1)
    else FirstFailure(checks[1..])
  }

  /** A configuration the server accepts. */
  predicate Valid(cfg: Config) {
    var kind := cfg.videoGeneration.kind;
    && cfg.openAI.apiKey != ""
    && (kind == KindQiniu ==> cfg.videoGeneration.qiniu.apiKey != "")
    && (kind == KindLocalSd ==> cfg.videoGeneration.localSd.apiUrl != "")
    && kind in ValidKinds
  }

  /** Validation reports exactly the first failing requirement, and accepts
      exactly the valid configurations. */
  lemma ValidateIsFirstFailure(cfg: Config)
    ensures Validate(cfg) == FirstFailure(Checks(cfg))
    ensures Validate(cfg) == None <==> Valid(cfg)
  {
    var c := Checks(cfg);
    assert KindListed(cfg.videoGeneration.kind, ValidKinds) <==> c[1].0;
    assert FirstFailure(c[3..]) == if c[3].0 then None else Some(ErrLocalSdUrl) by {
      assert c[3..][1..] == [];
    }
    assert FirstFailure(c[2..]) == if c[2].0 then FirstFailure(c[3..]) else Some(ErrQiniuKey) by {
      assert c[2..][1..] == c[3..];
    }
    assert FirstFailure(c[1..]) == if c[1].0 then FirstFailure(c[2..]) else Some(ErrKind) by {
      assert c[1..][1..] == c[2..];
    }
  }

  /** What reading and decoding the configuration file gave: the reading
      error, the decoding error, or the decoded configuration. */
  datatype Source = ReadFailed(readError: string) | DecodeFailed(decodeError: string) | Decoded(cfg: Config)

  const ReadPrefix := "failed to read config file: "
  const DecodePrefix := "failed to unmarshal config: "
  const InvalidPrefix := "invalid config: "

  /** `Load` after the file has been read and decoded: each failure is
      wrapped with the phase it happened in, and the configuration is
      handed out only when it validates. */
  function Load(src: Source): (r: Outcome<Config>)
    ensures r.Ok? <==> src.Decoded? && Valid(src.cfg)
    ensures r.Ok? ==> r.value == src.cfg
    ensures src.ReadFailed? ==> r == Err(ReadPrefix + src.readError)
    ensures src.DecodeFailed? ==> r == Err(DecodePrefix + src.decodeError)
    ensures src.Decoded? && r.Err? ==> r.error == InvalidPrefix + Validate(src.cfg).value
  {
    match src
    case ReadFailed(e) => Err(ReadPrefix + e)
    case DecodeFailed(e) => Err(DecodePrefix + e)
    case Decoded(cfg) =>
      ValidateIsFirstFailure(cfg);
      match Validate(cfg)
      case Some(e) => Err(InvalidPrefix + e)
      case None => Ok(cfg)
  }
}
