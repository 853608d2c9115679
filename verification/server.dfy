/** The start-up decisions of the server (cmd/server/main.go): which
    failures are fatal, which video-generation clients and services get
    built, the image size a resolution name selects, and which pipeline
    the handler runs. Reading the configuration file, health checks and
    the HTTP server itself are outside the model. */
module Server {
  import opened Wrappers
  import Config
  import Logger

  /** The image width and height for a configured resolution name; any
      name outside the table gives 1920x1080. */
  function ParseResolution(name: string): (size: (int, int))
    ensures name == "1920x1080" ==> size == (1920, 1080)
    ensures name == "1280x720" ==> size == (1280, 720)
    ensures name == "3840x2160" ==> size == (3840, 2160)
    ensures name !in {"1920x1080", "1280x720", "3840x2160"} ==> size == (1920, 1080)
  {
    if name == "1920x1080" then (1920, 1080)
    else if name == "1280x720" then (1280, 720)
    else if name == "3840x2160" then (3840, 2160)
    else (1920, 1080)
  }

  /** The video-generation client the `switch` on the configured type
      builds. */
  datatype VideoClient = QiniuVideoClient | StableDiffusionClient

  const ErrUnsupported := "Unsupported video generation type"

  function ChooseClient(kind: string): (c: Outcome<VideoClient>)
    ensures c == Ok(QiniuVideoClient) <==> kind == Config.KindQiniu
    ensures c == Ok(StableDiffusionClient) <==> kind == Config.KindLocalSd
    ensures c.Err? <==> kind !in Config.ValidKinds
  {
    if kind == Config.KindQiniu then Ok(QiniuVideoClient)
    else if kind == Config.KindLocalSd then Ok(StableDiffusionClient)
    else Err(ErrUnsupported)
  }

  /** What a started server holds: the logger, the clients and services
      built, the image size, whether the missing ffmpeg was only warned
      about, and the handler's mode. */
  datatype Services = Services(
    logger: Logger.Setup,
    client: VideoClient,
    qiniuVideoService: bool,
    imageSize: (int, int),
    fps: int,
    ffmpegWarning: bool,
    useQiniuMode: bool)

  /** Which of the fatal checks stopped start-up. */
  datatype FatalCause = ConfigLoad | LoggerInit | FfmpegMissing | UnsupportedType

  /** Start-up ends in a fatal error or a running server. */
  datatype Startup = Fatal(cause: FatalCause, message: string) | Running(services: Services)

  const ErrFfmpegRequired := "FFmpeg check failed (required for local_sd mode)"

  /** `main` up to serving: load the configuration, set up logging, check
      ffmpeg, build the client for the configured type, then the services.
      `src` is what reading and decoding the file gave, `logOpenErr` the outcome of
      opening the log file, `ffmpegInstalled` the ffmpeg check. */
  function Start(src: Config.Source, logOpenErr: Option<string>, ffmpegInstalled: bool): (s: Startup)
    ensures s.Running? ==> src.Decoded? && Config.Valid(src.cfg)
    ensures s.Running? ==>
              var cfg := src.cfg;
              var svc := s.services;
              && (svc.client == QiniuVideoClient <==> cfg.videoGeneration.kind == Config.KindQiniu)
              && (svc.qiniuVideoService <==> svc.client == QiniuVideoClient)
              && (svc.useQiniuMode <==> svc.qiniuVideoService)
              && svc.imageSize == ParseResolution(cfg.video.resolution)
              && svc.fps == cfg.video.fps
              && (svc.ffmpegWarning <==> !ffmpegInstalled)
    ensures !src.Decoded? || !Config.Valid(src.cfg) ==> s.Fatal? && s.cause == ConfigLoad
    ensures s.Fatal? && s.cause == ConfigLoad ==> Config.Load(src).Err? && s.message == "Failed to load config: " + Config.Load(src).error
  {
    match Config.Load(src)
    case Err(e) => Fatal(ConfigLoad, "Failed to load config: " + e)
    case Ok(cfg) =>
      match Logger.Init(cfg.log.level, cfg.log.output, cfg.log.filePath, logOpenErr)
      case Err(e) => Fatal(LoggerInit, "Failed to initialize logger: " + e)
      case Ok(logger) =>
        if !ffmpegInstalled && cfg.videoGeneration.kind == Config.KindLocalSd then Fatal(FfmpegMissing, ErrFfmpegRequired)
        else
          match ChooseClient(cfg.videoGeneration.kind)
          case Err(e) => Fatal(UnsupportedType, e)
          case Ok(client) =>
            var qiniuService := client == QiniuVideoClient;
            Running(Services(logger, client, qiniuService, ParseResolution(cfg.video.resolution), cfg.video.fps,
                             !ffmpegInstalled, cfg.videoGeneration.kind == Config.KindQiniu))
  }

  /** A missing ffmpeg stops a server that renders locally and nothing
      else: with a loadable configuration and working logging, start-up
      fails exactly when ffmpeg is missing in local_sd mode. */
  lemma FfmpegFatalOnlyForLocalSd(cfg: Config.Config, logOpenErr: Option<string>, ffmpegInstalled: bool)
    requires Config.Valid(cfg)
    requires Logger.Init(cfg.log.level, cfg.log.output, cfg.log.filePath, logOpenErr).Ok?
    ensures Start(Config.Decoded(cfg), logOpenErr, ffmpegInstalled).Fatal? <==>
              !ffmpegInstalled && cfg.videoGeneration.kind == Config.KindLocalSd
  {
  }

  /** The unsupported-type stop can never be reached: loading already
      rejects every type but the two supported ones. */
  lemma UnsupportedTypeUnreachable(src: Config.Source, logOpenErr: Option<string>, ffmpegInstalled: bool)
    ensures var s := Start(src, logOpenErr, ffmpegInstalled);
            s.Fatal? ==> s.cause != UnsupportedType
  {
  }
}
