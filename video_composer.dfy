/**
 * The story-video composer: it checks the inputs, chooses a duration,
 * builds the encoder's argument list (a static photo, or a slow centred
 * zoom) and maps the encoder's outcome to the produced file or an error.
 * The encoder, the duration probe and the file system are oracles: their
 * answers are parameters of the operations.
 */
module VideoComposer {
  import opened Builtins

  /** Encoding settings, with the defaults of the original configuration. */
  datatype VideoConfig = VideoConfig(
    width: int, height: int, duration: int, bitrate: string,
    audioBitrate: string, fps: int, codec: string, preset: string, crf: int)

  const DefaultConfig := VideoConfig(1080, 1920, 15, "4000k", "192k", 30, "libx264", "medium", 23)

  /** Why composing can fail: the exceptions the original raises. */
  datatype Failure =
    | FileNotFound(message: string)
    | RuntimeFailure(message: string)
    | ZeroDivision
    | TimeoutExpired

  /** What one encoder run reports: its exit status and error text, or a timeout. */
  datatype EncoderRun = Exited(code: int, stderr: string) | TimedOut

  /** The parameters of `compose_story` besides the oracles. */
  datatype StoryRequest = StoryRequest(
    photo: string, music: string, outputPath: Option<string>,
    duration: Option<int>, kenBurns: bool)

  /** What the composer learns from its environment while it runs. */
  datatype Environment = Environment(
    photoExists: bool, musicExists: bool, probedDuration: Option<real>,
    timestamp: string, zoomSpeedText: string, encoder: EncoderRun,
    outputExists: bool)

  // ---------------------------------------------------------------------
  // Paths
  // ---------------------------------------------------------------------

  /** `Path(dir) / name` for a relative `name`. */
  function JoinPath(dir: string, name: string): (p: string)
    ensures EndsWith(p, name)
  {
    if dir == [] || dir == "." then name
    else if dir[|dir| - 1] == '/' then dir + name
    else dir + "/" + name
  }

  /** The automatic output name `{dir}/{prefix}_{timestamp}.mp4`. */
  function OutputFilename(outputDir: string, prefix: string, timestamp: string): (p: string)
  {
    JoinPath(outputDir, prefix + "_" + timestamp + ".mp4")
  }

  lemma OutputFilenameShape(outputDir: string, prefix: string, timestamp: string)
    ensures EndsWith(OutputFilename(outputDir, prefix, timestamp), prefix + "_" + timestamp + ".mp4")
    ensures EndsWith(OutputFilename(outputDir, prefix, timestamp), ".mp4")
  {
    var name := prefix + "_" + timestamp + ".mp4";
    var p := OutputFilename(outputDir, prefix, timestamp);
    assert p[|p| - |name|..] == name;
    assert name[|name| - 4..] == ".mp4";
    assert p[|p| - 4..] == name[|name| - 4..];
  }

  // ---------------------------------------------------------------------
  // Duration
  // ---------------------------------------------------------------------

  /** Python's `int(x)` on a float: truncation toward zero. */
  function Trunc(x: real): (n: int)
    ensures x >= 0.0 ==> 0 <= n && n as real <= x < n as real + 1.0
    ensures x < 0.0 ==> n <= 0 && n as real - 1.0 < x <= n as real
  {
    if x >= 0.0 then x.Floor else -((-x).Floor)
  }

  /**
   * The duration the video gets: the requested one, else the probed music
   * length when it is non-zero and at most 60 seconds, else the default.
   */
  function ChooseDuration(requested: Option<int>, probed: Option<real>, config: VideoConfig): (d: int)
  {
    if requested.Some? then requested.value
    else if probed.Some? && probed.value != 0.0 && probed.value <= 60.0 then Trunc(probed.value)
    else config.duration
  }

  /**
   * The three cases of the duration choice. A probed length is used, truncated,
   * whenever it is non-zero and at most 60 seconds: a negative length passes the
   * source's truthiness test too and truncates toward zero.
   */
  lemma ChooseDurationCases(requested: Option<int>, probed: Option<real>, config: VideoConfig)
    ensures requested.Some? ==> ChooseDuration(requested, probed, config) == requested.value
    ensures requested.None? && (probed.None? || probed.value == 0.0 || probed.value > 60.0) ==>
      ChooseDuration(requested, probed, config) == config.duration
    ensures requested.None? && probed.Some? && probed.value != 0.0 && probed.value <= 60.0 ==>
      ChooseDuration(requested, probed, config) == Trunc(probed.value)
    ensures requested.None? && probed.Some? && 0.0 < probed.value <= 60.0 ==>
      var d := ChooseDuration(requested, probed, config);
      0 <= d <= 60 && d as real <= probed.value < d as real + 1.0
    ensures requested.None? && probed.Some? && probed.value < 0.0 ==>
      var d := ChooseDuration(requested, probed, config);
      d <= 0 && d as real - 1.0 < probed.value <= d as real
  {
  }

  // ---------------------------------------------------------------------
  // Encoder arguments
  // ---------------------------------------------------------------------

  /** The static video filter: fit inside the frame, pad with black and centre. */
  function StaticFilter(config: VideoConfig): string {
    var w := IntToString(config.width);
    var h := IntToString(config.height);
    FitStage(w, h) + "," + PadStage(w, h) + "," + "setsar=1"
  }

  function FitStage(w: string, h: string): string {
    "scale=" + w + ":" + h + ":force_original_aspect_ratio=decrease"
  }

  function PadStage(w: string, h: string): string {
    "pad=" + w + ":" + h + ":(ow-iw)/2:(oh-ih)/2:black"
  }

  /** No decimal numeral holds a comma. */
  lemma NoCommaInNumber(i: int)
    ensures ',' !in IntToString(i)
  {
  }

  /** The fit and pad stages hold no comma when the frame sizes hold none. */
  lemma NoCommaInFit(w: string, h: string)
    requires ',' !in w && ',' !in h
    ensures !Contains(FitStage(w, h), ",")
  {
    assert ',' !in "scale=" && ',' !in ":" && ',' !in ":force_original_aspect_ratio=decrease";
    ContainsChar(FitStage(w, h), ',');
  }

  lemma NoCommaInPad(w: string, h: string)
    requires ',' !in w && ',' !in h
    ensures !Contains(PadStage(w, h), ",")
  {
    assert ',' !in "pad=" && ',' !in ":" && ',' !in ":(ow-iw)/2:(oh-ih)/2:black";
    ContainsChar(PadStage(w, h), ',');
  }

  /** The static filter is three comma-separated stages: scale, pad, setsar. */
  lemma StaticFilterStages(config: VideoConfig)
    ensures
      var w := IntToString(config.width);
      var h := IntToString(config.height);
      Split(StaticFilter(config), ",") == [FitStage(w, h), PadStage(w, h), "setsar=1"]
  {
    var w := IntToString(config.width);
    var h := IntToString(config.height);
    var fit, pad, sar := FitStage(w, h), PadStage(w, h), "setsar=1";
    NoCommaInNumber(config.width);
    NoCommaInNumber(config.height);
    NoCommaInFit(w, h);
    NoCommaInPad(w, h);
    assert ',' !in sar;
    ContainsChar(sar, ',');
    assert StaticFilter(config) == fit + "," + (pad + "," + sar);
    SplitConcat(fit, ",", pad + "," + sar);
    SplitConcat(pad, ",", sar);
    SplitNone(sar, ",");
  }

  /**
   * The zoom filter: scale up, then zoom towards the centre, 1.2 at most,
   * over `duration * fps` frames. `zoomSpeedText` is the six-decimal text
   * of `0.2 / total_frames`.
   */
  function KenBurnsFilter(config: VideoConfig, duration: int, zoomSpeedText: string): string {
    var totalFrames := duration * config.fps;
    "scale=8000:-1," + "zoompan="
    + ZoomTerm(zoomSpeedText) + ":"
    + "x='iw/2-(iw/zoom/2)':"
    + "y='ih/2-(ih/zoom/2)':"
    + FramesTerm(totalFrames)
    + SizeTerm(config.width, config.height)
    + RateTerm(config.fps)
    + "setsar=1"
  }

  function ZoomTerm(zoomSpeedText: string): string {
    "z='min(zoom+" + zoomSpeedText + ",1.2)'"
  }

  function FramesTerm(totalFrames: int): string {
    "d=" + IntToString(totalFrames) + ":"
  }

  function SizeTerm(w: int, h: int): string {
    "s=" + IntToString(w) + "x" + IntToString(h) + ":"
  }

  function RateTerm(fps: int): string {
    "fps=" + IntToString(fps) + ","
  }

  /** The zoom filter names its frame count, frame size and rate, and caps the zoom. */
  lemma KenBurnsFilterMentions(config: VideoConfig, duration: int, zoomSpeedText: string)
    ensures var f := KenBurnsFilter(config, duration, zoomSpeedText);
      Contains(f, "d=" + IntToString(duration * config.fps) + ":")
      && Contains(f, "s=" + IntToString(config.width) + "x" + IntToString(config.height) + ":")
      && Contains(f, "fps=" + IntToString(config.fps) + ",")
      && Contains(f, "z='min(zoom+" + zoomSpeedText + ",1.2)'")
  {
    var z := ZoomTerm(zoomSpeedText);
    var d := FramesTerm(duration * config.fps);
    var sz := SizeTerm(config.width, config.height);
    var r := RateTerm(config.fps);
    var p1 := "scale=8000:-1," + "zoompan=";
    var p2 := p1 + z;
    var p3 := p2 + ":" + "x='iw/2-(iw/zoom/2)':" + "y='ih/2-(ih/zoom/2)':";
    var p4 := p3 + d;
    var p5 := p4 + sz;
    var p6 := p5 + r;
    ContainsSelf(z);
    ContainsRight(p1, z, z);
    ContainsLeft(p2, ":", z);
    ContainsLeft(p2 + ":", "x='iw/2-(iw/zoom/2)':", z);
    ContainsLeft(p2 + ":" + "x='iw/2-(iw/zoom/2)':", "y='ih/2-(ih/zoom/2)':", z);
    ContainsSelf(d);
    ContainsRight(p3, d, d);
    ContainsLeft(p3, d, z);
    ContainsSelf(sz);
    ContainsRight(p4, sz, sz);
    ContainsLeft(p4, sz, z);
    ContainsLeft(p4, sz, d);
    ContainsSelf(r);
    ContainsRight(p5, r, r);
    ContainsLeft(p5, r, z);
    ContainsLeft(p5, r, d);
    ContainsLeft(p5, r, sz);
    ContainsLeft(p6, "setsar=1", z);
    ContainsLeft(p6, "setsar=1", d);
    ContainsLeft(p6, "setsar=1", sz);
    ContainsLeft(p6, "setsar=1", r);
  }

  /** The head of a story command up to and including the `-vf` flag. */
  function CommandHead(ffmpeg: string, photo: string, music: string): seq<string> {
    [ffmpeg, "-y", "-loop", "1", "-i", photo, "-i", music, "-vf"]
  }

  /** The rest of a story command after the filter: codecs, quality, duration, output. */
  function CommandTail(config: VideoConfig, output: string, duration: int): seq<string> {
    ["-c:v", config.codec,
     "-preset", config.preset,
     "-crf", IntToString(config.crf),
     "-c:a", "aac",
     "-b:a", config.audioBitrate,
     "-t", IntToString(duration),
     "-pix_fmt", "yuv420p",
     "-movflags", "+faststart",
     "-shortest",
     output]
  }

  /** The encoder arguments of a story with video filter `vf`; both builders produce this list. */
  function StoryCommand(ffmpeg: string, config: VideoConfig, photo: string, music: string,
                        output: string, duration: int, vf: string): seq<string>
  {
    CommandHead(ffmpeg, photo, music) + [vf] + CommandTail(config, output, duration)
  }

  /** The encoder arguments of a static-photo story. */
  function StaticCommand(ffmpeg: string, config: VideoConfig, photo: string, music: string,
                         output: string, duration: int): seq<string>
  {
    StoryCommand(ffmpeg, config, photo, music, output, duration, StaticFilter(config))
  }

  /** The encoder arguments of a zooming story; the frame count must not be zero. */
  function KenBurnsCommand(ffmpeg: string, config: VideoConfig, photo: string, music: string,
                           output: string, duration: int, zoomSpeedText: string): Result<seq<string>, Failure>
  {
    if duration * config.fps == 0 then Err(ZeroDivision)
    else Ok(StoryCommand(ffmpeg, config, photo, music, output, duration, KenBurnsFilter(config, duration, zoomSpeedText)))
  }

  /**
   * Every story command has the same shape: the common head, the filter,
   * `-t` followed by the duration, and the output path last.
   */
  lemma StoryCommandShape(ffmpeg: string, config: VideoConfig, photo: string, music: string,
                          output: string, duration: int, vf: string)
    ensures var cmd := StoryCommand(ffmpeg, config, photo, music, output, duration, vf);
      |cmd| == 28 && cmd[..9] == CommandHead(ffmpeg, photo, music) && cmd[9] == vf
      && cmd[20] == "-t" && cmd[21] == IntToString(duration) && cmd[|cmd| - 1] == output
  {
    var head := CommandHead(ffmpeg, photo, music);
    var tail := CommandTail(config, output, duration);
    var cmd := head + [vf] + tail;
    assert |head| == 9 && |tail| == 18;
    assert cmd[..9] == head;
    assert cmd[20] == tail[10] && cmd[21] == tail[11] && cmd[27] == tail[17];
  }

  lemma StaticCommandShape(ffmpeg: string, config: VideoConfig, photo: string, music: string,
                           output: string, duration: int)
    ensures var cmd := StaticCommand(ffmpeg, config, photo, music, output, duration);
      |cmd| == 28 && cmd[..9] == CommandHead(ffmpeg, photo, music) && cmd[9] == StaticFilter(config)
      && cmd[20] == "-t" && cmd[21] == IntToString(duration) && cmd[|cmd| - 1] == output
  {
    StoryCommandShape(ffmpeg, config, photo, music, output, duration, StaticFilter(config));
  }

  lemma KenBurnsCommandShape(ffmpeg: string, config: VideoConfig, photo: string, music: string,
                             output: string, duration: int, zoomSpeedText: string)
    ensures KenBurnsCommand(ffmpeg, config, photo, music, output, duration, zoomSpeedText).Ok?
      <==> duration * config.fps != 0
    ensures var r := KenBurnsCommand(ffmpeg, config, photo, music, output, duration, zoomSpeedText);
      r.Ok? ==>
        var cmd := r.value;
        |cmd| == 28 && cmd[..9] == CommandHead(ffmpeg, photo, music)
        && cmd[9] == KenBurnsFilter(config, duration, zoomSpeedText)
        && cmd[20] == "-t" && cmd[21] == IntToString(duration) && cmd[|cmd| - 1] == output
  {
    StoryCommandShape(ffmpeg, config, photo, music, output, duration, KenBurnsFilter(config, duration, zoomSpeedText));
  }

  /** The two story commands agree everywhere except at the filter argument. */
  lemma CommandsDifferOnlyInFilter(ffmpeg: string, config: VideoConfig, photo: string, music: string,
                                   output: string, duration: int, zoomSpeedText: string)
    requires duration * config.fps != 0
    ensures var s := StaticCommand(ffmpeg, config, photo, music, output, duration);
      var k := KenBurnsCommand(ffmpeg, config, photo, music, output, duration, zoomSpeedText).value;
      |s| == |k| && forall i :: 0 <= i < |s| && i != 9 ==> s[i] == k[i]
  {
    StoryCommandShape(ffmpeg, config, photo, music, output, duration, StaticFilter(config));
    StoryCommandShape(ffmpeg, config, photo, music, output, duration, KenBurnsFilter(config, duration, zoomSpeedText));
  }

  // ---------------------------------------------------------------------
  // Composing a story
  // ---------------------------------------------------------------------

  /** The duration step of `compose_story`; `probed` is what the duration probe answered. */
  method StoryDuration(requested: Option<int>, probed: Option<real>, config: VideoConfig) returns (duration: int)
    ensures duration == ChooseDuration(requested, probed, config)
    ensures requested.Some? ==> duration == requested.value
    ensures requested.None? && (probed.None? || probed.value == 0.0 || probed.value > 60.0) ==> duration == config.duration
    ensures requested.None? && probed.Some? && probed.value != 0.0 && probed.value <= 60.0 ==>
      duration == Trunc(probed.value)
    ensures requested.None? && probed.Some? && 0.0 < probed.value <= 60.0 ==>
      0 <= duration <= 60 && duration as real <= probed.value < duration as real + 1.0
    ensures requested.None? && probed.Some? && probed.value < 0.0 ==>
      duration <= 0 && duration as real - 1.0 < probed.value <= duration as real
  {
    if requested.None? {
      var musicDuration := probed;
      if musicDuration.Some? && musicDuration.value != 0.0 && musicDuration.value <= 60.0 {
        duration := Trunc(musicDuration.value);
      } else {
        duration := config.duration;
      }
    } else {
      duration := requested.value;
    }
  }

  /** The error message of a failed encoder run: at most 500 characters of its error text. */
  function EncoderFailureMessage(stderr: string): string {
    "FFmpeg failed: " + PrefixSlice(stderr, 500)
  }

  /**
   * `compose_story`: the inputs must exist; then the output path and the
   * duration are settled, the command is built and the encoder runs once.
   * `cmd` is the command handed to the encoder, if it got that far.
   */
  method ComposeStory(ffmpeg: string, outputDir: string, config: VideoConfig,
                      req: StoryRequest, env: Environment)
    returns (res: Result<string, Failure>, cmd: Option<seq<string>>)
    ensures !env.photoExists ==> res == Err(FileNotFound("Photo not found: " + req.photo)) && cmd.None?
    ensures env.photoExists && !env.musicExists ==>
      res == Err(FileNotFound("Music not found: " + req.music)) && cmd.None?
    ensures env.photoExists && env.musicExists ==>
      var output := if req.outputPath.Some? then req.outputPath.value
                    else OutputFilename(outputDir, "story", env.timestamp);
      var duration := ChooseDuration(req.duration, env.probedDuration, config);
      if !req.kenBurns then cmd == Some(StaticCommand(ffmpeg, config, req.photo, req.music, output, duration))
      else
        var built := KenBurnsCommand(ffmpeg, config, req.photo, req.music, output, duration, env.zoomSpeedText);
        if built.Err? then res == Err(ZeroDivision) && cmd.None?
        else cmd == Some(built.value)
    ensures cmd.Some? ==>
      var output := if req.outputPath.Some? then req.outputPath.value
                    else OutputFilename(outputDir, "story", env.timestamp);
      match env.encoder
      case TimedOut => res == Err(RuntimeFailure("FFmpeg timed out after 5 minutes"))
      case Exited(code, stderr) =>
        if code != 0 then res == Err(RuntimeFailure(EncoderFailureMessage(stderr)))
        else if !env.outputExists then res == Err(RuntimeFailure("Output file was not created: " + output))
        else res == Ok(output)
    ensures res.Ok? ==> cmd.Some? && env.outputExists && env.encoder == Exited(0, env.encoder.stderr)
  {
    cmd := None;
    if !env.photoExists {
      return Err(FileNotFound("Photo not found: " + req.photo)), cmd;
    }
    if !env.musicExists {
      return Err(FileNotFound("Music not found: " + req.music)), cmd;
    }
    var output: string;
    if req.outputPath.None? {
      output := OutputFilename(outputDir, "story", env.timestamp);
    } else {
      output := req.outputPath.value;
    }
    var duration := StoryDuration(req.duration, env.probedDuration, config);
    var command: seq<string>;
    if req.kenBurns {
      var built := KenBurnsCommand(ffmpeg, config, req.photo, req.music, output, duration, env.zoomSpeedText);
      if built.Err? {
        return Err(built.error), cmd;
      }
      command := built.value;
    } else {
      command := StaticCommand(ffmpeg, config, req.photo, req.music, output, duration);
    }
    cmd := Some(command);
    res := RunEncoder(output, env.encoder, env.outputExists);
  }

  /**
   * The encoder run of `compose_story`: a timeout or a non-zero exit is a
   * runtime error, and so is an output file that was not created.
   */
  method RunEncoder(output: string, encoder: EncoderRun, outputExists: bool) returns (res: Result<string, Failure>)
    ensures match encoder
      case TimedOut => res == Err(RuntimeFailure("FFmpeg timed out after 5 minutes"))
      case Exited(code, stderr) =>
        if code != 0 then res == Err(RuntimeFailure(EncoderFailureMessage(stderr)))
        else if !outputExists then res == Err(RuntimeFailure("Output file was not created: " + output))
        else res == Ok(output)
    ensures res.Ok? <==> outputExists && encoder.Exited? && encoder.code == 0
  {
    match encoder {
      case TimedOut =>
        return Err(RuntimeFailure("FFmpeg timed out after 5 minutes"));
      case Exited(code, stderr) =>
        if code != 0 {
          return Err(RuntimeFailure(EncoderFailureMessage(stderr)));
        }
    }
    if !outputExists {
      return Err(RuntimeFailure("Output file was not created: " + output));
    }
    res := Ok(output);
  }

  /** A failed encoder run reports at most 500 characters of its error text. */
  lemma EncoderFailureMessageBound(stderr: string)
    ensures |EncoderFailureMessage(stderr)| <= |"FFmpeg failed: "| + 500
    ensures StartsWith(stderr, EncoderFailureMessage(stderr)[|"FFmpeg failed: "|..])
  {
    var m := EncoderFailureMessage(stderr);
    assert m[|"FFmpeg failed: "|..] == PrefixSlice(stderr, 500);
  }

  // ---------------------------------------------------------------------
  // Feed-post images
  // ---------------------------------------------------------------------

  /** The frame of a feed post for an aspect-ratio name; anything unknown is landscape. */
  function PostImageSize(aspectRatio: string): (size: (int, int))
  {
    if aspectRatio == "4:5" then (1080, 1350)
    else if aspectRatio == "1:1" then (1080, 1080)
    else (1080, 566)
  }

  lemma PostImageSizeCases(aspectRatio: string)
    ensures PostImageSize(aspectRatio).0 == 1080
    ensures aspectRatio == "4:5" <==> PostImageSize(aspectRatio) == (1080, 1350)
    ensures aspectRatio == "1:1" <==> PostImageSize(aspectRatio) == (1080, 1080)
    ensures aspectRatio != "4:5" && aspectRatio != "1:1" <==> PostImageSize(aspectRatio) == (1080, 566)
  {
  }

  /** Cover the frame, then crop to it. */
  function PostImageFilter(w: int, h: int): string {
    CoverStage(IntToString(w), IntToString(h)) + "," + CropStage(IntToString(w), IntToString(h))
  }

  function CoverStage(w: string, h: string): string {
    "scale=" + w + ":" + h + ":force_original_aspect_ratio=increase"
  }

  function CropStage(w: string, h: string): string {
    "crop=" + w + ":" + h
  }

  /** The cover and crop stages hold no comma when the frame sizes hold none. */
  lemma NoCommaInCover(w: string, h: string)
    requires ',' !in w && ',' !in h
    ensures !Contains(CoverStage(w, h), ",")
  {
    assert ',' !in "scale=" && ',' !in ":" && ',' !in ":force_original_aspect_ratio=increase";
    ContainsChar(CoverStage(w, h), ',');
  }

  lemma NoCommaInCrop(w: string, h: string)
    requires ',' !in w && ',' !in h
    ensures !Contains(CropStage(w, h), ",")
  {
    assert ',' !in "crop=" && ',' !in ":";
    ContainsChar(CropStage(w, h), ',');
  }

  function PostImageCommand(ffmpeg: string, photo: string, aspectRatio: string, output: string): seq<string> {
    var size := PostImageSize(aspectRatio);
    [ffmpeg, "-y", "-i", photo, "-vf", PostImageFilter(size.0, size.1), "-q:v", "2", output]
  }

  /**
   * `compose_post_image`: the photo must exist; the encoder runs once with
   * a one-minute limit, whose expiry is not caught.
   */
  method ComposePostImage(ffmpeg: string, outputDir: string, photo: string, outputPath: Option<string>,
                          aspectRatio: string, photoExists: bool, timestamp: string, encoder: EncoderRun)
    returns (res: Result<string, Failure>, cmd: Option<seq<string>>)
    ensures !photoExists ==> res == Err(FileNotFound("Photo not found: " + photo)) && cmd.None?
    ensures photoExists ==>
      var output := if outputPath.Some? then outputPath.value
                    else JoinPath(outputDir, "post_" + timestamp + ".jpg");
      cmd == Some(PostImageCommand(ffmpeg, photo, aspectRatio, output))
      && match encoder
         case TimedOut => res == Err(TimeoutExpired)
         case Exited(code, stderr) =>
           res == if code != 0 then Err(RuntimeFailure(EncoderFailureMessage(stderr))) else Ok(output)
  {
    if !photoExists {
      return Err(FileNotFound("Photo not found: " + photo)), None;
    }
    var output: string;
    if outputPath.None? {
      output := JoinPath(outputDir, "post_" + timestamp + ".jpg");
    } else {
      output := outputPath.value;
    }
    cmd := Some(PostImageCommand(ffmpeg, photo, aspectRatio, output));
    match encoder {
      case TimedOut =>
        res := Err(TimeoutExpired);
      case Exited(code, stderr) =>
        if code != 0 {
          res := Err(RuntimeFailure(EncoderFailureMessage(stderr)));
        } else {
          res := Ok(output);
        }
    }
  }

  /** The post filter scales to cover and crops to exactly the table's frame. */
  lemma PostImageFilterStages(w: int, h: int)
    ensures Split(PostImageFilter(w, h), ",") ==
      ["scale=" + IntToString(w) + ":" + IntToString(h) + ":force_original_aspect_ratio=increase",
       "crop=" + IntToString(w) + ":" + IntToString(h)]
  {
    var ws, hs := IntToString(w), IntToString(h);
    NoCommaInNumber(w);
    NoCommaInNumber(h);
    NoCommaInCover(ws, hs);
    NoCommaInCrop(ws, hs);
    SplitConcat(CoverStage(ws, hs), ",", CropStage(ws, hs));
    SplitNone(CropStage(ws, hs), ",");
  }
}
