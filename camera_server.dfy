/**
 * CameraRTSPServer of camera_rtsp_server.py: one camera, one RTSP mount.
 * The server turns its settings into a GStreamer launch line in three parts:
 * a source chain that depends on the source type and input format, a
 * hardware scaler to the output size, and a hardware encoder with its RTP
 * payloader. For a USB camera whose input size is not given, building the
 * source first probes the camera and picks a capture mode; the probe result
 * is a parameter here.
 */
module CameraServer {
  import opened Wrappers
  import opened Resolutions
  import opened Stages

  /** The values of CameraSource. */
  const Usb := "usb"
  const Csi := "csi"
  const Rtsp := "rtsp"
  const Test := "test"

  predicate KnownSource(sourceType: string) {
    sourceType == Usb || sourceType == Csi || sourceType == Rtsp || sourceType == Test
  }

  /** Python truthiness of an optional number (`None` and `0` are false). */
  predicate Truthy(x: Option<int>) {
    x.Some? && x.value != 0
  }

  /** Python truthiness of an optional string (`None` and `""` are false). */
  predicate TruthyText(x: Option<string>) {
    x.Some? && x.value != ""
  }

  /** Python's `x or default` on an optional number. */
  function OrDefault(x: Option<int>, default: int): int {
    if Truthy(x) then x.value else default
  }

  /** The two ValueErrors the source builder raises. */
  datatype PipelineError = MissingRtspUrl | UnsupportedSource(sourceType: string)

  /** The fields of a CameraRTSPServer that the pipeline builders read. */
  datatype CameraSettings = CameraSettings(
    sourceType: string,
    device: string,
    rtspUrl: Option<string>,
    codec: string,
    inputFormat: string,
    inputCodec: string,
    bitrate: int,
    inputWidth: Option<int>,
    inputHeight: Option<int>,
    outputWidth: int,
    outputHeight: int,
    framerate: real,
    flipMethod: int)

  // ---------------------------------------------------------------------------
  // _auto_detect_resolution, lines 380-405
  // ---------------------------------------------------------------------------

  /** Whether _auto_detect_resolution queries the camera at all. */
  predicate NeedsProbe(s: CameraSettings) {
    s.sourceType == Usb && !(Truthy(s.inputWidth) && Truthy(s.inputHeight))
  }

  /** The capture mode find_best_resolution picks from the probed modes (None when the probe found nothing). */
  function DetectedMode(s: CameraSettings, probed: seq<Mode>): (r: Option<Mode>)
    ensures r.Some? <==> |probed| > 0
    ensures r.Some? ==> r.value in Dedup(probed)
  {
    if |probed| > 0 then
      DedupKeepsSizes(probed, probed[0]);
      BestResolutionCandidate(Dedup(probed), s.outputWidth, s.outputHeight, s.framerate);
      BestResolution(Dedup(probed), s.outputWidth, s.outputHeight, s.framerate)
    else
      BestResolution(Dedup(probed), s.outputWidth, s.outputHeight, s.framerate)
  }

  /** The settings after _auto_detect_resolution. */
  function DetectedSettings(s: CameraSettings, probed: seq<Mode>): (r: CameraSettings)
    ensures !NeedsProbe(s) || |probed| == 0 ==> r == s
    ensures NeedsProbe(s) && |probed| > 0 ==> exists m :: m in Dedup(probed) && r == Adopt(s, m)
  {
    if !NeedsProbe(s) then s
    else
      match DetectedMode(s, probed)
      case None => s
      case Some(m) => Adopt(s, m)
  }

  /** The settings once mode `m` is chosen: its size as the input size, and the frame rate capped at its rate. */
  function Adopt(s: CameraSettings, m: Mode): (r: CameraSettings)
    ensures r.inputWidth == Some(m.width) && r.inputHeight == Some(m.height)
    ensures r.framerate <= s.framerate && r.framerate <= m.fps && (r.framerate == s.framerate || r.framerate == m.fps)
    ensures r == s.(inputWidth := r.inputWidth, inputHeight := r.inputHeight, framerate := r.framerate)
  {
    s.(inputWidth := Some(m.width), inputHeight := Some(m.height),
       framerate := if m.fps < s.framerate then m.fps else s.framerate)
  }

  /** A probe that picks mode `m` adopts it and sets the flag. */
  lemma DetectionAdopts(s: CameraSettings, probed: seq<Mode>, m: Mode)
    requires NeedsProbe(s) && DetectedMode(s, probed) == Some(m)
    ensures DetectedSettings(s, probed) == Adopt(s, m)
    ensures DetectedFlag(s, probed, false)
  {
  }

  /** The `_auto_detected` flag after _auto_detect_resolution, given its value before. */
  function DetectedFlag(s: CameraSettings, probed: seq<Mode>, before: bool): (r: bool)
    ensures s.sourceType != Usb ==> r == before
    ensures s.sourceType == Usb ==> (r <==> NeedsProbe(s) && |probed| > 0)
  {
    if s.sourceType != Usb then before
    else NeedsProbe(s) && DetectedMode(s, probed).Some?
  }

  /** Auto-detection changes at most the input size and the frame rate, and never raises the frame rate. */
  lemma DetectionTouchesOnlyInput(s: CameraSettings, probed: seq<Mode>)
    ensures DetectedSettings(s, probed)
      == s.(inputWidth := DetectedSettings(s, probed).inputWidth,
            inputHeight := DetectedSettings(s, probed).inputHeight,
            framerate := DetectedSettings(s, probed).framerate)
    ensures DetectedSettings(s, probed).framerate <= s.framerate
    ensures !NeedsProbe(s) ==> DetectedSettings(s, probed) == s
  {
  }

  /** With nothing probed, nothing changes and the flag is cleared for a USB camera. */
  lemma EmptyProbeChangesNothing(s: CameraSettings)
    ensures DetectedSettings(s, []) == s
    ensures s.sourceType == Usb ==> !DetectedFlag(s, [], true)
  {
  }

  /**
   * When the camera is probed and reports some mode, the input size becomes
   * a probed size, the frame rate becomes the lower of the requested rate
   * and the best rate the camera reported for that size, and the flag is set.
   */
  lemma DetectionAdoptsProbedMode(s: CameraSettings, probed: seq<Mode>)
    requires NeedsProbe(s) && |probed| > 0
    ensures var r := DetectedSettings(s, probed);
      && r.inputWidth.Some? && r.inputHeight.Some?
      && (exists e :: e in probed && e.width == r.inputWidth.value && e.height == r.inputHeight.value)
      && (forall e :: e in probed && e.width == r.inputWidth.value && e.height == r.inputHeight.value ==>
            e.fps <= DetectedMode(s, probed).value.fps)
      && r.framerate == (if DetectedMode(s, probed).value.fps < s.framerate then DetectedMode(s, probed).value.fps else s.framerate)
    ensures DetectedFlag(s, probed, false)
  {
    DedupKeepsSizes(probed, probed[0]);
    var m := DetectedMode(s, probed);
    assert m.Some?;
    BestResolutionCandidate(Dedup(probed), s.outputWidth, s.outputHeight, s.framerate);
    DedupKeepsMaxFps(probed, m.value);
  }

  // ---------------------------------------------------------------------------
  // _build_source_pipeline, _build_scale_pipeline, _build_encoder_pipeline,
  // _build_pipeline, lines 407-553
  // ---------------------------------------------------------------------------

  /** Caps width and height for a USB camera: both given only when both are truthy. */
  function UsbCapsSize(s: CameraSettings): (Option<int>, Option<int>) {
    if Truthy(s.inputWidth) && Truthy(s.inputHeight) then (s.inputWidth, s.inputHeight) else (None, None)
  }

  /** The codec of an RTSP input: H.265 for "h265", H.264 for anything else. */
  function InputCodecOf(s: CameraSettings): Codec {
    if s.inputCodec == "h265" then H265 else H264
  }

  /** The source chain for `s` (settings after auto-detection), or the error the builder raises. */
  function SourceStages(s: CameraSettings): (r: Result<seq<Stage>, PipelineError>)
    ensures r.Failure? <==> !KnownSource(s.sourceType) || (s.sourceType == Rtsp && !TruthyText(s.rtspUrl))
    ensures r.Failure? ==> r.error == (if s.sourceType == Rtsp then MissingRtspUrl else UnsupportedSource(s.sourceType))
    ensures r.Success? ==> |r.value| > 0
    ensures r.Success? && s.sourceType == Usb ==>
      && r.value[0] == V4l2Src(s.device)
      && (HwDecoder(true) in r.value <==> s.inputFormat == "mjpeg")
      && (Queue(3, false, true) in r.value <==> s.inputFormat == "mjpeg")
      && (VideoConvert in r.value <==> s.inputFormat != "mjpeg" && s.inputFormat != "nv12")
      && (forall i :: 0 <= i < |r.value| && r.value[i].Caps? ==>
            r.value[i].framerate == Some(s.framerate)
            && (r.value[i].width.Some? <==> Truthy(s.inputWidth) && Truthy(s.inputHeight)))
    ensures r.Success? && s.sourceType == Rtsp ==>
      && r.value[0] == RtspSrc(s.rtspUrl.value, 100)
      && (forall i :: 0 <= i < |r.value| && (r.value[i].Depay? || r.value[i].Parse?) ==>
            r.value[i].codec == (if s.inputCodec == "h265" then H265 else H264))
  {
    if s.sourceType == Usb then
      var (w, h) := UsbCapsSize(s);
      if s.inputFormat == "mjpeg" then
        Success([V4l2Src(s.device), Caps(Jpeg, None, w, h, Some(s.framerate)), HwDecoder(true), Queue(3, false, true)])
      else if s.inputFormat == "nv12" then
        Success([V4l2Src(s.device), Caps(RawVideo, Some(NV12), w, h, Some(s.framerate))])
      else
        Success([V4l2Src(s.device), Caps(RawVideo, Some(YUY2), w, h, Some(s.framerate)), VideoConvert])
    else if s.sourceType == Csi then
      Success([ArgusCameraSrc,
               Caps(NvmmVideo, Some(NV12), Some(OrDefault(s.inputWidth, 1920)), Some(OrDefault(s.inputHeight, 1080)),
                    Some(s.framerate)),
               HwConvert(Some(s.flipMethod))])
    else if s.sourceType == Rtsp then
      if !TruthyText(s.rtspUrl) then Failure(MissingRtspUrl)
      else
        var c := InputCodecOf(s);
        Success([RtspSrc(s.rtspUrl.value, 100), Depay(c), Parse(c, None), HwDecoder(false)])
    else if s.sourceType == Test then
      Success([TestSrc(true, "ball"),
               Caps(RawVideo, None, Some(OrDefault(s.inputWidth, 640)), Some(OrDefault(s.inputHeight, 480)),
                    Some(s.framerate))])
    else
      Failure(UnsupportedSource(s.sourceType))
  }

  /** The scaler: the same for every source type, to NV12 in NVMM memory at the output size. */
  function ScaleStages(s: CameraSettings): (r: seq<Stage>)
    ensures |r| > 0 && r[|r| - 1] == Caps(NvmmVideo, Some(NV12), Some(s.outputWidth), Some(s.outputHeight), None)
    ensures forall i :: 0 <= i < |r| ==> !r[i].Encoder? && !r[i].Payloader?
  {
    [HwConvert(None), Caps(NvmmVideo, Some(NV12), Some(s.outputWidth), Some(s.outputHeight), None)]
  }

  /** The codec of the output: H.265 for "h265", H.264 for anything else. */
  function OutputCodecOf(s: CameraSettings): Codec {
    if s.codec == "h265" then H265 else H264
  }

  /** Encoder, parser and payloader, all of one codec; the payloader is always `pay0` with payload type 96. */
  function EncoderStages(s: CameraSettings): (r: seq<Stage>)
    ensures |r| == 3 && r[0].Encoder? && r[1].Parse? && r[2].Payloader?
    ensures forall i :: 0 <= i < |r| ==> (r[i].codec == H265 <==> s.codec == "h265")
    ensures r[0].bitrate == s.bitrate
    ensures r[2].name == Some("pay0") && r[2].payload == 96 && r[2].configInterval == Some(1)
  {
    var c := OutputCodecOf(s);
    [Encoder(c, s.bitrate, 1, 30, false, false), Parse(c, None), Payloader(c, Some("pay0"), 96, Some(1), None)]
  }

  /** The whole launch line: source, then scaler, then encoder. */
  function PipelineStages(s: CameraSettings): (r: Result<seq<Stage>, PipelineError>)
    ensures r.Success? <==> SourceStages(s).Success?
    ensures r.Failure? ==> r.error == SourceStages(s).error
    ensures r.Success? ==> var source := SourceStages(s).value;
      |r.value| == |source| + 5 && r.value[..|source|] == source && r.value[|source| + 2..] == EncoderStages(s)
  {
    match SourceStages(s)
    case Failure(e) => Failure(e)
    case Success(source) => Success(source + ScaleStages(s) + EncoderStages(s))
  }

  /**
   * A pipeline is built exactly when the source chain is; it then contains
   * one encoder, of the output codec, fed by NV12 caps at the output size,
   * and it ends in the `pay0` payloader of that codec with payload type 96.
   */
  lemma PipelineShape(s: CameraSettings)
    ensures PipelineStages(s).Success? <==> KnownSource(s.sourceType) && (s.sourceType == Rtsp ==> TruthyText(s.rtspUrl))
    ensures PipelineStages(s).Success? ==>
      var p := PipelineStages(s).value;
      && |p| >= 5
      && p[|p| - 1] == Payloader(OutputCodecOf(s), Some("pay0"), 96, Some(1), None)
      && p[|p| - 4] == Caps(NvmmVideo, Some(NV12), Some(s.outputWidth), Some(s.outputHeight), None)
      && (forall i :: 0 <= i < |p| && p[i].Encoder? ==> i == |p| - 3 && p[i].codec == OutputCodecOf(s))
  {
    if PipelineStages(s).Success? {
      var source := SourceStages(s).value;
      var p := PipelineStages(s).value;
      assert p == source + ScaleStages(s) + EncoderStages(s);
      assert forall i :: 0 <= i < |source| ==> !source[i].Encoder?;
      assert forall i :: 0 <= i < |source| ==> p[i] == source[i];
    }
  }

  // ---------------------------------------------------------------------------
  // The server object
  // ---------------------------------------------------------------------------

  class CameraRTSPServer {
    const sourceType: string
    const device: string
    const rtspUrl: Option<string>
    const port: int
    const mountPoint: string
    const codec: string
    const inputFormat: string
    const inputCodec: string
    const bitrate: int
    var inputWidth: Option<int>
    var inputHeight: Option<int>
    const outputWidth: int
    const outputHeight: int
    var framerate: real
    const flipMethod: int
    /** `_auto_detected`, read with `getattr(..., False)`: false until auto-detection sets it. */
    var autoDetected: bool

    /** __init__: stores the arguments, lower-casing the three codec and format names. */
    constructor(sourceType: string, device: string, rtspUrl: Option<string>, port: int, mountPoint: string,
                codec: string, inputFormat: string, inputCodec: string, bitrate: int,
                inputWidth: Option<int>, inputHeight: Option<int>, outputWidth: int, outputHeight: int,
                framerate: real, flipMethod: int)
      ensures Settings() == CameraSettings(sourceType, device, rtspUrl, Lower(codec), Lower(inputFormat),
                                           Lower(inputCodec), bitrate, inputWidth, inputHeight,
                                           outputWidth, outputHeight, framerate, flipMethod)
      ensures this.port == port && this.mountPoint == mountPoint && !autoDetected
    {
      this.sourceType := sourceType;
      this.device := device;
      this.rtspUrl := rtspUrl;
      this.port := port;
      this.mountPoint := mountPoint;
      this.codec := Lower(codec);
      this.inputFormat := Lower(inputFormat);
      this.inputCodec := Lower(inputCodec);
      this.bitrate := bitrate;
      this.inputWidth := inputWidth;
      this.inputHeight := inputHeight;
      this.outputWidth := outputWidth;
      this.outputHeight := outputHeight;
      this.framerate := framerate;
      this.flipMethod := flipMethod;
      this.autoDetected := false;
    }

    function Settings(): CameraSettings
      reads this`inputWidth, this`inputHeight, this`framerate
    {
      CameraSettings(sourceType, device, rtspUrl, codec, inputFormat, inputCodec, bitrate,
                     inputWidth, inputHeight, outputWidth, outputHeight, framerate, flipMethod)
    }

    /** The probe-and-match part of _auto_detect_resolution, on the settings it reads. */
    static method ChooseMode(s: CameraSettings, probed: seq<Mode>) returns (best: Option<Mode>)
      ensures best == DetectedMode(s, probed)
    {
      var resolutions := GetCameraResolutions(probed);
      best := FindBestResolution(resolutions, s.outputWidth, s.outputHeight, s.framerate);
    }

    /** _auto_detect_resolution; `probed` is what the camera reports (the v4l2-ctl or caps query). */
    method AutoDetectResolution(probed: seq<Mode>)
      modifies this
      ensures Settings() == DetectedSettings(old(Settings()), probed)
      ensures autoDetected == DetectedFlag(old(Settings()), probed, old(autoDetected))
    {
      if sourceType != Usb {
        return;
      }
      if Truthy(inputWidth) && Truthy(inputHeight) {
        autoDetected := false;
        return;
      }
      ghost var before := Settings();
      var best := ChooseMode(Settings(), probed);
      if best.Some? {
        DetectionAdopts(before, probed, best.value);
      }
      ApplyChoice(best);
    }

    /** The end of _auto_detect_resolution: adopt the chosen mode, or record that none was found. */
    method ApplyChoice(best: Option<Mode>)
      modifies this
      ensures best.Some? ==> Settings() == Adopt(old(Settings()), best.value)
      ensures best.None? ==> Settings() == old(Settings())
      ensures autoDetected == best.Some?
    {
      if best.Some? {
        var m := best.value;
        inputWidth, inputHeight := Some(m.width), Some(m.height);
        autoDetected := true;
        if m.fps < framerate {
          framerate := m.fps;
        }
      } else {
        autoDetected := false;
      }
    }

    /** _build_source_pipeline: auto-detects for a USB camera, then appends the source chain stage by stage. */
    method BuildSourcePipeline(probed: seq<Mode>) returns (r: Result<seq<Stage>, PipelineError>)
      modifies this
      ensures Settings() == DetectedSettings(old(Settings()), probed)
      ensures autoDetected == DetectedFlag(old(Settings()), probed, old(autoDetected))
      ensures r == SourceStages(Settings())
    {
      if sourceType == Usb {
        AutoDetectResolution(probed);
        var source := [V4l2Src(device)];
        var (w, h) := if Truthy(inputWidth) && Truthy(inputHeight) then (inputWidth, inputHeight) else (None, None);
        if inputFormat == "mjpeg" {
          source := source + [Caps(Jpeg, None, w, h, Some(framerate))];
          source := source + [HwDecoder(true), Queue(3, false, true)];
          assert source == [V4l2Src(device), Caps(Jpeg, None, w, h, Some(framerate)), HwDecoder(true), Queue(3, false, true)];
        } else if inputFormat == "nv12" {
          source := source + [Caps(RawVideo, Some(NV12), w, h, Some(framerate))];
          assert source == [V4l2Src(device), Caps(RawVideo, Some(NV12), w, h, Some(framerate))];
        } else {
          source := source + [Caps(RawVideo, Some(YUY2), w, h, Some(framerate))];
          source := source + [VideoConvert];
          assert source == [V4l2Src(device), Caps(RawVideo, Some(YUY2), w, h, Some(framerate)), VideoConvert];
        }
        return Success(source);
      } else if sourceType == Csi {
        var width := OrDefault(inputWidth, 1920);
        var height := OrDefault(inputHeight, 1080);
        return Success([ArgusCameraSrc, Caps(NvmmVideo, Some(NV12), Some(width), Some(height), Some(framerate)),
                        HwConvert(Some(flipMethod))]);
      } else if sourceType == Rtsp {
        if !TruthyText(rtspUrl) {
          return Failure(MissingRtspUrl);
        }
        var c := if inputCodec == "h265" then H265 else H264;
        return Success([RtspSrc(rtspUrl.value, 100), Depay(c), Parse(c, None), HwDecoder(false)]);
      } else if sourceType == Test {
        var width := OrDefault(inputWidth, 640);
        var height := OrDefault(inputHeight, 480);
        return Success([TestSrc(true, "ball"), Caps(RawVideo, None, Some(width), Some(height), Some(framerate))]);
      } else {
        return Failure(UnsupportedSource(sourceType));
      }
    }

    /** _build_pipeline: source, then scaler, then encoder; an error from the source builder propagates. */
    method BuildPipeline(probed: seq<Mode>) returns (r: Result<seq<Stage>, PipelineError>)
      modifies this
      ensures Settings() == DetectedSettings(old(Settings()), probed)
      ensures autoDetected == DetectedFlag(old(Settings()), probed, old(autoDetected))
      ensures r == PipelineStages(Settings())
    {
      var source := BuildSourcePipeline(probed);
      if source.Failure? {
        return Failure(source.error);
      }
      var settings := Settings();
      r := Success(source.value + ScaleStages(settings) + EncoderStages(settings));
    }
  }
}
