/**
 * The GStreamer elements the servers chain together, as records instead of
 * launch-line text. Each constructor carries the properties the servers set
 * on that element; a pipeline is a sequence of them in link order.
 */
module Stages {
  import opened Wrappers

  /** The two video codecs the Jetson encoders, parsers and RTP (de)payloaders come in. */
  datatype Codec = H264 | H265

  /** Media types of caps filters: `image/jpeg`, `video/x-h264`, `video/x-raw`, `video/x-raw(memory:NVMM)`. */
  datatype Media = Jpeg | H264Video | RawVideo | NvmmVideo

  datatype PixelFormat = NV12 | YUY2

  /** `tee name=t` of the multi-resolution source, or `tee name=tee_<g>` of encode group g. */
  datatype TeeName = MainTee | GroupTee(group: nat)

  datatype Stage =
    | V4l2Src(device: string)
    | ArgusCameraSrc
    | RtspSrc(location: string, latency: int)
    | TestSrc(isLive: bool, pattern: string)
      /** `udpsrc` with RTP caps `encoding-name`, `payload` and `clock-rate`. */
    | UdpSrc(port: int, bufferSize: int, encoding: Codec, payload: int, clockRate: int)
    | Caps(media: Media, format: Option<PixelFormat>, width: Option<int>, height: Option<int>, framerate: Option<real>)
      /** `nvv4l2decoder`, with `mjpeg=1` when `mjpeg` holds. */
    | HwDecoder(mjpeg: bool)
      /** `nvvidconv`, with `flip-method` when one is given. */
    | HwConvert(flipMethod: Option<int>)
    | VideoConvert
      /** `queue max-size-buffers=<n>`; `unboundedTimeAndBytes` adds `max-size-time=0 max-size-bytes=0`. */
    | Queue(maxBuffers: int, unboundedTimeAndBytes: bool, leaky: bool)
    | Depay(codec: Codec)
    | Parse(codec: Codec, configInterval: Option<int>)
    | Encoder(codec: Codec, bitrate: int, presetLevel: int, iframeInterval: int, insertSpsPps: bool, maxPerf: bool)
    | Payloader(codec: Codec, name: Option<string>, payload: int, configInterval: Option<int>, mtu: Option<int>)
    | Tee(tee: TeeName)
    | UdpSink(host: string, port: int, sync: bool, isAsync: bool, bufferSize: int)

  /** A factory added to an RTSP server's mount points: the path and the launch line it serves (shared). */
  datatype Mount = Mount(path: string, launch: seq<Stage>)

  /** Python's `str.lower()` restricted to ASCII letters. */
  function LowerChar(c: char): char {
    if 'A' <= c <= 'Z' then (c as int - 'A' as int + 'a' as int) as char else c
  }

  function Lower(s: string): (r: string)
    ensures |r| == |s|
    ensures forall i :: 0 <= i < |s| ==> r[i] == LowerChar(s[i])
  {
    if s == [] then [] else [LowerChar(s[0])] + Lower(s[1..])
  }

  function DigitChar(d: nat): char
    requires d < 10
  {
    ('0' as int + d) as char
  }

  /** Decimal text of a natural number, as Python's `str()` / f-string formatting writes it. */
  function NatToString(n: nat): (r: string)
    ensures |r| > 0
    ensures forall i :: 0 <= i < |r| ==> '0' <= r[i] <= '9'
    decreases n
  {
    if n < 10 then [DigitChar(n)] else NatToString(n / 10) + [DigitChar(n % 10)]
  }

  /** Distinct numbers have distinct decimal texts. */
  lemma {:induction false} NatToStringInjective(m: nat, n: nat)
    requires NatToString(m) == NatToString(n)
    ensures m == n
    decreases m
  {
    var sm, sn := NatToString(m), NatToString(n);
    assert sm[|sm| - 1] == sn[|sn| - 1];
    if m < 10 && n < 10 {
    } else if m < 10 || n < 10 {
      assert false;
    } else {
      assert DigitChar(m % 10) == DigitChar(n % 10);
      assert NatToString(m / 10) == sm[..|sm| - 1] == sn[..|sn| - 1] == NatToString(n / 10);
      NatToStringInjective(m / 10, n / 10);
    }
  }
}
